/**
 * HelloCashException: the numeric domain codes the remote system reports and
 * the message the exception's constructor formats from a message and a code.
 * The client also names four transport-failure codes that the class does not
 * declare; they are kept here as symbolic codes for the corrected client.
 */
module Exceptions {
  import opened Php

  const BALANCE_TOO_LOW: int := 0
  const DAILY_LIMIT_REACHED: int := 1
  const MAX_CREDIT_LIMIT_REACHED: int := 2
  const ACCOUNT_SUSPENDED: int := 3
  const ACCOUNT_NOT_FOUND: int := 4
  const AMOUNT_TOO_LOW: int := 5
  const AMOUNT_TOO_HIGH: int := 6
  const AMOUNT_NOT_AVAILABLE: int := 7
  const AMOUNT_INVALID: int := 8
  const NOT_ENOUGH_CREDITS: int := 9
  const RECIPIENT_REJECTED: int := 10
  const RECEIVER_UPPER_CREDIT_LIMIT_REACHED: int := 11
  const TRACENUMBER_NOT_UNIQUE: int := 12
  const NO_POSSIBLE_TRANSFER_TYPES: int := 13
  const FROM_NOT_FOUND: int := 14
  const TO_NOT_FOUND: int := 15
  const EXPIRES_TOO_EARLY: int := 16
  const EXPIRES_TOO_LATE: int := 17
  const NO_FROM_SELF_TRANSFER: int := 18
  const NO_TO_SELF_TRANSFER: int := 19
  const TRANSFER_ALREADY_PROCESSED: int := 20
  const TRANSFER_NOT_MATCHED: int := 21
  const REFERENCEID_NOT_UNIQUE: int := 22

  /** The domain codes in declaration order. */
  function DomainCodes(): seq<int> {
    [BALANCE_TOO_LOW, DAILY_LIMIT_REACHED, MAX_CREDIT_LIMIT_REACHED, ACCOUNT_SUSPENDED,
     ACCOUNT_NOT_FOUND, AMOUNT_TOO_LOW, AMOUNT_TOO_HIGH, AMOUNT_NOT_AVAILABLE, AMOUNT_INVALID,
     NOT_ENOUGH_CREDITS, RECIPIENT_REJECTED, RECEIVER_UPPER_CREDIT_LIMIT_REACHED,
     TRACENUMBER_NOT_UNIQUE, NO_POSSIBLE_TRANSFER_TYPES, FROM_NOT_FOUND, TO_NOT_FOUND,
     EXPIRES_TOO_EARLY, EXPIRES_TOO_LATE, NO_FROM_SELF_TRANSFER, NO_TO_SELF_TRANSFER,
     TRANSFER_ALREADY_PROCESSED, TRANSFER_NOT_MATCHED, REFERENCEID_NOT_UNIQUE]
  }

  /** The domain codes are the integers 0 to 22, one each, in order. */
  lemma DomainCodesConsecutive()
    ensures |DomainCodes()| == 23
    ensures forall i :: 0 <= i < |DomainCodes()| ==> DomainCodes()[i] == i
    ensures forall i, j :: 0 <= i < j < |DomainCodes()| ==> DomainCodes()[i] != DomainCodes()[j]
  {
  }

  /**
   * The code an exception carries: a number reported by the remote system, or
   * one of the four transport-failure codes the client names. The class
   * declares no constant for these four, so they have no numeric value and
   * their text is the constant's name.
   */
  datatype Code =
    | Numeric(n: int)
    | ServerError
    | WrongCredentials
    | ClientException
    | NetworkUnavailable

  /** How a code appears in an exception message. */
  function CodeText(c: Code): (r: string)
    ensures '\'' !in r
  {
    match c
    case Numeric(n) =>
      var r := IntToString(n);
      assert forall i :: 0 <= i < |r| ==> r[i] == '-' || IsDigit(r[i]);
      r
    case ServerError => "SERVER_ERROR"
    case WrongCredentials => "WRONG_CREDENTIALS"
    case ClientException => "CLIENT_EXCEPTION"
    case NetworkUnavailable => "NETWORK_UNAVAILABLE"
  }

  /** Reads a code back from its text. */
  function CodeFromText(t: string): Option<Code> {
    if IsIntString(t) then Some(Numeric(ParseIntString(t)))
    else if t == "SERVER_ERROR" then Some(ServerError)
    else if t == "WRONG_CREDENTIALS" then Some(WrongCredentials)
    else if t == "CLIENT_EXCEPTION" then Some(ClientException)
    else if t == "NETWORK_UNAVAILABLE" then Some(NetworkUnavailable)
    else None
  }

  lemma CodeTextRoundTrip(c: Code)
    ensures CodeFromText(CodeText(c)) == Some(c)
  {
    if c.Numeric? {
      IntStringRoundTrip(c.n);
    } else {
      assert !IsDigit(CodeText(c)[0]);
    }
  }

  /** A thrown HelloCashException: its message and its code. */
  datatype HelloCashException = HelloCashException(message: string, code: Code)

  /**
   * The constructor `new HelloCashException($message, $code)`: the stored
   * message is `Error <code>': <message>` and the stored code is the given one.
   * A third argument at a throw site is not a parameter and is not kept.
   */
  function NewException(message: string, code: Code): (e: HelloCashException)
    ensures e.code == code
    ensures e.message == "Error " + CodeText(code) + "': " + message
  {
    HelloCashException("Error " + CodeText(code) + "': " + message, code)
  }

  /**
   * `new HelloCashException($message, $code)` applied to values read off a
   * decoded response. `message` is `None` when the property is undefined,
   * which PHP reports with a warning while evaluating the argument. The
   * constructor interpolates `$code` and then `$message` into the text, and
   * passes `$code` to the `int` parameter of `Exception::__construct`.
   */
  function Construct(message: Option<PhpValue>, code: PhpValue): (r: Conv<HelloCashException>)
    ensures message.None? ==> r == Faulted(Warning)
    ensures r.Converted? <==>
      message.Some? && Interpolation(message.value).Converted? &&
      Interpolation(code).Converted? && IntArgument(code).Converted?
    ensures r.Converted? ==>
      r.value.code == Numeric(IntArgument(code).value) &&
      r.value.message == "Error " + Interpolation(code).value + "': " + Interpolation(message.value).value
    ensures message.Some? && message.value.Str? && code.Int? ==>
      r == Converted(NewException(message.value.s, Numeric(code.i)))
  {
    if message.None? then Faulted(Warning)
    else
      match Interpolation(code)
      case Faulted(f) => Faulted(f)
      case Converted(codeText) =>
        match Interpolation(message.value)
        case Faulted(f) => Faulted(f)
        case Converted(text) =>
          match IntArgument(code)
          case Faulted(f) => Faulted(f)
          case Converted(n) => Converted(HelloCashException("Error " + codeText + "': " + text, Numeric(n)))
  }

  /** The index of the first occurrence of `c` in `s`. */
  function IndexOf(s: string, c: char): (r: Option<nat>)
    ensures r.Some? ==> r.value < |s| && s[r.value] == c && c !in s[..r.value]
    ensures r.None? ==> c !in s
  {
    if s == [] then None
    else if s[0] == c then Some(0)
    else
      match IndexOf(s[1..], c)
      case None => None
      case Some(k) =>
        assert s[..k + 1] == [s[0]] + s[1..][..k];
        Some(k + 1)
  }

  /** Splits an exception message into its code and the message it was built from. */
  function ParseMessage(m: string): Option<(Code, string)> {
    if |m| < 6 || m[..6] != "Error " then None
    else
      var rest := m[6..];
      match IndexOf(rest, '\'')
      case None => None
      case Some(j) =>
        if j + 3 <= |rest| && rest[j..j + 3] == "': " then
          match CodeFromText(rest[..j])
          case None => None
          case Some(code) => Some((code, rest[j + 3..]))
        else None
  }

  /** The formatted message determines the code and the original message. */
  lemma {:induction false} MessageRoundTrip(message: string, code: Code)
    ensures ParseMessage(NewException(message, code).message) == Some((code, message))
  {
    var t := CodeText(code);
    var m := NewException(message, code).message;
    var rest := m[6..];
    assert m[..6] == "Error ";
    assert rest == t + "': " + message;
    var j := IndexOf(rest, '\'');
    assert rest[|t|] == '\'';
    assert j.Some?;
    assert rest[..|t|] == t;
    assert j.value == |t|;
    assert rest[|t|..|t| + 3] == "': ";
    assert rest[|t| + 3..] == message;
    CodeTextRoundTrip(code);
  }

  /** Exceptions built from different messages or codes have different messages. */
  lemma MessageInjective(m1: string, c1: Code, m2: string, c2: Code)
    requires NewException(m1, c1).message == NewException(m2, c2).message
    ensures m1 == m2 && c1 == c2
  {
    MessageRoundTrip(m1, c1);
    MessageRoundTrip(m2, c2);
  }
}
