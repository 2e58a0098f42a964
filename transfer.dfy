/**
 * `Transfer`: fetching a transfer's transactions, cancelling or refunding a
 * payment, and the two formatting helpers for dates and card numbers.
 */
module Transfer {
  import opened Php
  import opened ClientSpec
  import opened Requests

  const ENDPOINT: string := "/transfer/"
  /** `GuzzleHttp\RequestOptions::QUERY`. */
  const QUERY: string := "query"

  // ---------------------------------------------------------------------
  // get
  // ---------------------------------------------------------------------

  /** `get($id)`: GET on the transfer's own path, no query. */
  function Get(id: string): (c: ClientCall)
    ensures c.Get? && c.query == []
    ensures StartsWith(c.path, ENDPOINT) && c.path[|ENDPOINT|..] == id
  {
    GetById(ENDPOINT, id)
  }

  /**
   * `return $response->Transactions;` from `get(): array` on what the client
   * returned: the client's failure passes through, an undefined property is
   * a warning, and a value that is not an array fails the return type.
   */
  function TransactionsOf(r: Result<PhpValue>): (f: Result<PhpArray>)
    ensures r.Failure? ==> f == Failure(r.error)
    ensures r.Success? && Prop(r.value, "Transactions").None? ==> f == Failure(PhpFault(Warning))
    ensures r.Success? && Prop(r.value, "Transactions").Some? ==>
      if Prop(r.value, "Transactions").value.Arr? then f == Success(Prop(r.value, "Transactions").value.entries)
      else f == Failure(PhpFault(TypeError))
  {
    match r
    case Failure(e) => Failure(e)
    case Success(body) =>
      match Prop(body, "Transactions")
      case None => Failure(PhpFault(Warning))
      case Some(Arr(entries)) => Success(entries)
      case Some(_) => Failure(PhpFault(TypeError))
  }

  // ---------------------------------------------------------------------
  // formatDate
  // ---------------------------------------------------------------------

  type Month = m: int | 1 <= m <= 12 witness 1
  type Day = d: int | 1 <= d <= 31 witness 1

  /** The calendar date of a `DateTimeInterface`. */
  datatype Date = Date(year: int, month: Month, day: Day)

  /** The argument of `formatDate`: a date object or a string. */
  datatype DateOrText = DateValue(date: Date) | Text(s: string)

  /** `Y`: at least four digits, with `-` before years before year 0. */
  function YearText(y: int): (r: string)
    ensures y >= 0 ==> |r| >= 4 && AllDigits(r) && DigitsToNat(r) == y
    ensures y < 0 ==> |r| >= 5 && r[0] == '-' && AllDigits(r[1..]) && DigitsToNat(r[1..]) == -y
  {
    var n: nat := if y < 0 then -y else y;
    var digits := NatToDigits(n);
    DigitsRoundTrip(n);
    var padded := PadLeft(digits, 4);
    PadLeftValue(digits, 4);
    if y < 0 then
      assert ("-" + padded)[1..] == padded;
      "-" + padded
    else padded
  }

  /** `m` and `d`: two digits with a leading zero. */
  function TwoDigits(n: int): (r: string)
    requires 0 <= n < 100
    ensures |r| == 2 && AllDigits(r) && DigitsToNat(r) == n
  {
    var digits := NatToDigits(n);
    DigitsRoundTrip(n);
    PadLeftValue(digits, 2);
    PadLeft(digits, 2)
  }

  /** `$date->format('Y-m-d')`. */
  function FormatYmd(d: Date): (r: string)
    ensures |r| >= 10 && r[|r| - 6] == '-' && r[|r| - 3] == '-'
  {
    YearText(d.year) + "-" + TwoDigits(d.month) + "-" + TwoDigits(d.day)
  }

  /** Reads a `Y-m-d` text back: the inverse of `FormatYmd`. */
  function ParseYmd(s: string): Option<Date> {
    if |s| < 10 || s[|s| - 6] != '-' || s[|s| - 3] != '-' then None
    else
      var y, m, d := s[..|s| - 6], s[|s| - 5..|s| - 3], s[|s| - 2..];
      var year := ParseYear(y);
      if year.None? || !AllDigits(m) || !AllDigits(d) then None
      else if !(1 <= DigitsToNat(m) <= 12 && 1 <= DigitsToNat(d) <= 31) then None
      else Some(Date(year.value, DigitsToNat(m), DigitsToNat(d)))
  }

  function ParseYear(y: string): Option<int> {
    if |y| >= 5 && y[0] == '-' && AllDigits(y[1..]) then Some(-(DigitsToNat(y[1..]) as int))
    else if |y| >= 4 && AllDigits(y) then Some(DigitsToNat(y))
    else None
  }

  /** Formatting a date and reading the text back gives the date. */
  lemma FormatYmdRoundTrip(d: Date)
    ensures ParseYmd(FormatYmd(d)) == Some(d)
  {
    var y, m, dd := YearText(d.year), TwoDigits(d.month), TwoDigits(d.day);
    var s := FormatYmd(d);
    assert s == y + "-" + m + "-" + dd;
    assert s[..|s| - 6] == y;
    assert s[|s| - 5..|s| - 3] == m;
    assert s[|s| - 2..] == dd;
  }

  /**
   * `formatDate($date)`: a date object becomes its `Y-m-d` text, which reads
   * back as the same date; a string is returned unchanged.
   */
  function FormatDate(v: DateOrText): (r: string)
    ensures v.Text? ==> r == v.s
    ensures v.DateValue? ==> ParseYmd(r) == Some(v.date)
  {
    match v
    case DateValue(d) =>
      FormatYmdRoundTrip(d);
      FormatYmd(d)
    case Text(s) => s
  }

  /** Different dates never format to the same text. */
  lemma FormatDateInjective(a: Date, b: Date)
    requires FormatDate(DateValue(a)) == FormatDate(DateValue(b))
    ensures a == b
  {
  }

  // ---------------------------------------------------------------------
  // normalizeNumber
  // ---------------------------------------------------------------------

  /** `preg_replace('/\D/', '', $number)`: every character that is not a decimal digit is removed. */
  function NormalizeNumber(s: string): (r: string)
    ensures AllDigits(r) && |r| <= |s|
    decreases |s|
  {
    if s == [] then []
    else
      var rest := NormalizeNumber(s[1..]);
      if IsDigit(s[0]) then [s[0]] + rest else rest
  }

  /** Every digit of the input is kept, as often as it occurs, and nothing else. */
  lemma {:induction false} NormalizeKeepsDigits(s: string, c: char)
    ensures multiset(NormalizeNumber(s))[c] == if IsDigit(c) then multiset(s)[c] else 0
    decreases |s|
  {
    if s != [] {
      NormalizeKeepsDigits(s[1..], c);
      assert s == [s[0]] + s[1..];
    }
  }

  /** The digits keep their order: normalising a concatenation normalises each part. */
  lemma {:induction false} NormalizeAppend(a: string, b: string)
    ensures NormalizeNumber(a + b) == NormalizeNumber(a) + NormalizeNumber(b)
    decreases |a|
  {
    if a != [] {
      assert (a + b)[0] == a[0] && (a + b)[1..] == a[1..] + b;
      NormalizeAppend(a[1..], b);
    } else {
      assert a + b == b;
    }
  }

  /** A string of digits is left as it is. */
  lemma {:induction false} NormalizeDigits(s: string)
    requires AllDigits(s)
    ensures NormalizeNumber(s) == s
    decreases |s|
  {
    if s != [] {
      NormalizeDigits(s[1..]);
    }
  }

  /** Normalising twice is normalising once. */
  lemma NormalizeIdempotent(s: string)
    ensures NormalizeNumber(NormalizeNumber(s)) == NormalizeNumber(s)
  {
    NormalizeDigits(NormalizeNumber(s));
  }

  /** Digit groups separated by spaces come out as the groups joined. */
  lemma NormalizeGroups(a: string, b: string, c: string, d: string)
    requires AllDigits(a) && AllDigits(b) && AllDigits(c) && AllDigits(d)
    ensures NormalizeNumber(a + " " + b + " " + c + " " + d) == a + b + c + d
  {
    NormalizeDigits(a); NormalizeDigits(b); NormalizeDigits(c); NormalizeDigits(d);
    NormalizeSpaced(a, b);
    NormalizeSpaced(a + " " + b, c);
    NormalizeSpaced(a + " " + b + " " + c, d);
  }

  /** A space between two strings disappears. */
  lemma NormalizeSpaced(x: string, y: string)
    ensures NormalizeNumber(x + " " + y) == NormalizeNumber(x) + NormalizeNumber(y)
  {
    assert NormalizeNumber(" ") == [];
    NormalizeAppend(x, " ");
    NormalizeAppend(x + " ", y);
  }

  /** A card number written in groups of four loses its spaces. */
  lemma NormalizeCardNumber()
    ensures NormalizeNumber("4111 1111 1111 1111") == "4111111111111111"
  {
    var a, g := "4111", "1111";
    assert AllDigits(a) && AllDigits(g);
    NormalizeGroups(a, g, g, g);
    assert a + " " + g + " " + g + " " + g == "4111 1111 1111 1111";
    assert a + g + g + g == "4111111111111111";
  }

  // ---------------------------------------------------------------------
  // cancel
  // ---------------------------------------------------------------------

  /** `array_merge(['Amount' => $amount], $actionUser ? ['ActionUser' => $actionUser] : [])`. */
  function CancelQuery(amount: int, actionUser: PhpValue): (q: PhpArray)
    ensures DistinctKeys(q)
    ensures Lookup(q, StrKey("Amount")) == Some(Int(amount))
    ensures Lookup(q, StrKey("ActionUser")).Some? <==> Truthy(actionUser)
    ensures Truthy(actionUser) ==> Lookup(q, StrKey("ActionUser")) == Some(actionUser)
    ensures |q| == if Truthy(actionUser) then 2 else 1
  {
    var amountPart: PhpArray := [(StrKey("Amount"), Int(amount))];
    var userPart: PhpArray := if Truthy(actionUser) then [(StrKey("ActionUser"), actionUser)] else [];
    var q := ArrayMerge(amountPart, userPart);
    assert MergeAll([], amountPart) == amountPart by {
      assert MergeEntry([], amountPart[0]) == amountPart;
    }
    if Truthy(actionUser) then
      assert q == amountPart + userPart by {
        assert Assign(amountPart, StrKey("ActionUser"), actionUser) == amountPart + userPart;
        assert MergeEntry(amountPart, userPart[0]) == amountPart + userPart;
        assert userPart[1..] == [];
        assert MergeAll(amountPart, userPart) == MergeAll(amountPart + userPart, []);
      }
      assert Lookup(q[1..], StrKey("ActionUser")) == Some(actionUser);
      q
    else
      q
  }

  /**
   * `cancel($id, $amount, $actionUser)` as written: the merged array is put
   * under the `query` option and then handed to `delete` as its `$query`,
   * which wraps it under `query` again; the request's query holds a single
   * entry `query` and no `Amount`.
   */
  function CancelAsWritten(id: string, amount: int, actionUser: PhpValue): (c: ClientCall)
    ensures c.Delete? && StartsWith(c.path, ENDPOINT) && c.path[|ENDPOINT|..] == id
    ensures Lookup(c.query, StrKey(QUERY)) == Some(Arr(CancelQuery(amount, actionUser)))
  {
    ClientCall.Delete(ENDPOINT + id, [(StrKey(QUERY), Arr(CancelQuery(amount, actionUser)))])
  }

  /** The nesting hides the amount: the API never sees `Amount` or `ActionUser` as query keys. */
  lemma CancelAsWrittenLosesAmount(id: string, amount: int, actionUser: PhpValue, token: string)
    ensures var r := ApiRequest(CancelAsWritten(id, amount, actionUser), token);
      r.query.Some? && |r.query.value| == 1 &&
      Lookup(r.query.value, StrKey("Amount")).None? && Lookup(r.query.value, StrKey("ActionUser")).None?
  {
  }

  /**
   * `cancel` as intended: DELETE on the transfer's path with `Amount` always
   * and `ActionUser` exactly when the action user is truthy as query keys.
   */
  function Cancel(id: string, amount: int, actionUser: PhpValue): (c: ClientCall)
    ensures c.Delete? && StartsWith(c.path, ENDPOINT) && c.path[|ENDPOINT|..] == id
    ensures c.query == CancelQuery(amount, actionUser)
  {
    ClientCall.Delete(ENDPOINT + id, CancelQuery(amount, actionUser))
  }

  /** What reaches the API from the corrected `cancel`. */
  lemma CancelSendsAmount(id: string, amount: int, actionUser: PhpValue, token: string)
    ensures var r := ApiRequest(Cancel(id, amount, actionUser), token);
      r.verb == DELETE && r.query.Some? &&
      Lookup(r.query.value, StrKey("Amount")) == Some(Int(amount)) &&
      (Lookup(r.query.value, StrKey("ActionUser")).Some? <==> Truthy(actionUser))
  {
  }

  /** `null`, `''` and `'0'` omit the action user; any other string sends it. */
  lemma ActionUserOmitted(amount: int, user: string)
    ensures Lookup(CancelQuery(amount, Null), StrKey("ActionUser")).None?
    ensures Lookup(CancelQuery(amount, Str("")), StrKey("ActionUser")).None?
    ensures Lookup(CancelQuery(amount, Str("0")), StrKey("ActionUser")).None?
    ensures user != "" && user != "0" ==> Lookup(CancelQuery(amount, Str(user)), StrKey("ActionUser")) == Some(Str(user))
  {
  }
}
