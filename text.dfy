/**
 * The few pieces of Python string behaviour the model relies on:
 * `str()` of an integer, `sep.join(...)` and `filter(None, ...)` over a
 * list of optional strings.
 */
module Text {
  import opened Common

  function Digit(d: nat): (c: char)
    requires d < 10
    ensures '0' <= c <= '9'
  {
    ['0', '1', '2', '3', '4', '5', '6', '7', '8', '9'][d]
  }

  function DigitValue(c: char): nat
    requires '0' <= c <= '9'
  {
    (c as int - '0' as int) as nat
  }

  predicate IsDigits(s: string)
  {
    |s| >= 1 && forall i :: 0 <= i < |s| ==> '0' <= s[i] <= '9'
  }

  /** `str(n)` for a non-negative integer: its decimal digits, most significant first. */
  function NatToString(n: nat): (r: string)
    ensures IsDigits(r)
    ensures r[0] == '0' <==> n == 0
    decreases n
  {
    if n < 10 then [Digit(n)] else NatToString(n / 10) + [Digit(n % 10)]
  }

  /** Text shaped like `str(i)`: digits, optionally after one '-'. */
  predicate IsIntText(s: string)
  {
    |s| >= 1 && (s[0] == '-' ==> IsDigits(s[1..])) && (s[0] != '-' ==> IsDigits(s))
  }

  /**
   * `str(i)` for any integer: text that reads back as `i`, with a leading
   * '-' exactly for negative values and no leading zero unless `i` is 0.
   */
  function IntToString(i: int): (r: string)
    ensures IsIntText(r)
    ensures r[0] == '-' <==> i < 0
    ensures IntValue(r) == i
    ensures r[if i < 0 then 1 else 0] == '0' ==> i == 0
  {
    if i < 0 then
      var digits := NatToString(-i);
      NatToStringRoundTrip(-i);
      assert ("-" + digits)[1..] == digits;
      "-" + digits
    else
      NatToStringRoundTrip(i);
      NatToString(i)
  }

  /** The number a string of decimal digits denotes. */
  function DigitsValue(s: string): nat
    requires IsDigits(s)
    decreases |s|
  {
    if |s| == 1 then DigitValue(s[0])
    else DigitsValue(s[..|s| - 1]) * 10 + DigitValue(s[|s| - 1])
  }

  /** The integer a string produced by `str(i)` denotes (a reading of `int(s)`). */
  function IntValue(s: string): int
    requires IsIntText(s)
  {
    if s[0] == '-' then -(DigitsValue(s[1..]) as int) else DigitsValue(s)
  }

  lemma {:induction false} NatToStringRoundTrip(n: nat)
    ensures DigitsValue(NatToString(n)) == n
    decreases n
  {
    if n >= 10 {
      var prefix := NatToString(n / 10);
      var s := prefix + [Digit(n % 10)];
      assert s[..|s| - 1] == prefix;
      NatToStringRoundTrip(n / 10);
    }
  }

  predicate StartsWith(s: string, prefix: string)
  {
    |prefix| <= |s| && s[..|prefix|] == prefix
  }

  predicate EndsWith(s: string, suffix: string)
  {
    |suffix| <= |s| && s[|s| - |suffix|..] == suffix
  }

  /** `sep.join(xs)`: a non-empty list's join opens with its first piece and closes with its last. */
  function Join(sep: string, xs: seq<string>): (r: string)
    ensures |xs| >= 1 ==> StartsWith(r, xs[0])
    ensures |xs| >= 1 ==> EndsWith(r, xs[|xs| - 1])
    decreases |xs|
  {
    if |xs| == 0 then ""
    else if |xs| == 1 then xs[0]
    else
      var tail, last := Join(sep, xs[1..]), xs[|xs| - 1];
      var r := xs[0] + sep + tail;
      assert xs[1..][|xs[1..]| - 1] == last;
      assert r[|r| - |last|..] == tail[|tail| - |last|..];
      r
  }

  /** Python truthiness of an optional string: present and not empty. */
  predicate Truthy(s: Option<string>)
  {
    s.Some? && s.value != ""
  }

  /** `filter(None, parts)`: keeps the present, non-empty strings, in order. */
  function Present(parts: seq<Option<string>>): (r: seq<string>)
    ensures |r| <= |parts|
    ensures forall i :: 0 <= i < |r| ==> r[i] != ""
    ensures forall i :: 0 <= i < |r| ==> Some(r[i]) in parts
    ensures |r| == |parts| <==> forall i :: 0 <= i < |parts| ==> Truthy(parts[i])
    decreases |parts|
  {
    if |parts| == 0 then []
    else (if Truthy(parts[0]) then [parts[0].value] else []) + Present(parts[1..])
  }

  /** The converse of `Present`'s contract: every truthy part is kept. */
  lemma {:induction false} PresentKeepsTruthy(parts: seq<Option<string>>, i: int)
    requires 0 <= i < |parts| && Truthy(parts[i])
    ensures parts[i].value in Present(parts)
    decreases |parts|
  {
    if i > 0 {
      PresentKeepsTruthy(parts[1..], i - 1);
    }
  }

  /** Filtering a concatenation filters each half. */
  lemma {:induction false} PresentAppend(a: seq<Option<string>>, b: seq<Option<string>>)
    ensures Present(a + b) == Present(a) + Present(b)
    decreases |a|
  {
    if |a| > 0 {
      assert (a + b)[1..] == a[1..] + b;
      PresentAppend(a[1..], b);
    } else {
      assert a + b == b;
    }
  }

  lemma JoinTwo(sep: string, a: string, b: string)
    ensures Join(sep, [a, b]) == a + sep + b
  {
  }

  lemma JoinThree(sep: string, a: string, b: string, c: string)
    ensures Join(sep, [a, b, c]) == a + sep + b + sep + c
  {
    assert [a, b, c][1..] == [b, c];
    JoinTwo(sep, b, c);
  }

  /** The optional word for one optional part. */
  function Word(part: Option<string>): seq<string>
  {
    if part.Some? then [part.value] else []
  }

  /** The words of the present parts, in order, with nothing dropped for being empty. */
  function Words(parts: seq<Option<string>>): seq<string>
    decreases |parts|
  {
    if |parts| == 0 then [] else Word(parts[0]) + Words(parts[1..])
  }

  /** When no present part is empty, filtering keeps exactly the present parts. */
  lemma {:induction false} PresentIsWords(parts: seq<Option<string>>)
    requires forall i :: 0 <= i < |parts| && parts[i].Some? ==> parts[i].value != ""
    ensures Present(parts) == Words(parts)
    decreases |parts|
  {
    if |parts| > 0 {
      PresentIsWords(parts[1..]);
    }
  }

  /** Filtering three parts whose present entries are non-empty keeps exactly the present ones. */
  lemma ThreePartsPresent(p0: Option<string>, p1: Option<string>, p2: Option<string>)
    requires p0.Some? && p2.Some?
    requires p0.value != "" && p2.value != ""
    requires p1.Some? ==> p1.value != ""
    ensures Present([p0, p1, p2]) == [p0.value] + Word(p1) + [p2.value]
  {
  }

  /** Filtering five parts whose present entries are non-empty keeps exactly the present ones. */
  lemma FivePartsPresent(p0: Option<string>, p1: Option<string>, p2: Option<string>,
                         p3: Option<string>, p4: Option<string>)
    requires p0.Some? && p4.Some?
    requires p0.value != "" && p4.value != ""
    requires p1.Some? ==> p1.value != ""
    requires p2.Some? ==> p2.value != ""
    requires p3.Some? ==> p3.value != ""
    ensures Present([p0, p1, p2, p3, p4]) == [p0.value] + Word(p1) + Word(p2) + Word(p3) + [p4.value]
  {
    var ps := [p0, p1, p2, p3, p4];
    PresentIsWords(ps);
    assert ps[1..] == [p1, p2, p3, p4] && [p1, p2, p3, p4][1..] == [p2, p3, p4];
    assert [p2, p3, p4][1..] == [p3, p4] && [p3, p4][1..] == [p4] && [p4][1..] == [];
    assert Words([p4]) == [p4.value];
    assert Words([p3, p4]) == Word(p3) + [p4.value];
    assert Words([p2, p3, p4]) == Word(p2) + (Word(p3) + [p4.value]);
    assert Words([p1, p2, p3, p4]) == Word(p1) + (Word(p2) + (Word(p3) + [p4.value]));
  }
}
