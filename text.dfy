/** The few Python string operations the hub relies on: prefix and suffix
    tests, `find`, negative slicing, `strip`, `str(int)` and `int(str)`. */
module Text {
  import opened Data

  predicate StartsWith(s: string, prefix: string)
  {
    |prefix| <= |s| && s[..|prefix|] == prefix
  }

  predicate EndsWith(s: string, suffix: string)
  {
    |suffix| <= |s| && s[|s| - |suffix|..] == suffix
  }

  predicate OccursAt(s: string, p: string, k: int)
  {
    0 <= k <= |s| - |p| && s[k..k + |p|] == p
  }

  /** `s.find(p, from)`: the first index at or after `from` where `p` occurs,
      or -1. */
  function FindFrom(s: string, p: string, from: nat): (r: int)
    requires from <= |s|
    ensures r == -1 || (from <= r && OccursAt(s, p, r))
    ensures r == -1 ==> forall k :: from <= k ==> !OccursAt(s, p, k)
    ensures r != -1 ==> forall k :: from <= k < r ==> !OccursAt(s, p, k)
    decreases |s| - from
  {
    if |s| - from < |p| then -1
    else if s[from..from + |p|] == p then from
    else if from == |s| then -1
    else FindFrom(s, p, from + 1)
  }

  function Find(s: string, p: string): int
  {
    FindFrom(s, p, 0)
  }

  /** Python's `p in s` for strings. */
  predicate Contains(s: string, p: string)
  {
    Find(s, p) >= 0
  }

  /** Python's `s[:-n]` for `n > 0`: drops the last `n` characters, and is
      empty when `s` is shorter. */
  function DropLast(s: string, n: nat): string
  {
    if n <= |s| then s[..|s| - n] else ""
  }

  /** Python's `s[k:]` with Python's clamping of negative and large `k`. */
  function From(s: string, k: int): string
  {
    if k < 0 then (if -k <= |s| then s[|s| + k..] else s)
    else if k <= |s| then s[k..] else ""
  }

  /** `s.split(sep)` for a one-character separator: the pieces between
      separators, in order; there are at least two exactly when `sep`
      occurs. */
  function Split(s: string, sep: char): (r: seq<string>)
    ensures |r| >= 1
    ensures Contains(s, [sep]) <==> |r| >= 2
    decreases |s|
  {
    var i := Find(s, [sep]);
    if i < 0 then [s]
    else [s[..i]] + Split(s[i + 1..], sep)
  }

  /** `sep.join(parts)` */
  function Join(parts: seq<string>, sep: char): string
    requires |parts| >= 1
  {
    if |parts| == 1 then parts[0] else parts[0] + [sep] + Join(parts[1..], sep)
  }

  /** Splitting loses nothing: joining the pieces gives the text back. */
  lemma {:induction false} JoinSplit(s: string, sep: char)
    ensures Join(Split(s, sep), sep) == s
    decreases |s|
  {
    var i := Find(s, [sep]);
    if i >= 0 {
      assert s[i..i + 1] == [sep];
      JoinSplit(s[i + 1..], sep);
      assert s == s[..i] + [sep] + s[i + 1..];
    }
  }

  predicate IsSpace(c: char)
  {
    c == ' ' || c == '\t' || c == '\n' || c == '\r' || c == '\U{000B}' || c == '\U{000C}'
  }

  function StripStart(s: string): string
  {
    if s != [] && IsSpace(s[0]) then StripStart(s[1..]) else s
  }

  function StripEnd(s: string): string
  {
    if s != [] && IsSpace(s[|s| - 1]) then StripEnd(s[..|s| - 1]) else s
  }

  /** `s.strip()` over ASCII white space. */
  function Strip(s: string): string
  {
    StripEnd(StripStart(s))
  }

  predicate IsDigit(c: char)
  {
    '0' <= c <= '9'
  }

  function DigitChar(d: nat): char
    requires d < 10
  {
    ['0', '1', '2', '3', '4', '5', '6', '7', '8', '9'][d]
  }

  /** `str(n)` for a natural number. */
  function NatToString(n: nat): (r: string)
    ensures |r| >= 1
    ensures forall k :: 0 <= k < |r| ==> IsDigit(r[k])
  {
    if n < 10 then [DigitChar(n)] else NatToString(n / 10) + [DigitChar(n % 10)]
  }

  /** `str(i)` for any integer. */
  function IntToString(i: int): string
  {
    if i < 0 then "-" + NatToString(-i) else NatToString(i)
  }

  /** The value of a non-empty run of decimal digits. */
  function DigitsValue(s: string): nat
    requires forall k :: 0 <= k < |s| ==> IsDigit(s[k])
  {
    if s == [] then 0
    else
      assert IsDigit(s[|s| - 1]);
      DigitsValue(s[..|s| - 1]) * 10 + (s[|s| - 1] as int - '0' as int)
  }

  predicate AllDigits(s: string)
  {
    s != [] && forall k :: 0 <= k < |s| ==> IsDigit(s[k])
  }

  /** `int(s)`: surrounding white space, an optional sign, then digits.
      `None` is Python's `ValueError`. */
  function ParseInt(s: string): Option<int>
  {
    var t := Strip(s);
    if t != [] && (t[0] == '-' || t[0] == '+') then
      (if AllDigits(t[1..]) then
         var v: int := DigitsValue(t[1..]);
         Some(if t[0] == '-' then -v else v)
       else None)
    else if AllDigits(t) then Some(DigitsValue(t))
    else None
  }

  function Pow10(k: nat): (r: nat)
    ensures r >= 1
  {
    if k == 0 then 1 else 10 * Pow10(k - 1)
  }

  /** `str(n)` has more than `k` characters exactly when `n >= 10^k`; with
      `k = 5` this is the RF noise filter's length test. */
  lemma {:induction false} DecimalLength(n: nat, k: nat)
    requires k >= 1
    ensures |NatToString(n)| > k <==> n >= Pow10(k)
  {
    assert Pow10(k) == 10 * Pow10(k - 1);
    if n >= 10 {
      assert |NatToString(n)| == |NatToString(n / 10)| + 1;
      if k >= 2 {
        DecimalLength(n / 10, k - 1);
        assert n / 10 >= Pow10(k - 1) <==> n >= 10 * Pow10(k - 1);
      }
    }
  }

  /** An HTTP status code of three digits starts with '2' exactly when it
      is a 2xx code. */
  lemma StatusStartsWithTwo(code: int)
    requires 100 <= code < 1000
    ensures StartsWith(IntToString(code), "2") <==> 200 <= code < 300
  {
    var hundreds := code / 100;
    assert NatToString(code) == NatToString(code / 10) + [DigitChar(code % 10)];
    assert NatToString(code / 10) == NatToString(hundreds) + [DigitChar((code / 10) % 10)];
    assert NatToString(code)[0] == DigitChar(hundreds);
  }
}
