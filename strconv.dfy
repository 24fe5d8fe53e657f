/** The parts of Go's `strconv` and `strings` packages the bridge relies on:
    base-10 formatting of integers, `ParseInt(s, 10, 64)` and `TrimSuffix`. */
module Strconv {
  import opened Base

  predicate IsDigit(c: char) {
    '0' <= c <= '9'
  }

  predicate AllDigits(s: string) {
    forall i :: 0 <= i < |s| ==> IsDigit(s[i])
  }

  function DigitChar(d: nat): (c: char)
    requires d < 10
    ensures IsDigit(c) && c as int - '0' as int == d
  {
    ('0' as int + d) as char
  }

  /** The number a string of decimal digits denotes, most significant digit first. */
  function DigitsValue(s: string): nat
    requires AllDigits(s)
  {
    if s == [] then 0 else DigitsValue(s[..|s| - 1]) * 10 + (s[|s| - 1] as int - '0' as int)
  }

  /** `strconv.FormatUint(n, 10)`: the shortest decimal representation of `n`. */
  function FormatUint(n: nat): (s: string)
    ensures s != [] && AllDigits(s)
    ensures s[0] == '0' ==> s == "0"
  {
    if n < 10 then [DigitChar(n)]
    else
      var prefix := FormatUint(n / 10);
      var s := prefix + [DigitChar(n % 10)];
      assert s[..|s| - 1] == prefix;
      s
  }

  /** The digits `FormatUint` prints denote the number formatted. */
  lemma {:induction false} FormatUintValue(n: nat)
    ensures DigitsValue(FormatUint(n)) == n
  {
    if n >= 10 {
      FormatUintValue(n / 10);
      var s := FormatUint(n);
      assert s[..|s| - 1] == FormatUint(n / 10);
    }
  }

  /** `strconv.FormatInt(v, 10)`: a minus sign for negative numbers, then the digits. */
  function FormatInt(v: int): (s: string)
    ensures s != []
    ensures v < 0 <==> s[0] == '-'
  {
    if v < 0 then "-" + FormatUint(-v) else FormatUint(v)
  }

  /** `strconv.ParseInt(s, 10, 64)`: an optional `+` or `-` sign followed by at
      least one decimal digit, denoting a value inside the `int64` range.
      Every other string is a syntax or range error, modelled as `None`. */
  function ParseInt(s: string): (r: Option<int64>)
    ensures r.Some? ==> s != [] && (s[0] == '-' ==> r.value <= 0) && (s[0] != '-' ==> r.value >= 0)
    ensures s == [] || s == "+" || s == "-" ==> r.None?
  {
    if s == [] then None
    else
      var negative := s[0] == '-';
      var digits := if s[0] == '+' || s[0] == '-' then s[1..] else s;
      if digits == [] || !AllDigits(digits) then None
      else
        var magnitude: int := DigitsValue(digits);
        var n := if negative then -magnitude else magnitude;
        if -TwoTo63 <= n < TwoTo63 then Some(n as int64) else None
  }

  /** `strings.TrimSuffix(s, suffix)`: drops `suffix` when `s` ends with it. */
  function TrimSuffix(s: string, suffix: string): (r: string)
    ensures r == s || r + suffix == s
    ensures |s| >= |suffix| && s[|s| - |suffix|..] == suffix ==> r + suffix == s
  {
    if |s| >= |suffix| && s[|s| - |suffix|..] == suffix then s[..|s| - |suffix|] else s
  }

  lemma TrimSuffixOfAppended(s: string, suffix: string)
    ensures TrimSuffix(s + suffix, suffix) == s
  {
    var t := s + suffix;
    assert t[|t| - |suffix|..] == suffix;
    assert t[..|t| - |suffix|] == s;
  }

  lemma ParseUnsigned(d: string)
    requires d != [] && AllDigits(d) && DigitsValue(d) < TwoTo63
    ensures ParseInt(d) == Some(DigitsValue(d))
  {
    assert IsDigit(d[0]);
  }

  lemma ParseNegative(d: string)
    requires d != [] && AllDigits(d) && DigitsValue(d) <= TwoTo63
    ensures ParseInt("-" + d).Some? && ParseInt("-" + d).value as int + DigitsValue(d) == 0
  {
    var s := "-" + d;
    assert s[0] == '-';
    assert s[1..] == d;
  }

  /** Parsing what `FormatInt` printed gives the number back, for every `int64`. */
  lemma ParseFormatInt(v: int64)
    ensures ParseInt(FormatInt(v)) == Some(v)
  {
    if v < 0 {
      FormatUintValue(-(v as int));
      ParseNegative(FormatUint(-(v as int)));
    } else {
      FormatUintValue(v);
      ParseUnsigned(FormatUint(v));
    }
  }
}
