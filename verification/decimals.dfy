// Canonical decimals: the three readers and the one writer of the 64-bit
// numbers kept in the environment (epk_env.c, epk_halt.c, bootstrap_export.py).
module Decimals {
  import opened Bytes

  predicate IsDigit(c: Byte) { 48 <= c <= 57 }

  predicate AllDigits(s: seq<Byte>) { forall i :: 0 <= i < |s| ==> IsDigit(s[i]) }

  /** The number a digit string denotes. */
  function Value(s: seq<Byte>): nat
    requires AllDigits(s)
  {
    if s == [] then 0 else Value(s[..|s| - 1]) * 10 + (s[|s| - 1] - 48)
  }

  /** Canonical decimal of an unsigned 64-bit number. */
  predicate IsU64(s: seq<Byte>) {
    |s| > 0 && AllDigits(s) && (s[0] == 48 ==> |s| == 1) && Value(s) <= U64_MAX
  }

  /** The canonical digits of a number, most significant first. */
  function Digits(n: nat): (s: seq<Byte>)
    ensures |s| > 0 && AllDigits(s)
  {
    if n < 10 then [48 + n] else Digits(n / 10) + [48 + n % 10]
  }

  lemma {:induction false} ValueOfDigits(n: nat)
    ensures Value(Digits(n)) == n
    ensures Digits(n)[0] == 48 <==> n == 0
    ensures n <= U64_MAX ==> IsU64(Digits(n))
  {
    if n < 10 {
      assert Digits(n)[..0] == [];
    } else {
      ValueOfDigits(n / 10);
      var s := Digits(n);
      assert s[..|s| - 1] == Digits(n / 10);
    }
  }

  lemma {:induction false} DigitsOfValue(s: seq<Byte>)
    requires |s| > 0 && AllDigits(s) && (s[0] == 48 ==> |s| == 1)
    ensures Digits(Value(s)) == s
    ensures s[0] != 48 ==> Value(s) > 0
  {
    var front := s[..|s| - 1];
    if |s| > 1 {
      assert front[0] == s[0];
      DigitsOfValue(front);
      assert Value(s) >= 10;
    }
    assert s == front + [s[|s| - 1]];
  }

  lemma {:induction false} DigitsLength(n: nat, k: nat)
    requires n < Power10(k) && k > 0
    ensures |Digits(n)| <= k
  {
    if n >= 10 { DigitsLength(n / 10, k - 1); }
  }

  function Power10(k: nat): (p: nat)
    ensures p > 0
  {
    if k == 0 then 1 else 10 * Power10(k - 1)
  }

  lemma {:induction false} ValueOfPrefix(s: seq<Byte>, k: nat)
    requires AllDigits(s) && k <= |s|
    ensures Value(s[..k]) <= Value(s)
  {
    if k < |s| {
      ValueOfPrefix(s[..|s| - 1], k);
      assert s[..|s| - 1][..k] == s[..k];
    } else {
      assert s[..k] == s;
    }
  }

  /** `decimal`: accepts exactly the canonical numbers up to 2^64 - 1. */
  method Decimal(text: seq<Byte>) returns (ok: bool, out: nat)
    requires NulFree(text)
    ensures ok <==> IsU64(text)
    ensures ok ==> out == Value(text) && Digits(out) == text
  {
    out := 0;
    if |text| == 0 || (text[0] == 48 && |text| > 1) { return false, 0; }
    var n: nat := 0;
    var i := 0;
    while i < |text|
      invariant 0 <= i <= |text|
      invariant AllDigits(text[..i])
      invariant n == Value(text[..i]) && n <= U64_MAX
    {
      var c: int := text[i];
      var digit := (c - 48) % 0x1_0000_0000;    // unsigned int
      assert text[..i + 1][..i] == text[..i];
      if digit > 9 {
        assert !IsDigit(text[i]);
        return false, 0;
      }
      if n > (U64_MAX - digit) / 10 {
        if AllDigits(text) { ValueOfPrefix(text, i + 1); }
        return false, 0;
      }
      n := n * 10 + digit;
      i := i + 1;
    }
    assert text[..i] == text;
    DigitsOfValue(text);
    return true, n;
  }

  /** The first loop of `to_decimal`: the digits, least significant first. */
  method ReverseDigits(value: nat, reverse: array<Byte>) returns (n: nat)
    requires reverse.Length == 20 && |Digits(value)| <= 20
    modifies reverse
    ensures n == |Digits(value)|
    ensures forall k :: 0 <= k < n ==> reverse[k] == Digits(value)[n - 1 - k]
  {
    ghost var all := Digits(value);
    // do { ... } while (value): the first pass is unconditional.
    var rest: nat := value / 10;
    reverse[0] := 48 + value % 10;
    n := 1;
    while rest != 0
      invariant 1 <= n <= |all|
      invariant if rest == 0 then n == |all| else n < |all| && Digits(rest) == all[..|all| - n]
      invariant forall k :: 0 <= k < n ==> reverse[k] == all[|all| - 1 - k]
      decreases rest
    {
      ghost var here := Digits(rest);
      assert here[|here| - 1] == 48 + rest % 10;
      assert rest >= 10 ==> Digits(rest / 10) == here[..|here| - 1];
      reverse[n] := 48 + rest % 10;
      n, rest := n + 1, rest / 10;
    }
  }

  /** `to_decimal`: fills a 21 byte buffer with the canonical digits and a NUL. */
  method ToDecimal(value: nat, out: array<Byte>) returns (size: nat)
    requires value <= U64_MAX && out.Length == 21
    modifies out
    ensures size == |Digits(value)| <= 20
    ensures out[..size] == Digits(value) && out[size] == 0
  {
    hide Digits;
    var reverse := new Byte[20];
    Power10Values();
    DigitsLength(value, 20);
    var n := ReverseDigits(value, reverse);
    var i := 0;
    while i < n
      invariant 0 <= i <= n
      invariant forall k :: 0 <= k < n ==> reverse[k] == Digits(value)[n - 1 - k]
      invariant forall k :: 0 <= k < i ==> out[k] == Digits(value)[k]
    {
      out[i] := reverse[n - 1 - i];
      i := i + 1;
    }
    out[n] := 0;
    assert out[..n] == Digits(value);
    size := n;
  }

  // ---- positive_sequence (epk_halt.c) and decimal (bootstrap_export.py) ----

  const MAXIMUM := Ascii("18446744073709551615")

  lemma ValueStep(s: seq<Byte>, k: nat)
    requires AllDigits(s) && k < |s|
    ensures Value(s[..k + 1]) == Value(s[..k]) * 10 + (s[k] - 48)
  {
    assert s[..k + 1][..k] == s[..k];
  }

  lemma ValueFiveSteps(s: seq<Byte>, k: nat, a: int, b: int, c: int, d: int, e: int)
    requires AllDigits(s) && k + 5 <= |s|
    requires s[k] == 48 + a && s[k + 1] == 48 + b && s[k + 2] == 48 + c && s[k + 3] == 48 + d && s[k + 4] == 48 + e
    ensures Value(s[..k + 5]) == Value(s[..k]) * 100000 + a * 10000 + b * 1000 + c * 100 + d * 10 + e
  {
    ValueStep(s, k);
    ValueStep(s, k + 1);
    ValueStep(s, k + 2);
    ValueStep(s, k + 3);
    ValueStep(s, k + 4);
  }

  /** The literal 20 digit bound is 2^64 - 1. */
  lemma MaximumIsU64Max(m: seq<Byte>)
    requires m == MAXIMUM
    ensures |m| == 20 && AllDigits(m) && Value(m) == U64_MAX
  {
    MaximumValue(m);
  }

  lemma MaximumValue(m: seq<Byte>)
    requires |m| == 20 && AllDigits(m)
    requires m[0] == 49 && m[1] == 56 && m[2] == 52 && m[3] == 52 && m[4] == 54
    requires m[5] == 55 && m[6] == 52 && m[7] == 52 && m[8] == 48 && m[9] == 55
    requires m[10] == 51 && m[11] == 55 && m[12] == 48 && m[13] == 57 && m[14] == 53
    requires m[15] == 53 && m[16] == 49 && m[17] == 54 && m[18] == 49 && m[19] == 53
    ensures Value(m) == U64_MAX
  {
    ValueFiveSteps(m, 0, 1, 8, 4, 4, 6);
    ValueFiveSteps(m, 5, 7, 4, 4, 0, 7);
    ValueFiveSteps(m, 10, 3, 7, 0, 9, 5);
    ValueFiveSteps(m, 15, 5, 1, 6, 1, 5);
    assert m[..0] == [] && m[..20] == m;
  }

  /** On digit strings of one length, string order is numeric order. */
  lemma {:induction false} StringOrderIsNumeric(a: seq<Byte>, b: seq<Byte>, i: nat)
    requires |a| == |b| && AllDigits(a) && AllDigits(b)
    requires i < |a| && FirstDifference(a, b, i) && a[i] > b[i]
    ensures Value(a) > Value(b)
  {
    var n := |a| - 1;
    if i < n {
      StringOrderIsNumeric(a[..n], b[..n], i);
    } else {
      assert a[..n] == b[..n];
    }
  }

  lemma GreaterStringIsGreaterNumber(a: seq<Byte>, b: seq<Byte>)
    requires |a| == |b| && AllDigits(a) && AllDigits(b)
    ensures StrGreater(a, b) <==> Value(a) > Value(b)
  {
    if StrGreater(a, b) {
      var i: nat :| FirstDifference(a, b, i) && i < |a| && (i == |b| || a[i] > b[i]);
      StringOrderIsNumeric(a, b, i);
    } else if a != b {
      var i := FindDifference(a, b);
      assert FirstDifference(a, b, i) && FirstDifference(b, a, i);
      StringOrderIsNumeric(b, a, i);
    }
  }

  lemma FindDifference(a: seq<Byte>, b: seq<Byte>) returns (i: nat)
    requires |a| == |b| && a != b
    ensures i < |a| && FirstDifference(a, b, i)
  {
    i := 0;
    while i < |a| && a[i] == b[i]
      invariant i <= |a| && forall k :: 0 <= k < i ==> a[k] == b[k]
    {
      i := i + 1;
    }
  }

  lemma {:induction false} ValueBelowPower(s: seq<Byte>)
    requires AllDigits(s)
    ensures Value(s) < Power10(|s|)
    ensures |s| > 0 && s[0] != 48 ==> Value(s) >= Power10(|s| - 1)
  {
    if |s| > 0 {
      ValueBelowPower(s[..|s| - 1]);
      if |s| > 1 { assert s[..|s| - 1][0] == s[0]; }
    }
  }

  lemma {:induction false} Power10Monotone(j: nat, k: nat)
    requires j <= k
    ensures Power10(j) <= Power10(k)
  {
    if j < k { Power10Monotone(j, k - 1); }
  }

  lemma Power10Values()
    ensures Power10(19) == 10000000000000000000
    ensures Power10(20) == 100000000000000000000
  {
    assert Power10(5) == 100000;
    assert Power10(10) == 10000000000;
    assert Power10(15) == 1000000000000000;
  }

  /** Numbers with more than 20 digits do not fit 64 bits; fewer always do. */
  lemma LengthBounds(s: seq<Byte>)
    requires AllDigits(s) && |s| > 0 && s[0] != 48
    ensures |s| > 20 ==> Value(s) > U64_MAX
    ensures |s| < 20 ==> Value(s) <= U64_MAX
  {
    ValueBelowPower(s);
    if |s| > 20 { Power10Monotone(20, |s| - 1); }
    if |s| < 20 { Power10Monotone(|s|, 19); }
    Power10Values();
  }

  /** `positive_sequence`: bounds a u64 by comparing strings, without arithmetic. */
  method PositiveSequence(value: seq<Byte>) returns (ok: bool)
    requires NulFree(value)
    ensures ok <==> IsU64(value) && Value(value) > 0
  {
    if |value| == 0 || value[0] < 49 || value[0] > 57 {
      if IsU64(value) { DigitsOfValue(value); assert Value(value) == 0 by { assert value[..0] == []; } }
      return false;
    }
    var length := |value|;
    MaximumIsU64Max(MAXIMUM);
    if length > 20 {
      if AllDigits(value) { LengthBounds(value); }
      return false;
    }
    if length == 20 {
      var greater := StrCompareGreater(value, MAXIMUM);
      if greater {
        if AllDigits(value) { GreaterStringIsGreaterNumber(value, MAXIMUM); }
        return false;
      }
    }
    var i := 1;
    while i < length
      invariant 1 <= i <= length
      invariant AllDigits(value[..i])
    {
      if value[i] < 48 || value[i] > 57 { return false; }
      i := i + 1;
    }
    assert value[..i] == value;
    if length == 20 { GreaterStringIsGreaterNumber(value, MAXIMUM); } else { LengthBounds(value); }
    DigitsOfValue(value);
    return true;
  }

  /** `strcmp(a, b) > 0`. */
  method StrCompareGreater(a: seq<Byte>, b: seq<Byte>) returns (greater: bool)
    ensures greater <==> StrGreater(a, b)
  {
    var i := 0;
    while i < |a| && i < |b| && a[i] == b[i]
      invariant 0 <= i <= |a| && i <= |b| && forall k :: 0 <= k < i ==> a[k] == b[k]
    {
      i := i + 1;
    }
    greater := i < |a| && (i == |b| || a[i] > b[i]);
    assert FirstDifference(a, b, i);
    forall j: nat | FirstDifference(a, b, j) && j < |a| && (j == |b| || a[j] > b[j])
      ensures i == j
    {
    }
  }

  /** `decimal` of bootstrap_export.py: one trailing newline is dropped, then
      `[1-9][0-9]{0,19}` must match and the integer must fit 64 bits. */
  function Exported(raw: seq<Byte>): Option<nat> {
    var text := if |raw| > 0 && raw[|raw| - 1] == 10 then raw[..|raw| - 1] else raw;
    if 1 <= |text| <= 20 && AllDigits(text) && text[0] != 48 && 1 <= Value(text) <= U64_MAX
    then Some(Value(text)) else None
  }

  /** The loader and the exporter accept the same positive numbers, and read
      them as the environment guard does. */
  lemma ReadersAgree(text: seq<Byte>)
    requires 10 !in text
    ensures Exported(text).Some? <==> IsU64(text) && Value(text) > 0
    ensures Exported(text + [10]) == Exported(text)
    ensures Exported(text).Some? ==> Digits(Exported(text).value) == text
  {
    assert (text + [10])[..|text|] == text;
    if |text| > 0 && AllDigits(text) {
      if text[0] != 48 { LengthBounds(text); }
      if text[0] != 48 || |text| == 1 { DigitsOfValue(text); }
      if |text| == 1 { assert text[..0] == []; }
    }
  }
}
