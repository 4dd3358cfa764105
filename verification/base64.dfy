// Canonical padded base64 as epk_env.c checks it: the size is computed without
// decoding. The reference is the encoder of RFC 4648, sections 3.5 and 4.
module Base64 {
  import opened Bytes

  const PAD: Byte := 61

  /** `b64_digit`: the six bits of a character of the alphabet, or -1. */
  function Digit(c: Byte): (d: int)
    ensures -1 <= d < 64
    ensures d >= 0 ==> c == Char(d) && c != PAD
  {
    if 65 <= c <= 90 then c as int - 65
    else if 97 <= c <= 122 then c as int - 97 + 26
    else if 48 <= c <= 57 then c as int - 48 + 52
    else if c == 43 then 62
    else if c == 47 then 63
    else -1
  }

  function Char(d: int): (c: Byte)
    requires 0 <= d < 64
  {
    if d < 26 then 65 + d else if d < 52 then 97 + (d - 26) else if d < 62 then 48 + (d - 52)
    else if d == 62 then 43 else 47
  }

  lemma CharDigit(d: int)
    requires 0 <= d < 64
    ensures Digit(Char(d)) == d && Char(d) != 0
  {
  }

  /** One group of the reference encoder: one to three bytes become four characters. */
  function EncodeGroup(raw: seq<Byte>): (text: seq<Byte>)
    requires 1 <= |raw| <= 3
    ensures |text| == 4
  {
    var b1: Byte := if |raw| > 1 then raw[1] else 0;
    var b2: Byte := if |raw| > 2 then raw[2] else 0;
    [Char(raw[0] / 4), Char(raw[0] % 4 * 16 + b1 / 16),
     if |raw| > 1 then Char(b1 % 16 * 4 + b2 / 64) else PAD,
     if |raw| > 2 then Char(b2 % 64) else PAD]
  }

  /** The reference encoder. */
  function Encode(raw: seq<Byte>): (text: seq<Byte>)
    ensures |text| % 4 == 0 && (raw == [] <==> text == [])
  {
    if raw == [] then []
    else if |raw| <= 3 then EncodeGroup(raw)
    else EncodeGroup(raw[..3]) + Encode(raw[3..])
  }

  /** How many `=` characters the two tests at the end of the text count. */
  function Padding(text: seq<Byte>): (n: nat)
    requires |text| >= 4
    ensures n <= 2
  {
    (if text[|text| - 1] == PAD then 1 else 0) + (if text[|text| - 2] == PAD then 1 else 0)
  }

  predicate Canonical(text: seq<Byte>) {
    && |text| > 0 && |text| % 4 == 0
    && (forall i :: 0 <= i < |text| - Padding(text) ==> Digit(text[i]) >= 0)
    && (Padding(text) == 2 ==> Digit(text[|text| - 3]) % 16 == 0)
    && (Padding(text) == 1 ==> Digit(text[|text| - 2]) % 4 == 0)
  }

  /** Decoded size of a canonical text, 0 for every other text. */
  function SizeOf(text: seq<Byte>): (n: nat)
  {
    if Canonical(text) then |text| / 4 * 3 - Padding(text) else 0
  }

  function DecodeGroup(text: seq<Byte>): (raw: seq<Byte>)
    requires |text| == 4 && Canonical(text)
    ensures |raw| == 3 - Padding(text)
  {
    var d0, d1 := Digit(text[0]), Digit(text[1]);
    if Padding(text) == 2 then [d0 * 4 + d1 / 16]
    else
      var d2 := Digit(text[2]);
      if Padding(text) == 1 then [d0 * 4 + d1 / 16, d1 % 16 * 16 + d2 / 4]
      else [d0 * 4 + d1 / 16, d1 % 16 * 16 + d2 / 4, d2 % 4 * 64 + Digit(text[3])]
  }

  lemma DecodeGroupIsInverse(text: seq<Byte>)
    requires |text| == 4 && Canonical(text)
    ensures EncodeGroup(DecodeGroup(text)) == text
  {
    var raw := DecodeGroup(text);
    var d0, d1 := Digit(text[0]), Digit(text[1]);
    assert raw[0] / 4 == d0 && raw[0] % 4 == d1 / 16;
    if Padding(text) < 2 {
      var d2 := Digit(text[2]);
      assert raw[1] / 16 == d1 % 16 && raw[1] % 16 == d2 / 4;
      if Padding(text) == 0 {
        assert raw[2] / 64 == d2 % 4 && raw[2] % 64 == Digit(text[3]);
      }
    }
  }

  lemma EncodeGroupIsCanonical(raw: seq<Byte>)
    requires 1 <= |raw| <= 3
    ensures Canonical(EncodeGroup(raw)) && Padding(EncodeGroup(raw)) == 3 - |raw|
    ensures forall i :: 0 <= i < 4 ==> 33 <= EncodeGroup(raw)[i] <= 126
  {
    var text := EncodeGroup(raw);
    var b1: Byte := if |raw| > 1 then raw[1] else 0;
    var b2: Byte := if |raw| > 2 then raw[2] else 0;
    CharDigit(raw[0] / 4);
    CharDigit(raw[0] % 4 * 16 + b1 / 16);
    CharDigit(b1 % 16 * 4 + b2 / 64);
    CharDigit(b2 % 64);
    GroupIsCanonical(text, |raw|);
  }

  lemma GroupIsCanonical(text: seq<Byte>, n: nat)
    requires |text| == 4 && 1 <= n <= 3
    requires Digit(text[0]) >= 0 && Digit(text[1]) >= 0
    requires if n > 1 then Digit(text[2]) >= 0 else text[2] == PAD
    requires if n > 2 then Digit(text[3]) >= 0 else text[3] == PAD
    requires n == 1 ==> Digit(text[1]) % 16 == 0
    requires n == 2 ==> Digit(text[2]) % 4 == 0
    ensures Canonical(text) && Padding(text) == 3 - n
    ensures forall i :: 0 <= i < 4 ==> 33 <= text[i] <= 126
  {
  }

  function Decode(text: seq<Byte>): (raw: seq<Byte>)
    requires Canonical(text)
    decreases |text|
  {
    if |text| == 4 then DecodeGroup(text)
    else
      TailCanonical(text);
      DecodeGroup(text[..4]) + Decode(text[4..])
  }

  lemma TailCanonical(text: seq<Byte>)
    requires Canonical(text) && |text| > 4
    ensures Canonical(text[4..]) && Padding(text[4..]) == Padding(text)
    ensures Canonical(text[..4]) && Padding(text[..4]) == 0
  {
    var t := text[4..];
    assert forall i :: 0 <= i < |t| ==> t[i] == text[i + 4];
    assert |text| >= 8;
  }

  /** Every canonical text is the encoding of SizeOf bytes. */
  lemma {:induction false} DecodeIsInverse(text: seq<Byte>)
    requires Canonical(text)
    ensures Encode(Decode(text)) == text
    ensures |Decode(text)| == SizeOf(text) > 0
    decreases |text|
  {
    if |text| > 4 {
      TailCanonical(text);
      DecodeGroupIsInverse(text[..4]);
      DecodeIsInverse(text[4..]);
      var raw := Decode(text);
      assert raw[..3] == DecodeGroup(text[..4]) && raw[3..] == Decode(text[4..]);
      assert text == text[..4] + text[4..];
    } else {
      DecodeGroupIsInverse(text);
    }
  }

  /** Every encoding is canonical, printable, and measured correctly. */
  lemma {:induction false} EncodeIsCanonical(raw: seq<Byte>)
    requires |raw| > 0
    ensures Canonical(Encode(raw)) && SizeOf(Encode(raw)) == |raw|
    ensures forall i :: 0 <= i < |Encode(raw)| ==> 33 <= Encode(raw)[i] <= 126
    decreases |raw|
  {
    if |raw| > 3 {
      EncodeGroupIsCanonical(raw[..3]);
      EncodeIsCanonical(raw[3..]);
      ConcatCanonical(EncodeGroup(raw[..3]), Encode(raw[3..]));
    } else {
      EncodeGroupIsCanonical(raw);
    }
  }

  lemma GroupDecodesBack(raw: seq<Byte>)
    requires 1 <= |raw| <= 3
    ensures Canonical(EncodeGroup(raw)) && DecodeGroup(EncodeGroup(raw)) == raw
  {
    hide Char, Digit;
    EncodeGroupIsCanonical(raw);
    var b1: Byte := if |raw| > 1 then raw[1] else 0;
    var b2: Byte := if |raw| > 2 then raw[2] else 0;
    CharDigit(raw[0] / 4);
    CharDigit(raw[0] % 4 * 16 + b1 / 16);
    CharDigit(b1 % 16 * 4 + b2 / 64);
    CharDigit(b2 % 64);
    assert (raw[0] % 4 * 16 + b1 / 16) / 16 == raw[0] % 4 && (raw[0] % 4 * 16 + b1 / 16) % 16 == b1 / 16;
    assert (b1 % 16 * 4 + b2 / 64) / 4 == b1 % 16 && (b1 % 16 * 4 + b2 / 64) % 4 == b2 / 64;
  }

  /** Decoding an encoding gives the bytes back. */
  lemma {:induction false} EncodeIsInjective(raw: seq<Byte>)
    requires |raw| > 0
    ensures Canonical(Encode(raw)) && Decode(Encode(raw)) == raw
    decreases |raw|
  {
    EncodeIsCanonical(raw);
    if |raw| > 3 {
      var group, tail := EncodeGroup(raw[..3]), Encode(raw[3..]);
      GroupDecodesBack(raw[..3]);
      EncodeIsInjective(raw[3..]);
      assert Encode(raw)[..4] == group && Encode(raw)[4..] == tail;
      assert raw == raw[..3] + raw[3..];
    } else {
      GroupDecodesBack(raw);
    }
  }

  lemma ConcatCanonical(group: seq<Byte>, tail: seq<Byte>)
    requires |group| == 4 && Canonical(group) && Padding(group) == 0 && Canonical(tail)
    ensures Canonical(group + tail) && SizeOf(group + tail) == 3 + SizeOf(tail)
  {
    var text := group + tail;
    assert |tail| >= 4;
    assert forall i :: 4 <= i < |text| ==> text[i] == tail[i - 4];
    assert forall i :: 0 <= i < 4 ==> text[i] == group[i];
    assert Padding(text) == Padding(tail);
  }

  /** The size test is exact: n > 0 exactly for the encodings of n bytes. */
  lemma SizeIsExact(text: seq<Byte>, n: nat)
    requires n > 0
    ensures SizeOf(text) == n <==> exists raw: seq<Byte> :: |raw| == n && Encode(raw) == text
  {
    if SizeOf(text) == n { DecodeIsInverse(text); }
    forall raw: seq<Byte> | |raw| == n && Encode(raw) == text
      ensures SizeOf(text) == n
    {
      EncodeIsCanonical(raw);
    }
  }

  /** `b64_size`. A missing value (NULL) has size 0. */
  method Size(text: Option<seq<Byte>>) returns (n: nat)
    ensures n == if text.Some? then SizeOf(text.value) else 0
  {
    if text.None? { return 0; }
    var t := text.value;
    if |t| == 0 || |t| % 4 != 0 { return 0; }
    var padding := 0;
    if t[|t| - 1] == PAD { padding := padding + 1; }
    if t[|t| - 2] == PAD { padding := padding + 1; }
    assert padding == Padding(t);
    var i := 0;
    while i < |t| - padding
      invariant 0 <= i <= |t| - padding
      invariant forall k :: 0 <= k < i ==> Digit(t[k]) >= 0
    {
      if Digit(t[i]) < 0 { return 0; }
      i := i + 1;
    }
    // digit & 15 and digit & 3 of a six bit number
    if (padding == 2 && Digit(t[|t| - 3]) % 16 != 0) || (padding == 1 && Digit(t[|t| - 2]) % 4 != 0) {
      return 0;
    }
    return |t| / 4 * 3 - padding;
  }
}
