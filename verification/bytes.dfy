// Bytes, C strings and the small result types shared by every module.
module Bytes {
  type Byte = x: int | 0 <= x < 256

  const U64_MAX: nat := 0xFFFF_FFFF_FFFF_FFFF

  datatype Option<+T> = None | Some(value: T)

  /** The bytes of an ASCII literal of the source. */
  function Ascii(text: string): (bytes: seq<Byte>)
    requires forall i :: 0 <= i < |text| ==> text[i] < 128 as char
    ensures |bytes| == |text|
  {
    seq(|text|, i requires 0 <= i < |text| => Code(text[i]))
  }

  function Code(c: char): Byte
    requires c < 128 as char
  {
    c as int
  }

  /** What a `const char *` can point at: the bytes before its terminating NUL. */
  ghost predicate NulFree(s: seq<Byte>) {
    forall i :: 0 <= i < |s| ==> s[i] != 0
  }

  /** `strcmp(a, b) > 0` for two C strings: they differ first where a is larger. */
  ghost predicate StrGreater(a: seq<Byte>, b: seq<Byte>) {
    exists i: nat :: FirstDifference(a, b, i) && i < |a| && (i == |b| || a[i] > b[i])
  }

  ghost predicate FirstDifference(a: seq<Byte>, b: seq<Byte>, i: nat) {
    && i <= |a| && i <= |b|
    && (forall k :: 0 <= k < i ==> a[k] == b[k])
    && (i < |a| && i < |b| ==> a[i] != b[i])
  }
}
