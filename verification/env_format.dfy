// The record format of the redundant environment: a four byte checksum, one
// flag byte, then NUL terminated `name=value` entries and one more NUL.
// Decoding is specified through rendering: a payload decodes to the one list
// of well-formed entries whose rendering it starts with.
module EnvFormat {
  import opened Bytes
  import opened Decimals
  import Base64

  const RECORD_SIZE: nat := 16384
  const DATA_SIZE: nat := 16379
  const HEADROOM: nat := 2048
  const MAX_ENTRIES: nat := 256
  const MAX_UPDATES: nat := 64
  const EQUALS: Byte := 61

  const SCHEMA := Ascii("epk_state_schema")
  const GENERATION := Ascii("epk_state_generation")
  const FLOOR := Ascii("epk_os_floor")
  const EPOCH := Ascii("epk_trust_epoch")
  const POLICY := Ascii("epk_trust_policy")
  const POLICY_SIG := Ascii("epk_trust_policy_sig")

  datatype Status = Ok | Invalid | Conflict | Io | Capacity | Overflow

  datatype Entry = Entry(name: seq<Byte>, value: seq<Byte>)

  predicate IsNameChar(c: Byte) {
    65 <= c <= 90 || 97 <= c <= 122 || 48 <= c <= 57 || c == 95 || c == 46 || c == 45 || c == 35
  }

  predicate ValidName(name: seq<Byte>) {
    |name| > 0 && forall i :: 0 <= i < |name| ==> IsNameChar(name[i])
  }

  predicate ValidValue(value: seq<Byte>) {
    forall i :: 0 <= i < |value| ==> 32 <= value[i] <= 126
  }

  predicate ValidEntry(e: Entry) { ValidName(e.name) && ValidValue(e.value) }

  /** What any entry that can be told apart in a payload looks like. */
  predicate Plain(e: Entry) {
    && (forall i :: 0 <= i < |e.name| ==> e.name[i] != 0 && e.name[i] != EQUALS)
    && (forall i :: 0 <= i < |e.value| ==> e.value[i] != 0)
  }

  ghost predicate AllPlain(es: seq<Entry>) {
    forall i :: 0 <= i < |es| ==> Plain(es[i])
  }

  ghost predicate NoDuplicates(es: seq<Entry>) {
    forall i, j :: 0 <= i < j < |es| ==> es[i].name != es[j].name
  }

  ghost predicate WellFormed(es: seq<Entry>) {
    && 0 < |es| <= MAX_ENTRIES
    && (forall i :: 0 <= i < |es| ==> ValidEntry(es[i]))
    && NoDuplicates(es)
  }

  function RenderEntry(e: Entry): (bytes: seq<Byte>)
    ensures |bytes| == |e.name| + |e.value| + 2
  {
    e.name + [EQUALS] + e.value + [0]
  }

  function Render(es: seq<Entry>): seq<Byte> {
    if es == [] then [] else Render(es[..|es| - 1]) + RenderEntry(es[|es| - 1])
  }

  function Block(es: seq<Entry>): seq<Byte> { Render(es) + [0] }

  /** The payload starts with the rendering of these entries. */
  ghost predicate Renders(data: seq<Byte>, es: seq<Entry>) {
    AllPlain(es) && Block(es) <= data
  }

  /** The payload `data` decodes to exactly the entries `es`. */
  ghost predicate Holds(data: seq<Byte>, es: seq<Entry>) {
    WellFormed(es) && Block(es) <= data
  }

  lemma WellFormedIsPlain(es: seq<Entry>)
    requires WellFormed(es)
    ensures AllPlain(es)
  {
    forall i | 0 <= i < |es| ensures Plain(es[i]) { assert ValidEntry(es[i]); }
  }

  lemma {:induction false} RenderPrefix(es: seq<Entry>, k: nat)
    requires k <= |es|
    ensures Render(es[..k]) <= Render(es)
  {
    if k == |es| {
      assert es[..k] == es;
    } else {
      var front := es[..|es| - 1];
      RenderPrefix(front, k);
      assert front[..k] == es[..k];
    }
  }

  lemma RenderSnoc(es: seq<Entry>, e: Entry)
    ensures Render(es + [e]) == Render(es) + RenderEntry(e)
  {
    assert (es + [e])[..|es|] == es;
  }

  // ---- one entry at a position of a payload --------------------------------

  ghost predicate EntryAt(data: seq<Byte>, p: nat, e: Entry) {
    && p + |RenderEntry(e)| < |data|
    && data[p..p + |RenderEntry(e)|] == RenderEntry(e)
  }

  /** Where the `=` and the NUL of an entry stand. */
  lemma EntryShape(data: seq<Byte>, p: nat, e: Entry)
    requires Plain(e) && EntryAt(data, p, e)
    ensures forall i :: p <= i < p + |e.name| + |e.value| + 1 ==> data[i] != 0
    ensures data[p + |e.name| + |e.value| + 1] == 0
    ensures forall i :: p <= i < p + |e.name| ==> data[i] != EQUALS
    ensures data[p + |e.name|] == EQUALS
    ensures data[p..p + |e.name|] == e.name
    ensures data[p + |e.name| + 1..p + |e.name| + 1 + |e.value|] == e.value
  {
    var r := RenderEntry(e);
    var n := |e.name|;
    Window(data, p, r, 0, n);
    Window(data, p, r, n + 1, n + 1 + |e.value|);
    assert r[..n] == e.name && r[n + 1..n + 1 + |e.value|] == e.value;
    WindowAt(data, p, r, n);
    WindowAt(data, p, r, |r| - 1);
    forall i | p <= i < p + n ensures data[i] != EQUALS && data[i] != 0 { WindowAt(data, p, r, i - p); }
    forall i | p + n < i < p + |r| - 1 ensures data[i] != 0 {
      WindowAt(data, p, r, i - p);
      assert r[i - p] == e.value[i - p - n - 1];
    }
  }

  lemma Window(data: seq<Byte>, p: nat, r: seq<Byte>, i: nat, j: nat)
    requires i <= j <= |r| && p + |r| <= |data| && data[p..p + |r|] == r
    ensures data[p + i..p + j] == r[i..j]
  {
    forall k | 0 <= k < j - i ensures data[p + i..p + j][k] == r[i..j][k] { WindowAt(data, p, r, i + k); }
  }

  lemma WindowAt(data: seq<Byte>, p: nat, r: seq<Byte>, i: nat)
    requires i < |r| && p + |r| <= |data| && data[p..p + |r|] == r
    ensures data[p + i] == r[i]
  {
    assert data[p + i] == data[p..p + |r|][i];
  }

  lemma EntryFromShape(data: seq<Byte>, p: nat, equals: nat, end: nat)
    requires p <= equals < end < |data| - 1
    requires data[equals] == EQUALS && data[end] == 0
    ensures EntryAt(data, p, Entry(data[p..equals], data[equals + 1..end]))
    ensures data[..end + 1] == data[..p] + RenderEntry(Entry(data[p..equals], data[equals + 1..end]))
  {
    assert data[p..end + 1] == RenderEntry(Entry(data[p..equals], data[equals + 1..end]));
    assert data[..end + 1] == data[..p] + data[p..end + 1];
  }

  /** A decoding that extends `front` has its next entry right after it. */
  lemma NextEntry(data: seq<Byte>, front: seq<Entry>, es: seq<Entry>, p: nat)
    requires Renders(data, es) && front <= es
    requires p <= |data| && Render(front) == data[..p]
    ensures p < |data|
    ensures data[p] == 0 ==> es == front
    ensures data[p] != 0 ==> |front| < |es| && EntryAt(data, p, es[|front|])
  {
    if |front| == |es| {
      assert es == front;
      assert Block(es)[p] == 0;
    } else {
      EntryAfter(data, front, es);
      EntryShape(data, p, es[|front|]);
    }
  }

  lemma EntryAfter(data: seq<Byte>, front: seq<Entry>, es: seq<Entry>)
    requires Block(es) <= data && front < es
    ensures EntryAt(data, |Render(front)|, es[|front|])
  {
    var e := es[|front|];
    RenderPrefix(es, |front| + 1);
    assert es[..|front| + 1] == front + [e];
    RenderSnoc(front, e);
    PrefixOfBlock(data, Render(front), RenderEntry(e), Render(es));
  }

  lemma PrefixOfBlock(data: seq<Byte>, front: seq<Byte>, entry: seq<Byte>, all: seq<Byte>)
    requires all + [0] <= data && front + entry <= all
    ensures |front| + |entry| < |data|
    ensures data[|front|..|front| + |entry|] == entry
  {
    var r := front + entry;
    assert data[..|r|] == r;
    assert data[..|r|][|front|..] == entry;
  }

  lemma SameEntryAt(data: seq<Byte>, p: nat, e: Entry, f: Entry)
    requires Plain(e) && Plain(f) && EntryAt(data, p, e) && EntryAt(data, p, f)
    ensures e == f
  {
    EntryShape(data, p, e);
    EntryShape(data, p, f);
    assert |e.name| == |f.name|;
    assert |e.value| == |f.value|;
  }

  /** A payload decodes to at most one list of entries. */
  lemma {:induction false} DecodingIsUnique(data: seq<Byte>, es: seq<Entry>, fs: seq<Entry>, k: nat)
    requires Renders(data, es) && Renders(data, fs)
    requires k <= |es| && k <= |fs| && es[..k] == fs[..k]
    ensures es == fs
    decreases |es| - k
  {
    var p := |Render(es[..k])|;
    RenderPrefix(es, k);
    assert Render(es[..k]) == data[..p];
    NextEntry(data, es[..k], es, p);
    NextEntry(data, es[..k], fs, p);
    if data[p] != 0 {
      SameEntryAt(data, p, es[k], fs[k]);
      assert es[..k + 1] == es[..k] + [es[k]];
      DecodingIsUnique(data, es, fs, k + 1);
    }
  }

  lemma HoldsUnique(data: seq<Byte>, es: seq<Entry>, fs: seq<Entry>)
    requires Holds(data, es) && Holds(data, fs)
    ensures es == fs
  {
    WellFormedIsPlain(es);
    WellFormedIsPlain(fs);
    DecodingIsUnique(data, es, fs, 0);
  }

  // ---- reading the entries ---------------------------------------------------

  lemma {:induction false} LookupMember(es: seq<Entry>, name: seq<Byte>, value: seq<Byte>)
    requires NoDuplicates(es)
    ensures Lookup(es, name) == Some(value) <==> Entry(name, value) in es
  {
    var i := LookupFinds(es, name);
    if Entry(name, value) in es {
      var k :| 0 <= k < |es| && es[k] == Entry(name, value);
      LookupAt(es, k);
    }
  }

  /** `get`: the value of the first entry with this name. */
  function Lookup(es: seq<Entry>, name: seq<Byte>): Option<seq<Byte>> {
    if es == [] then None
    else if es[0].name == name then Some(es[0].value)
    else Lookup(es[1..], name)
  }

  lemma {:induction false} LookupAt(es: seq<Entry>, i: nat)
    requires i < |es| && NoDuplicates(es)
    ensures Lookup(es, es[i].name) == Some(es[i].value)
  {
    if i > 0 {
      assert es[0].name != es[i].name;
      LookupAt(es[1..], i - 1);
    }
  }

  lemma {:induction false} LookupFinds(es: seq<Entry>, name: seq<Byte>) returns (i: nat)
    ensures i <= |es|
    ensures i < |es| ==> es[i].name == name && Lookup(es, name) == Some(es[i].value)
    ensures i == |es| ==> Lookup(es, name) == None
    ensures forall k :: 0 <= k < i ==> es[k].name != name
  {
    if es == [] {
      i := 0;
    } else if es[0].name == name {
      i := 0;
    } else {
      var j := LookupFinds(es[1..], name);
      i := j + 1;
      forall k | 0 <= k < i ensures es[k].name != name {
        if k > 0 { assert es[k] == es[1..][k - 1]; }
      }
    }
  }

  /** `critical`: a name that starts with `epk_`. */
  predicate Critical(name: seq<Byte>) {
    |name| >= 4 && name[..4] == Ascii("epk_")
  }

  // ---- the values every accepted record carries -------------------------------

  ghost predicate HasU64(es: seq<Entry>, name: seq<Byte>) {
    Lookup(es, name).Some? && IsU64(Lookup(es, name).value)
  }

  function SizeOfValue(v: Option<seq<Byte>>): nat {
    if v.Some? then Base64.SizeOf(v.value) else 0
  }

  ghost predicate Scalars(es: seq<Entry>) {
    && Lookup(es, SCHEMA) == Some(Ascii("1"))
    && HasU64(es, GENERATION) && HasU64(es, FLOOR) && HasU64(es, EPOCH)
    && 0 < SizeOfValue(Lookup(es, POLICY)) <= 6144
    && SizeOfValue(Lookup(es, POLICY_SIG)) == 64
  }

  ghost function Number(es: seq<Entry>, name: seq<Byte>): nat
    requires HasU64(es, name)
  {
    Value(Lookup(es, name).value)
  }

  function Used(es: seq<Entry>): nat { |Block(es)| }

  /** `parse` accepts the payload and finds these entries. */
  ghost predicate Accepted(data: seq<Byte>, es: seq<Entry>) {
    && |data| == DATA_SIZE
    && Holds(data, es)
    && Used(es) + HEADROOM <= DATA_SIZE
    && Scalars(es)
  }

  ghost function StatusOf(data: seq<Byte>): Status {
    if exists es :: Accepted(data, es) then Ok
    else if exists es :: Holds(data, es) && Used(es) + HEADROOM > DATA_SIZE then Capacity
    else Invalid
  }

  datatype View = View(entries: seq<Entry>, used: nat, generation: nat, floor: nat, epoch: nat)

  ghost function ViewOf(es: seq<Entry>): View
    requires Scalars(es)
  {
    View(es, Used(es), Number(es, GENERATION), Number(es, FLOOR), Number(es, EPOCH))
  }

  /** A view as `parse` fills it. */
  ghost predicate Sensible(v: View) {
    WellFormed(v.entries) && Scalars(v.entries) && v == ViewOf(v.entries)
  }
}
