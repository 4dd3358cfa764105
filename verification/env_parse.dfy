// The strict parser of epk_env.c, proved against the declarative decoding.
module EnvParse {
  import opened Bytes
  import opened Decimals
  import opened EnvFormat
  import Base64

  /** `memchr` over data[from..to]; `to` when the byte does not occur. */
  method MemChr(data: seq<Byte>, from: nat, to: nat, c: Byte) returns (i: nat)
    requires from <= to <= |data|
    ensures from <= i <= to
    ensures i < to ==> data[i] == c
    ensures forall k :: from <= k < i ==> data[k] != c
  {
    i := from;
    while i < to && data[i] != c
      invariant from <= i <= to
      invariant forall k :: from <= k < i ==> data[k] != c
    {
      i := i + 1;
    }
  }

  /** `get` */
  method Get(entries: seq<Entry>, name: seq<Byte>) returns (value: Option<seq<Byte>>)
    ensures value == Lookup(entries, name)
  {
    var i := 0;
    while i < |entries|
      invariant 0 <= i <= |entries|
      invariant Lookup(entries, name) == Lookup(entries[i..], name)
    {
      if entries[i].name == name { return Some(entries[i].value); }
      assert entries[i..][1..] == entries[i + 1..];
      i := i + 1;
    }
    return None;
  }

  ghost predicate Extends(data: seq<Byte>, entries: seq<Entry>) {
    forall es :: Holds(data, es) ==> entries <= es
  }

  lemma NoDecoding(data: seq<Byte>, entries: seq<Entry>, p: nat)
    requires p < |data| && Render(entries) == data[..p] && Extends(data, entries)
    requires data[p] != 0
    requires forall e :: ValidEntry(e) ==> !EntryAt(data, p, e)
    ensures forall es :: !Holds(data, es)
  {
    forall es | Holds(data, es)
      ensures false
    {
      WellFormedIsPlain(es);
      NextEntry(data, entries, es, p);
    }
  }

  lemma OnlyEntry(data: seq<Byte>, entries: seq<Entry>, p: nat, e: Entry)
    requires p < |data| && Render(entries) == data[..p] && Extends(data, entries)
    requires data[p] != 0 && ValidEntry(e) && EntryAt(data, p, e)
    ensures Extends(data, entries + [e])
  {
    forall es | Holds(data, es)
      ensures entries + [e] <= es
    {
      WellFormedIsPlain(es);
      NextEntry(data, entries, es, p);
      SameEntryAt(data, p, e, es[|entries|]);
    }
  }

  /** The entry at `p` that the scan found: end of the value and place of the `=`. */
  ghost predicate Scanned(data: seq<Byte>, p: nat, equals: nat, end: nat) {
    && p <= equals < end < |data|
    && data[end] == 0 && data[equals] == EQUALS
    && (forall k :: p <= k < end ==> data[k] != 0)
    && (forall k :: p <= k < equals ==> data[k] != EQUALS)
  }

  lemma ScanFindsEntry(data: seq<Byte>, p: nat, equals: nat, end: nat, e: Entry)
    requires Scanned(data, p, equals, end) && ValidEntry(e) && EntryAt(data, p, e)
    ensures e == Entry(data[p..equals], data[equals + 1..end]) && end + 1 < |data|
  {
    EntryShape(data, p, e);
    assert p + |e.name| == equals;
    assert equals + 1 + |e.value| == end;
  }

  /** Reads one entry; `ok` is false when there is none at this position. */
  method ParseEntry(data: seq<Byte>, p: nat) returns (ok: bool, entry: Entry, next: nat)
    requires p < |data| && data[p] != 0
    ensures ok && next < |data| ==> ValidEntry(entry) && EntryAt(data, p, entry) && next == p + |RenderEntry(entry)|
    ensures ok ==> ValidEntry(entry) && next <= |data|
    ensures !ok || next >= |data| ==> forall e :: ValidEntry(e) ==> !EntryAt(data, p, e)
    ensures ok && next < |data| ==> data[..next] == data[..p] + RenderEntry(entry)
  {
    entry, next := Entry([], []), p;
    var end := MemChr(data, p, |data|, 0);
    if end == |data| {
      forall e | ValidEntry(e) && EntryAt(data, p, e) ensures false { EntryShape(data, p, e); }
      return false, entry, next;
    }
    var equals := MemChr(data, p, end, EQUALS);
    if equals == end || equals == p {
      forall e | ValidEntry(e) && EntryAt(data, p, e) ensures false { EntryShape(data, p, e); }
      return false, entry, next;
    }
    assert Scanned(data, p, equals, end);
    entry := Entry(data[p..equals], data[equals + 1..end]);
    ghost var found := entry;
    assert forall e :: ValidEntry(e) && EntryAt(data, p, e) ==> e == found && end + 1 < |data| by {
      forall e | ValidEntry(e) && EntryAt(data, p, e) ensures e == found && end + 1 < |data| {
        ScanFindsEntry(data, p, equals, end, e);
      }
    }
    var i := 0;
    while i < |entry.name|
      invariant 0 <= i <= |entry.name|
      invariant forall k :: 0 <= k < i ==> IsNameChar(entry.name[k])
    {
      if !IsNameChar(entry.name[i]) { return false, entry, next; }
      i := i + 1;
    }
    i := equals + 1;
    while i < end
      invariant equals < i <= end
      invariant forall k :: equals < k < i ==> 32 <= data[k] <= 126
    {
      if data[i] < 32 || data[i] > 126 {
        assert entry.value[i - equals - 1] == data[i];
        return false, entry, next;
      }
      i := i + 1;
    }
    next := end + 1;
    if next < |data| { EntryFromShape(data, p, equals, end); }
    return true, entry, next;
  }

  /** The entries read so far are the start of every decoding of this payload. */
  ghost predicate SoFar(data: seq<Byte>, entries: seq<Entry>, position: nat) {
    && position <= |data| && Render(entries) == data[..position]
    && |entries| <= MAX_ENTRIES
    && (forall i :: 0 <= i < |entries| ==> ValidEntry(entries[i]))
    && NoDuplicates(entries) && Extends(data, entries)
  }

  lemma FullIsInvalid(data: seq<Byte>, entries: seq<Entry>, position: nat)
    requires SoFar(data, entries, position) && |entries| == MAX_ENTRIES
    requires position < |data| && data[position] != 0
    ensures StatusOf(data) == Invalid
  {
    forall es: seq<Entry> ensures !Holds(data, es) {
      if Holds(data, es) { WellFormedIsPlain(es); NextEntry(data, entries, es, position); }
    }
  }

  lemma NoEntryIsInvalid(data: seq<Byte>, entries: seq<Entry>, position: nat)
    requires SoFar(data, entries, position) && position < |data| && data[position] != 0
    requires forall e :: ValidEntry(e) ==> !EntryAt(data, position, e)
    ensures StatusOf(data) == Invalid
  {
    NoDecoding(data, entries, position);
  }

  lemma DuplicateIsInvalid(data: seq<Byte>, entries: seq<Entry>, position: nat, entry: Entry, j: nat)
    requires SoFar(data, entries, position) && position < |data| && data[position] != 0
    requires ValidEntry(entry) && EntryAt(data, position, entry)
    requires j < |entries| && entries[j].name == entry.name
    ensures StatusOf(data) == Invalid
  {
    OnlyEntry(data, entries, position, entry);
    forall es: seq<Entry> | entries + [entry] <= es ensures !NoDuplicates(es) {
      assert es[j].name == es[|entries|].name;
    }
    assert forall es :: Holds(data, es) ==> entries + [entry] <= es;
  }

  lemma OneMore(data: seq<Byte>, entries: seq<Entry>, position: nat, entry: Entry, next: nat)
    requires SoFar(data, entries, position) && position < |data| && data[position] != 0
    requires |entries| < MAX_ENTRIES && ValidEntry(entry) && EntryAt(data, position, entry)
    requires next <= |data| && data[..next] == data[..position] + RenderEntry(entry)
    requires forall k :: 0 <= k < |entries| ==> entries[k].name != entry.name
    ensures SoFar(data, entries + [entry], next)
  {
    OnlyEntry(data, entries, position, entry);
    RenderSnoc(entries, entry);
  }

  lemma NoEndIsInvalid(data: seq<Byte>, entries: seq<Entry>, position: nat)
    requires SoFar(data, entries, position)
    requires |entries| == 0 || position == |data|
    requires position < |data| ==> data[position] == 0
    ensures StatusOf(data) == Invalid
  {
    forall es: seq<Entry> ensures !Holds(data, es) {
      if Holds(data, es) { WellFormedIsPlain(es); NextEntry(data, entries, es, position); }
    }
  }

  lemma Decoded(data: seq<Byte>, entries: seq<Entry>, position: nat)
    requires SoFar(data, entries, position) && entries != [] && |data| == DATA_SIZE
    requires position < |data| && data[position] == 0
    ensures WellFormed(entries) && Used(entries) == position + 1
    ensures StatusOf(data) == if position + 1 + HEADROOM > DATA_SIZE then Capacity
                              else if Scalars(entries) then Ok else Invalid
    ensures StatusOf(data) == Ok ==> Accepted(data, entries)
  {
    hide Scalars;
    assert Block(entries) == data[..position + 1];
    assert Holds(data, entries);
    forall es | Holds(data, es) ensures es == entries { HoldsUnique(data, es, entries); }
    assert forall es :: Accepted(data, es) ==> es == entries;
    assert Used(entries) == position + 1;
    assert Accepted(data, entries) <==> position + 1 + HEADROOM <= DATA_SIZE && Scalars(entries);
  }

  /** `parse`: the status, and on success the view, are those of the decoding. */
  method Parse(data: seq<Byte>) returns (status: Status, view: View)
    requires |data| == DATA_SIZE
    ensures status == StatusOf(data)
    ensures status == Ok ==> Accepted(data, view.entries) && view == ViewOf(view.entries)
  {
    view := View([], 0, 0, 0, 0);
    var entries: seq<Entry> := [];
    var position := 0;
    assert SoFar(data, entries, 0);
    hide SoFar, StatusOf, EntryAt, ValidEntry, Accepted;
    while position < DATA_SIZE && data[position] != 0
      invariant 0 <= position <= DATA_SIZE
      invariant SoFar(data, entries, position) && |entries| <= MAX_ENTRIES
      decreases DATA_SIZE - position
    {
      if |entries| == MAX_ENTRIES {
        FullIsInvalid(data, entries, position);
        return Invalid, view;
      }
      var ok, entry, next := ParseEntry(data, position);
      if !ok || next >= DATA_SIZE {     // an entry that ends there leaves no room for the last NUL
        NoEntryIsInvalid(data, entries, position);
        return Invalid, view;
      }
      var j := 0;
      while j < |entries|
        invariant 0 <= j <= |entries|
        invariant forall k :: 0 <= k < j ==> entries[k].name != entry.name
      {
        if entry.name == entries[j].name {
          DuplicateIsInvalid(data, entries, position, entry, j);
          return Invalid, view;
        }
        j := j + 1;
      }
      OneMore(data, entries, position, entry, next);
      entries, position := entries + [entry], next;
    }
    if |entries| == 0 || position >= DATA_SIZE || data[position] != 0 {
      NoEndIsInvalid(data, entries, position);
      return Invalid, view;
    }
    Decoded(data, entries, position);
    status, view := ReadScalars(entries, position + 1);
  }

  /** The end of `parse`: headroom, and the values every record must carry. */
  method ReadScalars(entries: seq<Entry>, used: nat) returns (status: Status, view: View)
    requires WellFormed(entries) && used == Used(entries) <= DATA_SIZE
    ensures status == if used + HEADROOM > DATA_SIZE then Capacity else if Scalars(entries) then Ok else Invalid
    ensures status == Ok ==> view == ViewOf(entries)
  {
    hide Lookup, IsU64, Value;
    view := View([], 0, 0, 0, 0);
    if DATA_SIZE - used < HEADROOM { return Capacity, view; }
    var schema := Get(entries, SCHEMA);
    if schema != Some(Ascii("1")) { return Invalid, view; }
    var okGeneration, generation := GetDecimal(entries, GENERATION);
    var okFloor, floor := GetDecimal(entries, FLOOR);
    var okEpoch, epoch := GetDecimal(entries, EPOCH);
    if !okGeneration || !okFloor || !okEpoch { return Invalid, view; }
    var policy := Get(entries, POLICY);
    var policySize := Base64.Size(policy);
    var signature := Get(entries, POLICY_SIG);
    var signatureSize := Base64.Size(signature);
    if policySize == 0 || policySize > 6144 || signatureSize != 64 { return Invalid, view; }
    return Ok, View(entries, used, generation, floor, epoch);
  }

  /** `decimal(get(view, name), &out)`; a missing value is refused. */
  method GetDecimal(entries: seq<Entry>, name: seq<Byte>) returns (ok: bool, out: nat)
    requires forall i :: 0 <= i < |entries| ==> ValidEntry(entries[i])
    ensures ok <==> HasU64(entries, name)
    ensures ok ==> out == Number(entries, name)
  {
    var text := Get(entries, name);
    if text.None? { return false, 0; }
    var i := LookupFinds(entries, name);
    ok, out := Decimal(text.value);
  }
}
