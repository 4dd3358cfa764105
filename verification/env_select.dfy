// Two checksummed copies of the environment and the choice between them.
module EnvSelect {
  import opened Bytes
  import opened EnvFormat
  import opened EnvParse
  import Crc

  type Record = r: seq<Byte> | |r| == RECORD_SIZE witness seq(RECORD_SIZE, _ => 0)

  function Data(r: Record): (data: seq<Byte>)
    ensures |data| == DATA_SIZE
  {
    r[5..]
  }

  function Flag(r: Record): Byte { r[4] }

  /** The stored checksum: four bytes, least significant first. */
  function Stored(b0: Byte, b1: Byte, b2: Byte, b3: Byte): int {
    b0 as int + 0x100 * b1 as int + 0x1_0000 * b2 as int + 0x100_0000 * b3 as int
  }

  /** `crc_valid` */
  predicate CrcValid(r: Record) {
    Stored(r[0], r[1], r[2], r[3]) == Crc.Checksum(Data(r))
  }

  /** `set_crc` writes the four bytes of the checksum. */
  function StoredBytes(c: nat): (b: (Byte, Byte, Byte, Byte))
    requires c < 0x1_0000_0000
    ensures Stored(b.0, b.1, b.2, b.3) == c
  {
    var c1 := c / 0x100;
    var c2 := c1 / 0x100;
    (c % 0x100, c1 % 0x100, c2 % 0x100, c2 / 0x100)
  }

  /** A record with this flag and payload whose checksum is right. */
  function Sealed(flag: Byte, data: seq<Byte>): (r: Record)
    requires |data| == DATA_SIZE
    ensures CrcValid(r) && Flag(r) == flag && Data(r) == data
  {
    var b := StoredBytes(Crc.Checksum(data));
    var r := [b.0, b.1, b.2, b.3, flag] + data;
    assert r[5..] == data;
    r
  }

  lemma StoredIsInjective(a0: Byte, a1: Byte, a2: Byte, a3: Byte, b0: Byte, b1: Byte, b2: Byte, b3: Byte)
    requires Stored(a0, a1, a2, a3) == Stored(b0, b1, b2, b3)
    ensures a0 == b0 && a1 == b1 && a2 == b2 && a3 == b3
  {
  }

  /** A flag and a payload determine the checksummed record. */
  lemma SealedIsUnique(r: Record, flag: Byte, data: seq<Byte>)
    requires CrcValid(r) && Flag(r) == flag && Data(r) == data
    ensures r == Sealed(flag, data)
  {
    var s := Sealed(flag, data);
    StoredIsInjective(r[0], r[1], r[2], r[3], s[0], s[1], s[2], s[3]);
    assert r == [r[0], r[1], r[2], r[3], r[4]] + Data(r);
    assert s == [s[0], s[1], s[2], s[3], s[4]] + Data(s);
  }

  ghost function Entries(r: Record): (es: seq<Entry>)
    requires StatusOf(Data(r)) == Ok
    ensures Accepted(Data(r), es)
  {
    var es :| Accepted(Data(r), es);
    es
  }

  lemma EntriesUnique(r: Record, es: seq<Entry>)
    requires Accepted(Data(r), es)
    ensures StatusOf(Data(r)) == Ok && Entries(r) == es
  {
    HoldsUnique(Data(r), es, Entries(r));
  }

  /** What `parse` finds in a record it accepts. */
  ghost function Parsed(r: Record): (v: View)
    requires StatusOf(Data(r)) == Ok
    ensures Sensible(v) && v.entries == Entries(r)
  {
    ViewOf(Entries(r))
  }

  ghost predicate SameCritical(a: seq<Entry>, b: seq<Entry>) {
    forall name :: Critical(name) ==> Lookup(a, name) == Lookup(b, name)
  }

  /** `not_older`: floor and epoch did not fall, and one epoch has one policy. */
  ghost predicate NotOlder(newer: View, older: View) {
    && newer.floor >= older.floor
    && newer.epoch >= older.epoch
    && (newer.epoch == older.epoch ==> SamePolicy(newer.entries, older.entries))
  }

  ghost predicate SamePolicy(a: seq<Entry>, b: seq<Entry>) {
    Lookup(a, POLICY) == Lookup(b, POLICY) && Lookup(a, POLICY_SIG) == Lookup(b, POLICY_SIG)
  }

  datatype Card = Card(a: Record, b: Record) {
    function At(i: nat): Record { if i == 0 then a else b }

    function With(i: nat, r: Record): (c: Card)
      ensures c.At(if i == 0 then 0 else 1) == r
      ensures c.At(if i == 0 then 1 else 0) == At(if i == 0 then 1 else 0)
    {
      if i == 0 then Card(r, b) else Card(a, r)
    }
  }

  datatype Choice = Refused(status: Status) | Chosen(index: nat)

  /** What a reader makes of one copy. */
  datatype Copy = Damaged | Undecodable(status: Status) | Sound(flag: Byte, view: View)

  ghost function Look(r: Record): (copy: Copy)
    ensures copy.Sound? ==> Sensible(copy.view)
    ensures copy.Undecodable? ==> copy.status in {Invalid, Capacity}
  {
    if !CrcValid(r) then Damaged
    else if StatusOf(Data(r)) != Ok then Undecodable(StatusOf(Data(r)))
    else Sound(Flag(r), Parsed(r))
  }

  /** Which flag byte is ahead: U-Boot's incremental flag, including 255 -> 0. */
  function FlagChoice(a: Byte, b: Byte): nat {
    if a == 255 && b == 0 then 1
    else if a == 0 && b == 255 then 0
    else if b > a then 1 else 0
  }

  /** A copy with a good checksum that does not parse decides by itself. */
  function Refusal(copy: Copy): Choice {
    Refused(if copy.Undecodable? then copy.status else Invalid)
  }

  /** The decision of `epk_env_select` on two copies. */
  ghost function Pick(a: Copy, b: Copy): (r: Choice)
    ensures r.Chosen? ==> r.index < 2 && (if r.index == 0 then a else b).Sound?
    ensures r.Refused? ==> r.status in {Invalid, Conflict} || r == Refusal(a) || r == Refusal(b)
  {
    if a.Undecodable? then Refusal(a)
    else if b.Undecodable? then Refusal(b)
    else if a.Damaged? && b.Damaged? then Refused(Invalid)
    else if b.Damaged? then Chosen(0)
    else if a.Damaged? then Chosen(1)
    else if b.view.generation > a.view.generation then
      if NotOlder(b.view, a.view) then Chosen(1) else Refused(Conflict)
    else if a.view.generation > b.view.generation then
      if NotOlder(a.view, b.view) then Chosen(0) else Refused(Conflict)
    else if !SameCritical(a.view.entries, b.view.entries) then Refused(Conflict)
    else Chosen(FlagChoice(a.flag, b.flag))
  }

  ghost function Choose(c: Card): (r: Choice)
    ensures r.Chosen? ==> r.index < 2 && Look(c.At(r.index)).Sound?
    ensures r.Refused? ==> r.status in {Invalid, Capacity, Conflict}
  {
    Pick(Look(c.a), Look(c.b))
  }

  /** What a selecting card holds. */
  ghost function State(c: Card): (v: View)
    requires Choose(c).Chosen?
    ensures Sensible(v)
  {
    Look(c.At(Choose(c).index)).view
  }

  datatype Selection = Selection(index: nat, generation: nat, floor: nat, epoch: nat, used: nat)

  /** `selection`: what is reported about the chosen record. */
  ghost function Report(c: Card): Selection
    requires Choose(c).Chosen?
  {
    var v := State(c);
    Selection(Choose(c).index, v.generation, v.floor, v.epoch, v.used)
  }

  // ---- methods -----------------------------------------------------------------

  lemma SameCriticalByEntries(a: seq<Entry>, b: seq<Entry>)
    requires NoDuplicates(a) && NoDuplicates(b)
    requires forall i :: 0 <= i < |a| && Critical(a[i].name) ==> Lookup(b, a[i].name) == Some(a[i].value)
    requires forall i :: 0 <= i < |b| && Critical(b[i].name) ==> Lookup(a, b[i].name) != None
    ensures SameCritical(a, b)
  {
    forall name | Critical(name) ensures Lookup(a, name) == Lookup(b, name) {
      var i := LookupFinds(a, name);
      var j := LookupFinds(b, name);
    }
  }

  /** `same_critical` */
  method CheckSameCritical(a: seq<Entry>, b: seq<Entry>) returns (same: bool)
    requires NoDuplicates(a) && NoDuplicates(b)
    ensures same <==> SameCritical(a, b)
  {
    var i := 0;
    while i < |a|
      invariant 0 <= i <= |a|
      invariant forall k :: 0 <= k < i && Critical(a[k].name) ==> Lookup(b, a[k].name) == Some(a[k].value)
    {
      if Critical(a[i].name) {
        var other := Get(b, a[i].name);
        LookupAt(a, i);
        if other == None || other.value != a[i].value { return false; }
      }
      i := i + 1;
    }
    i := 0;
    while i < |b|
      invariant 0 <= i <= |b|
      invariant forall k :: 0 <= k < i && Critical(b[k].name) ==> Lookup(a, b[k].name) != None
    {
      if Critical(b[i].name) {
        var other := Get(a, b[i].name);
        LookupAt(b, i);
        if other == None { return false; }
      }
      i := i + 1;
    }
    SameCriticalByEntries(a, b);
    return true;
  }

  /** `not_older` on two parsed views. */
  method CheckNotOlder(newer: View, older: View) returns (ok: bool)
    ensures ok <==> NotOlder(newer, older)
  {
    if newer.floor < older.floor || newer.epoch < older.epoch { return false; }
    if newer.epoch == older.epoch {
      var p := Get(newer.entries, POLICY);
      var q := Get(older.entries, POLICY);
      if p != q { return false; }
      p := Get(newer.entries, POLICY_SIG);
      q := Get(older.entries, POLICY_SIG);
      if p != q { return false; }
    }
    return true;
  }

  /** One turn of the first loop of `epk_env_select`. */
  method Inspect(r: Record) returns (valid: bool, status: Status, view: View)
    ensures match Look(r)
            case Damaged => !valid && status == Ok
            case Undecodable(s) => valid && status == s
            case Sound(_, v) => valid && status == Ok && view == v && Look(r).flag == r[4]
  {
    status, view := Ok, View([], 0, 0, 0, 0);
    valid := CrcValid(r);
    if valid {
      status, view := Parse(Data(r));
      if status == Ok { EntriesUnique(r, view.entries); }
    }
  }

  /** `epk_env_select` */
  method Select(a: Record, b: Record) returns (status: Status, out: Selection)
    ensures match Choose(Card(a, b))
            case Refused(s) => status == s
            case Chosen(_) => status == Ok && out == Report(Card(a, b))
  {
    hide Look, CrcValid;
    out := Selection(0, 0, 0, 0, 0);
    var validA, validB, viewA, viewB;
    validA, status, viewA := Inspect(a);
    if status != Ok { return; }
    validB, status, viewB := Inspect(b);
    if status != Ok { return; }
    var chosen: nat;
    if !validA && !validB { return Invalid, out; }
    if !validA || !validB {
      chosen := if validA then 0 else 1;
    } else if viewA.generation != viewB.generation {
      chosen := if viewB.generation > viewA.generation then 1 else 0;
      var ok: bool;
      if chosen == 1 { ok := CheckNotOlder(viewB, viewA); } else { ok := CheckNotOlder(viewA, viewB); }
      if !ok { return Conflict, out; }
    } else {
      var same := CheckSameCritical(viewA.entries, viewB.entries);
      if !same { return Conflict, out; }
      if a[4] == 255 && b[4] == 0 { chosen := 1; }
      else if a[4] == 0 && b[4] == 255 { chosen := 0; }
      else { chosen := if b[4] > a[4] then 1 else 0; }
    }
    var view := if chosen == 1 then viewB else viewA;
    return Ok, Selection(chosen, view.generation, view.floor, view.epoch, view.used);
  }
}
