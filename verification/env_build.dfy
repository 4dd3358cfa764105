// `build`: applies a list of updates to the entries of one record.
module EnvBuild {
  import opened Bytes
  import opened Decimals
  import opened EnvFormat
  import opened EnvParse
  import opened EnvSelect
  import Crc

  /** `struct epk_env_update`; None deletes. A NULL name and an empty one are
      refused on the same branch, so both are the empty name here. */
  datatype Update = Update(name: seq<Byte>, value: Option<seq<Byte>>)

  /** What C strings can carry. */
  ghost predicate CStrings(us: seq<Update>) {
    forall j :: 0 <= j < |us| ==> NulFree(us[j].name) && (us[j].value.Some? ==> NulFree(us[j].value.value))
  }

  ghost predicate GoodNames(us: seq<Update>) {
    && (forall j :: 0 <= j < |us| ==> us[j].name != [] && us[j].name != GENERATION)
    && (forall i, j :: 0 <= i < j < |us| ==> us[i].name != us[j].name)
  }

  /** `changed_critical` */
  ghost predicate ChangesCritical(cur: seq<Entry>, us: seq<Update>) {
    exists j :: 0 <= j < |us| && Critical(us[j].name) && Lookup(cur, us[j].name) != us[j].value
  }

  function FindUpdate(us: seq<Update>, name: seq<Byte>): Option<Update> {
    if us == [] then None
    else if us[0].name == name then Some(us[0])
    else FindUpdate(us[1..], name)
  }

  lemma {:induction false} FindUpdateMember(us: seq<Update>, name: seq<Byte>)
    ensures match FindUpdate(us, name)
            case Some(u) => u in us && u.name == name
            case None => forall u :: u in us ==> u.name != name
  {
    if us != [] && us[0].name != name { FindUpdateMember(us[1..], name); }
  }

  /** The value an cur entry ends with; None when it is deleted. */
  function Desired(e: Entry, us: seq<Update>, generation: seq<Byte>): Option<seq<Byte>> {
    if e.name == GENERATION then Some(generation)
    else match FindUpdate(us, e.name)
      case Some(u) => u.value
      case None => Some(e.value)
  }

  function Kept(cur: seq<Entry>, us: seq<Update>, generation: seq<Byte>): seq<Entry> {
    if cur == [] then []
    else
      var last := cur[|cur| - 1];
      var value := Desired(last, us, generation);
      Kept(cur[..|cur| - 1], us, generation) + (if value.Some? then [Entry(last.name, value.value)] else [])
  }

  function Added(cur: seq<Entry>, us: seq<Update>): seq<Entry> {
    if us == [] then []
    else
      var last := us[|us| - 1];
      Added(cur, us[..|us| - 1]) +
      (if Lookup(cur, last.name) == None && last.value.Some? then [Entry(last.name, last.value.value)] else [])
  }

  ghost function NextGeneration(cur: seq<Entry>, us: seq<Update>): nat
    requires Scalars(cur)
  {
    Number(cur, GENERATION) + (if ChangesCritical(cur, us) then 1 else 0)
  }

  /** The entries in the order `build` appends them. */
  ghost function Next(cur: seq<Entry>, us: seq<Update>): seq<Entry>
    requires Scalars(cur)
  {
    Kept(cur, us, Digits(NextGeneration(cur, us))) + Added(cur, us)
  }

  function Padded(block: seq<Byte>): (data: seq<Byte>)
    requires |block| <= DATA_SIZE
    ensures |data| == DATA_SIZE
  {
    block + seq(DATA_SIZE - |block|, _ => 0)
  }

  ghost function Payload(cur: seq<Entry>, us: seq<Update>): (data: seq<Byte>)
    requires Scalars(cur) && Used(Next(cur, us)) <= DATA_SIZE
    ensures |data| == DATA_SIZE
  {
    Padded(Block(Next(cur, us)))
  }

  /** The status of `build` on a record that holds the entries `cur`. */
  ghost function BuildStatus(cur: seq<Entry>, us: seq<Update>): Status
    requires Scalars(cur)
  {
    if !GoodNames(us) then Invalid
    else if ChangesCritical(cur, us) && Number(cur, GENERATION) == U64_MAX then Overflow
    else if Used(Next(cur, us)) > DATA_SIZE then Capacity
    else if StatusOf(Payload(cur, us)) != Ok then StatusOf(Payload(cur, us))
    else if !NotOlder(ViewOf(Result(cur, us)), ViewOf(cur)) then Conflict
    else Ok
  }

  /** What the built payload decodes to. */
  ghost function Result(cur: seq<Entry>, us: seq<Update>): (es: seq<Entry>)
    requires Scalars(cur) && Used(Next(cur, us)) <= DATA_SIZE && StatusOf(Payload(cur, us)) == Ok
    ensures Accepted(Payload(cur, us), es)
  {
    Entries(Sealed(0, Payload(cur, us)))
  }

  // ---- what the lists contain -----------------------------------------------------

  lemma {:induction false} KeptMember(cur: seq<Entry>, us: seq<Update>, generation: seq<Byte>, e: Entry)
    ensures e in Kept(cur, us, generation) <==>
            exists o :: o in cur && o.name == e.name && Desired(o, us, generation) == Some(e.value)
  {
    if cur != [] {
      var front, last := cur[..|cur| - 1], cur[|cur| - 1];
      KeptMember(front, us, generation, e);
      assert cur == front + [last];
      assert last in cur && forall o :: o in front ==> o in cur;
    }
  }

  lemma {:induction false} AddedMember(cur: seq<Entry>, us: seq<Update>, e: Entry)
    ensures e in Added(cur, us) <==> Lookup(cur, e.name) == None && Update(e.name, Some(e.value)) in us
  {
    if us != [] {
      var front, last := us[..|us| - 1], us[|us| - 1];
      AddedMember(cur, front, e);
      assert us == front + [last];
    }
  }

  lemma LookupNoneNotMember(es: seq<Entry>, name: seq<Byte>)
    ensures Lookup(es, name) == None <==> forall e :: e in es ==> e.name != name
  {
    var i := LookupFinds(es, name);
    if i < |es| { assert es[i] in es; }
  }

  /** Membership in the list `build` appends, name by name. */
  lemma NextMember(cur: seq<Entry>, us: seq<Update>, e: Entry)
    requires Scalars(cur) && NoDuplicates(cur)
    ensures e in Next(cur, us) <==>
            match Lookup(cur, e.name)
            case Some(v) => Desired(Entry(e.name, v), us, Digits(NextGeneration(cur, us))) == Some(e.value)
            case None => Update(e.name, Some(e.value)) in us
  {
    var generation := Digits(NextGeneration(cur, us));
    KeptMember(cur, us, generation, e);
    AddedMember(cur, us, e);
    LookupNoneNotMember(cur, e.name);
    match Lookup(cur, e.name) {
      case Some(v) =>
        LookupMember(cur, e.name, v);
        forall o | o in cur && o.name == e.name ensures o == Entry(e.name, v) {
          LookupMember(cur, o.name, o.value);
        }
        assert Entry(e.name, v) in cur;
      case None =>
    }
  }

  // ---- names that contain an equals sign ------------------------------------------

  function FirstEquals(name: seq<Byte>): (k: nat)
    ensures k <= |name|
    ensures k < |name| ==> name[k] == EQUALS
    ensures forall i :: 0 <= i < k ==> name[i] != EQUALS
  {
    if name == [] || name[0] == EQUALS then 0 else 1 + FirstEquals(name[1..])
  }

  /** How a reader splits the bytes of a rendered entry: at its first `=`. */
  function Normal(e: Entry): (n: Entry) {
    var k := FirstEquals(e.name);
    if k == |e.name| then e else Entry(e.name[..k], e.name[k + 1..] + [EQUALS] + e.value)
  }

  function NormalAll(es: seq<Entry>): (ns: seq<Entry>)
    ensures |ns| == |es|
    ensures forall i :: 0 <= i < |es| ==> ns[i] == Normal(es[i])
  {
    if es == [] then [] else NormalAll(es[..|es| - 1]) + [Normal(es[|es| - 1])]
  }

  lemma NormalRendersAlike(e: Entry)
    ensures RenderEntry(Normal(e)) == RenderEntry(e)
  {
    var k := FirstEquals(e.name);
    if k < |e.name| { assert e.name == e.name[..k] + [EQUALS] + e.name[k + 1..]; }
  }

  lemma {:induction false} NormalAllRendersAlike(es: seq<Entry>)
    ensures Render(NormalAll(es)) == Render(es)
  {
    if es != [] {
      NormalAllRendersAlike(es[..|es| - 1]);
      NormalRendersAlike(es[|es| - 1]);
      RenderSnoc(NormalAll(es[..|es| - 1]), Normal(es[|es| - 1]));
    }
  }

  ghost predicate CEntries(es: seq<Entry>) {
    forall e :: e in es ==> NulFree(e.name) && NulFree(e.value)
  }

  lemma ValidEntriesAreC(es: seq<Entry>)
    requires WellFormed(es)
    ensures CEntries(es)
  {
    forall e | e in es ensures NulFree(e.name) && NulFree(e.value) {
      var i :| 0 <= i < |es| && es[i] == e;
      assert ValidEntry(es[i]);
    }
  }

  lemma NextIsC(cur: seq<Entry>, us: seq<Update>)
    requires Scalars(cur) && WellFormed(cur) && CStrings(us)
    ensures CEntries(Next(cur, us))
  {
    ValidEntriesAreC(cur);
    var generation := Digits(NextGeneration(cur, us));
    forall e | e in Next(cur, us) ensures NulFree(e.name) && NulFree(e.value) {
      NextMember(cur, us, e);
      LookupNoneNotMember(cur, e.name);
      FindUpdateMember(us, e.name);
      if Lookup(cur, e.name).Some? {
        LookupMember(cur, e.name, Lookup(cur, e.name).value);
        assert AllDigits(generation);
      }
    }
  }

  lemma NormalIsPlain(e: Entry)
    requires NulFree(e.name) && NulFree(e.value)
    ensures Plain(Normal(e))
  {
  }

  /** A rendered list of C strings that parses decodes to its normal form. */
  lemma DecodingIsNormal(data: seq<Byte>, es: seq<Entry>, ds: seq<Entry>)
    requires CEntries(es) && Block(es) <= data && Holds(data, ds)
    ensures ds == NormalAll(es)
  {
    hide Render, NormalAll, Normal;
    var ns := NormalAll(es);
    forall i | 0 <= i < |ns| ensures Plain(ns[i]) {
      assert es[i] in es;
      NormalIsPlain(es[i]);
    }
    NormalAllRendersAlike(es);
    WellFormedIsPlain(ds);
    DecodingIsUnique(data, ns, ds, 0);
  }

  lemma ResultIsNormal(cur: seq<Entry>, us: seq<Update>)
    requires Scalars(cur) && WellFormed(cur) && CStrings(us)
    requires Used(Next(cur, us)) <= DATA_SIZE && StatusOf(Payload(cur, us)) == Ok
    ensures Result(cur, us) == NormalAll(Next(cur, us))
  {
    NextIsC(cur, us);
    DecodingIsNormal(Payload(cur, us), Next(cur, us), Result(cur, us));
  }

  lemma NormalMember(es: seq<Entry>, name: seq<Byte>, value: seq<Byte>)
    requires EQUALS !in name
    ensures Entry(name, value) in es ==> Entry(name, value) in NormalAll(es)
    ensures Entry(name, value) in NormalAll(es) ==> exists e :: e in es && Normal(e) == Entry(name, value)
  {
    var ns := NormalAll(es);
    if Entry(name, value) in es {
      var i :| 0 <= i < |es| && es[i] == Entry(name, value);
      assert ns[i] == Normal(es[i]) == es[i];
    }
    if Entry(name, value) in ns {
      var i :| 0 <= i < |ns| && ns[i] == Entry(name, value);
      assert es[i] in es && Normal(es[i]) == Entry(name, value);
    }
  }

  // ---- properties of a successful build -------------------------------------------

  /** With names that cannot be split differently, building then parsing is the
      identity: each name ends with its update, or as it was. (A build that ends in
      CONFLICT was already parsed.) */
  lemma BuildThenParse(cur: seq<Entry>, us: seq<Update>, name: seq<Byte>)
    requires Scalars(cur) && WellFormed(cur) && CStrings(us) && BuildStatus(cur, us) in {Ok, Conflict}
    requires forall j :: 0 <= j < |us| ==> EQUALS !in us[j].name
    ensures Result(cur, us) == Next(cur, us)
    ensures Used(Result(cur, us)) + HEADROOM <= DATA_SIZE
    ensures Lookup(Result(cur, us), name) ==
            if name == GENERATION then Some(Digits(NextGeneration(cur, us)))
            else if FindUpdate(us, name).Some? then FindUpdate(us, name).value.value
            else Lookup(cur, name)
  {
    assert GoodNames(us) && StatusOf(Payload(cur, us)) == Ok;
    hide StatusOf, Lookup, Render, NotOlder, BuildStatus, Kept, Added, NormalAll, ChangesCritical, GoodNames;
    ResultIsNormal(cur, us);
    NextIsNormal(cur, us);
    LookupNext(cur, us, name);
  }

  lemma NextIsNormal(cur: seq<Entry>, us: seq<Update>)
    requires Scalars(cur) && WellFormed(cur) && forall j :: 0 <= j < |us| ==> EQUALS !in us[j].name
    ensures NormalAll(Next(cur, us)) == Next(cur, us)
  {
    hide Lookup, Kept, Added, ChangesCritical;
    var next := Next(cur, us);
    forall i | 0 <= i < |next| ensures Normal(next[i]) == next[i] {
      var e := next[i];
      assert e in next;
      NextMember(cur, us, e);
      if Lookup(cur, e.name).Some? { ValidNameHasNoEquals(cur, e.name); }
    }
  }

  lemma ValidNameHasNoEquals(es: seq<Entry>, name: seq<Byte>)
    requires WellFormed(es) && Lookup(es, name).Some?
    ensures EQUALS !in name && ValidName(name)
  {
    var i := LookupFinds(es, name);
    assert ValidEntry(es[i]);
  }

  lemma LookupNext(cur: seq<Entry>, us: seq<Update>, name: seq<Byte>)
    requires Scalars(cur) && NoDuplicates(cur) && GoodNames(us) && NoDuplicates(Next(cur, us))
    ensures Lookup(Next(cur, us), name) ==
            if name == GENERATION then Some(Digits(NextGeneration(cur, us)))
            else if FindUpdate(us, name).Some? then FindUpdate(us, name).value.value
            else Lookup(cur, name)
  {
    var next := Next(cur, us);
    FindUpdateMember(us, name);
    forall value ensures Lookup(next, name) == Some(value) <==> Entry(name, value) in next {
      LookupMember(next, name, value);
    }
    forall value {
      NextMember(cur, us, Entry(name, value));
    }
    forall value: seq<Byte> | Update(name, Some(value)) in us
      ensures FindUpdate(us, name) == Some(Update(name, Some(value)))
    {
      var i :| 0 <= i < |us| && us[i] == Update(name, Some(value));
      var u := FindUpdate(us, name).value;
      var j :| 0 <= j < |us| && us[j] == u;
    }
    if Lookup(next, name).Some? {
      var v := Lookup(next, name).value;
      assert Entry(name, v) in next;
    }
  }

  /** The generation advances by one exactly when a critical entry changed. */
  lemma ResultGeneration(cur: seq<Entry>, us: seq<Update>)
    requires Scalars(cur) && WellFormed(cur) && CStrings(us) && BuildStatus(cur, us) == Ok
    ensures Lookup(Result(cur, us), GENERATION) == Some(Digits(NextGeneration(cur, us)))
    ensures Number(Result(cur, us), GENERATION) == NextGeneration(cur, us) <= U64_MAX
  {
    var g := Digits(NextGeneration(cur, us));
    ValueOfDigits(NextGeneration(cur, us));
    NextMember(cur, us, Entry(GENERATION, g));
    ResultIsNormal(cur, us);
    ValidNameHasNoEquals(cur, GENERATION);
    NormalMember(Next(cur, us), GENERATION, g);
    LookupMember(Result(cur, us), GENERATION, g);
  }

  lemma UnchangedUpdate(cur: seq<Entry>, us: seq<Update>, name: seq<Byte>)
    requires !ChangesCritical(cur, us) && Critical(name)
    ensures match FindUpdate(us, name)
            case Some(u) => u.value == Lookup(cur, name)
            case None => true
    ensures forall v: seq<Byte> :: Update(name, Some(v)) in us ==> Lookup(cur, name) == Some(v)
  {
    FindUpdateMember(us, name);
    forall u | u in us && u.name == name ensures u.value == Lookup(cur, name) {
      var j :| 0 <= j < |us| && us[j] == u;
      assert Critical(us[j].name);
    }
  }

  /** A build that changes no critical entry keeps every critical value, whatever
      bytes the update names contain. */
  lemma UnchangedKeepsCritical(cur: seq<Entry>, us: seq<Update>)
    requires Scalars(cur) && WellFormed(cur) && CStrings(us) && BuildStatus(cur, us) == Ok
    requires !ChangesCritical(cur, us)
    ensures SameCritical(Result(cur, us), cur)
  {
    forall name | Critical(name)
      ensures Lookup(Result(cur, us), name) == Lookup(cur, name)
    {
      if EQUALS in name {
        NoSuchName(cur, name);
        NoSuchName(Result(cur, us), name);
      } else {
        if Lookup(cur, name).Some? { KeepsCritical(cur, us, name); }
        if Lookup(Result(cur, us), name).Some? { AddsNoCritical(cur, us, name); }
      }
    }
  }

  lemma NoSuchName(es: seq<Entry>, name: seq<Byte>)
    requires WellFormed(es) && EQUALS in name
    ensures Lookup(es, name) == None
  {
    if Lookup(es, name).Some? { ValidNameHasNoEquals(es, name); }
  }

  lemma KeepsCritical(cur: seq<Entry>, us: seq<Update>, name: seq<Byte>)
    requires Scalars(cur) && WellFormed(cur) && CStrings(us) && BuildStatus(cur, us) == Ok
    requires !ChangesCritical(cur, us) && Critical(name) && EQUALS !in name && Lookup(cur, name).Some?
    ensures Lookup(Result(cur, us), name) == Lookup(cur, name)
  {
    var v := Lookup(cur, name).value;
    UnchangedUpdate(cur, us, name);
    DigitsOfValue(Lookup(cur, GENERATION).value);
    NextMember(cur, us, Entry(name, v));
    ResultIsNormal(cur, us);
    NormalMember(Next(cur, us), name, v);
    LookupMember(Result(cur, us), name, v);
  }

  lemma AddsNoCritical(cur: seq<Entry>, us: seq<Update>, name: seq<Byte>)
    requires Scalars(cur) && WellFormed(cur) && CStrings(us) && BuildStatus(cur, us) == Ok
    requires !ChangesCritical(cur, us) && Critical(name) && EQUALS !in name && Lookup(Result(cur, us), name).Some?
    ensures Lookup(cur, name).Some?
  {
    var v := Lookup(Result(cur, us), name).value;
    LookupMember(Result(cur, us), name, v);
    ResultIsNormal(cur, us);
    NormalMember(Next(cur, us), name, v);
    var e :| e in Next(cur, us) && Normal(e) == Entry(name, v);
    CriticalOrigin(cur, us, e);
  }

  lemma CriticalOrigin(cur: seq<Entry>, us: seq<Update>, e: Entry)
    requires Scalars(cur) && WellFormed(cur) && !ChangesCritical(cur, us)
    requires e in Next(cur, us) && Critical(Normal(e).name)
    ensures Lookup(cur, Normal(e).name).Some?
  {
    var k := FirstEquals(e.name);
    assert Critical(e.name) by { if k < |e.name| { assert e.name[..k][..4] == e.name[..4]; } }
    NextMember(cur, us, e);
    UnchangedUpdate(cur, us, e.name);
    ValidNameHasNoEquals(cur, e.name);
  }

  datatype Outcome = Failed(status: Status) | Built(payload: seq<Byte>, view: View)

  /** What `build` makes of a parsed record and a list of updates. */
  ghost function BuildOutcome(v: View, us: seq<Update>): (r: Outcome)
    ensures r.Built? ==> |r.payload| == DATA_SIZE
    ensures r.Failed? ==> r.status != Ok
  {
    if !Sensible(v) then Failed(Invalid)
    else if BuildStatus(v.entries, us) != Ok then Failed(BuildStatus(v.entries, us))
    else Built(Payload(v.entries, us), ViewOf(Result(v.entries, us)))
  }

  /** A successful build never goes back, and one that does not advance the
      generation keeps every critical value. */
  lemma BuildAdvances(v: View, us: seq<Update>)
    requires CStrings(us) && BuildOutcome(v, us).Built?
    ensures var next := BuildOutcome(v, us).view;
            && Sensible(next) && NotOlder(next, v)
            && v.floor <= next.floor && v.epoch <= next.epoch
            && (next.epoch == v.epoch ==> Lookup(next.entries, POLICY) == Lookup(v.entries, POLICY)
                                          && Lookup(next.entries, POLICY_SIG) == Lookup(v.entries, POLICY_SIG))
            && v.generation <= next.generation <= v.generation + 1
            && (next.generation == v.generation <==> !ChangesCritical(v.entries, us))
            && (next.generation == v.generation ==> SameCritical(next.entries, v.entries))
  {
    ResultGeneration(v.entries, us);
    if !ChangesCritical(v.entries, us) { UnchangedKeepsCritical(v.entries, us); }
  }

  /** The sealed payload reads back as the built view, under any flag. */
  lemma BuiltLooks(v: View, us: seq<Update>, flag: Byte)
    requires BuildOutcome(v, us).Built?
    ensures Look(Sealed(flag, BuildOutcome(v, us).payload)) == Sound(flag, BuildOutcome(v, us).view)
  {
    EntriesUnique(Sealed(flag, Payload(v.entries, us)), Result(v.entries, us));
  }

  // ---- methods ---------------------------------------------------------------------

  /** The buffer with some bytes replaced. */
  function Put(s: seq<Byte>, at: nat, bytes: seq<Byte>): (t: seq<Byte>)
    requires at + |bytes| <= |s|
    ensures |t| == |s|
  {
    s[..at] + bytes + s[at + |bytes|..]
  }

  lemma PutTwice(s: seq<Byte>, at: nat, a: seq<Byte>, b: seq<Byte>)
    requires at + |a| + |b| <= |s|
    ensures Put(Put(s, at, a), at + |a|, b) == Put(s, at, a + b)
  {
  }

  /** The five copies of an entry make it one. */
  lemma FivePuts(s: seq<Byte>, at: nat, name: seq<Byte>, value: seq<Byte>)
    requires at + |name| + |value| + 3 <= |s|
    ensures var end := at + |name| + 1 + |value|;
            Put(Put(Put(Put(Put(s, at, name), at + |name|, [EQUALS]), at + |name| + 1, value), end, [0]), end + 1, [0])
            == Put(s, at, RenderEntry(Entry(name, value)) + [0])
  {
    hide Put;
    PutTwice(s, at, name, [EQUALS]);
    PutTwice(s, at, name + [EQUALS], value);
    PutTwice(s, at, name + [EQUALS] + value, [0]);
    PutTwice(s, at, RenderEntry(Entry(name, value)), [0]);
  }

  lemma PutReads(s: seq<Byte>, at: nat, bytes: seq<Byte>)
    requires 5 <= at && at + |bytes| < |s|
    ensures var t := Put(s, at, bytes + [0]);
            && t[5..at + |bytes|] == s[5..at] + bytes && t[at + |bytes|] == 0
            && forall k :: 0 <= k < 5 || at + |bytes| < k < |s| ==> t[k] == s[k]
  {
    assert Put(s, at, bytes + [0])[5..at + |bytes|] == s[5..at] + bytes;
  }

  /** `memcpy` */
  method Copy(out: array<Byte>, at: nat, bytes: seq<Byte>)
    requires at + |bytes| <= out.Length
    modifies out
    ensures out[..] == Put(old(out[..]), at, bytes)
  {
    forall i | 0 <= i < |bytes| { out[at + i] := bytes[i]; }
  }

  /** `append`: one entry and the closing NUL, or CAPACITY and an untouched buffer. */
  method Append(out: array<Byte>, used: nat, name: seq<Byte>, value: seq<Byte>)
    returns (status: Status, after: nat)
    requires out.Length == RECORD_SIZE && used < DATA_SIZE
    modifies out
    ensures status in {Ok, Capacity}
    ensures status == Ok <==> used + |name| + |value| + 3 <= DATA_SIZE
    ensures status == Ok ==> after == used + |RenderEntry(Entry(name, value))| < DATA_SIZE
    ensures status == Ok ==> out[5..5 + after] == old(out[5..5 + used]) + RenderEntry(Entry(name, value))
    ensures status == Ok ==> forall k :: 0 <= k < 5 || 5 + after < k < RECORD_SIZE ==> out[k] == old(out[k])
    ensures status == Ok ==> out[5 + after] == 0
    ensures status == Capacity ==> after == used && out[..] == old(out[..])
  {
    if |name| + |value| + 3 > DATA_SIZE - used { return Capacity, used; }
    var start := 5 + used;
    ghost var before := out[..];
    hide Put;
    Copy(out, start, name);
    Copy(out, start + |name|, [EQUALS]);
    Copy(out, start + |name| + 1, value);
    after := used + |name| + |value| + 2;
    Copy(out, 4 + after, [0]);
    Copy(out, 5 + after, [0]);
    status := Ok;
    FivePuts(before, start, name, value);
    PutReads(before, start, RenderEntry(Entry(name, value)));
  }

  /** `changed_critical` */
  method CheckChangedCritical(cur: seq<Entry>, us: seq<Update>) returns (changed: bool)
    ensures changed <==> ChangesCritical(cur, us)
  {
    var i := 0;
    while i < |us|
      invariant 0 <= i <= |us|
      invariant forall j :: 0 <= j < i && Critical(us[j].name) ==> Lookup(cur, us[j].name) == us[j].value
    {
      if Critical(us[i].name) {
        var previous := Get(cur, us[i].name);
        if previous.None? != us[i].value.None? || (previous.Some? && previous.value != us[i].value.value) {
          return true;
        }
      }
      i := i + 1;
    }
    return false;
  }

  /** The validation loop at the head of `build`. */
  method CheckNames(us: seq<Update>) returns (ok: bool)
    ensures ok <==> GoodNames(us)
  {
    var i := 0;
    while i < |us|
      invariant 0 <= i <= |us|
      invariant GoodNames(us[..i])
    {
      if us[i].name == [] || us[i].name == GENERATION { return false; }
      var j := 0;
      while j < i
        invariant 0 <= j <= i
        invariant forall k :: 0 <= k < j ==> us[k].name != us[i].name
      {
        if us[j].name == us[i].name { return false; }
        j := j + 1;
      }
      i := i + 1;
    }
    assert us[..i] == us;
    return true;
  }

  /** The buffer holds the rendering of `done` and zeros after it. */
  ghost predicate Filled(out: array<Byte>, used: nat, done: seq<Entry>)
    reads out
  {
    && out.Length == RECORD_SIZE
    && used == |Render(done)| < DATA_SIZE
    && out[5..5 + used] == Render(done)
    && (forall k :: 0 <= k < 5 || 5 + used <= k < RECORD_SIZE ==> out[k] == 0)
  }

  method AppendEntry(out: array<Byte>, used: nat, e: Entry, ghost done: seq<Entry>)
    returns (status: Status, after: nat)
    requires Filled(out, used, done)
    modifies out
    ensures status == Ok ==> Filled(out, after, done + [e])
    ensures status != Ok ==> status == Capacity && |Block(done + [e])| > DATA_SIZE
  {
    RenderSnoc(done, e);
    status, after := Append(out, used, e.name, e.value);
  }

  lemma PrefixTooLong(es: seq<Entry>, done: seq<Entry>)
    requires done <= es && |Block(done)| > DATA_SIZE
    ensures Used(es) > DATA_SIZE
  {
    RenderPrefix(es, |done|);
    assert es[..|done|] == done;
  }

  /** The loop of `build` over the old entries. */
  method AppendKept(cur: seq<Entry>, us: seq<Update>, generation: seq<Byte>, out: array<Byte>)
    returns (status: Status, used: nat)
    requires Filled(out, 0, [])
    modifies out
    ensures status == Ok ==> Filled(out, used, Kept(cur, us, generation))
    ensures status != Ok ==> status == Capacity && Used(Kept(cur, us, generation)) > DATA_SIZE
  {
    hide Filled, Render;
    used := 0;
    ghost var done: seq<Entry> := [];
    var i := 0;
    while i < |cur|
      invariant 0 <= i <= |cur|
      invariant done == Kept(cur[..i], us, generation) && Filled(out, used, done)
    {
      assert cur[..i + 1][..i] == cur[..i];
      var entry := cur[i];
      var value := Some(entry.value);
      var j := 0;
      while j < |us| && us[j].name != entry.name
        invariant 0 <= j <= |us|
        invariant FindUpdate(us, entry.name) == FindUpdate(us[j..], entry.name)
      {
        assert us[j..][1..] == us[j + 1..];
        j := j + 1;
      }
      if j < |us| { value := us[j].value; }
      if entry.name == GENERATION { value := Some(generation); }
      assert value == Desired(entry, us, generation);
      if value.Some? {
        status, used := AppendEntry(out, used, Entry(entry.name, value.value), done);
        done := done + [Entry(entry.name, value.value)];
        if status != Ok {
          KeptPrefix(cur, us, generation, i + 1);
          PrefixTooLong(Kept(cur, us, generation), done);
          return;
        }
      } else {
        assert Kept(cur[..i + 1], us, generation) == Kept(cur[..i], us, generation) + [];
      }
      i := i + 1;
    }
    assert cur[..i] == cur;
    status := Ok;
  }

  lemma {:induction false} KeptPrefix(cur: seq<Entry>, us: seq<Update>, generation: seq<Byte>, k: nat)
    requires k <= |cur|
    ensures Kept(cur[..k], us, generation) <= Kept(cur, us, generation)
  {
    if k == |cur| {
      assert cur[..k] == cur;
    } else {
      KeptPrefix(cur[..|cur| - 1], us, generation, k);
      assert cur[..|cur| - 1][..k] == cur[..k];
    }
  }

  lemma {:induction false} AddedPrefix(cur: seq<Entry>, us: seq<Update>, k: nat)
    requires k <= |us|
    ensures Added(cur, us[..k]) <= Added(cur, us)
  {
    if k == |us| {
      assert us[..k] == us;
    } else {
      AddedPrefix(cur, us[..|us| - 1], k);
      assert us[..|us| - 1][..k] == us[..k];
    }
  }

  /** The loop of `build` over the updates that name no old entry. */
  method AppendAdded(cur: seq<Entry>, us: seq<Update>, out: array<Byte>, before: nat, ghost kept: seq<Entry>)
    returns (status: Status, used: nat)
    requires Filled(out, before, kept)
    modifies out
    ensures status == Ok ==> Filled(out, used, kept + Added(cur, us))
    ensures status != Ok ==> status == Capacity && Used(kept + Added(cur, us)) > DATA_SIZE
  {
    hide Filled, Lookup, Render;
    used := before;
    ghost var done := kept;
    assert kept + [] == kept;
    var j := 0;
    while j < |us|
      invariant 0 <= j <= |us|
      invariant done == kept + Added(cur, us[..j]) && Filled(out, used, done)
    {
      assert us[..j + 1][..j] == us[..j];
      var present := Get(cur, us[j].name);
      if present == None && us[j].value.Some? {
        var e := Entry(us[j].name, us[j].value.value);
        AddedStep(cur, us, j, kept, done);
        status, used := AppendEntry(out, used, e, done);
        done := done + [e];
        if status != Ok {
          PrefixTooLong(kept + Added(cur, us), done);
          return;
        }
      } else {
        assert Added(cur, us[..j + 1]) == Added(cur, us[..j]) + [];
      }
      j := j + 1;
    }
    assert us[..j] == us;
    status := Ok;
  }

  lemma AddedStep(cur: seq<Entry>, us: seq<Update>, j: nat, kept: seq<Entry>, done: seq<Entry>)
    requires j < |us| && Lookup(cur, us[j].name) == None && us[j].value.Some?
    requires done == kept + Added(cur, us[..j])
    ensures done + [Entry(us[j].name, us[j].value.value)] == kept + Added(cur, us[..j + 1]) <= kept + Added(cur, us)
  {
    assert us[..j + 1][..j] == us[..j];
    AddedPrefix(cur, us, j + 1);
  }

  /** `build`: on success `out` is the checksummed record of the updated entries. */
  method Build(source: Record, us: seq<Update>, out: array<Byte>) returns (status: Status)
    requires out.Length == RECORD_SIZE
    modifies out
    ensures StatusOf(Data(source)) != Ok ==> status == StatusOf(Data(source))
    ensures StatusOf(Data(source)) == Ok ==>
              match BuildOutcome(Parsed(source), us)
              case Failed(s) => status == s
              case Built(payload, _) => status == Ok && out[..] == Sealed(0, payload)
  {
    var view: View;
    status, view := Parse(Data(source));
    if status != Ok { return; }
    EntriesUnique(source, view.entries);
    var cur := view.entries;
    var good := CheckNames(us);
    if !good { return Invalid; }
    var changed := CheckChangedCritical(cur, us);
    if changed && view.generation == U64_MAX { return Overflow; }
    var buffer := new Byte[21];
    var size := ToDecimal(view.generation + (if changed then 1 else 0), buffer);
    var generation := buffer[..size];
    assert generation == Digits(NextGeneration(cur, us));
    status := Assemble(cur, us, generation, out);
    if status != Ok { return; }
    var next: View;
    status, next := Parse(out[5..]);
    if status != Ok { return; }
    EntriesUnique(Sealed(0, Payload(cur, us)), next.entries);
    var ok := CheckNotOlder(next, view);
    if !ok { return Conflict; }
    SetCrc(out);
    status := Ok;
  }

  /** The middle of `build`: clears the buffer and appends every entry. */
  method Assemble(cur: seq<Entry>, us: seq<Update>, generation: seq<Byte>, out: array<Byte>)
    returns (status: Status)
    requires out.Length == RECORD_SIZE
    modifies out
    ensures status in {Ok, Capacity}
    ensures status == Ok <==> Used(Kept(cur, us, generation) + Added(cur, us)) <= DATA_SIZE
    ensures status == Ok ==> out[5..] == Padded(Block(Kept(cur, us, generation) + Added(cur, us))) && out[4] == 0
  {
    forall k | 0 <= k < RECORD_SIZE { out[k] := 0; }
    var used: nat;
    status, used := AppendKept(cur, us, generation, out);
    ghost var kept := Kept(cur, us, generation);
    if status != Ok {
      PrefixTooLong(kept + Added(cur, us), kept);
      return;
    }
    status, used := AppendAdded(cur, us, out, used, kept);
    if status != Ok { return; }
    FilledIsPadded(out, used, kept + Added(cur, us));
  }

  lemma FilledIsPadded(out: array<Byte>, used: nat, done: seq<Entry>)
    requires Filled(out, used, done)
    ensures Used(done) <= DATA_SIZE && out[5..] == Padded(Block(done)) && out[4] == 0
  {
    assert out[5..] == out[5..5 + used] + out[5 + used..];
    var p := Padded(Block(done));
    assert forall k :: 0 <= k < used ==> out[5 + k] == out[5..5 + used][k] == p[k];
    assert forall k :: used <= k < DATA_SIZE ==> p[k] == 0;
  }

  /** `set_crc` */
  method SetCrc(record: array<Byte>)
    requires record.Length == RECORD_SIZE
    modifies record
    ensures record[..] == Sealed(old(record[4]), old(record[5..]))
  {
    hide Crc.Checksum;
    ghost var flag, data := record[4], record[5..];
    var b := StoredBytes(Crc.Checksum(record[5..]));
    record[0], record[1], record[2], record[3] := b.0, b.1, b.2, b.3;
    assert record[5..] == data;
    assert record[..] == [b.0, b.1, b.2, b.3, flag] + data;
  }
}
