// The snapshot adapter (`epk_env_commit_snapshot`) and the loader's save command
// (epk_mmc.c): a whole desired record is turned into a list of updates.
module EnvSnapshot {
  import opened Bytes
  import opened Decimals
  import opened EnvFormat
  import opened EnvParse
  import opened EnvSelect
  import opened EnvBuild
  import opened EnvCommit

  /** The old entries the desired record lacks or changes, in their order. */
  function Changed(cur: seq<Entry>, next: seq<Entry>): seq<Update> {
    if cur == [] then []
    else
      var e := cur[|cur| - 1];
      Changed(cur[..|cur| - 1], next) +
      (if Lookup(next, e.name) != Some(e.value) then [Update(e.name, Lookup(next, e.name))] else [])
  }

  /** The desired entries that name nothing old, in their order. */
  function Fresh(cur: seq<Entry>, next: seq<Entry>): seq<Update> {
    if next == [] then []
    else
      var e := next[|next| - 1];
      Fresh(cur, next[..|next| - 1]) +
      (if Lookup(cur, e.name) == None then [Update(e.name, Some(e.value))] else [])
  }

  /** The updates that turn the entries `cur` into the entries `next`. */
  function Diff(cur: seq<Entry>, next: seq<Entry>): seq<Update> {
    Changed(cur, next) + Fresh(cur, next)
  }

  /** Bytes the names take in the scratch buffer, NULs included. */
  function NamesSize(us: seq<Update>): nat {
    if us == [] then 0 else NamesSize(us[..|us| - 1]) + |us[|us| - 1].name| + 1
  }

  predicate Fits(us: seq<Update>) {
    |us| <= MAX_UPDATES && NamesSize(us) <= RECORD_SIZE
  }

  // ---- what the difference contains ------------------------------------------------

  lemma {:induction false} ChangedMember(cur: seq<Entry>, next: seq<Entry>, u: Update)
    ensures u in Changed(cur, next) <==>
            u.value == Lookup(next, u.name) && exists e :: e in cur && e.name == u.name && u.value != Some(e.value)
  {
    if cur != [] {
      var front, last := cur[..|cur| - 1], cur[|cur| - 1];
      ChangedMember(front, next, u);
      assert cur == front + [last];
      assert last in cur;
    }
  }

  lemma {:induction false} FreshMember(cur: seq<Entry>, next: seq<Entry>, u: Update)
    ensures u in Fresh(cur, next) <==>
            Lookup(cur, u.name) == None && u.value.Some? && Entry(u.name, u.value.value) in next
  {
    if next != [] {
      var front, last := next[..|next| - 1], next[|next| - 1];
      FreshMember(cur, front, u);
      assert next == front + [last];
    }
  }

  /** The difference has an update for exactly the names that differ. */
  lemma DiffMember(cur: seq<Entry>, next: seq<Entry>, u: Update)
    requires NoDuplicates(cur) && NoDuplicates(next)
    ensures u in Diff(cur, next) <==>
            u.value == Lookup(next, u.name) && Lookup(cur, u.name) != Lookup(next, u.name)
  {
    ChangedMember(cur, next, u);
    FreshMember(cur, next, u);
    LookupNoneNotMember(cur, u.name);
    if u.value.Some? { LookupMember(next, u.name, u.value.value); }
    forall e | e in cur && e.name == u.name ensures Lookup(cur, u.name) == Some(e.value) {
      LookupMember(cur, e.name, e.value);
    }
    if Lookup(cur, u.name).Some? {
      LookupMember(cur, u.name, Lookup(cur, u.name).value);
    }
  }

  ghost predicate DistinctNames(us: seq<Update>) {
    forall i, j :: 0 <= i < j < |us| ==> us[i].name != us[j].name
  }

  lemma {:induction false} ChangedDistinct(cur: seq<Entry>, next: seq<Entry>)
    requires NoDuplicates(cur)
    ensures DistinctNames(Changed(cur, next))
  {
    if cur != [] {
      var front, last := cur[..|cur| - 1], cur[|cur| - 1];
      ChangedDistinct(front, next);
      var us := Changed(front, next);
      forall i | 0 <= i < |us| ensures us[i].name != last.name {
        ChangedMember(front, next, us[i]);
        assert us[i] in us;
        var e :| e in front && e.name == us[i].name;
        var k :| 0 <= k < |front| && front[k] == e;
        assert cur[k].name != cur[|cur| - 1].name;
      }
    }
  }

  lemma {:induction false} FreshDistinct(cur: seq<Entry>, next: seq<Entry>)
    requires NoDuplicates(next)
    ensures DistinctNames(Fresh(cur, next))
  {
    if next != [] {
      var front, last := next[..|next| - 1], next[|next| - 1];
      FreshDistinct(cur, front);
      var us := Fresh(cur, front);
      forall i | 0 <= i < |us| ensures us[i].name != last.name {
        FreshMember(cur, front, us[i]);
        assert us[i] in us;
        var k :| 0 <= k < |front| && front[k] == Entry(us[i].name, us[i].value.value);
        assert next[k].name != next[|next| - 1].name;
      }
    }
  }

  lemma DiffDistinct(cur: seq<Entry>, next: seq<Entry>)
    requires NoDuplicates(cur) && NoDuplicates(next)
    ensures DistinctNames(Diff(cur, next))
  {
    ChangedDistinct(cur, next);
    FreshDistinct(cur, next);
    var a, b := Changed(cur, next), Fresh(cur, next);
    forall i, j | 0 <= i < |a| && 0 <= j < |b| ensures a[i].name != b[j].name {
      ChangedMember(cur, next, a[i]);
      FreshMember(cur, next, b[j]);
      LookupNoneNotMember(cur, b[j].name);
      assert a[i] in a && b[j] in b;
    }
  }

  /** A difference between two parsed records of one generation is a well-formed
      list of updates that never names the generation. */
  lemma DiffIsGood(cur: View, next: View)
    requires Sensible(cur) && Sensible(next) && cur.generation == next.generation
    ensures GoodNames(Diff(cur.entries, next.entries)) && CStrings(Diff(cur.entries, next.entries))
    ensures forall u :: u in Diff(cur.entries, next.entries) ==> EQUALS !in u.name && u.name != GENERATION
  {
    var us := Diff(cur.entries, next.entries);
    DiffDistinct(cur.entries, next.entries);
    DigitsOfValue(Lookup(cur.entries, GENERATION).value);
    DigitsOfValue(Lookup(next.entries, GENERATION).value);
    forall u | u in us
      ensures EQUALS !in u.name && u.name != GENERATION && u.name != [] && NulFree(u.name)
      ensures u.value.Some? ==> NulFree(u.value.value)
    {
      DiffMember(cur.entries, next.entries, u);
      GoodEntry(cur.entries, u.name);
      GoodEntry(next.entries, u.name);
    }
    forall j | 0 <= j < |us| ensures us[j].name != [] && us[j].name != GENERATION { assert us[j] in us; }
    forall j | 0 <= j < |us|
      ensures NulFree(us[j].name) && (us[j].value.Some? ==> NulFree(us[j].value.value))
    {
      assert us[j] in us;
    }
  }

  lemma GoodEntry(es: seq<Entry>, name: seq<Byte>)
    requires WellFormed(es)
    ensures Lookup(es, name).Some? ==>
            EQUALS !in name && name != [] && NulFree(name) && NulFree(Lookup(es, name).value)
  {
    var i := LookupFinds(es, name);
    if i < |es| {
      assert ValidEntry(es[i]);
    }
  }

  /** Building the difference carries the desired value under every name, and the advanced
      generation. (A build that ends in CONFLICT was already parsed.) */
  lemma DiffResult(cur: View, next: View, name: seq<Byte>)
    requires Sensible(cur) && Sensible(next) && cur.generation == next.generation
    requires BuildStatus(cur.entries, Diff(cur.entries, next.entries)) in {Ok, Conflict}
    ensures var us := Diff(cur.entries, next.entries);
            Lookup(Result(cur.entries, us), name) ==
            if name == GENERATION then Some(Digits(NextGeneration(cur.entries, us))) else Lookup(next.entries, name)
  {
    hide StatusOf, Scalars, Lookup, BuildStatus, Result;
    var us := Diff(cur.entries, next.entries);
    DiffIsGood(cur, next);
    forall j | 0 <= j < |us| ensures EQUALS !in us[j].name { assert us[j] in us; }
    BuildThenParse(cur.entries, us, name);
    FindUpdateMember(us, name);
    DiffFinds(cur.entries, next.entries, name);
  }

  /** Building the difference ends in exactly the desired entries, with only the
      generation advanced. */
  lemma DiffReachesDesired(cur: View, next: View, name: seq<Byte>)
    requires Sensible(cur) && Sensible(next) && cur.generation == next.generation
    requires BuildOutcome(cur, Diff(cur.entries, next.entries)).Built?
    ensures var result := BuildOutcome(cur, Diff(cur.entries, next.entries)).view;
            Lookup(result.entries, name) ==
            if name == GENERATION then Some(Digits(result.generation)) else Lookup(next.entries, name)
  {
    DiffIsGood(cur, next);
    DiffResult(cur, next, name);
    hide StatusOf, Scalars, Lookup, Diff;
    ResultGeneration(cur.entries, Diff(cur.entries, next.entries));
  }

  lemma DiffFinds(cur: seq<Entry>, next: seq<Entry>, name: seq<Byte>)
    requires NoDuplicates(cur) && NoDuplicates(next)
    ensures match FindUpdate(Diff(cur, next), name)
            case Some(u) => u.value == Lookup(next, name)
            case None => Lookup(cur, name) == Lookup(next, name)
  {
    var us := Diff(cur, next);
    FindUpdateMember(us, name);
    if FindUpdate(us, name).Some? {
      DiffMember(cur, next, FindUpdate(us, name).value);
    } else {
      DiffMember(cur, next, Update(name, Lookup(next, name)));
    }
  }

  lemma {:induction false} KeptUnchanged(cur: seq<Entry>, generation: seq<Byte>)
    requires forall i :: 0 <= i < |cur| && cur[i].name == GENERATION ==> cur[i].value == generation
    ensures Kept(cur, [], generation) == cur
  {
    if cur != [] {
      KeptUnchanged(cur[..|cur| - 1], generation);
      assert cur == cur[..|cur| - 1] + [cur[|cur| - 1]];
    }
  }

  lemma UnchangedNext(v: View)
    requires Sensible(v)
    ensures !ChangesCritical(v.entries, []) && Next(v.entries, []) == v.entries
  {
    hide Render, Sensible, WellFormed;
    var cur := v.entries;
    SensibleFacts(v);
    DigitsOfValue(Lookup(cur, GENERATION).value);
    forall i | 0 <= i < |cur| && cur[i].name == GENERATION ensures cur[i].value == Digits(v.generation) {
      LookupAt(cur, i);
    }
    KeptUnchanged(cur, Digits(v.generation));
    assert Added(cur, []) == [];
  }

  lemma SensibleFacts(v: View)
    requires Sensible(v)
    ensures NoDuplicates(v.entries) && Scalars(v.entries) && v.generation == Number(v.entries, GENERATION)
    ensures v == ViewOf(v.entries) && v.used == Used(v.entries) && WellFormed(v.entries)
  {
  }

  lemma UnchangedAccepted(v: View)
    requires Sensible(v) && v.used + HEADROOM <= DATA_SIZE
    ensures Used(Next(v.entries, [])) <= DATA_SIZE && Accepted(Payload(v.entries, []), v.entries)
    ensures Result(v.entries, []) == v.entries
  {
    hide Render, Lookup;
    UnchangedNext(v);
    var data := Payload(v.entries, []);
    assert data[..|Block(v.entries)|] == Block(v.entries);
    assert Accepted(data, v.entries);
    HoldsUnique(data, v.entries, Result(v.entries, []));
  }

  /** Without updates a build succeeds and gives the same view: committing nothing only
      replicates. */
  lemma UnchangedIsReplicated(v: View)
    requires Sensible(v) && v.used + HEADROOM <= DATA_SIZE
    ensures BuildOutcome(v, []).Built? && BuildOutcome(v, []).view == v
  {
    SensibleFacts(v);
    UnchangedNext(v);
    UnchangedAccepted(v);
    hide Payload, Result, Accepted, Sensible, Lookup, Next, Render;
    assert NotOlder(v, v);
  }

  // ---- methods -----------------------------------------------------------------------

  /** `add_diff` */
  method AddDiff(updates: seq<Update>, used: nat, name: seq<Byte>, value: Option<seq<Byte>>)
    returns (status: Status, result: seq<Update>, total: nat)
    requires Fits(updates) && used == NamesSize(updates)
    ensures result == updates + [Update(name, value)] || status != Ok
    ensures status == if Fits(updates + [Update(name, value)]) then Ok else Capacity
    ensures status == Ok <==> |updates| < 64 && used + |name| + 1 <= 16384
    ensures status == Ok ==> total == NamesSize(result)
  {
    var u := Update(name, value);
    assert (updates + [u])[..|updates|] == updates;
    if |updates| == MAX_UPDATES || |name| + 1 > RECORD_SIZE - used { return Capacity, updates, used; }
    return Ok, updates + [u], used + |name| + 1;
  }

  lemma {:induction false} FitsPrefix(us: seq<Update>, k: nat)
    requires k <= |us| && Fits(us)
    ensures Fits(us[..k])
  {
    if k < |us| {
      FitsPrefix(us[..|us| - 1], k);
      assert us[..|us| - 1][..k] == us[..k];
    } else {
      assert us[..k] == us;
    }
  }

  lemma {:induction false} ChangedPrefix(cur: seq<Entry>, next: seq<Entry>, k: nat)
    requires k <= |cur|
    ensures Changed(cur[..k], next) <= Changed(cur, next)
  {
    if k < |cur| {
      ChangedPrefix(cur[..|cur| - 1], next, k);
      assert cur[..|cur| - 1][..k] == cur[..k];
    } else {
      assert cur[..k] == cur;
    }
  }

  lemma {:induction false} FreshPrefix(cur: seq<Entry>, next: seq<Entry>, k: nat)
    requires k <= |next|
    ensures Fresh(cur, next[..k]) <= Fresh(cur, next)
  {
    if k < |next| {
      FreshPrefix(cur, next[..|next| - 1], k);
      assert next[..|next| - 1][..k] == next[..k];
    } else {
      assert next[..k] == next;
    }
  }

  lemma FreshStep(cur: seq<Entry>, next: seq<Entry>, i: nat)
    requires i < |next|
    ensures Fresh(cur, next[..i + 1]) <= Fresh(cur, next)
    ensures Fresh(cur, next[..i + 1]) ==
            Fresh(cur, next[..i])
            + if Lookup(cur, next[i].name) == None then [Update(next[i].name, Some(next[i].value))] else []
  {
    FreshPrefix(cur, next, i + 1);
    assert next[..i + 1][..i] == next[..i];
  }

  /** The same behind what the first loop collected. */
  lemma FreshAfter(first: seq<Update>, cur: seq<Entry>, next: seq<Entry>, i: nat)
    requires i < |next|
    ensures first + Fresh(cur, next[..i + 1]) <= first + Fresh(cur, next)
    ensures first + Fresh(cur, next[..i + 1]) ==
            if Lookup(cur, next[i].name) == None
            then first + Fresh(cur, next[..i]) + [Update(next[i].name, Some(next[i].value))]
            else first + Fresh(cur, next[..i])
  {
    FreshStep(cur, next, i);
    hide Fresh, Lookup;
  }

  lemma TooBig(us: seq<Update>, prefix: seq<Update>)
    requires prefix <= us && !Fits(prefix)
    ensures !Fits(us)
  {
    assert us[..|prefix|] == prefix;
    if Fits(us) { FitsPrefix(us, |prefix|); }
  }

  /** The first loop of the adapter. */
  method CollectChanged(cur: seq<Entry>, next: seq<Entry>) returns (status: Status, us: seq<Update>, used: nat)
    ensures status == if Fits(Changed(cur, next)) then Ok else Capacity
    ensures status == Ok ==> us == Changed(cur, next) && used == NamesSize(us)
  {
    us, used := [], 0;
    var i := 0;
    while i < |cur|
      invariant 0 <= i <= |cur|
      invariant us == Changed(cur[..i], next) && used == NamesSize(us) && Fits(us)
    {
      var e := cur[i];
      assert cur[..i + 1][..i] == cur[..i];
      ghost var before := us;
      ChangedPrefix(cur, next, i + 1);
      var value := Get(next, e.name);
      if value == None || value.value != e.value {
        status, us, used := AddDiff(us, used, e.name, value);
        assert before + [Update(e.name, value)] == Changed(cur[..i + 1], next);
        if status != Ok {
          TooBig(Changed(cur, next), Changed(cur[..i + 1], next));
          return;
        }
      } else {
        assert Changed(cur[..i + 1], next) == before + [];
      }
      i := i + 1;
    }
    assert cur[..i] == cur;
    status := Ok;
  }

  /** The second loop of the adapter. */
  method CollectFresh(cur: seq<Entry>, next: seq<Entry>, first: seq<Update>, size: nat)
    returns (status: Status, us: seq<Update>)
    requires Fits(first) && size == NamesSize(first)
    ensures status == if Fits(first + Fresh(cur, next)) then Ok else Capacity
    ensures status == Ok ==> us == first + Fresh(cur, next)
  {
    us := first;
    var used := size;
    assert first + Fresh(cur, next[..0]) == first;
    hide Fresh, Fits, NamesSize, Lookup;
    var i := 0;
    while i < |next|
      invariant 0 <= i <= |next|
      invariant us == first + Fresh(cur, next[..i]) && used == NamesSize(us) && Fits(us)
    {
      var e := next[i];
      FreshAfter(first, cur, next, i);
      var value := Get(cur, e.name);
      if value == None {
        status, us, used := AddDiff(us, used, e.name, Some(e.value));
        if status != Ok {
          TooBig(first + Fresh(cur, next), first + Fresh(cur, next[..i + 1]));
          return;
        }
      }
      i := i + 1;
    }
    assert next[..i] == next;
    status := Ok;
  }

  /** The status of a snapshot commit on a device that never fails. */
  ghost function SnapshotStatus(c: Card, desired: Record): Status {
    match Look(desired)
    case Damaged => Invalid
    case Undecodable(s) => s
    case Sound(_, next) =>
      match Choose(c)
      case Refused(s) => s
      case Chosen(_) =>
        if next.generation != State(c).generation then Conflict
        else if !Fits(Diff(State(c).entries, next.entries)) then Capacity
        else OutcomeStatus(Planned(c, Diff(State(c).entries, next.entries)))
  }

  /** `epk_env_commit_snapshot`: the commit of the difference. */
  method CommitSnapshot(io: Device, desired: Record) returns (status: Status, out: Selection)
    requires io.Valid()
    modifies io
    ensures io.Valid() && old(io.trace) <= io.trace
    ensures status == Io || status == SnapshotStatus(old(io.card), desired)
    ensures SnapshotStatus(old(io.card), desired) != Ok ==> io.card == old(io.card) && io.trace == old(io.trace)
    ensures io.honest && Choose(old(io.card)).Chosen? && Look(desired).Sound? ==>
              OnlyCommitStates(io, old(|io.trace|), old(io.card),
                               Diff(State(old(io.card)).entries, Look(desired).view.entries))
    ensures status == Ok ==> Choose(old(io.card)).Chosen? && Look(desired).Sound?
    ensures status == Ok ==> Planned(old(io.card), Diff(State(old(io.card)).entries, Look(desired).view.entries)).Built?
    ensures status == Ok ==>
              io.card == Committed(old(io.card), Diff(State(old(io.card)).entries, Look(desired).view.entries))
    ensures status == Ok ==> Choose(io.card) == Choose(old(io.card)) && out == Report(io.card)
    ensures io.reliable ==> status == SnapshotStatus(old(io.card), desired)
  {
    hide Look, Planned, Choose, Pick, Committed, CommitState, Sensible, Diff, Fits;
    out := Selection(0, 0, 0, 0, 0);
    var valid, next;
    valid, status, next := Inspect(desired);
    if !valid { return Invalid, out; }
    if status != Ok { return; }
    var records: Card, chosen: Selection;
    status, records, chosen := Load(io);
    if status != Ok { return; }
    if next.generation != chosen.generation { return Conflict, out; }
    var cur := ParseSelected(records, chosen.index);
    var us;
    status, us := ComputeDiff(cur.entries, next.entries);
    if status != Ok { return; }
    DiffIsGood(cur, next);
    status, out := CommitLoaded(io, records, chosen, us);
  }

  method ParseSelected(records: Card, index: nat) returns (cur: View)
    requires Choose(records) == Chosen(index)
    ensures cur == State(records)
  {
    hide Sensible;
    var status;
    status, cur := Parse(Data(records.At(index)));
    EntriesUnique(records.At(index), cur.entries);
  }

  /** Both loops of the adapter. */
  method ComputeDiff(cur: seq<Entry>, next: seq<Entry>) returns (status: Status, us: seq<Update>)
    ensures status == if Fits(Diff(cur, next)) then Ok else Capacity
    ensures status == Ok ==> us == Diff(cur, next)
  {
    hide Fits, Changed, Fresh;
    var used: nat;
    status, us, used := CollectChanged(cur, next);
    if status != Ok {
      TooBig(Diff(cur, next), Changed(cur, next));
      return;
    }
    status, us := CollectFresh(cur, next, us, used);
  }

  // ---- import and saveenv in the loader ---------------------------------------------

  /** What the loader selects on when the reads of some copies failed: a zero record stands
      for each of them. */
  function Unreadable(): (r: Record)
    ensures forall k :: 0 <= k < RECORD_SIZE ==> r[k] == 0
  {
    seq(RECORD_SIZE, _ => 0)
  }

  function Seen(c: Card, failA: bool, failB: bool): Card {
    Card(if failA then Unreadable() else c.a, if failB then Unreadable() else c.b)
  }

  /** The generation the table of a ready loader carries. */
  ghost predicate Carries(ram: map<seq<Byte>, seq<Byte>>, generation: nat) {
    GENERATION in ram && ram[GENERATION] == Digits(generation)
  }

  lemma CarriesOne(ram: map<seq<Byte>, seq<Byte>>, g: nat, h: nat)
    requires Carries(ram, g)
    ensures Carries(ram, h) <==> g == h
  {
    ValueOfDigits(g);
    ValueOfDigits(h);
  }

  /** The loader: its hash table, the ready flag, and the card. */
  class Loader {
    const io: Device
    const layoutOk: bool
    var ready: bool
    var ram: map<seq<Byte>, seq<Byte>>

    /** While ready, the table carries some generation that was selected. */
    ghost predicate Valid()
      reads this, io
    {
      io.Valid() && (ready ==> exists g: nat :: Carries(ram, g))
    }

    /** It carries the generation that is selected on the card. */
    ghost predicate Fresh()
      reads this, io
    {
      ready && Choose(io.card).Chosen? && Carries(ram, State(io.card).generation)
    }

    /** `env_export` wrote the table into this record. */
    ghost predicate Exports(desired: Record)
      reads this
    {
      Look(desired).Sound? ==>
        forall name :: Lookup(Look(desired).view.entries, name) == if name in ram then Some(ram[name]) else None
    }

    constructor (io: Device, layoutOk: bool)
      requires io.Valid()
      ensures Valid() && !ready && this.io == io
    {
      this.io, this.layoutOk, ready, ram := io, layoutOk, false, map[];
    }

    /** Environment import: a copy that cannot be read counts as a zero record. Ready exactly
        after a selection, with exactly the selected entries; then fresh when both reads worked
        or both copies hold the same. `imported` is the outcome of the hash import. */
    method Import() returns (failA: bool, failB: bool, imported: bool)
      requires Valid()
      modifies this
      ensures Valid()
      ensures io.reliable ==> !failA && !failB
      ensures ready <==> layoutOk && imported && Choose(Seen(io.card, failA, failB)).Chosen?
      ensures ready ==> ram == ToMap(State(Seen(io.card, failA, failB)).entries)
      ensures ready ==> Carries(ram, State(Seen(io.card, failA, failB)).generation)
      ensures ready ==> (Fresh() <==> Choose(io.card).Chosen? &&
                                       State(Seen(io.card, failA, failB)).generation == State(io.card).generation)
      ensures ready && ((!failA && !failB) || Replicated(io.card)) ==> Fresh()
    {
      hide Pick, Look, Sensible, Replicated;
      failA, failB, imported, ready := false, false, *, false;
      if !layoutOk { return; }
      var a: Record, b: Record;
      failA, a := io.Read(0);
      failB, b := io.Read(1);
      if failA { a := Unreadable(); }
      if failB { b := Unreadable(); }
      assert Card(a, b) == Seen(io.card, failA, failB);
      var status, chosen := Select(a, b);
      if status != Ok || !imported { return; }
      var v := ParseSelected(Card(a, b), chosen.index);
      ram := ToMap(v.entries);
      ready := true;
      GenerationText(v);
      assert Carries(ram, v.generation);
      if Replicated(io.card) { SeenReplicated(io.card, failA, failB); }
      if Choose(io.card).Chosen? { CarriesOne(ram, v.generation, State(io.card).generation); }
    }

    /** `setenv` between saves. The loader script never sets the generation. */
    method SetEnv(name: seq<Byte>, value: Option<seq<Byte>>)
      requires Valid() && name != GENERATION
      modifies this`ram
      ensures Valid() && ready == old(ready) && (old(Fresh()) ==> Fresh())
      ensures ram == match value
                     case Some(v) => old(ram)[name := v]
                     case None => old(ram) - {name}
    {
      ghost var g: nat :| ready ==> Carries(ram, g);
      match value {
        case Some(v) => ram := ram[name := v];
        case None => ram := ram - {name};
      }
      assert ready ==> Carries(ram, g);
    }

    /** A save of a fresh loader is never refused as stale, and only a fresh one is not. */
    lemma NeverStale(desired: Record)
      requires Valid() && ready && Exports(desired) && Look(desired).Sound? && Choose(io.card).Chosen?
      ensures Fresh() <==> Look(desired).view.generation == State(io.card).generation
    {
      hide Pick, Choose;
      var next := Look(desired).view;
      assert Lookup(next.entries, GENERATION) == Some(ram[GENERATION]);
      ValueOfDigits(State(io.card).generation);
      DigitsOfValue(ram[GENERATION]);
    }

    /** `epk_mmc_save`. A stale session writes nothing; after success it is fresh; after any
        failure it is over until the next import. */
    method Save(desired: Record) returns (failed: bool)
      requires Valid() && Exports(desired)
      modifies this, io
      ensures Valid()
      ensures !old(ready) || !layoutOk ==> failed && io.card == old(io.card) && ready == old(ready)
      ensures old(ready) && layoutOk ==> (failed <==> !ready)
      ensures old(ready) && !old(Fresh()) ==> failed && io.card == old(io.card)
      ensures !failed ==> Fresh() && Choose(old(io.card)).Chosen? && Look(desired).Sound?
      ensures !failed ==> forall name :: name != GENERATION ==>
                Lookup(State(io.card).entries, name) == Lookup(Look(desired).view.entries, name)
      ensures !failed ==> ram == old(ram)[GENERATION := Digits(State(io.card).generation)]
    {
      hide Look, Planned, Choose, Pick, CommitState, Sensible, Diff, SnapshotStatus;
      OnlyFreshIsAccepted(io.card, desired);
      if ready && Look(desired).Sound? && Choose(io.card).Chosen? { NeverStale(desired); }
      if !ready || !layoutOk { return true; }
      var status, selected := CommitSnapshot(io, desired);
      if status == Ok {
        SnapshotReached(old(io.card), desired);
        // env_set_ulong may fail too.
        failed := *;
        if !failed { ram := ram[GENERATION := Digits(selected.generation)]; }
      } else {
        failed := true;
      }
      if failed { ready := false; }
      assert ready ==> Carries(ram, selected.generation);
    }
  }

  lemma OnlyFreshIsAccepted(c: Card, desired: Record)
    ensures SnapshotStatus(c, desired) == Ok ==>
              && Choose(c).Chosen? && Look(desired).Sound?
              && Look(desired).view.generation == State(c).generation
  {
    hide Look, Choose, Diff, Sensible;
  }

  /** A payload that starts with a zero holds no entries. */
  lemma ZeroHoldsNothing(data: seq<Byte>, es: seq<Entry>)
    requires data != [] && data[0] == 0
    ensures !Holds(data, es)
  {
    if Holds(data, es) {
      WellFormedIsPlain(es);
      assert Render([]) == data[..0];
      NextEntry(data, [], es, 0);
    }
  }

  lemma UnreadableIsNotSound()
    ensures !Look(Unreadable()).Sound?
  {
    hide CrcValid, Unreadable, Holds, Scalars, Parsed;
    var data := Data(Unreadable());
    forall es: seq<Entry> ensures !Accepted(data, es) { ZeroHoldsNothing(data, es); }
  }

  lemma SeenReplicated(c: Card, failA: bool, failB: bool)
    requires Replicated(c) && Choose(Seen(c, failA, failB)).Chosen?
    ensures Choose(c).Chosen? && State(Seen(c, failA, failB)).generation == State(c).generation
  {
    UnreadableIsNotSound();
    hide Look, NotOlder, SameCritical, Sensible;
    var s := Seen(c, failA, failB);
    var i := Choose(s).index;
    assert s.At(i) == c.At(i);
  }

  /** With copy `i` unreadable the loader imports the other one, or nothing. */
  lemma OneUnreadable(c: Card, i: nat)
    requires i < 2
    ensures var s := Seen(c, i == 0, i == 1);
            && (Choose(s).Chosen? ==>
                  Choose(s) == Chosen(1 - i) && Look(c.At(1 - i)).Sound? && State(s) == Look(c.At(1 - i)).view)
            && (Look(Unreadable()).Damaged? && Look(c.At(1 - i)).Sound? ==> Choose(s).Chosen?)
  {
    UnreadableIsNotSound();
    hide Look, NotOlder, SameCritical, Sensible;
    var s := Seen(c, i == 0, i == 1);
    assert s.At(i) == Unreadable() && s.At(1 - i) == c.At(1 - i);
  }

  /** One unreadable copy: what the loader imports carries the selected generation exactly when
      the copy that was read is the selected one, or has the same generation. */
  lemma ImportedGeneration(c: Card, i: nat)
    requires i < 2 && Choose(c).Chosen? && Choose(Seen(c, i == 0, i == 1)).Chosen?
    ensures Look(c.At(1 - i)).Sound?
    ensures State(Seen(c, i == 0, i == 1)).generation == State(c).generation <==>
            i != Choose(c).index || Look(c.At(1 - i)).view.generation == State(c).generation
  {
    OneUnreadable(c, i);
    hide Look, Pick, Seen, Sensible;
  }

  /** So a critical commit that was cut after its first write can leave the loader stale: the
      newer copy cannot be read, the older generation is imported, and its save is refused. */
  lemma UnreadCopyIsStale(c: Card, us: seq<Update>, desired: Record)
    requires Choose(c).Chosen? && CStrings(us) && Planned(c, us).Built? && ChangesCritical(State(c).entries, us)
    requires Look(Unreadable()).Damaged? && Look(desired).Sound?
    requires Look(desired).view.generation == State(c).generation
    ensures var h := HalfWritten(c, us); var i := Choose(c).index;
            && Choose(Seen(h, i == 1, i == 0)).Chosen? && State(Seen(h, i == 1, i == 0)) == State(c)
            && SnapshotStatus(h, desired) == Conflict
  {
    hide BuildOutcome, Look, Sealed, Pick, Diff, Fits, Seen, Sensible, Planned, HalfWritten, Choose, State;
    var i := Choose(c).index;
    HalfLooks(c, us);
    HalfWrittenSelects(c, us);
    PlannedAdvances(c, us);
    OneUnreadable(HalfWritten(c, us), 1 - i);
  }

  lemma PlannedAdvances(c: Card, us: seq<Update>)
    requires Choose(c).Chosen? && CStrings(us) && Planned(c, us).Built? && ChangesCritical(State(c).entries, us)
    ensures Planned(c, us).view.generation == State(c).generation + 1
  {
    hide BuildOutcome, Look, Pick, Sensible;
    BuildAdvances(State(c), us);
  }

  function ToMap(es: seq<Entry>): map<seq<Byte>, seq<Byte>> {
    if es == [] then map[] else ToMap(es[1..])[es[0].name := es[0].value]
  }

  lemma {:induction false} ToMapLooksUp(es: seq<Entry>, name: seq<Byte>)
    ensures Lookup(es, name) == if name in ToMap(es) then Some(ToMap(es)[name]) else None
  {
    if es != [] { ToMapLooksUp(es[1..], name); }
  }

  lemma GenerationText(v: View)
    requires Sensible(v)
    ensures GENERATION in ToMap(v.entries) && ToMap(v.entries)[GENERATION] == Digits(v.generation)
  {
    ToMapLooksUp(v.entries, GENERATION);
    DigitsOfValue(Lookup(v.entries, GENERATION).value);
  }

  lemma PlansTheSame(c: Card)
    requires Choose(c).Chosen? && Sensible(State(c)) && State(c).used + HEADROOM <= DATA_SIZE
    ensures Planned(c, []).Built? && Planned(c, []).view == State(c)
  {
    hide Look, Pick, Choose, State, Sensible, BuildOutcome;
    UnchangedIsReplicated(State(c));
  }

  /** Saving what is already selected, in whatever order the table exports it, succeeds and
      plans the same entries with the same generation: the commit only replicates them. */
  lemma SavingAgain(c: Card, desired: Record)
    requires Choose(c).Chosen? && Look(desired).Sound? && Look(desired).view.generation == State(c).generation
    requires forall name :: Lookup(Look(desired).view.entries, name) == Lookup(State(c).entries, name)
    ensures SnapshotStatus(c, desired) == Ok
    ensures Planned(c, []).Built? && Planned(c, []).view == State(c)
  {
    var next := Look(desired).view;
    StateFits(c);
    hide Look, Pick, Sensible, Choose, State, BuildOutcome, Planned, Diff, Lookup, Scalars, WellFormed;
    PlansTheSame(c);
    SameLookups(State(c).entries, next.entries);
    assert Fits([]);
  }

  /** Entries that agree under every name differ by nothing. */
  lemma SameLookups(cur: seq<Entry>, next: seq<Entry>)
    requires NoDuplicates(cur) && NoDuplicates(next) && forall name :: Lookup(cur, name) == Lookup(next, name)
    ensures Diff(cur, next) == []
  {
    var us := Diff(cur, next);
    assert us != [] ==> us[0] in us;
    forall u ensures u !in us { DiffMember(cur, next, u); }
  }

  lemma StateFits(c: Card)
    requires Choose(c).Chosen?
    ensures Sensible(State(c)) && State(c).used + HEADROOM <= DATA_SIZE && NoDuplicates(State(c).entries)
  {
    SoundFits(c.At(Choose(c).index));
  }

  lemma SoundFits(r: Record)
    requires Look(r).Sound?
    ensures Sensible(Look(r).view) && Look(r).view.used + HEADROOM <= DATA_SIZE
    ensures NoDuplicates(Look(r).view.entries)
  {
  }

  lemma SnapshotReached(c: Card, desired: Record)
    requires Look(desired).Sound? && Choose(c).Chosen? && Look(desired).view.generation == State(c).generation
    requires Planned(c, Diff(State(c).entries, Look(desired).view.entries)).Built?
    ensures var us := Diff(State(c).entries, Look(desired).view.entries);
            && Choose(Committed(c, us)).Chosen?
            && forall name :: name != GENERATION ==>
                 Lookup(State(Committed(c, us)).entries, name) == Lookup(Look(desired).view.entries, name)
  {
    hide Look, Pick, Sensible;
    var next := Look(desired).view;
    var us := Diff(State(c).entries, next.entries);
    CommittedSelects(c, us);
    forall name | name != GENERATION
      ensures Lookup(State(Committed(c, us)).entries, name) == Lookup(next.entries, name)
    {
      DiffReachesDesired(State(c), next, name);
    }
  }
}
