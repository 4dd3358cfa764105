// The two-pass commit, the card it writes, and what a cut leaves behind.
module EnvCommit {
  import opened Bytes
  import opened EnvFormat
  import opened EnvSelect
  import opened EnvBuild

  function Inc(flag: Byte): Byte { (flag + 1) % 256 }

  // ---- what one write can leave on the card -------------------------------------

  /** Copy `i` holds a cut record: its checksum does not match. */
  ghost predicate Torn(c: Card, i: nat, after: Card) {
    exists r: Record :: !CrcValid(r) && after == c.With(i, r)
  }

  /** A write to copy `i` that was dropped, cut, or completed. */
  ghost predicate WriteState(c: Card, i: nat, r: Record, after: Card) {
    after == c || Torn(c, i, after) || after == c.With(i, r)
  }

  /** The block device. Reads are truthful or fail. An honest device keeps a write
      to the addressed copy and may drop or cut it; a reliable one does what it is asked;
      any other device may do anything. `trace` lists every state the card went through:
      power can be cut in any of them. */
  class Device {
    var card: Card
    const honest: bool
    const reliable: bool
    ghost var trace: seq<Card>

    ghost predicate Valid()
      reads this
    {
      trace != [] && trace[|trace| - 1] == card
    }

    constructor (card: Card, honest: bool, reliable: bool)
      ensures Valid() && this.card == card && this.honest == honest && this.reliable == reliable && trace == [card]
    {
      this.card, this.honest, this.reliable, trace := card, honest, reliable, [card];
    }

    method Read(index: nat) returns (failed: bool, r: Record)
      requires index < 2
      ensures !failed ==> r == card.At(index)
      ensures reliable ==> !failed
    {
      failed := *;
      if reliable { failed := false; }
      if failed { r := *; } else { r := card.At(index); }
    }

    method Write(index: nat, r: Record) returns (failed: bool)
      requires index < 2 && Valid()
      modifies this
      ensures Valid() && old(trace) <= trace
      ensures honest ==> forall k :: old(|trace|) <= k < |trace| ==> WriteState(old(card), index, r, trace[k])
      ensures reliable ==> !failed && card == old(card).With(index, r)
    {
      if reliable {
        card := card.With(index, r);
        trace := trace + [card];
        return false;
      }
      failed := *;
      if honest {
        var torn: Record := *;
        if * {
          if !CrcValid(torn) {
            card := card.With(index, torn);
            trace := trace + [card];
          }
        }
        if * {
          card := card.With(index, r);
          trace := trace + [card];
        }
      } else {
        card := *;
        trace := trace + [card];
      }
    }
  }

  // ---- the states a commit goes through -----------------------------------------

  /** What building `us` on the selected record of `c` gives. */
  ghost function Planned(c: Card, us: seq<Update>): (r: Outcome)
    requires Choose(c).Chosen?
    ensures r.Built? ==> |r.payload| == DATA_SIZE
    ensures r.Failed? ==> r.status != Ok
  {
    BuildOutcome(State(c), us)
  }

  /** The card after the first write of a commit of `us` to the selecting card `c`. */
  ghost function HalfWritten(c: Card, us: seq<Update>): Card
    requires Choose(c).Chosen? && Planned(c, us).Built?
  {
    var i := Choose(c).index;
    c.With(1 - i, Sealed(Inc(Flag(c.At(i))), Planned(c, us).payload))
  }

  ghost function Committed(c: Card, us: seq<Update>): Card
    requires Choose(c).Chosen? && Planned(c, us).Built?
  {
    var i := Choose(c).index;
    HalfWritten(c, us).With(i, Sealed(Inc(Inc(Flag(c.At(i)))), Planned(c, us).payload))
  }

  /** Every state in which power can be cut during a commit, the last included. */
  ghost predicate CommitState(c: Card, us: seq<Update>, s: Card)
    requires Choose(c).Chosen?
  {
    || s == c
    || (Planned(c, us).Built? &&
        var i := Choose(c).index;
        || Torn(c, 1 - i, s)
        || s == HalfWritten(c, us)
        || Torn(HalfWritten(c, us), i, s)
        || s == Committed(c, us))
  }

  // ---- crash atomicity ------------------------------------------------------------

  lemma FlagOneAhead(f: Byte)
    ensures FlagChoice(f, Inc(f)) == 1 && FlagChoice(Inc(f), f) == 0
  {
  }

  lemma TornLooks(c: Card, i: nat, s: Card)
    requires i < 2 && Torn(c, i, s)
    ensures Look(s.At(i)).Damaged? && s.At(1 - i) == c.At(1 - i)
  {
  }

  /** Only copy `i` is sound. */
  lemma OnlyCopy(c: Card, i: nat)
    requires i < 2 && Look(c.At(i)).Sound? && Look(c.At(1 - i)).Damaged?
    ensures Choose(c) == Chosen(i) && State(c) == Look(c.At(i)).view
  {
    hide Look;
  }

  /** Copy 1 - i is ahead of copy i: newer, or equal and one flag further. */
  lemma ChooseAhead(c: Card, i: nat)
    requires i < 2 && Look(c.At(i)).Sound? && Look(c.At(1 - i)).Sound?
    requires Ahead(Look(c.At(1 - i)), Look(c.At(i)))
    ensures Choose(c) == Chosen(1 - i) && State(c) == Look(c.At(1 - i)).view
  {
    hide Look, NotOlder;
    FlagOneAhead(Look(c.At(i)).flag);
  }

  ghost predicate Ahead(n: Copy, o: Copy)
    requires n.Sound? && o.Sound?
  {
    if n.view.generation == o.view.generation
    then SameCritical(n.view.entries, o.view.entries) && n.flag == Inc(o.flag)
    else n.view.generation > o.view.generation && NotOlder(n.view, o.view)
  }

  lemma HalfLooks(c: Card, us: seq<Update>)
    requires Choose(c).Chosen? && Planned(c, us).Built?
    ensures var i := Choose(c).index; var h := HalfWritten(c, us);
            && h.At(i) == c.At(i)
            && Look(h.At(i)) == Sound(Flag(c.At(i)), State(c))
            && Look(h.At(1 - i)) == Sound(Inc(Flag(c.At(i))), Planned(c, us).view)
  {
    hide BuildOutcome, Pick;
    BuiltLooks(State(c), us, Inc(Flag(c.At(Choose(c).index))));
    hide Look, Sealed;
  }

  lemma CommittedLooks(c: Card, us: seq<Update>)
    requires Choose(c).Chosen? && Planned(c, us).Built?
    ensures var i := Choose(c).index; var d := Committed(c, us); var f := Flag(c.At(i));
            && d.At(1 - i) == HalfWritten(c, us).At(1 - i)
            && Look(d.At(1 - i)) == Sound(Inc(f), Planned(c, us).view)
            && Look(d.At(i)) == Sound(Inc(Inc(f)), Planned(c, us).view)
            && Data(d.a) == Data(d.b)
  {
    hide BuildOutcome, Look;
    var f := Flag(c.At(Choose(c).index));
    BuiltLooks(State(c), us, Inc(f));
    BuiltLooks(State(c), us, Inc(Inc(f)));
  }

  /** After the first write the new record is already the selected one. */
  lemma HalfWrittenSelects(c: Card, us: seq<Update>)
    requires Choose(c).Chosen? && CStrings(us) && Planned(c, us).Built?
    ensures Choose(HalfWritten(c, us)) == Chosen(1 - Choose(c).index)
    ensures State(HalfWritten(c, us)) == Planned(c, us).view
  {
    hide BuildOutcome, Look, Sealed, NotOlder, SameCritical, Pick;
    HalfLooks(c, us);
    BuildAdvances(State(c), us);
    ChooseAhead(HalfWritten(c, us), Choose(c).index);
  }

  lemma CommittedSelects(c: Card, us: seq<Update>)
    requires Choose(c).Chosen? && Planned(c, us).Built?
    ensures Choose(Committed(c, us)) == Choose(c)
    ensures State(Committed(c, us)) == Planned(c, us).view
    ensures Replicated(Committed(c, us))
  {
    hide BuildOutcome, Look, Sealed, Pick;
    CommittedLooks(c, us);
    ChooseAhead(Committed(c, us), 1 - Choose(c).index);
  }

  /** Crash atomicity: whatever the updates and wherever power is cut, the card
      still selects, and selects exactly the old or exactly the new entries. */
  lemma CrashAtomic(c: Card, us: seq<Update>, s: Card)
    requires Choose(c).Chosen? && CStrings(us) && CommitState(c, us, s)
    ensures Choose(s).Chosen?
    ensures State(s) == State(c) || (Planned(c, us).Built? && State(s) == Planned(c, us).view)
  {
    hide BuildOutcome, Look, Sealed, Pick;
    if s != c {
      var i := Choose(c).index;
      HalfLooks(c, us);
      HalfWrittenSelects(c, us);
      CommittedSelects(c, us);
      if Torn(c, 1 - i, s) {
        TornLooks(c, 1 - i, s);
        OnlyCopy(s, i);
      } else if Torn(HalfWritten(c, us), i, s) {
        TornLooks(HalfWritten(c, us), i, s);
        OnlyCopy(s, 1 - i);
      }
    }
  }

  // ---- whole runs -------------------------------------------------------------------

  /** Nothing the selection protects went back: not the numbers, not the policy of an epoch,
      and no critical value changed without the generation. */
  ghost predicate Advances(newer: View, older: View) {
    && older.generation <= newer.generation && older.floor <= newer.floor && older.epoch <= newer.epoch
    && (newer.epoch == older.epoch ==> SamePolicy(newer.entries, older.entries))
    && (newer.generation == older.generation ==> SameCritical(newer.entries, older.entries))
  }

  lemma CommitAdvances(c: Card, us: seq<Update>, s: Card)
    requires Choose(c).Chosen? && CStrings(us) && CommitState(c, us, s)
    ensures Choose(s).Chosen? && Advances(State(s), State(c))
    ensures var x, y := State(c), State(s);
            && x.generation <= y.generation && x.floor <= y.floor && x.epoch <= y.epoch
            && (x.epoch == y.epoch ==> Lookup(x.entries, POLICY) == Lookup(y.entries, POLICY)
                                       && Lookup(x.entries, POLICY_SIG) == Lookup(y.entries, POLICY_SIG))
            && (x.generation == y.generation ==>
                  forall name :: Critical(name) ==> Lookup(x.entries, name) == Lookup(y.entries, name))
  {
    StateAdvances(c, us, s);
    hide BuildOutcome, Choose, CommitState, State, Look, Lookup, Sensible, Planned;
  }

  lemma StateAdvances(c: Card, us: seq<Update>, s: Card)
    requires Choose(c).Chosen? && CStrings(us) && CommitState(c, us, s)
    ensures Choose(s).Chosen? && Advances(State(s), State(c))
  {
    hide BuildOutcome, Choose, CommitState, Lookup, Look;
    CrashAtomic(c, us, s);
    if State(s) != State(c) { BuildAdvances(State(c), us); }
  }

  /** A run: each state is left by a commit that succeeded, was refused, or was cut. */
  ghost predicate Run(cards: seq<Card>, batches: seq<seq<Update>>) {
    && |cards| == |batches| + 1
    && Choose(cards[0]).Chosen?
    && (forall k :: 0 <= k < |batches| ==> Leads(cards[k], batches[k], cards[k + 1]))
  }

  ghost predicate Leads(c: Card, us: seq<Update>, s: Card) {
    CStrings(us) && (Choose(c).Chosen? ==> CommitState(c, us, s))
  }

  lemma AdvancesTransitive(a: View, b: View, c: View)
    requires Advances(c, b) && Advances(b, a)
    ensures Advances(c, a)
  {
    hide Lookup;
  }

  lemma AdvancesReflexive(a: View)
    ensures Advances(a, a)
  {
    hide Lookup;
  }

  lemma RunLength(cards: seq<Card>, batches: seq<seq<Update>>)
    requires Run(cards, batches)
    ensures |cards| == |batches| + 1
  {
  }

  /** One commit of a run. */
  lemma RunStep(cards: seq<Card>, batches: seq<seq<Update>>, k: nat)
    requires Run(cards, batches) && k < |batches| && Choose(cards[k]).Chosen?
    ensures k + 1 < |cards| && Choose(cards[k + 1]).Chosen? && Advances(State(cards[k + 1]), State(cards[k]))
  {
    hide Choose, State, CommitState, Advances, Planned, BuildOutcome, Look, Sensible;
    assert Leads(cards[k], batches[k], cards[k + 1]);
    CommitAdvances(cards[k], batches[k], cards[k + 1]);
  }

  lemma {:induction false} RunSelects(cards: seq<Card>, batches: seq<seq<Update>>, j: nat)
    requires Run(cards, batches) && j < |cards|
    ensures Choose(cards[j]).Chosen?
  {
    hide Choose, State, Leads, Advances, Look, Sensible, CommitState, Planned, BuildOutcome;
    if j > 0 {
      RunSelects(cards, batches, j - 1);
      RunStep(cards, batches, j - 1);
    }
  }

  lemma {:induction false} RunsAdvance(cards: seq<Card>, batches: seq<seq<Update>>, i: nat, j: nat)
    requires Run(cards, batches) && i <= j < |cards|
    ensures Choose(cards[i]).Chosen? && Choose(cards[j]).Chosen?
    ensures Advances(State(cards[j]), State(cards[i]))
    decreases j
  {
    hide Run, Choose, State, Advances, Leads, Look, Sensible, CommitState, Planned, BuildOutcome;
    RunSelects(cards, batches, i);
    if i == j {
      AdvancesReflexive(State(cards[i]));
    } else {
      RunsAdvance(cards, batches, i, j - 1);
      assert |cards| == |batches| + 1 by { RunLength(cards, batches); }
      RunStep(cards, batches, j - 1);
      AdvancesTransitive(State(cards[i]), State(cards[j - 1]), State(cards[j]));
    }
  }

  /** Over a whole run the card always selects, generation, floor, epoch and the policy of an
      epoch never go back, and one generation has one set of critical values. */
  lemma RunsNeverGoBack(cards: seq<Card>, batches: seq<seq<Update>>, i: nat, j: nat)
    requires Run(cards, batches) && i <= j < |cards|
    ensures Choose(cards[i]).Chosen? && Choose(cards[j]).Chosen?
    ensures var x, y := State(cards[i]), State(cards[j]);
            && x.generation <= y.generation && x.floor <= y.floor && x.epoch <= y.epoch
            && (x.epoch == y.epoch ==> Lookup(x.entries, POLICY) == Lookup(y.entries, POLICY)
                                       && Lookup(x.entries, POLICY_SIG) == Lookup(y.entries, POLICY_SIG))
            && (x.generation == y.generation ==>
                  forall name :: Critical(name) ==> Lookup(x.entries, name) == Lookup(y.entries, name))
  {
    hide Run, Choose, State;
    RunsAdvance(cards, batches, i, j);
  }

  /** Both copies are sound and hold one payload, as an acknowledged commit leaves them. */
  ghost predicate Replicated(c: Card) {
    Look(c.a).Sound? && Look(c.b).Sound? && Look(c.a).view == Look(c.b).view && Choose(c).Chosen?
  }

  lemma LosingOneCopy(c: Card, i: nat, s: Card)
    requires Replicated(c) && i < 2 && Torn(c, i, s)
    ensures Choose(s) == Chosen(1 - i) && State(s) == State(c)
  {
    hide Look;
    TornLooks(c, i, s);
    OnlyCopy(s, 1 - i);
  }

  /** After an acknowledged commit nothing goes back even if one copy is lost and any
      number of further commits are cut. */
  lemma AcknowledgedSurvives(c: Card, i: nat, cards: seq<Card>, batches: seq<seq<Update>>, j: nat)
    requires Replicated(c) && i < 2
    requires Run(cards, batches) && Torn(c, i, cards[0])
    requires j < |cards|
    ensures Choose(cards[j]).Chosen?
    ensures var x, y := State(c), State(cards[j]);
            && x.generation <= y.generation && x.floor <= y.floor && x.epoch <= y.epoch
            && (x.epoch == y.epoch ==> Lookup(x.entries, POLICY) == Lookup(y.entries, POLICY)
                                       && Lookup(x.entries, POLICY_SIG) == Lookup(y.entries, POLICY_SIG))
            && (x.generation == y.generation ==>
                  forall name :: Critical(name) ==> Lookup(x.entries, name) == Lookup(y.entries, name))
  {
    hide Choose, State, Look, Run;
    assert Choose(cards[0]).Chosen? by { RunSelects(cards, batches, 0); }
    LosingOneCopy(c, i, cards[0]);
    RunsNeverGoBack(cards, batches, 0, j);
  }

  /** Acknowledgement matters: a commit cut after its first write is selected, and
      losing that copy goes back to the old entries. */
  lemma UnacknowledgedCanBeLost(c: Card, us: seq<Update>, s: Card)
    requires Choose(c).Chosen? && CStrings(us) && Planned(c, us).Built?
    requires Torn(HalfWritten(c, us), 1 - Choose(c).index, s)
    ensures Choose(HalfWritten(c, us)).Chosen? && State(HalfWritten(c, us)) == Planned(c, us).view
    ensures Choose(s).Chosen? && State(s) == State(c)
  {
    hide BuildOutcome, Look, Sealed, Pick;
    var i := Choose(c).index;
    HalfLooks(c, us);
    TornLooks(HalfWritten(c, us), 1 - i, s);
    OnlyCopy(s, i);
    HalfWrittenSelects(c, us);
  }

  function OutcomeStatus(o: Outcome): Status {
    if o.Built? then Ok else o.status
  }

  // ---- methods ------------------------------------------------------------------------

  lemma SealedWithFlag(data: seq<Byte>, f: Byte, g: Byte)
    requires |data| == DATA_SIZE
    ensures Sealed(f, data)[4 := g] == Sealed(g, data)
  {
    var r := Sealed(f, data)[4 := g];
    assert r[5..] == data;
  }

  /** The new states since `from` are states of the commit. */
  ghost predicate OnlyCommitStates(d: Device, from: nat, c: Card, us: seq<Update>)
    requires Choose(c).Chosen?
    reads d
  {
    forall k :: from <= k < |d.trace| ==> CommitState(c, us, d.trace[k])
  }

  /** One pass of the commit loop: write, read back, compare. */
  method WriteAndCheck(io: Device, index: nat, r: Record) returns (failed: bool)
    requires io.Valid() && index < 2
    modifies io
    ensures io.Valid() && old(io.trace) <= io.trace
    ensures io.honest ==>
              forall k :: old(|io.trace|) <= k < |io.trace| ==> WriteState(old(io.card), index, r, io.trace[k])
    ensures !failed ==> io.card.At(index) == r
    ensures !failed && io.honest ==> io.card == old(io.card).With(index, r)
    ensures io.reliable ==> !failed && io.card == old(io.card).With(index, r)
  {
    failed := io.Write(index, r);
    if failed { return; }
    var back: Record;
    failed, back := io.Read(index);
    if failed { return; }
    failed := back != r;
    if !failed && io.honest {
      ghost var last := io.card;
      assert last == io.trace[|io.trace| - 1];
      assert |io.trace| > old(|io.trace|) ==> WriteState(old(io.card), index, r, last);
      SameCopy(old(io.card), index, r, last);
    }
  }

  lemma SameCopy(c: Card, i: nat, r: Record, after: Card)
    requires i < 2 && WriteState(c, i, r, after) && after.At(i) == r
    ensures after == c.With(i, r)
  {
  }

  method BuildSelected(records: Card, index: nat, us: seq<Update>, next: array<Byte>) returns (status: Status)
    requires Choose(records) == Chosen(index) && next.Length == RECORD_SIZE
    modifies next
    ensures status == OutcomeStatus(Planned(records, us))
    ensures status == Ok ==> next[..] == Sealed(0, Planned(records, us).payload)
  {
    hide BuildOutcome, Sealed;
    status := Build(records.At(index), us, next);
    assert BuildOutcome(Parsed(records.At(index)), us) == Planned(records, us);
  }

  /** `commit_loaded`: an acknowledged commit is true for every write behaviour. */
  method CommitLoaded(io: Device, records: Card, chosen: Selection, us: seq<Update>)
    returns (status: Status, out: Selection)
    requires io.Valid() && CStrings(us)
    requires records == io.card && Choose(records).Chosen? && chosen == Report(records)
    modifies io
    ensures io.Valid() && old(io.trace) <= io.trace
    ensures io.honest ==> OnlyCommitStates(io, old(|io.trace|), records, us)
    ensures status == Io || status == OutcomeStatus(Planned(records, us))
    ensures Planned(records, us).Failed? ==> io.card == records && io.trace == old(io.trace)
    ensures status == Ok ==> io.card == Committed(records, us) && Choose(io.card) == Chosen(chosen.index)
    ensures status == Ok ==> out == Report(io.card)
    ensures io.reliable ==> status == OutcomeStatus(Planned(records, us))
  {
    hide Planned, Choose, Sealed, Committed, CommitState, WriteState, CrcValid;
    out := chosen;
    var next := new Byte[RECORD_SIZE];
    status := BuildSelected(records, chosen.index, us, next);
    if status != Ok { return; }
    var i := chosen.index;
    var flag := records.At(i)[4];
    ghost var payload := Planned(records, us).payload;
    var failed := Pass(io, 1 - i, next, Inc(flag), payload);
    assert io.honest ==> OnlyCommitStates(io, old(|io.trace|), records, us) by { FirstPassStates(records, us); }
    if failed { return Io, out; }
    ghost var between := |io.trace|;
    failed := Pass(io, i, next, Inc(Inc(flag)), payload);
    assert io.honest ==> OnlyCommitStates(io, between, records, us) by { SecondPassStates(records, us); }
    if failed { return Io, out; }
    if io.reliable { CommittedIsComplete(records, us); }
    var back: Card;
    failed, back := ReadBothAgain(io, i, next[..], Inc(Inc(flag)));
    if failed { return Io, out; }
    BackIsCommitted(records, us, back);
    CommittedSelects(records, us);
    status, out := Select(back.a, back.b);
  }

  lemma FirstPassStates(c: Card, us: seq<Update>)
    requires Choose(c).Chosen? && Planned(c, us).Built?
    ensures var i := Choose(c).index;
            var r := Sealed(Inc(Flag(c.At(i))), Planned(c, us).payload);
            forall s :: WriteState(c, 1 - i, r, s) ==> CommitState(c, us, s)
  {
  }

  lemma SecondPassStates(c: Card, us: seq<Update>)
    requires Choose(c).Chosen? && Planned(c, us).Built?
    ensures var i := Choose(c).index;
            var r := Sealed(Inc(Inc(Flag(c.At(i)))), Planned(c, us).payload);
            forall s :: WriteState(HalfWritten(c, us), i, r, s) ==> CommitState(c, us, s)
  {
  }

  /** One turn of the commit loop: stamp the next flag, then write and check. */
  method Pass(io: Device, index: nat, next: array<Byte>, flag: Byte, ghost payload: seq<Byte>)
    returns (failed: bool)
    requires io.Valid() && index < 2 && next.Length == RECORD_SIZE
    requires |payload| == DATA_SIZE && exists f :: next[..] == Sealed(f, payload)
    modifies io, next
    ensures io.Valid() && old(io.trace) <= io.trace && next[..] == Sealed(flag, payload)
    ensures io.honest ==> forall k :: old(|io.trace|) <= k < |io.trace| ==>
              WriteState(old(io.card), index, Sealed(flag, payload), io.trace[k])
    ensures !failed && io.honest ==> io.card == old(io.card).With(index, Sealed(flag, payload))
    ensures io.reliable ==> !failed && io.card == old(io.card).With(index, Sealed(flag, payload))
  {
    ghost var f :| next[..] == Sealed(f, payload);
    SealedWithFlag(payload, f, flag);
    next[4] := flag;
    assert next[..] == Sealed(f, payload)[4 := flag];
    failed := WriteAndCheck(io, index, next[..]);
  }

  lemma BackIsCommitted(c: Card, us: seq<Update>, back: Card)
    requires Choose(c).Chosen? && Planned(c, us).Built?
    requires CrcValid(back.a) && CrcValid(back.b)
    requires Data(back.a) == Data(back.b) == Planned(c, us).payload
    requires var i := Choose(c).index; var f := Inc(Inc(Flag(c.At(i))));
             Flag(back.At(i)) == f && Flag(back.At(1 - i)) == (f + 255) % 256
    ensures back == Committed(c, us)
  {
    hide Planned, Choose, Sealed, CrcValid, Sensible, Look;
    var i := Choose(c).index;
    var f := Flag(c.At(i));
    assert (Inc(Inc(f)) + 255) % 256 == Inc(f);
    SealedIsUnique(back.At(i), Inc(Inc(f)), Planned(c, us).payload);
    SealedIsUnique(back.At(1 - i), Inc(f), Planned(c, us).payload);
  }

  /** A card after both writes passes every one of those comparisons. */
  lemma CommittedIsComplete(c: Card, us: seq<Update>)
    requires Choose(c).Chosen? && Planned(c, us).Built?
    ensures var i := Choose(c).index; var f := Flag(c.At(i)); var d := Committed(c, us);
            && d == HalfWritten(c, us).With(i, Sealed(Inc(Inc(f)), Planned(c, us).payload))
            && HalfWritten(c, us) == c.With(1 - i, Sealed(Inc(f), Planned(c, us).payload))
            && CrcValid(d.a) && CrcValid(d.b) && Data(d.a) == Planned(c, us).payload == Data(d.b)
            && Flag(d.At(i)) == Inc(Inc(f)) && Flag(d.At(1 - i)) == (Inc(Inc(f)) + 255) % 256
  {
    hide Planned, Choose, Sealed, CrcValid, Look, Sensible;
    var i := Choose(c).index;
    var f := Flag(c.At(i));
    assert (Inc(Inc(f)) + 255) % 256 == Inc(f);
    var first := Sealed(Inc(f), Planned(c, us).payload);
    assert c.With(1 - i, first).At(1 - i) == first;
  }

  /** The end of `commit_loaded`: both copies are read again and compared. */
  method ReadBothAgain(io: Device, i: nat, next: Record, flag: Byte) returns (failed: bool, back: Card)
    requires i < 2
    ensures !failed ==> back == io.card && CrcValid(back.a) && CrcValid(back.b)
    ensures !failed ==> Flag(back.At(i)) == flag && Flag(back.At(1 - i)) == (flag + 255) % 256
    ensures !failed ==> Data(back.a) == Data(next) && Data(back.b) == Data(next)
    ensures failed && io.reliable ==>
              var c := io.card;
              !(CrcValid(c.a) && CrcValid(c.b) && Data(c.a) == Data(next) == Data(c.b)
                && Flag(c.At(i)) == flag && Flag(c.At(1 - i)) == (flag + 255) % 256)
  {
    hide CrcValid;
    back := io.card;
    var a: Record, b: Record;
    failed, a := io.Read(0);
    if failed { return; }
    failed, b := io.Read(1);
    if failed { return; }
    back := Card(a, b);
    failed := !CrcValid(a) || !CrcValid(b) || back.At(i)[4] != flag || back.At(1 - i)[4] != (flag + 255) % 256 ||
              a[5..] != next[5..] || b[5..] != next[5..];
  }

  /** `load` */
  method Load(io: Device) returns (status: Status, records: Card, chosen: Selection)
    ensures status == Io || match Choose(io.card)
              case Refused(s) => status == s != Ok
              case Chosen(_) => status == Ok
    ensures status == Ok ==> records == io.card && Choose(records).Chosen? && chosen == Report(records)
    ensures io.reliable ==> status != Io
  {
    hide Look, Pick, Sensible;
    chosen := Selection(0, 0, 0, 0, 0);
    records := io.card;
    var failed, a := io.Read(0);
    if failed { return Io, records, chosen; }
    var b: Record;
    failed, b := io.Read(1);
    if failed { return Io, records, chosen; }
    records := Card(a, b);
    status, chosen := Select(a, b);
  }

  /** The status of a commit on a device that never fails. */
  ghost function CommitStatus(c: Card, us: seq<Update>): Status {
    if |us| > MAX_UPDATES then Invalid
    else match Choose(c)
      case Refused(s) => s
      case Chosen(_) => OutcomeStatus(Planned(c, us))
  }

  /** `epk_env_commit` */
  method Commit(io: Device, us: seq<Update>) returns (status: Status, out: Selection)
    requires io.Valid() && CStrings(us)
    modifies io
    ensures io.Valid() && old(io.trace) <= io.trace
    ensures status == Io || status == CommitStatus(old(io.card), us)
    ensures |us| > 64 ==> status == Invalid
    ensures CommitStatus(old(io.card), us) != Ok ==> io.card == old(io.card) && io.trace == old(io.trace)
    ensures io.honest && Choose(old(io.card)).Chosen? ==> OnlyCommitStates(io, old(|io.trace|), old(io.card), us)
    ensures status == Ok ==> Choose(old(io.card)).Chosen? && io.card == Committed(old(io.card), us)
    ensures status == Ok ==> Choose(io.card) == Choose(old(io.card)) && out == Report(io.card)
    ensures io.reliable ==> status == CommitStatus(old(io.card), us)
  {
    out := Selection(0, 0, 0, 0, 0);
    if |us| > MAX_UPDATES { return Invalid, out; }
    var records: Card, chosen: Selection;
    status, records, chosen := Load(io);
    if status != Ok { return; }
    status, out := CommitLoaded(io, records, chosen, us);
  }
}
