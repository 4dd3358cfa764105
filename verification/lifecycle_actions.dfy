// The actions of epilykos_os_update.py and epilykos_os_activate.py on the durable
// state. Every environment batch, journal save, guard write and RAUC call is one
// step; it may be cut before or after its effect, and it may fail with or without
// its effect. Each method keeps the invariant wherever it stops.
module LifecycleActions {
  import opened Bytes
  import opened Lifecycle
  import opened Steps

  // ---- what RAUC can do to the environment ------------------------------------------

  function Without(order: seq<Slot>, s: Slot): seq<Slot> {
    if order == [] then [] else (if order[0] == s then [] else [order[0]]) + Without(order[1..], s)
  }

  /** `rauc status mark-bad`: each of its two writes may or may not have happened. */
  predicate MarkedBad(e: Env, after: Env, s: Slot) {
    && after.pending == e.pending && after.floor == e.floor && after.Left(s.Other()) == e.Left(s.Other())
    && (after.Left(s) == e.Left(s) || after.Left(s) == 0)
    && (after.order == e.order || after.order == Without(e.order, s))
  }

  predicate MarkedActive(e: Env, after: Env, s: Slot) {
    && after.pending == e.pending && after.floor == e.floor && after.Left(s.Other()) == e.Left(s.Other())
    && (after.Left(s) == e.Left(s) || after.Left(s) == 3)
    && (after.order == e.order || after.order == [s, s.Other()])
  }

  predicate MarkedGood(e: Env, after: Env, s: Slot) {
    && after.pending == e.pending && after.floor == e.floor && after.Left(s.Other()) == e.Left(s.Other())
    && (after.Left(s) == e.Left(s) || after.Left(s) == 3)
    && after.order == e.order
  }

  // ---- single steps keep the invariant ------------------------------------------------

  lemma MarkBadKeepsInv(w: World, e: Env, s: Slot)
    requires Inv(w) && MarkedBad(w.env, e, s)
    requires w.h.tracked.Some? ==> s == w.h.tracked.value.target && w.booted == w.h.tracked.value.source
    ensures Inv(w.(env := e))
  {
  }

  /** Activation is safe once the environment names the job and it was never launched. */
  lemma MarkActiveKeepsInv(w: World, e: Env, s: Slot)
    requires Inv(w) && MarkedActive(w.env, e, s)
    requires w.h.tracked.Some? ==>
               (s == w.booted == w.h.tracked.value.source && w.env.Left(w.h.tracked.value.target) == 0) ||
               (w.env.pending.Some? && w.h.tracked.value.id !in w.h.launched && w.journal.Present? &&
                !Terminal(w.journal.job.state))
    ensures Inv(w.(env := e))
  {
  }

  /** Marking the booted slot good is safe outside a trial, and on one that is being
      confirmed. */
  lemma MarkGoodKeepsInv(w: World, e: Env)
    requires Inv(w) && MarkedGood(w.env, e, w.booted)
    requires w.h.tracked.Some? && w.booted == w.h.tracked.value.target ==> w.h.tracked.value.id in w.h.healthy
    ensures Inv(w.(env := e))
  {
  }

  /** Once the target is shown not to boot, the environment may forget an unlaunched job. */
  lemma ClearKeepsInv(w: World)
    requires Inv(w) && w.env.pending.Some?
    requires var p := w.env.pending.value;
             || (w.env.Left(p.target) == 0 && w.booted == p.source
                 && (w.journal.Present? ==> Terminal(w.journal.job.state)
                                            || (w.journal.job.state in {Restarting, Ready} && p.id !in w.h.launched)
                                            || w.journal.job.state == NeedsCheck))
             || (w.journal.Present? && w.journal.job.state == Confirmed)
    ensures Inv(w.(env := w.env.(pending := None)))
  {
  }

  /** The batch that records the intent to activate. */
  lemma IntentKeepsInv(w: World, job: Job)
    requires Inv(w) && MayActivate(w.env, w.booted, job) && w.journal == Present(job) && job.state == Restarting
    requires w.env.floor < job.sequence
    ensures Inv(w.(env := w.env.(pending := Some(Pending(job.id, job.target, job.source, job.sequence, Intent, None)))))
  {
  }

  /** Floor and phase move together: `max(floor, sequence)` and the last phase, in one batch. */
  function PromoteEnv(e: Env): Env
    requires e.pending.Some?
  {
    var p := e.pending.value;
    e.(floor := if p.sequence > e.floor then p.sequence else e.floor, pending := Some(p.(phase := Promoting)))
  }

  function Promote(w: World): World
    requires w.env.pending.Some?
  {
    w.(env := PromoteEnv(w.env), h := w.h.(log := w.h.log + [(w.env.pending.value.id, PromoteEnv(w.env).floor)]))
  }

  lemma PromoteKeepsHistory(w: World)
    requires Inv(w) && w.env.pending.Some? && w.env.pending.value.phase == Confirming
    requires w.env.pending.value.id in w.h.good
    ensures HistoryOk(Promote(w)) && Raised(Promote(w).h, w.env.pending.value.id)
    ensures Promote(w).env.floor == w.env.pending.value.sequence > w.env.floor
  {
    var p := w.env.pending.value;
    var log := w.h.log + [(p.id, p.sequence)];
    assert log[|w.h.log|] == (p.id, p.sequence);
    assert forall i :: 0 <= i < |w.h.log| ==> log[i] == w.h.log[i];
    forall i | 0 <= i < |w.h.log| ensures w.h.log[i].0 != p.id && w.h.log[i].1 < p.sequence {
      assert !Raised(w.h, p.id);
    }
    forall id | Raised(w.h, id) ensures Raised(Promote(w).h, id) {
      var i :| 0 <= i < |w.h.log| && w.h.log[i].0 == id;
      assert Promote(w).h.log[i].0 == id;
    }
  }

  lemma PromoteKeepsInv(w: World)
    requires Inv(w) && w.env.pending.Some? && w.env.pending.value.phase == Confirming
    requires w.env.pending.value.id in w.h.good
    ensures Inv(Promote(w)) && Promote(w).env.floor == w.env.pending.value.sequence > w.env.floor
  {
    PromoteKeepsHistory(w);
    hide HistoryOk, LogOk, Raised;
  }

  /** This boot is the trial of the job, in a phase that may be confirmed. */
  ghost predicate OnTrial(w: World, id: JobId) {
    match w.env.pending
    case None => false
    case Some(p) => p.id == id && p.target == w.booted && p.trial == Some(id) && p.phase != Intent
  }

  function Rank(p: Phase): nat {
    match p case Intent => 0 case Activated => 1 case Confirming => 2 case Promoting => 3
  }

  /** The same life, possibly with further floor changes and confirmations. */
  predicate Continues(a: History, b: History) {
    && a.base == b.base && a.log <= b.log && a.used == b.used
    && a.launched == b.launched && a.tracked == b.tracked && a.launches == b.launches && a.careless == b.careless
  }

  lemma ContinuesTransitive()
    ensures forall a :: Continues(a, a)
    ensures forall a, b, c :: Continues(a, b) && Continues(b, c) ==> Continues(a, c)
  {
  }

  lemma MarkedGoodThenFull(e: Env, after: Env, s: Slot)
    requires MarkedGood(e, after, s)
    ensures after.WithLeft(s, 3) == e.WithLeft(s, 3)
  {
  }

  /** The durable state a confirmation works on. */
  datatype Durable = Durable(env: Env, journal: Journal, guard: Guard)

  function JobFor(p: Pending, j: Journal): Job {
    if j.Present? && j.job.id == p.id then j.job else Job(p.id, Trying, p.sequence, p.source, p.target, false)
  }

  /** One uninterrupted call on slot `slot`, with RAUC doing what it is asked. */
  function ConfirmRun(d: Durable, slot: Slot, id: JobId): Durable {
    match d.env.pending
    case None => d
    case Some(p) =>
      if p.id != id || p.target != slot || p.trial != Some(id) || p.phase == Intent then d
      else if p.phase == Promoting && d.env.Left(slot) != 3 then d
      else
        var e := if p.phase == Promoting then d.env else PromoteEnv(d.env.WithLeft(slot, 3));
        if d.journal == Unreadable then d.(env := e)
        else Durable(e.(pending := None), Present(JobFor(p, d.journal).(state := Confirmed)), Idle)
  }

  /** A call can take over here: unless the floor was raised but the attempts were not. */
  predicate Resumable(d: Durable, slot: Slot) {
    d.env.pending.Some? && d.env.pending.value.phase == Promoting ==> d.env.Left(slot) == 3
  }

  /** What a finished reconciliation leaves: the worker may go on from here. */
  ghost predicate Settled(w: World) {
    Inv(w.(reconciled := true))
  }

  lemma PromotedFloor(w: World)
    requires Inv(w) && w.env.pending.Some? && w.env.pending.value.phase == Promoting
    ensures w.env.floor == w.env.pending.value.sequence && w.env.pending.value.id in w.h.good
  {
    var i :| 0 <= i < |w.h.log| && w.h.log[i].0 == w.env.pending.value.id;
  }

  lemma ConfirmingKeepsInv(w: World)
    requires Inv(w) && w.env.pending.Some? && w.env.pending.value.phase == Activated && w.env.pending.value.trial.Some?
    ensures Inv(w.(env := w.env.(pending := Some(w.env.pending.value.(phase := Confirming)))))
  {
  }

  lemma GuardKeepsInv(w: World, g: Guard)
    requires Inv(w) && (g == Idle ==> w.journal.Present? && Terminal(w.journal.job.state))
    ensures Inv(w.(guard := g))
  {
  }

  lemma BackFacts(w: World)
    requires Inv(w) && w.journal.Present? && w.journal.job.state in {Ready, Restarting}
    ensures w.h.tracked.Some? && SameJob(w.journal.job, w.h.tracked.value)
  {
  }

  lemma RestartFacts(w: World, job: Job)
    requires Inv(w) && MayActivate(w.env, w.booted, job) && w.journal == Present(job) && job.state == Restarting
    ensures w.h.tracked.Some? && SameJob(job, w.h.tracked.value)
    ensures w.booted == job.source && job.id !in w.h.launched
    ensures w.env.pending.Some? ==> w.env.pending.value.id == job.id
  {
  }

  lemma ActivatedKeepsInv(w: World, job: Job)
    requires Inv(w) && MayActivate(w.env, w.booted, job) && w.journal == Present(job) && job.state == Restarting
    requires w.env.pending.Some? && w.env.pending.value.phase == Intent
    ensures var after := w.(env := w.env.(pending := Some(w.env.pending.value.(phase := Activated))));
            Inv(after) && Inv(after.(journal := Present(job.(activated := true))))
  {
  }

  /** The journal of the pending job can be set to trying while the target runs. */
  lemma TryingKeepsInv(w: World, job: Job)
    requires Inv(w) && w.env.pending.Some? && w.booted == w.env.pending.value.target
    requires w.journal == Present(job) && job.id == w.env.pending.value.id && job.state != Confirmed
    ensures Inv(w.(journal := Present(job.(state := Trying)), reconciled := true))
    ensures Inv(w.(journal := Present(job.(state := Trying))))
  {
  }

  /** Ending a job that is still named, on its source, once the target cannot boot. */
  lemma EndKeepsInv(w: World, job: Job, state: JobState)
    requires Inv(w) && w.env.pending.Some? && w.booted == w.env.pending.value.source
    requires w.env.Left(w.env.pending.value.target) == 0
    requires w.journal == Present(job) && job.id == w.env.pending.value.id
    requires state == Failed || (state == RolledBack && w.env.pending.value.trial.Some?)
    ensures Inv(w.(journal := Present(job.(state := state))))
    ensures Inv(w.(journal := Present(job.(state := state)), guard := Idle))
    ensures Inv(w.(journal := Present(job.(state := state)), guard := Idle, env := w.env.(pending := None)))
    ensures Inv(w.(journal := Present(job.(state := state)), guard := Idle, env := w.env.(pending := None),
              reconciled := true))
  {
  }

  lemma ConfirmedKeepsInv(w: World, job: Job)
    requires Inv(w) && w.journal == Present(job)
    requires w.env.pending.Some? && w.env.pending.value.phase == Promoting && job.id == w.env.pending.value.id
    requires job.id in w.h.good
    ensures Inv(w.(journal := Present(job.(state := Confirmed)), h := w.h.(confirmed := w.h.confirmed + {job.id})))
  {
  }

  /** Reconciliation is over for a job that is neither ready nor restarting. */
  lemma SettledOtherwise(w: World)
    requires Inv(w) && (w.journal.Present? ==> w.journal.job.state !in {Ready, Restarting})
    ensures Settled(w)
  {
  }

  lemma SettledReady(w: World)
    requires Inv(w) && w.journal.Present? && w.journal.job.state in {Ready, Restarting}
    requires w.booted == w.journal.job.source && w.journal.job.id !in w.h.launched
    ensures Settled(w)
  {
  }

  /** What the environment says about the job it names. */
  lemma PendingFacts(w: World)
    requires Inv(w) && w.env.pending.Some?
    ensures var p := w.env.pending.value;
            && w.h.tracked.Some? && w.h.tracked.value.target == p.target && w.h.tracked.value.source == p.source
            && p.target == p.source.Other() && (p.trial.Some? <==> p.id in w.h.launched)
            && (p.trial.Some? && w.booted == p.source ==> w.env.Left(p.target) == 0)
            && (w.journal.Present? ==> w.journal.job.id == p.id && w.journal.job.target == p.target
                                       && w.journal.job.source == p.source)
    ensures w.guard == Idle && w.journal == Absent ==> Careless(w)
  {
  }

  /** An unlaunched job may fall back to ready once nothing is pending, or need checking. */
  lemma BackKeepsInv(w: World, job: Job)
    requires Inv(w) && w.journal.Present? && SameJob(job, w.journal.job) && w.journal.job.state in {Ready, Restarting}
    requires w.booted == job.source && job.id !in w.h.launched
    ensures Inv(w.(journal := Present(job.(state := NeedsCheck))))
    ensures w.env.pending == None ==> Inv(w.(journal := Present(job.(state := Ready, activated := false))))
  {
  }

  // ---- the box --------------------------------------------------------------------------

  /** Every step may be cut, fail or do nothing, unless the box is steady: then each does what
      it is asked. */
  class Box {
    const steady: bool
    var env: Env
    var journal: Journal
    var guard: Guard
    var booted: Slot
    ghost var reconciled: bool   // reconciliation completed in this boot
    ghost var h: History

    ghost function Now(): World
      reads this
    {
      World(env, journal, guard, booted, reconciled, h)
    }

    ghost predicate Valid()
      reads this
    {
      Inv(Now())
    }

    ghost function Media(): Durable
      reads this
    {
      Durable(env, journal, guard)
    }

    /** A card that was never updated; the slot `booted` runs. */
    constructor (env: Env, booted: Slot, guard: Guard, steady: bool)
      requires env.pending == None
      ensures Valid() && this.env == env && journal == Absent && !reconciled && this.steady == steady
    {
      this.steady := steady;
      this.env, journal, this.guard, this.booted, reconciled := env, Absent, guard, booted, false;
      h := History(None, 0, {}, {}, {}, {}, env.floor, [], {}, {});
    }

    // ---- steps ----

    /** `save`; `past` is the history once the journal is on disk. */
    method Save(job: Job, ghost past: History) returns (s: Status)
      requires Valid() && Inv(Now().(journal := Present(job), h := past))
      modifies this
      ensures Valid() && (Now() == old(Now()) || Now() == old(Now()).(journal := Present(job), h := past))
      ensures s == Done ==> Now() == old(Now()).(journal := Present(job), h := past)
      ensures s != Threw && (steady ==> s == Done)
    {
      s := Stopped;
      if !steady { if * { return; } }
      journal, h := Present(job), past;
      if steady { s := Done; } else { if * { s := Done; } }
    }

    method SetGuard(g: Guard) returns (s: Status)
      requires Valid() && Inv(Now().(guard := g))
      modifies this
      ensures Valid() && (Now() == old(Now()) || Now() == old(Now()).(guard := g))
      ensures s == Done ==> Now() == old(Now()).(guard := g)
      ensures s != Threw && (steady ==> s == Done)
    {
      s := Stopped;
      if !steady { if * { return; } }
      guard := g;
      if steady { s := Done; } else { if * { s := Done; } }
    }

    /** `set_env`: one batch, atomic on the card, read back; it may fail either way. */
    method SetEnv(next: Env, ghost past: History) returns (s: Status)
      requires Valid() && Inv(Now().(env := next, h := past))
      modifies this
      ensures Valid() && (Now() == old(Now()) || Now() == old(Now()).(env := next, h := past))
      ensures s == Done ==> Now() == old(Now()).(env := next, h := past)
      ensures steady ==> s == Done
    {
      s := *;
      if steady { s := Done; }
      if s != Done {
        if * { return; }
      }
      env, h := next, past;
    }

    /** `read_env`: truthful or refused. */
    method ReadEnv() returns (s: Status, e: Env)
      ensures s == Done ==> e == env
      ensures s != Stopped && (steady ==> s == Done)
    {
      e := env;
      s := *;
      if steady { s := Done; }
      if s == Stopped { s := Threw; }
    }

    method MarkBad(slot: Slot) returns (s: Status)
      requires Valid()
      requires h.tracked.Some? ==> slot == h.tracked.value.target && booted == h.tracked.value.source
      modifies this
      ensures Valid() && MarkedBad(old(env), env, slot) && Now() == old(Now()).(env := env)
      ensures steady ==> s == Done && env == old(env).WithLeft(slot, 0).(order := Without(old(env.order), slot))
    {
      var left: nat, order := *, *;
      if steady { left, order := 0, Without(env.order, slot); }
      if left != 0 { left := env.Left(slot); }
      if order != env.order { order := Without(env.order, slot); }
      var after := env.WithLeft(slot, left).(order := order);
      MarkBadKeepsInv(Now(), after, slot);
      env := after;
      s := *;
      if steady { s := Done; }
    }

    method MarkActive(slot: Slot) returns (s: Status)
      requires Valid()
      requires h.tracked.Some? ==>
                 (slot == booted == h.tracked.value.source && env.Left(h.tracked.value.target) == 0) ||
                 (env.pending.Some? && h.tracked.value.id !in h.launched && journal.Present? &&
                  !Terminal(journal.job.state))
      modifies this`env
      ensures Valid() && MarkedActive(old(env), env, slot) && Now() == old(Now()).(env := env)
      ensures env.pending == old(env.pending) && env.floor == old(env.floor)
      ensures steady ==> s == Done && env == old(env).WithLeft(slot, 3).(order := [slot, slot.Other()])
    {
      var left: nat, order := *, *;
      if steady { left, order := 3, [slot, slot.Other()]; }
      if left != 3 { left := env.Left(slot); }
      if order != env.order { order := [slot, slot.Other()]; }
      var after := env.WithLeft(slot, left).(order := order);
      MarkActiveKeepsInv(Now(), after, slot);
      env := after;
      s := *;
      if steady { s := Done; }
    }

    /** `rauc status mark-good booted`; `ok` is its exit status, which says nothing about
        whether the counter really changed. */
    method MarkGood() returns (s: Status, ok: bool)
      requires Valid()
      requires h.tracked.Some? && booted == h.tracked.value.target ==> h.tracked.value.id in h.healthy
      modifies this
      ensures Valid() && MarkedGood(old(env), env, booted) && Now() == old(Now()).(env := env)
      ensures steady ==> s == Done && ok && env == old(env).WithLeft(booted, 3)
    {
      var left: nat := *;
      if steady { left := 3; }
      if left != 3 { left := env.Left(booted); }
      var after := env.WithLeft(booted, left);
      MarkGoodKeepsInv(Now(), after);
      env := after;
      s, ok := *, *;
      if steady { s, ok := Done, true; }
    }

    // ---- shared pieces ----

    /** `target_bad`: mark the target bad and show that it cannot boot. */
    method TargetBad(target: Slot) returns (s: Status, bad: bool)
      requires Valid()
      requires h.tracked.Some? ==> target == h.tracked.value.target && booted == h.tracked.value.source
      modifies this
      ensures Valid() && MarkedBad(old(env), env, target) && Now() == old(Now()).(env := env)
      ensures env.floor == old(env.floor) && env.pending == old(env.pending)
              && env.Left(target) <= old(env.Left(target))
      ensures s == Done ==> (bad <==> env.Left(target) == 0)
      ensures steady ==> s == Done && bad
    {
      bad := false;
      s := MarkBad(target);
      if s != Done { return; }
      var e;
      s, e := ReadEnv();
      if s == Done { bad := e.Left(target) == 0; }
    }

    /** `finish` with a terminal state: the journal first, then the guard. */
    method Finish(job: Job, state: JobState, ghost past: History) returns (s: Status)
      requires Valid() && Terminal(state)
      requires Inv(Now().(journal := Present(job.(state := state)), h := past))
      modifies this
      ensures Valid() && env == old(env) && booted == old(booted) && reconciled == old(reconciled)
      ensures s != Threw
      ensures s == Done ==> journal == Present(job.(state := state)) && guard == Idle && h == past
      ensures steady ==> s == Done
      ensures (journal == old(journal) && h == old(h)) || (journal == Present(job.(state := state)) && h == past)
    {
      s := Save(job.(state := state), past);
      if s != Done { return; }
      s := SetGuard(Idle);
    }

    // ---- hostd: restart and discard (epilykos_os_activate.py) ----

    /** `restart`: only a ready job, and only while no worker runs. */
    method Restart(id: JobId, workerActive: bool) returns (s: Status)
      requires Valid()
      modifies this
      ensures Valid()
      ensures s == Done ==> old(journal).Present? && old(journal.job.state) == Ready && old(journal.job.id) == id
                            && !workerActive
      ensures s == Done ==> journal == Present(old(journal.job).(state := Restarting, activated := false))
      ensures s == Threw ==> Now() == old(Now())
      ensures steady ==>
                (s == Done <==> old(journal).Present? && old(journal.job.state) == Ready
                                && old(journal.job.id) == id && !workerActive)
      ensures env == old(env) && guard == old(guard) && h == old(h) && reconciled == old(reconciled)
      ensures booted == old(booted)
    {
      if journal == Absent || journal == Unreadable { return Threw; }
      var job := journal.job;
      if job.id != id || job.state != Ready || workerActive { return Threw; }
      s := Save(job.(state := Restarting, activated := false), h);
    }

    /** `discard`: the target is shown not to boot before the job is given up. */
    method Discard(id: JobId, workerActive: bool) returns (s: Status)
      requires Valid()
      modifies this
      ensures Valid() && reconciled == old(reconciled) && booted == old(booted) && h == old(h)
              && env.floor == old(env.floor)
      ensures s == Done ==> old(journal).Present? && old(journal.job.state) == Ready && old(env.pending) == None
                            && old(journal.job.id) == id && !workerActive
      ensures s == Done ==> journal == Present(old(journal.job).(state := Discarded)) && guard == Idle
                            && env.Left(old(journal.job.target)) == 0 && env.pending == None
      ensures s == Threw ==> journal == old(journal) && guard == old(guard)
      ensures steady ==>
                (s == Done <==> old(journal).Present? && old(journal.job.state) == Ready && old(env.pending) == None
                                && old(journal.job.id) == id && !workerActive)
    {
      if journal == Absent || journal == Unreadable { return Threw; }
      var job := journal.job;
      if job.id != id || job.state != Ready || workerActive { return Threw; }
      var e;
      s, e := ReadEnv();
      if s != Done { return; }
      if e.pending.Some? { return Threw; }
      var bad;
      s, bad := TargetBad(job.target);
      if s != Done { return; }
      if !bad { return Threw; }
      s := Finish(job, Discarded, h);
    }

    // ---- the worker: activation ----

    /** `back_to_ready`: the target cannot boot, nothing is pending, the job is ready; or the
        state needs checking. */
    method BackToReady(job: Job) returns (s: Status)
      requires Valid() && journal.Present? && SameJob(job, journal.job) && journal.job.state in {Ready, Restarting}
      requires booted == job.source && job.id !in h.launched
      modifies this
      ensures Valid() && booted == old(booted) && reconciled == old(reconciled) && h == old(h)
      ensures s != Threw
      ensures s == Done ==> || (journal == Present(job.(state := Ready, activated := false)) && guard == Waiting
                                && env.pending == None && env.Left(job.target) == 0)
                            || (journal == Present(job.(state := NeedsCheck)) && guard == Reconciling)
      ensures env.floor == old(env.floor)
      ensures steady ==> s == Done && guard == Waiting
    {
      hide Inv;
      var safe;
      s, safe := MakeSafe(job);
      if s != Done { return; }
      s := RecordBack(job, safe);
    }

    /** The guarded part of `back_to_ready`: errors only make the outcome unsafe. */
    method MakeSafe(job: Job) returns (s: Status, safe: bool)
      requires Valid() && journal.Present? && SameJob(job, journal.job) && journal.job.state in {Ready, Restarting}
      requires booted == job.source && job.id !in h.launched
      modifies this
      ensures Valid() && booted == old(booted) && reconciled == old(reconciled) && h == old(h)
      ensures journal == old(journal) && guard == old(guard) && env.floor == old(env.floor)
      ensures s != Threw
      ensures safe ==> env.pending == None && env.Left(job.target) == 0
      ensures steady ==> s == Done && safe
    {
      BackFacts(Now());
      hide Inv, MarkedBad;
      s, safe := TargetBad(job.target);
      if s == Stopped { return s, false; }
      if s == Threw || !safe { return Done, false; }
      s := ForgetPending(job);
      if s == Stopped { return s, false; }
      safe := s == Done;
      s := Done;
    }

    /** The end of `back_to_ready`. */
    method RecordBack(job: Job, safe: bool) returns (s: Status)
      requires Valid() && journal.Present? && SameJob(job, journal.job) && journal.job.state in {Ready, Restarting}
      requires booted == job.source && job.id !in h.launched
      requires safe ==> env.pending == None
      modifies this
      ensures Valid() && booted == old(booted) && reconciled == old(reconciled) && h == old(h) && env == old(env)
      ensures s != Threw
      ensures s == Done ==> journal == Present(if safe then job.(state := Ready, activated := false)
                                               else job.(state := NeedsCheck))
      ensures s == Done ==> guard == if safe then Waiting else Reconciling
      ensures steady ==> s == Done
    {
      hide Inv;
      BackKeepsInv(Now(), job);
      if !safe {
        s := Save(job.(state := NeedsCheck), h);
        if s != Done { return; }
        GuardKeepsInv(Now(), Reconciling);
        s := SetGuard(Reconciling);
        return;
      }
      s := Save(job.(state := Ready, activated := false), h);
      if s != Done { return; }
      GuardKeepsInv(Now(), Waiting);
      s := SetGuard(Waiting);
    }

    /** `clear_pending` for a job that was never launched and whose target cannot boot. */
    method ForgetPending(job: Job) returns (s: Status)
      requires Valid() && journal.Present? && SameJob(job, journal.job) && journal.job.state in {Ready, Restarting}
      requires booted == job.source && job.id !in h.launched && env.Left(job.target) == 0
      modifies this
      ensures Valid() && (Now() == old(Now()) || Now() == old(Now()).(env := old(env).(pending := None)))
      ensures s == Done ==> env.pending == None
      ensures steady ==> s == Done
    {
      if env.pending.Some? { ClearKeepsInv(Now()); }
      s := SetEnv(env.(pending := None), h);
    }

    /** `revalidate`: trust, space and the app are one outcome, `trusted`; what it reads from the
        environment is not opaque. */
    method Revalidate(job: Job, trusted: bool) returns (s: Status)
      ensures s == Done ==> trusted && env.floor < job.sequence && env.Left(job.target) == 0 && env.Heads(job.source)
      ensures s != Stopped
      ensures steady && trusted && env.floor < job.sequence && env.Left(job.target) == 0 && env.Heads(job.source) ==>
                s == Done
    {
      var e;
      s, e := ReadEnv();
      if s != Done { return; }
      if job.sequence <= e.floor { return Threw; }
      if e.Left(job.target) != 0 || !e.Heads(job.source) { return Threw; }
      if !trusted { s := Threw; }
    }

    /** `activate`, run by the worker for a restarting job. `rebooting` asks for the reboot. */
    method Activate(job: Job, trusted: bool) returns (s: Status, rebooting: bool)
      requires Valid() && journal == Present(job) && job.state == Restarting && MayActivate(env, booted, job)
      modifies this
      ensures Valid() && reconciled == old(reconciled) && booted == old(booted) && h == old(h)
      ensures env.floor == old(env.floor)
      ensures rebooting ==> env.pending.Some? && env.pending.value.id == job.id && env.pending.value.phase == Activated
      ensures rebooting ==> journal == Present(job.(activated := true))
      ensures rebooting ==>
                || (job.activated && Now() == old(Now()))
                || (trusted && old(env.floor) < job.sequence && old(env.Left(job.target)) == 0
                    && old(env.Heads(job.source)) && env.Heads(job.target) && env.Left(job.target) == 3)
      ensures s == Done && !rebooting ==>
                || (journal == Present(job.(state := Ready, activated := false)) && guard == Waiting
                    && env.pending == None && env.Left(job.target) == 0)
                || (journal == Present(job.(state := NeedsCheck)) && guard == Reconciling)
      ensures steady ==> s == Done && (!rebooting ==> guard == Waiting)
      ensures steady ==> (rebooting <==>
                || (job.activated && old(env.pending).Some? && old(env.pending.value.phase) == Activated)
                || (trusted && old(env.floor) < job.sequence && old(env.Left(job.target)) == 0
                    && old(env.Heads(job.source))))
    {
      RestartFacts(Now(), job);
      hide Inv;
      rebooting := false;
      var e;
      if job.activated {
        s, e := ReadEnv();
        if s != Done { return; }
        if e.pending.Some? && e.pending.value.phase == Activated {
          return Done, true;      // only the reboot was missing
        }
      }
      s := Intend(job, trusted);
      if s == Stopped { return; }
      if s == Threw {
        s := BackToReady(job);
        return;
      }
      s, rebooting := Switch(job);
    }

    /** The guarded part of `activate`: revalidation, then the intent in one batch. */
    method Intend(job: Job, trusted: bool) returns (s: Status)
      requires Valid() && journal == Present(job) && job.state == Restarting && MayActivate(env, booted, job)
      modifies this
      ensures Valid() && Now() == old(Now()).(env := env) && env.floor == old(env.floor)
      ensures env == old(env) || env.pending == Some(Pending(job.id, job.target, job.source, job.sequence, Intent,
                None))
      ensures s == Done ==> env.pending == Some(Pending(job.id, job.target, job.source, job.sequence, Intent, None))
      ensures s == Done ==> trusted && env.floor < job.sequence && env.Left(job.target) == 0 && env.Heads(job.source)
      ensures env.(pending := None) == old(env).(pending := None)
      ensures steady ==>
                s != Stopped && (s == Done <==> trusted && old(env.floor) < job.sequence
                                                && old(env.Left(job.target)) == 0 && old(env.Heads(job.source)))
    {
      RestartFacts(Now(), job);
      hide Inv;
      s := Revalidate(job, trusted);
      if s != Done { return; }
      var e;
      s, e := ReadEnv();
      if s != Done { return; }
      if e.pending.Some? && e.pending.value.id != job.id { return Threw; }
      IntentKeepsInv(Now(), job);
      s := SetEnv(env.(pending := Some(Pending(job.id, job.target, job.source, job.sequence, Intent, None))), h);
    }

    /** The rest of `activate`: the target first with three attempts, then the phase. */
    method Switch(job: Job) returns (s: Status, rebooting: bool)
      requires Valid() && journal == Present(job) && job.state == Restarting && booted == job.source
      requires env.pending == Some(Pending(job.id, job.target, job.source, job.sequence, Intent, None))
      modifies this
      ensures Valid() && reconciled == old(reconciled) && booted == old(booted) && h == old(h)
      ensures env.floor == old(env.floor)
      ensures rebooting ==> env.pending.Some? && env.pending.value.id == job.id && env.pending.value.phase == Activated
      ensures rebooting ==> env.Heads(job.target) && env.Left(job.target) == 3
      ensures rebooting ==> s == Done && journal == Present(job.(activated := true))
      ensures s == Done && !rebooting ==>
                || (journal == Present(job.(state := Ready, activated := false)) && guard == Waiting
                    && env.pending == None && env.Left(job.target) == 0)
                || (journal == Present(job.(state := NeedsCheck)) && guard == Reconciling)
      ensures steady ==> rebooting
    {
      RestartFacts(Now(), job);
      hide Inv, MarkedActive;
      rebooting := false;
      s := MarkActive(job.target);
      if s != Done { return; }
      var e;
      s, e := ReadEnv();
      if s != Done { return; }
      if !e.Heads(job.target) || e.Left(job.target) != 3 {
        s := BackToReady(job);
        return;
      }
      ActivatedKeepsInv(Now(), job);
      s := SetEnv(env.(pending := Some(env.pending.value.(phase := Activated))), h);
      if s != Done { return; }
      s := Save(job.(activated := true), h);
      if s != Done { return; }
      rebooting := true;
    }

    // ---- boot health: confirmation ----

    /** `rebuild`: the journal of the job the environment names. */
    method Rebuild(p: Pending) returns (s: Status, job: Job)
      requires Valid() && env.pending == Some(p) && journal != Unreadable
      requires p.id in h.careless || guard != Idle || journal.Present?
      modifies this
      ensures Valid() && env == old(env) && booted == old(booted) && reconciled == old(reconciled)
      ensures guard == old(guard) && h == old(h)
      ensures s != Threw
      ensures s == Done ==> journal == Present(job) && job.id == p.id
      ensures old(journal).Present? ==> s == Done && journal == old(journal)
      ensures old(journal) == Absent ==> job.state == Trying
      ensures journal == old(journal) || journal == Present(JobFor(p, old(journal)))
      ensures s == Done ==> job == JobFor(p, old(journal))
      ensures old(journal) == Absent && s == Done ==> job == Job(p.id, Trying, p.sequence, p.source, p.target, false)
      ensures steady ==> s == Done
    {
      if journal.Present? && journal.job.id == p.id { return Done, journal.job; }
      job := Job(p.id, Trying, p.sequence, p.source, p.target, false);
      s := Save(job, h);
    }

    /** `confirm_candidate`: the trial is healthy. Callable again from any phase. */
    method ConfirmCandidate(id: JobId) returns (s: Status)
      requires Valid()
      modifies this
      ensures Valid() && booted == old(booted) && reconciled == old(reconciled)
      ensures s == Done ==> OnTrial(old(Now()), id) && old(journal) != Unreadable
      ensures s == Done ==> old(env.pending).Some? && old(env.pending.value.id) == id
                            && old(env.pending.value.target) == booted && old(env.pending.value.trial) == Some(id)
                            && old(env.pending.value.phase) != Intent
      ensures steady ==>
                (s == Done <==> OnTrial(old(Now()), id) && old(journal) != Unreadable
                                && (old(env.pending.value.phase) == Promoting ==> old(env.Left(booted)) == 3))
      ensures s == Done ==> journal.Present? && journal.job.id == id && journal.job.state == Confirmed
                            && guard == Idle && env.pending == None && env.floor == old(env.pending.value.sequence)
      ensures env.floor != old(env.floor) ==> OnTrial(old(Now()), id) && id in h.good
                                              && env.floor == old(env.pending.value.sequence) > old(env.floor)
      ensures !OnTrial(old(Now()), id) ==> s != Done && Now() == old(Now())
      ensures s == Done ==> Media() == ConfirmRun(old(Media()), booted, id)
      ensures Resumable(Media(), booted) && Resumable(old(Media()), booted) ==>
                ConfirmRun(Media(), booted, id) == ConfirmRun(old(Media()), booted, id)
      ensures Continues(old(h), h)
      ensures env.pending.Some? ==> old(env.pending).Some?
      ensures env.pending.Some? ==> Rank(env.pending.value.phase) >= Rank(old(env.pending.value.phase))
      ensures env.pending.Some? ==> env.pending.value == old(env.pending.value).(phase := env.pending.value.phase)
    {
      var e;
      s, e := ReadEnv();
      if s != Done { return; }
      if e.pending == None || e.pending.value.id != id || e.pending.value.target != booted
         || e.pending.value.trial != Some(id) || e.pending.value.phase == Intent {
        return Threw;
      }
      hide Inv, Continues, PromoteEnv, ConfirmRun, Rank, Resumable;
      ContinuesTransitive();
      s := ConfirmPhases();
      if s != Done { return; }
      s := EndConfirmation();
    }

    /** What follows the promoting phase: the record, then the pending variables. */
    method EndConfirmation() returns (s: Status)
      requires Valid() && env.pending.Some? && env.pending.value.phase == Promoting
      requires OnTrial(Now(), env.pending.value.id)
      modifies this
      ensures Valid() && booted == old(booted) && reconciled == old(reconciled)
      ensures s == Done ==> journal.Present? && journal.job.id == old(env.pending.value.id)
                            && journal.job.state == Confirmed && old(journal) != Unreadable
                            && guard == Idle && env.pending == None
      ensures s == Done ==> Media() == ConfirmRun(old(Media()), booted, old(env.pending.value.id))
      ensures env == old(env) || env == old(env).(pending := None)
      ensures Resumable(Media(), booted) && Resumable(old(Media()), booted) ==>
                ConfirmRun(Media(), booted, old(env.pending.value.id))
                == ConfirmRun(old(Media()), booted, old(env.pending.value.id))
      ensures Resumable(Media(), booted) ==> Resumable(old(Media()), booted)
      ensures Continues(old(h), h)
      ensures s == Done ==> old(env.Left(booted)) == 3
      ensures steady && old(env.Left(booted)) == 3 && old(journal) != Unreadable ==> s == Done
    {
      hide Inv, Continues, PromoteEnv;
      ContinuesTransitive();
      PromotedFloor(Now());
      s := Threw;
      if env.Left(booted) != 3 { return Threw; }
      if !steady { s := *; if s != Done { return; } }    // promote_app: its own files on DATA
      if journal == Unreadable { return Threw; }
      s := RecordConfirmed();
      if s != Done { return; }
      ClearKeepsInv(Now());
      s := SetEnv(env.(pending := None), h);
    }

    /** The environment batches of a confirmation: confirming, mark-good, then floor and
        promoting together. */
    method ConfirmPhases() returns (s: Status)
      requires Valid() && env.pending.Some? && OnTrial(Now(), env.pending.value.id)
      modifies this
      ensures Valid() && booted == old(booted) && reconciled == old(reconciled) && guard == old(guard)
      ensures journal == old(journal)
      ensures env.pending.Some? && env.pending.value == old(env.pending.value).(phase := env.pending.value.phase)
      ensures Rank(env.pending.value.phase) >= Rank(old(env.pending.value.phase))
      ensures env.floor != old(env.floor) ==> env.pending.value.id in h.good
                                              && env.floor == env.pending.value.sequence > old(env.floor)
      ensures s == Done ==> env.pending.value.phase == Promoting && env.floor == env.pending.value.sequence
      ensures Continues(old(h), h)
      ensures old(env.pending.value.phase) == Promoting ==> Now() == old(Now())
      ensures steady ==> s == Done && (old(env.pending.value.phase) != Promoting ==> env.Left(booted) == 3)
      ensures Resumable(Media(), booted) && Resumable(old(Media()), booted) ==>
                ConfirmRun(Media(), booted, env.pending.value.id) == ConfirmRun(old(Media()), booted,
                  env.pending.value.id)
    {
      hide Inv;
      s := Done;
      if env.pending.value.phase == Activated {
        ConfirmingKeepsInv(Now());
        s := SetEnv(env.(pending := Some(env.pending.value.(phase := Confirming))), h);
        if s != Done { return; }
      }
      if env.pending.value.phase == Confirming {
        s := PromotePhase();
        if s != Done { return; }
      }
      hide ConfirmRun;
      PromotedFloor(Now());
    }

    /** mark-good, then floor and promoting in one batch. */
    method PromotePhase() returns (s: Status)
      requires Valid() && env.pending.Some? && OnTrial(Now(), env.pending.value.id)
      requires env.pending.value.phase == Confirming
      modifies this
      ensures Valid() && booted == old(booted) && reconciled == old(reconciled) && guard == old(guard)
      ensures journal == old(journal)
      ensures env.pending.Some? && env.pending.value == old(env.pending.value).(phase := env.pending.value.phase)
      ensures env.pending.value.phase in {Confirming, Promoting}
      ensures env.floor != old(env.floor) ==> env.pending.value.id in h.good
                                              && env.floor == env.pending.value.sequence > old(env.floor)
      ensures s == Done ==> env.pending.value.phase == Promoting && env.floor == env.pending.value.sequence
      ensures Continues(old(h), h)
      ensures steady ==> s == Done && env.Left(booted) == 3
      ensures Resumable(Media(), booted) ==>
                ConfirmRun(Media(), booted, env.pending.value.id) == ConfirmRun(old(Media()), booted,
                  env.pending.value.id)
    {
      hide Inv;
      ghost var before := env;
      s := MarkTrialGood();
      MarkedGoodThenFull(before, env, booted);
      if s != Done { return; }
      PromoteKeepsInv(Now());
      s := SetEnv(PromoteEnv(env), Promote(Now()).h);
    }

    /** `rauc status mark-good booted` on a healthy trial; Done when it exits with 0. */
    method MarkTrialGood() returns (s: Status)
      requires Valid() && env.pending.Some? && env.pending.value.phase == Confirming
      requires env.pending.value.target == booted
      modifies this
      ensures Valid() && booted == old(booted) && reconciled == old(reconciled) && guard == old(guard)
      ensures journal == old(journal) && env.pending == old(env.pending) && env.floor == old(env.floor)
      ensures s == Done ==> env.pending.value.id in h.good
      ensures Continues(old(h), h) && MarkedGood(old(env), env, booted)
      ensures steady ==> s == Done && env.Left(booted) == 3
    {
      ghost var id := env.pending.value.id;
      h := h.(healthy := h.healthy + {id});
      var ok;
      s, ok := MarkGood();
      if s != Done { return; }
      if !ok { return Threw; }
      h := h.(good := h.good + {id});
    }

    /** `finish(rebuild(env, journal()), 'confirmed', None)` */
    method RecordConfirmed() returns (s: Status)
      requires Valid() && env.pending.Some? && env.pending.value.phase == Promoting && journal != Unreadable
      requires env.pending.value.id in h.good
      modifies this
      ensures Valid() && env == old(env) && booted == old(booted) && reconciled == old(reconciled)
      ensures h.good == old(h.good) && Continues(old(h), h)
      ensures journal != Unreadable
      ensures var p := env.pending.value;
              JobFor(p, journal).(state := Confirmed) == JobFor(p, old(journal)).(state := Confirmed)
      ensures s == Done ==> journal.Present? && journal.job.id == env.pending.value.id
                            && journal.job.state == Confirmed && guard == Idle
      ensures steady ==> s == Done
    {
      PendingFacts(Now());
      hide Inv;
      var job;
      s, job := Rebuild(env.pending.value);
      if s != Done { return; }
      ConfirmedKeepsInv(Now(), job);
      s := Finish(job, Confirmed, h.(confirmed := h.confirmed + {job.id}));
    }

    // ---- hostd start, after every boot ----

    /** `reconcile` of epilykos_os_update.py; the worker it may start is a later action. */
    method Reconcile() returns (s: Status)
      requires Valid() && env.pending == None
      requires journal.Present? ==> journal.job.state !in {Restarting, Trying}
      modifies this
      ensures Valid() && env == old(env) && journal == old(journal) && h == old(h)
      ensures booted == old(booted) && reconciled == old(reconciled)
      ensures s == Done ==> guard == (match journal
                                      case Absent => Idle
                                      case Unreadable => Reconciling
                                      case Present(job) =>
                                        if Terminal(job.state) then Idle
                                        else if job.state == Ready then Waiting
                                        else if job.state == NeedsCheck then Reconciling
                                        else Active)
      ensures s == Done ==> journal != Unreadable
      ensures steady && journal != Unreadable ==> s == Done
    {
      if journal == Unreadable {
        s := SetGuard(Reconciling);
        if s == Done { s := Threw; }
        return;
      }
      if journal == Absent || Terminal(journal.job.state) {
        s := SetGuard(Idle);
      } else if journal.job.state == Ready {
        s := SetGuard(Waiting);
      } else if journal.job.state == NeedsCheck {
        s := SetGuard(Reconciling);
      } else {
        s := SetGuard(Active);
      }
    }

    /** `reconcile_boot`. What it leaves when it completes is safe for the worker, and each case
        has its own end. */
    method ReconcileBoot(workerActive: bool) returns (s: Status)
      requires Valid()
      modifies this
      ensures Valid() && booted == old(booted)
      ensures env.floor == old(env.floor) && h == old(h)
      ensures s == Done ==> reconciled || (workerActive && Now() == old(Now()))
      ensures old(journal) == Unreadable ==> s != Done && env == old(env) && journal == Unreadable
      ensures s == Threw && old(journal) == Unreadable ==> guard == Reconciling
      ensures s == Done && workerActive && old(journal).Present?
              && old(journal.job.state) in {Queued, Downloading, Verifying, Installing, Restarting} ==>
                Now() == old(Now())
      // nothing pending
      ensures s == Done && !workerActive && old(env.pending) == None && old(journal).Present?
              && old(journal.job.state) == Restarting ==>
                WentBack(old(journal.job))
      ensures s == Done && !workerActive && old(env.pending) == None
              && !(old(journal).Present? && old(journal.job.state) == Restarting) ==>
                env == old(env) && journal == old(journal) && GuardFits()
      // the target runs
      ensures var p := old(env.pending);
              s == Done && !workerActive && p.Some? && booted == p.value.target ==>
                if old(journal).Present? && old(journal.job.state) == Confirmed
                then journal == old(journal) && guard == Idle && env == old(env).(pending := None)
                else journal.Present? && journal.job.id == p.value.id && journal.job.state == Trying
                     && guard == Waiting && env == old(env)
      // a rollback
      ensures var p := old(env.pending);
              s == Done && !workerActive && p.Some? && booted == p.value.source && p.value.trial.Some? ==>
                journal.Present? && journal.job.id == p.value.id && journal.job.state == RolledBack
                && env.pending == None && env.Left(p.value.target) == 0
                && (guard == Idle || (old(journal).Present? && old(journal.job.state) == RolledBack))
      // no trial: an interrupted activation goes back, any other job failed or needs checking
      ensures var p := old(env.pending);
              s == Done && !workerActive && p.Some? && booted == p.value.source && p.value.trial == None ==>
                if old(journal).Present? && old(journal.job.state) in {Restarting, Ready}
                then WentBack(old(journal.job)) else GaveUp(p.value)
      ensures steady && old(journal) != Unreadable ==> s == Done
      ensures var p := old(env.pending);
              steady && s == Done && !workerActive && p.Some? && booted == p.value.source && p.value.trial == None ==>
                guard in {Waiting, Idle}
      ensures steady && s == Done && !workerActive && old(env.pending) == None && old(journal).Present?
              && old(journal.job.state) == Restarting ==>
                guard == Waiting
    {
      var e;
      s, e := ReadEnv();
      if s == Done && journal == Unreadable { s := Threw; }
      if s != Done {
        GuardKeepsInv(Now(), Reconciling);
        var g := SetGuard(Reconciling);
        if g == Stopped { s := Stopped; }
        return;
      }
      if workerActive && journal.Present? &&
         (Working(journal.job.state) || journal.job.state in {Installing, Restarting}) {
        return Done;
      }
      if e.pending.Some? { PendingFacts(Now()); }
      hide Inv;
      if e.pending == None {
        s := ReconcileUnnamed();
      } else if booted == e.pending.value.target {
        s := ReconcileTarget(e.pending.value);
      } else if e.pending.value.trial == Some(e.pending.value.id) {
        s := ReconcileRollback(e.pending.value);
      } else {
        s := ReconcileUnlaunched(e.pending.value);
      }
      if s != Done { return; }
      reconciled := true;
    }

    /** The same job is ready again with nothing pending and its target unbootable, or it needs
        checking. */
    ghost predicate WentBack(job: Job)
      reads this
    {
      || (journal == Present(job.(state := Ready, activated := false)) && guard == Waiting
          && env.pending == None && env.Left(job.target) == 0)
      || (journal == Present(job.(state := NeedsCheck)) && guard == Reconciling)
    }

    /** The named job failed and nothing is pending, or it needs checking. */
    ghost predicate GaveUp(p: Pending)
      reads this
    {
      || (journal.Present? && journal.job.id == p.id && journal.job.state == Failed && guard == Idle
          && env.pending == None && env.Left(p.target) == 0)
      || (journal.Present? && journal.job.id == p.id && env.pending == Some(p) && guard == Reconciling)
    }

    /** The guard that belongs to the journal. */
    ghost predicate GuardFits()
      reads this
    {
      match journal
      case Absent => guard == Idle
      case Unreadable => guard == Reconciling
      case Present(job) =>
        if job.state in {Confirmed, RolledBack, Failed, Cancelled, Discarded} then guard == Idle
        else if job.state == Ready then guard == Waiting
        else if job.state == NeedsCheck then guard == Reconciling
        else guard == Active
    }

    /** Nothing is pending. */
    method ReconcileUnnamed() returns (s: Status)
      requires Valid() && env.pending == None && journal != Unreadable
      modifies this
      ensures Valid() && booted == old(booted) && env.floor == old(env.floor) && h == old(h)
      ensures s == Done ==> Settled(Now())
      ensures s == Done && old(journal).Present? && old(journal.job.state) == Restarting ==> WentBack(old(journal.job))
      ensures s == Done && !(old(journal).Present? && old(journal.job.state) == Restarting) ==>
                env == old(env) && journal == old(journal) && GuardFits()
      ensures steady ==> s == Done
      ensures steady && old(journal).Present? && old(journal.job.state) == Restarting ==> guard == Waiting
    {
      if journal.Present? && journal.job.state == Restarting {
        s := BackToReady(journal.job);
        return;
      }
      if journal.Present? && journal.job.state == Trying {
        // A job on trial is always named by the environment.
        assert false;
      }
      s := Reconcile();
    }

    /** The target runs: the trial, or a confirmation that only missed its last step. */
    method ReconcileTarget(p: Pending) returns (s: Status)
      requires Valid() && env.pending == Some(p) && booted == p.target && journal != Unreadable
      modifies this
      ensures Valid() && booted == old(booted) && env.floor == old(env.floor) && h == old(h)
      ensures s == Done ==> Settled(Now())
      ensures s == Done ==> journal.Present? && journal.job.id == p.id
      ensures s == Done ==>
                if old(journal).Present? && old(journal.job.state) == Confirmed
                then journal == old(journal) && guard == Idle && env == old(env).(pending := None)
                else journal.job.state == Trying && guard == Waiting && env == old(env)
      ensures steady ==> s == Done
    {
      hide Inv, Settled;
      PendingFacts(Now());
      var job;
      s, job := Rebuild(p);
      if s != Done { return; }
      if job.state == Confirmed {
        ClearKeepsInv(Now());
        s := SetEnv(env.(pending := None), h);
        if s != Done { return; }
        GuardKeepsInv(Now(), Idle);
        s := SetGuard(Idle);
        SettledOtherwise(Now());
        return;
      }
      TryingKeepsInv(Now(), job);
      s := Save(job.(state := Trying), h);
      if s != Done { return; }
      GuardKeepsInv(Now(), Waiting);
      s := SetGuard(Waiting);
      SettledOtherwise(Now());
    }

    /** The source runs although the target was launched: a rollback. */
    method ReconcileRollback(p: Pending) returns (s: Status)
      requires Valid() && env.pending == Some(p) && booted == p.source && p.trial == Some(p.id)
      requires journal != Unreadable
      modifies this
      ensures Valid() && booted == old(booted) && env.floor == old(env.floor) && h == old(h)
      ensures s == Done ==> Settled(Now())
      ensures s == Done ==> journal.Present? && journal.job.id == p.id && journal.job.state == RolledBack
      ensures s == Done ==> env.pending == None && env.Left(p.target) == 0
      ensures s == Done ==> guard == Idle || (old(journal).Present? && old(journal.job.state) == RolledBack)
      ensures steady ==> s == Done && env.Heads(booted)
    {
      hide Inv, Settled, MarkedBad;
      PendingFacts(Now());
      var job;
      s, job := Rebuild(p);
      if s != Done { return; }
      var bad;
      s, bad := TargetBad(p.target);
      if s != Done { return; }
      if !bad {
        // The loader left the target only because it had no attempts left.
        assert false;
      }
      s := EndRollback(p, job);
    }

    /** The source heads the order before a rollback is recorded. */
    method HeadSource(p: Pending) returns (s: Status)
      requires Valid() && env.pending == Some(p) && booted == p.source && p.trial == Some(p.id)
      requires env.Left(p.target) == 0
      modifies this`env
      ensures Valid() && env.pending == Some(p) && env.floor == old(env.floor) && env.Left(p.target) == 0
      ensures steady ==> s == Done && env.Heads(booted)
    {
      PendingFacts(Now());
      hide Inv;
      s := Done;
      if !env.Heads(booted) { s := MarkActive(booted); }
    }

    /** The rest of a rollback: source first, journal, then the environment. */
    method EndRollback(p: Pending, job: Job) returns (s: Status)
      requires Valid() && env.pending == Some(p) && booted == p.source && p.trial == Some(p.id)
      requires env.Left(p.target) == 0 && journal == Present(job) && job.id == p.id
      modifies this
      ensures Valid() && booted == old(booted) && env.floor == old(env.floor) && h == old(h)
      ensures s == Done ==> Settled(Now())
      ensures s == Done ==> journal.Present? && journal.job.id == p.id && journal.job.state == RolledBack
      ensures s == Done ==> env.pending == None && env.Left(p.target) == 0
      ensures s == Done ==> guard == Idle || job.state == RolledBack
      ensures steady ==> s == Done && env.Heads(booted)
    {
      s := HeadSource(p);
      if s != Done { return; }
      hide Inv, Settled;
      EndKeepsInv(Now(), job, RolledBack);
      if job.state != RolledBack {
        s := Finish(job, RolledBack, h);
        if s != Done { return; }
      }
      ClearKeepsInv(Now());
      s := SetEnv(env.(pending := None), h);
      SettledOtherwise(Now());
    }

    /** The source runs and the target was never launched. */
    method ReconcileUnlaunched(p: Pending) returns (s: Status)
      requires Valid() && env.pending == Some(p) && booted == p.source && p.trial == None
      requires journal != Unreadable
      modifies this
      ensures Valid() && booted == old(booted) && env.floor == old(env.floor) && h == old(h)
      ensures s == Done ==> Settled(Now())
      ensures s == Done ==>
                if old(journal).Present? && old(journal.job.state) in {Restarting, Ready}
                then WentBack(old(journal.job)) else GaveUp(p)
      ensures steady ==> s == Done && guard in {Waiting, Idle}
    {
      hide Inv, Settled;
      PendingFacts(Now());
      if journal.Present? && journal.job.id == p.id && journal.job.state in {Restarting, Ready} {
        s := BackToReady(journal.job);
        if s == Done {
          if journal.job.state == Ready { SettledReady(Now()); } else { SettledOtherwise(Now()); }
        }
        return;
      }
      var job;
      s, job := Rebuild(p);
      if s != Done { return; }
      var bad;
      s, bad := TargetBad(p.target);
      if s != Done { return; }
      if bad {
        EndKeepsInv(Now(), job, Failed);
        s := Finish(job, Failed, h);
        if s != Done { return; }
        ClearKeepsInv(Now());
        s := SetEnv(env.(pending := None), h);
        SettledOtherwise(Now());
        return;
      }
      GuardKeepsInv(Now(), Reconciling);
      s := SetGuard(Reconciling);
      SettledOtherwise(Now());
    }
  }
}
