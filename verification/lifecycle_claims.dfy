// What the life cycle promises, as statements about its reachable states, and the
// exact place where one promise has an exception.
module LifecycleClaims {
  import opened Bytes
  import opened Lifecycle
  import opened LifecycleActions
  import opened LifecycleWorker
  import opened Steps

  // ---- trials end ----------------------------------------------------------------------

  /** `n` boots in a row with nothing else in between; None once the box halts. */
  function Boots(w: World, n: nat): Option<World>
    decreases n
  {
    if n == 0 then Some(w)
    else if LoaderAccepts(w.env) && Eligible(w.env).Some? then Boots(Booted(w, Eligible(w.env).value), n - 1)
    else None
  }

  /** The target of the pending job is running its trial. */
  ghost predicate OnTarget(w: World) {
    w.env.pending.Some? && w.booted == w.env.pending.value.target && w.env.pending.value.trial.Some?
  }

  /** A trial that never becomes healthy is over after its remaining attempts: the next boot
      starts the source, the marker is still there, and reconciliation will roll back. */
  lemma {:induction false} TrialFallsBack(w: World)
    requires Inv(w) && OnTarget(w) && LoaderAccepts(w.env)
    requires w.env.Left(w.env.pending.value.source) > 0 && w.env.pending.value.source in w.env.order
    ensures var p := w.env.pending.value;
            var last := Boots(w, w.env.Left(p.target) + 1);
            && last.Some? && Inv(last.value)
            && last.value.booted == p.source && last.value.env.pending == Some(p)
            && last.value.env.Left(p.target) == 0
            && (p.id !in w.h.healthy ==> last.value.h.launches == w.h.launches + w.env.Left(p.target) <= 3)
    decreases w.env.Left(w.env.pending.value.target)
  {
    var p := w.env.pending.value;
    assert w.env.Heads(p.target);
    if w.env.Left(p.target) > 0 {
      BootKeepsInv(w, p.target);
      TrialFallsBack(Booted(w, p.target));
    } else {
      assert Eligible(w.env) == Some(p.source);
      BootKeepsInv(w, p.source);
      var after := Booted(w, p.source);
      assert Boots(w, 1) == Boots(after, 0);
    }
  }

  /** Before the first launch there is nothing to roll back: no journal says so, and a boot of
      the source leaves it that way. */
  lemma NoRollbackWithoutLaunch(w: World, id: JobId)
    requires Inv(w) && id !in w.h.launched
    ensures w.journal.Present? && w.journal.job.id == id ==> w.journal.job.state !in {RolledBack, Confirmed}
    ensures Eligible(w.env).Some? && !IsTrial(w.env, Eligible(w.env).value) ==>
              id !in Booted(w, Eligible(w.env).value).h.launched
  {
  }

  /** At most three boots of a target happen before its trial is found healthy, in any
      reachable state and after any further boot. */
  lemma AtMostThreeTrials(w: World)
    requires Inv(w) && w.h.tracked.Some? && Eligible(w.env).Some?
    ensures Booted(w, Eligible(w.env).value).h.launches <= 3
    ensures w.h.tracked.value.id !in w.h.healthy && w.h.launches == 3 ==>
              Eligible(w.env).value != w.h.tracked.value.target
  {
    BootKeepsInv(w, Eligible(w.env).value);
  }

  /** The end of a trial in any life, whatever was tried between its boots: once three boots
      found it unhealthy, or its attempts are gone, the loader starts the source, and the next
      completed reconciliation records the rollback. */
  method EndOfTrial(b: Box) returns (running: bool, s: Status)
    requires b.Valid() && b.env.pending.Some? && b.env.pending.value.trial.Some?
    requires b.env.pending.value.id !in b.h.healthy
    requires b.h.launches == 3 || b.env.Left(b.env.pending.value.target) == 0
    modifies b
    ensures b.Valid() && b.h == old(b.h)
    ensures running ==> b.booted == old(b.env.pending.value.source)
    ensures running && s == Done ==>
              b.journal.Present? && b.journal.job.id == old(b.env.pending.value.id) && b.journal.job.state == RolledBack
              && b.env.pending == None && b.env.Left(old(b.env.pending.value.target)) == 0
  {
    NoAttemptsLeft(b.Now());
    hide Inv;
    s := Stopped;
    running := Reboot(b);
    if running { s := b.ReconcileBoot(false); }
  }

  lemma NoAttemptsLeft(w: World)
    requires Inv(w) && w.env.pending.Some? && w.env.pending.value.id !in w.h.healthy
    requires w.h.launches == 3 || w.env.Left(w.env.pending.value.target) == 0
    ensures w.env.Left(w.env.pending.value.target) == 0
  {
  }

  // ---- maintenance exclusion, and its exceptions ----------------------------------------

  /** Exclusion fails in exactly one situation: an idle guard beside the trial of a job that
      was carelessly ended. */
  lemma ExclusionFailsExactly(w: World)
    requires Inv(w)
    ensures !Exclusion(w) <==>
            Careless(w) && w.guard == Idle && w.journal.Present? && w.journal.job.state == Trying
  {
  }

  /** Writing the rebuilt journal keeps the exclusion exactly when the guard is not idle or
      there was a journal to keep. */
  lemma RebuildKeepsExclusion(w: World)
    requires Inv(w) && w.env.pending.Some? && w.journal != Unreadable && Exclusion(w)
    ensures Exclusion(w.(journal := Present(JobFor(w.env.pending.value, w.journal)))) <==>
            w.guard != Idle || w.journal.Present?
  {
    var p := w.env.pending.value;
    if w.journal.Present? { assert w.journal.job.id == p.id; }
  }

  /** So does putting the job of the environment on trial, exactly when the guard is not idle. */
  lemma TrialKeepsExclusion(w: World)
    requires Inv(w) && w.env.pending.Some? && w.journal != Unreadable
    ensures Exclusion(w.(journal := Present(JobFor(w.env.pending.value, w.journal).(state := Trying)))) <==>
            w.guard != Idle
  {
  }

  function CutRollback(): World {
    var job := Job(7, RolledBack, 12, A, B, true);
    World(Env([A, B], 3, 0, Some(Pending(7, B, A, 12, Activated, Some(7))), 11), Present(job), Idle, A, false,
          History(Some(job), 3, {7}, {}, {}, {}, 11, [], {7}, {}))
  }

  /** A first way is reachable: a rollback cut before its last batch, the finished job
      dismissed, and the next reconciliation writes a live job under an idle guard. */
  lemma DismissWhileNamedBreaksExclusion()
    ensures var w := CutRollback();
            var dismissed := w.(journal := Absent, h := w.h.(careless := {7}));
            var rebuilt := dismissed.(journal := Present(JobFor(w.env.pending.value, Absent)));
            && Inv(w) && !Careless(w) && Exclusion(w) && Blocking(w) == Idle
            && EndsCarelessly(w, DoDismiss(7), 7)
            && Inv(dismissed) && Blocking(dismissed) == Idle && dismissed.env.pending.Some?
            && Inv(rebuilt) && !Exclusion(rebuilt)
  {
    var w := CutRollback();
    assert w.h.log == [];
    assert Inv(w);
  }

  function ActivatedJob(): World {
    var job := Job(7, Restarting, 12, A, B, true);
    World(Env([B, A], 3, 3, Some(Pending(7, B, A, 12, Activated, None)), 11), Present(job), Active, A, true,
          History(Some(job), 0, {}, {}, {}, {}, 11, [], {7}, {}))
  }

  /** That job after its worker found no lease. */
  function EndedWithoutLease(): World {
    var job := Job(7, Failed, 12, A, B, true);
    World(Env([B, A], 3, 3, Some(Pending(7, B, A, 12, Activated, None)), 11), Present(job), Idle, A, true,
          History(Some(ActivatedJob().journal.job), 0, {}, {}, {}, {}, 11, [], {7}, {7}))
  }

  lemma ActivatedJobIsReachable()
    ensures var w := ActivatedJob();
            Inv(w) && !Careless(w) && Exclusion(w) && MayWork(w.env, w.journal, w.booted, false, false, true)
    ensures Inv(EndedWithoutLease()) && Blocking(EndedWithoutLease()) == Idle
  {
    assert ActivatedJob().h.log == [] && EndedWithoutLease().h.log == [];
  }

  /** A second way needs no dismissal: an activated job whose restarted worker finds no
      lease ends as failed under an idle guard, the loader starts its target all the same, and
      reconciliation puts it on trial before it sets the guard. */
  lemma LeaselessEndBreaksExclusion()
    ensures var w := ActivatedJob();
            && Inv(w) && !Careless(w) && Exclusion(w) && MayWork(w.env, w.journal, w.booted, false, false, true)
            && EndsCarelessly(w, DoWork(false, false, true, true, false, true, true), 7)
            && EndedWithoutLease() == w.(journal := Present(w.journal.job.(state := Failed)), guard := Idle,
                                         h := Leaseless(w, w.journal.job))
    ensures var ended := EndedWithoutLease();
            && Blocking(ended) == Idle && Eligible(ended.env) == Some(B)
            && var trial := Booted(ended, B).(journal := Present(ended.journal.job.(state := Trying)));
               Inv(trial) && Blocking(trial) == Idle && !Exclusion(trial)
  {
    ActivatedJobIsReachable();
    hide Inv, Careless;
    var ended := EndedWithoutLease();
    BootKeepsInv(ended, B);
    TryingKeepsInv(Booted(ended, B), ended.journal.job);
  }

  /** A trial whose reconciliation raised, its last attempt spent. */
  function UnreconciledLastTrial(): World {
    var job := Job(7, Restarting, 12, A, B, false);
    World(Env([B, A], 3, 0, Some(Pending(7, B, A, 12, Activated, Some(7))), 11), Present(job), Active, B, false,
          History(Some(job), 3, {7}, {}, {}, {}, 11, [], {7}, {}))
  }

  /** That job after its worker found no lease. */
  function TrialEndedWithoutLease(): World {
    var job := Job(7, Failed, 12, A, B, false);
    World(Env([B, A], 3, 0, Some(Pending(7, B, A, 12, Activated, Some(7))), 11), Present(job), Idle, B, false,
          History(Some(UnreconciledLastTrial().journal.job), 3, {7}, {}, {}, {}, 11, [], {7}, {7}))
  }

  lemma LastTrialIsReachable()
    ensures var w := UnreconciledLastTrial();
            Inv(w) && !Careless(w) && Exclusion(w) && MayWork(w.env, w.journal, w.booted, false, false, true)
    ensures Inv(TrialEndedWithoutLease()) && Blocking(TrialEndedWithoutLease()) == Idle
  {
    assert UnreconciledLastTrial().h.log == [] && TrialEndedWithoutLease().h.log == [];
  }

  /** The same on a trial whose reconciliation raised: the target runs with its last attempt
      spent, the worker finds no lease, and the next reconciliation puts the ended job on trial
      under the idle guard. */
  lemma LeaselessTrialBreaksExclusion()
    ensures var w := UnreconciledLastTrial();
            && Inv(w) && !Careless(w) && Exclusion(w) && w.env.Left(w.journal.job.target) == 0
            && EndsCarelessly(w, DoWork(false, false, true, true, false, true, true), 7)
            && TrialEndedWithoutLease() == w.(journal := Present(w.journal.job.(state := Failed)), guard := Idle,
                                              h := Leaseless(w, w.journal.job))
    ensures var ended := TrialEndedWithoutLease();
            && Blocking(ended) == Idle
            && var trial := ended.(journal := Present(ended.journal.job.(state := Trying)));
               Inv(trial) && Blocking(trial) == Idle && !Exclusion(trial)
  {
    LastTrialIsReachable();
    hide Inv, Careless;
    TryingKeepsInv(TrialEndedWithoutLease(), TrialEndedWithoutLease().journal.job);
  }

  /** Nothing but those events can open it: for any other job, whatever reconciliation
      rebuilds or puts on trial, it does so under a guard that is not idle. */
  lemma HonestRebuildIsGuarded(w: World)
    requires Inv(w) && !Careless(w) && w.env.pending.Some?
    ensures w.journal == Absent ==> ReadGuard(w.guard) != Idle
    ensures w.journal == Absent ==> Exclusion(w.(journal := Present(JobFor(w.env.pending.value, Absent))))
    ensures w.booted == w.env.pending.value.target && w.journal.Present? && w.journal.job.state != Confirmed ==>
              ReadGuard(w.guard) != Idle
  {
  }

  // ---- when the worker may activate ------------------------------------------------------

  /** What `back_to_ready` leaves when it succeeds. */
  function Returned(w: World, job: Job): World {
    w.(env := w.env.WithLeft(job.target, 0).(pending := None), guard := Waiting, reconciled := false,
       journal := Present(job.(state := Ready, activated := false)))
  }

  /** The worker may run `activate` on a named job exactly when the job was not launched: then
      every way it goes keeps the invariant, and otherwise its retreat does not. */
  lemma ActivationIsSafeExactly(w: World, job: Job)
    requires Inv(w) && w.journal == Present(job) && job.state == Restarting && w.env.pending.Some?
    ensures Inv(Returned(w, job)) <==> w.env.pending.value.trial == None
    ensures w.env.pending.value.trial == None <==> MayActivate(w.env, w.booted, job)
  {
    assert job.id == w.env.pending.value.id && SameJob(job, w.h.tracked.value);
  }

  /** Completed reconciliation always ends there, so only a boot whose reconciliation raised
      can offer the worker a launched job. */
  lemma ReconciledMayActivate(w: World, job: Job)
    requires Inv(w) && w.reconciled && w.journal == Present(job) && job.state == Restarting
    ensures MayActivate(w.env, w.booted, job)
  {
  }

  /** A trial whose boot was not reconciled: the journal still says restarting. */
  function UnreconciledTrial(): World {
    var job := Job(7, Restarting, 12, A, B, false);
    World(Env([B, A], 3, 2, Some(Pending(7, B, A, 12, Activated, Some(7))), 11), Present(job), Active, B, false,
          History(Some(job), 1, {7}, {}, {}, {}, 11, [], {7}, {}))
  }

  /** If the worker ran `activate` here, its `back_to_ready` would clear the trial while the
      target runs, and the next ordinary mark-good would make an unconfirmed target bootable. */
  lemma UnreconciledActivationBreaksTarget()
    ensures var w := UnreconciledTrial();
            var back := Returned(w, w.journal.job);
            var good := back.(env := back.env.WithLeft(B, 3));
            && Inv(w) && !w.reconciled && !MayActivate(w.env, w.booted, w.journal.job)
            && MarkedBad(w.env, w.env.WithLeft(B, 0), B)
            && MarkedGood(back.env, good.env, w.booted) && good.env.pending == None
            && !TargetOk(good) && Eligible(good.env) == Some(B) && 7 !in good.h.confirmed
  {
    var w := UnreconciledTrial();
    assert w.h.log == [];
    assert Inv(w);
  }

  // ---- confirmation resumes -------------------------------------------------------------

  /** The durable states an uninterrupted confirmation passes through. */
  function ConfirmPath(d: Durable, slot: Slot, id: JobId): seq<Durable>
    requires d.env.pending.Some?
  {
    var p := d.env.pending.value;
    var confirming := d.(env := d.env.(pending := Some(p.(phase := Confirming))));
    var marked := confirming.(env := confirming.env.WithLeft(slot, 3));
    var promoted := if p.phase == Promoting then d else marked.(env := PromoteEnv(marked.env));
    var rebuilt := promoted.(journal := Present(JobFor(p, d.journal)));
    var recorded := rebuilt.(journal := Present(JobFor(p, d.journal).(state := Confirmed)));
    var idle := recorded.(guard := Idle);
    var done := idle.(env := idle.env.(pending := None));
    (if p.phase == Promoting then [d] else [d, confirming, marked, promoted]) + [rebuilt, recorded, idle, done]
  }

  /** Stopped anywhere on its path and called again in the same boot, a confirmation ends
      where one uninterrupted call ends. */
  lemma ConfirmationResumes(d: Durable, slot: Slot, id: JobId, k: nat)
    requires d.env.pending.Some? && d.journal != Unreadable
    requires var p := d.env.pending.value; p.id == id && p.target == slot && p.trial == Some(id) && p.phase != Intent
    requires Resumable(d, slot) && k < |ConfirmPath(d, slot, id)|
    ensures ConfirmRun(ConfirmPath(d, slot, id)[k], slot, id) == ConfirmRun(d, slot, id)
    ensures ConfirmRun(d, slot, id) == ConfirmPath(d, slot, id)[|ConfirmPath(d, slot, id)| - 1]
  {
    var p := d.env.pending.value;
    var e := d.env;
    assert e.WithLeft(slot, 3).WithLeft(slot, 3) == e.WithLeft(slot, 3);
    assert p.(phase := Confirming).(phase := Promoting) == p.(phase := Promoting);
  }

  /** A call on the trial ends confirmed exactly when it can take over and the journal can be
      read; where it cannot take over it changes nothing. */
  lemma ConfirmsExactly(d: Durable, slot: Slot, id: JobId)
    requires d.env.pending.Some?
    requires var p := d.env.pending.value; p.id == id && p.target == slot && p.trial == Some(id) && p.phase != Intent
    ensures var r := ConfirmRun(d, slot, id);
            (r.env.pending == None && r.journal.Present? && r.journal.job.id == id && r.journal.job.state == Confirmed
             && r.guard == Idle)
            <==> Resumable(d, slot) && d.journal != Unreadable
    ensures !Resumable(d, slot) ==> ConfirmRun(d, slot, id) == d
  {
  }
}
