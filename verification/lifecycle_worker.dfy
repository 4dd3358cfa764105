// The life before ready (epilykos_os_update.py), the events around it, and the
// whole life of a box as one loop of actions, cuts and boots.
module LifecycleWorker {
  import opened Bytes
  import opened Lifecycle
  import opened Steps
  import opened LifecycleActions

  // ---- steps of a job that is not ready yet -----------------------------------------

  lemma EarlyFacts(w: World)
    requires Inv(w) && w.journal.Present? && (Working(w.journal.job.state) || w.journal.job.state == Installing)
    ensures w.h.tracked == None && w.env.pending == None && w.journal.job.id !in w.h.launched
    ensures w.journal.job.id in w.h.used
  {
  }

  /** Moving an early job on, or ending it. Installing needs a guard that is not idle. */
  lemma EarlyKeepsInv(w: World, job: Job, state: JobState)
    requires Inv(w) && w.journal == Present(job) && (Working(job.state) || job.state == Installing)
    requires Working(state) || state in {Installing, NeedsCheck, Failed, Cancelled}
    requires state in {Installing, NeedsCheck} ==> w.guard != Idle
    ensures Inv(w.(journal := Present(job.(state := state))))
  {
  }

  /** Reaching ready: the target was shown not to boot, and the source is running. */
  lemma ReadyKeepsInv(w: World, job: Job)
    requires Inv(w) && w.journal == Present(job) && job.state == Installing && w.guard != Idle
    requires w.env.Left(job.target) == 0 && w.booted == job.source && job.target == job.source.Other()
    ensures Inv(w.(journal := Present(job.(state := Ready)),
                   h := w.h.(tracked := Some(job.(state := Ready)), launches := 0)))
  {
  }

  lemma AdmitKeepsInv(w: World, job: Job)
    requires Inv(w) && w.env.pending == None && job.id !in w.h.used && job.state == Queued
    ensures Inv(w.(journal := Present(job), h := w.h.(tracked := None, launches := 0, used := w.h.used + {job.id})))
  {
  }

  /** `step(job, phase)` */
  method Step(b: Box, job: Job, state: JobState) returns (s: Status, next: Job)
    requires b.Valid() && b.journal == Present(job) && (Working(job.state) || job.state == Installing)
    requires Working(state) || state == Installing
    requires b.guard != Idle
    modifies b
    ensures b.Valid() && b.env == old(b.env) && b.guard == old(b.guard) && b.booted == old(b.booted)
    ensures b.h == old(b.h) && b.reconciled == old(b.reconciled) && s != Threw
    ensures s == Done ==> next == job.(state := state) && b.journal == Present(next)
    ensures b.steady ==> s == Done
  {
    hide Inv;
    EarlyKeepsInv(b.Now(), job, state);
    next := job.(state := state);
    s := b.Save(next, b.h);
  }

  /** `finish` of an early job. */
  method Abandon(b: Box, job: Job, state: JobState) returns (s: Status)
    requires b.Valid() && b.journal == Present(job) && (Working(job.state) || job.state == Installing)
    requires state in {Failed, Cancelled}
    modifies b
    ensures b.Valid() && b.booted == old(b.booted) && b.h == old(b.h) && b.env == old(b.env)
    ensures b.reconciled == old(b.reconciled) && s != Threw
    ensures s == Done ==> b.journal == Present(job.(state := state)) && b.guard == Idle
    ensures b.steady ==> s == Done
  {
    hide Inv;
    EarlyKeepsInv(b.Now(), job, state);
    s := b.Finish(job, state, b.h);
  }

  /** The target of the job can boot, or it is running. */
  predicate TargetLives(e: Env, booted: Slot, job: Job) {
    e.Left(job.target) > 0 || booted != job.source
  }

  /** A restarting job may fail for want of the lease exactly while its target neither can boot
      nor runs: otherwise a finished job is named by an environment that starts it, or beside
      its own trial, and it counts as carelessly ended. */
  lemma LeaselessRestart(w: World, job: Job)
    requires Inv(w) && w.journal == Present(job) && job.state == Restarting
    ensures Inv(w.(journal := Present(job.(state := Failed)))) <==>
            w.env.pending == None || !TargetLives(w.env, w.booted, job) || Careless(w)
    ensures w.env.pending == None ==> !TargetLives(w.env, w.booted, job)
  {
    assert w.h.tracked.Some? && SameJob(job, w.h.tracked.value);
  }

  /** The history after a restarting job ended for want of the lease. */
  ghost function Leaseless(w: World, job: Job): History {
    if TargetLives(w.env, w.booted, job) then w.h.(careless := w.h.careless + {job.id}) else w.h
  }

  lemma LeaselessKeepsInv(w: World, job: Job)
    requires Inv(w) && w.journal == Present(job) && job.state == Restarting
    ensures Inv(w.(journal := Present(job.(state := Failed)), h := Leaseless(w, job)))
    ensures TargetLives(w.env, w.booted, job) ==> w.env.pending.Some? && w.env.pending.value.id == job.id
  {
  }

  // ---- hostd: install, cancel, dismiss ------------------------------------------------

  /** `install`: one job, only above the confirmed floor and this slot's own sequence, and
      only when nothing else is live. `healthy` is the boot-health record of this boot; `trusted`
      stands for trust, the app and space. */
  method Install(b: Box, id: JobId, sequence: nat, own: nat, healthy: bool, trusted: bool) returns (s: Status)
    requires b.Valid() && id !in b.h.used
    modifies b
    ensures b.Valid() && b.env == old(b.env) && b.guard == old(b.guard) && b.booted == old(b.booted)
    ensures b.reconciled == old(b.reconciled)
    ensures s == Done ==> b.env.floor < sequence && own < sequence && b.env.pending == None && b.guard == Idle
    ensures s == Done ==> b.env.Heads(b.booted) && healthy && trusted
    ensures s == Done ==> old(b.journal) == Absent || (old(b.journal).Present?
                          && old(b.journal.job.state) in {Confirmed, RolledBack, Failed, Cancelled, Discarded})
    ensures s == Done ==> b.journal == Present(Job(id, Queued, sequence, b.booted, b.booted.Other(), false))
    ensures b.h == old(b.h) || b.h == old(b.h).(tracked := None, launches := 0, used := old(b.h.used) + {id})
    ensures s == Threw ==> b.Now() == old(b.Now())
    ensures b.steady ==>
              (s == Done <==>
                 && (old(b.journal) == Absent || (old(b.journal).Present? && Terminal(old(b.journal.job.state))))
                 && b.guard == Idle && b.env.floor < sequence && own < sequence && healthy && trusted
                 && b.env.pending == None && b.env.Heads(b.booted))
  {
    hide Inv;
    if b.journal == Unreadable { return Threw; }
    if b.journal != Absent && !Terminal(b.journal.job.state) { return Threw; }
    if ReadGuard(b.guard) != Idle { return Threw; }
    var e;
    s, e := b.ReadEnv();
    if s != Done { return; }
    if sequence <= e.floor || sequence <= own { return Threw; }
    if !healthy || e.pending.Some? || !e.Heads(b.booted) { return Threw; }
    if !trusted { return Threw; }
    var job := Job(id, Queued, sequence, b.booted, b.booted.Other(), false);
    AdmitKeepsInv(b.Now(), job);
    s := b.Save(job, b.h.(tracked := None, launches := 0, used := b.h.used + {id}));
  }

  /** `cancel`: a request for the worker; without a worker the job ends here. */
  method Cancel(b: Box, id: JobId, workerActive: bool) returns (s: Status)
    requires b.Valid()
    modifies b
    ensures b.Valid() && b.booted == old(b.booted) && b.h == old(b.h) && b.env == old(b.env)
    ensures b.reconciled == old(b.reconciled)
    ensures s == Done ==> old(b.journal).Present? && old(b.journal.job.id) == id
                          && old(b.journal.job.state) in {Queued, Downloading, Verifying}
    ensures s == Done && workerActive ==> b.Now() == old(b.Now())
    ensures s == Done && !workerActive ==>
              b.journal == Present(old(b.journal.job).(state := Cancelled)) && b.guard == Idle
    ensures s == Threw ==> b.Now() == old(b.Now())
    ensures b.steady ==>
              (s == Done <==> old(b.journal).Present? && old(b.journal.job.id) == id
                              && old(b.journal.job.state) in {Queued, Downloading, Verifying})
  {
    if b.journal == Absent || b.journal == Unreadable { return Threw; }
    var job := b.journal.job;
    if job.id != id || !Working(job.state) { return Threw; }
    if workerActive { return Done; }
    s := Abandon(b, job, Cancelled);
  }

  /** `dismiss`: forgets a finished job. */
  method Dismiss(b: Box, id: JobId) returns (s: Status)
    requires b.Valid()
    modifies b
    ensures b.Valid() && b.booted == old(b.booted) && b.env == old(b.env) && b.guard == old(b.guard)
    ensures b.reconciled == old(b.reconciled)
    ensures s == Done <==> old(b.journal).Present? && old(b.journal.job.id) == id
                           && old(b.journal.job.state) in {Confirmed, RolledBack, Failed, Cancelled, Discarded}
    ensures s == Done ==> b.journal == Absent
    ensures s != Done ==> b.Now() == old(b.Now())
    ensures b.h == old(b.h).(careless := b.h.careless)
    ensures b.h.careless == old(b.h.careless)
            || (s == Done && b.env.pending.Some? && b.h.careless == old(b.h.careless) + {b.env.pending.value.id})
  {
    if b.journal == Absent || b.journal == Unreadable { return Threw; }
    if b.journal.job.id != id || !Terminal(b.journal.job.state) { return Threw; }
    b.journal := Absent;
    if b.env.pending.Some? { b.h := b.h.(careless := b.h.careless + {b.env.pending.value.id}); }
    s := Done;
  }

  // ---- the worker -----------------------------------------------------------------------

  /** Without the one slot, the other heads the order exactly if it is in it. */
  lemma WithoutHeads(order: seq<Slot>, s: Slot)
    ensures |Without(order, s)| > 0 && Without(order, s)[0] == s.Other() <==> s.Other() in order
    ensures s !in Without(order, s)
    ensures s.Other() in Without(order, s) <==> s.Other() in order
  {
    if order != [] { WithoutHeads(order[1..], s); }
  }

  /** `fail_install`: failed if the target is shown not to boot, else it needs checking. */
  method FailInstall(b: Box, job: Job) returns (s: Status)
    requires b.Valid() && b.journal == Present(job) && job.state == Installing && b.guard != Idle
    modifies b
    ensures b.Valid() && b.booted == old(b.booted) && b.h == old(b.h)
    ensures b.env.floor == old(b.env.floor) && b.reconciled == old(b.reconciled)
    ensures s == Done ==> || (b.journal == Present(job.(state := Failed)) && b.guard == Idle
                              && b.env.Left(job.target) == 0 && b.env.Heads(job.source))
                          || (b.journal == Present(job.(state := NeedsCheck)) && b.guard == Reconciling)
    ensures b.steady ==> s == Done
    ensures b.steady && job.target == job.source.Other() ==> (b.guard == Idle <==> job.source in old(b.env.order))
  {
    WithoutHeads(b.env.order, job.target);
    EarlyFacts(b.Now());
    hide Inv;
    s := b.MarkBad(job.target);
    if s != Done { return; }
    var e;
    s, e := b.ReadEnv();
    var safe := s == Done && e.Left(job.target) == 0 && e.Heads(job.source);
    if !safe {
      EarlyKeepsInv(b.Now(), job, NeedsCheck);
      s := b.Save(job.(state := NeedsCheck), b.h);
      if s != Done { return; }
      GuardKeepsInv(b.Now(), Reconciling);
      s := b.SetGuard(Reconciling);
      return;
    }
    s := Abandon(b, job, Failed);
  }

  /** The three ends of an installation. */
  ghost predicate InstallEnded(b: Box, job: Job)
    reads b
  {
    || (b.journal == Present(job.(state := Ready)) && b.guard == Waiting)
    || (b.journal == Present(job.(state := Failed)) && b.guard == Idle
        && b.env.Left(job.target) == 0 && b.env.Heads(job.source))
    || (b.journal == Present(job.(state := NeedsCheck)) && b.guard == Reconciling)
  }

  /** `complete_install`: ready only if the installed slot is the signed image and cannot
      boot yet. `matches` is the comparison of the slot with the signed hash. */
  method CompleteInstall(b: Box, job: Job, matches: bool) returns (s: Status)
    requires b.Valid() && b.journal == Present(job) && job.state == Installing && b.guard != Idle
    requires b.booted == job.source && job.target == job.source.Other()
    modifies b
    ensures b.Valid() && b.booted == old(b.booted) && b.reconciled == old(b.reconciled)
    ensures b.env.floor == old(b.env.floor)
    ensures s == Done && b.journal.Present? && b.journal.job.state == Ready ==>
              matches && b.env.Left(job.target) == 0 && b.env.Heads(job.source) && b.guard == Waiting
              && Tracks(b.Now(), job.id)
    ensures s == Done ==> InstallEnded(b, job)
    ensures b.steady ==> s == Done
    ensures b.steady ==>
              (b.guard == Waiting <==> matches && old(b.env.Left(job.target)) == 0 && old(b.env.Heads(job.source)))
    ensures b.steady && job.source in old(b.env.order) ==> b.guard != Reconciling
    ensures b.h == old(b.h) || b.h == old(b.h).(tracked := Some(job.(state := Ready)), launches := 0)
  {
    hide Inv;
    var e;
    s, e := b.ReadEnv();
    if s != Done || e.Left(job.target) != 0 || !e.Heads(job.source) || !matches {
      s := FailInstall(b, job);
      return;
    }
    ReadyKeepsInv(b.Now(), job);
    s := b.Save(job.(state := Ready), b.h.(tracked := Some(job.(state := Ready)), launches := 0));
    if s != Done { return; }
    GuardKeepsInv(b.Now(), Waiting);
    s := b.SetGuard(Waiting);
  }

  /** `work`: admits a newer policy, downloads, verifies, installs. What each opaque step
      reports is a parameter: an outcome, or a cancellation seen. */
  method Work(b: Box, job: Job, downloaded: bool, verified: bool, cancelled: bool, installed: bool, matches: bool)
    returns (s: Status)
    requires b.Valid() && b.journal == Present(job) && Working(job.state) && b.guard != Idle
    requires b.booted == job.source && job.target == job.source.Other()
    modifies b
    ensures b.Valid() && b.booted == old(b.booted) && b.reconciled == old(b.reconciled)
    ensures b.env.floor == old(b.env.floor)
    ensures s == Done && b.journal.Present? && b.journal.job.state == Ready ==>
              downloaded && verified && !cancelled && installed && matches
    ensures s == Done && !(downloaded && verified) ==>
              b.guard == Idle && b.env == old(b.env) && b.journal.Present?
              && b.journal.job.(state := job.state) == job && b.journal.job.state == Failed
    ensures s == Done && downloaded && verified && cancelled ==>
              b.journal == Present(job.(state := Cancelled)) && b.guard == Idle && b.env == old(b.env)
    ensures s == Done && downloaded && verified && !cancelled ==> InstallEnded(b, job)
    ensures b.steady ==> s == Done
    ensures b.steady && downloaded && verified && !cancelled && job.source in old(b.env.order) ==>
              (if installed && matches then b.guard == Waiting else b.guard == Idle)
    ensures b.h == old(b.h) || b.h == old(b.h).(tracked := b.h.tracked, launches := 0)
  {
    hide Inv;
    var j;
    s, j := Step(b, job, Downloading);
    if s != Done { return; }
    if !downloaded {
      s := Abandon(b, j, Failed);
      return;
    }
    s, j := Step(b, j, Verifying);
    if s != Done { return; }
    if !verified || cancelled {
      s := Abandon(b, j, if verified then Cancelled else Failed);
      return;
    }
    s, j := Step(b, j, Installing);
    if s != Done { return; }
    s := InstallBundle(b, j, installed, matches);
  }

  /** The end of `install_bundle`: RAUC marks the target bad before it writes. */
  method InstallBundle(b: Box, job: Job, installed: bool, matches: bool) returns (s: Status)
    requires b.Valid() && b.journal == Present(job) && job.state == Installing && b.guard != Idle
    requires b.booted == job.source && job.target == job.source.Other()
    modifies b
    ensures b.Valid() && b.booted == old(b.booted) && b.reconciled == old(b.reconciled)
    ensures b.env.floor == old(b.env.floor)
    ensures s == Done && b.journal.Present? && b.journal.job.state == Ready ==> installed && matches
    ensures s == Done ==> InstallEnded(b, job)
    ensures b.steady ==> s == Done
    ensures b.steady && job.source in old(b.env.order) ==>
              (if installed && matches then b.guard == Waiting else b.guard == Idle)
    ensures b.h == old(b.h) || b.h == old(b.h).(tracked := b.h.tracked, launches := 0)
  {
    EarlyFacts(b.Now());
    WithoutHeads(b.env.order, job.target);
    hide Inv;
    s := b.MarkBad(job.target);
    if s == Stopped { return; }
    if s == Threw || !installed {
      s := FailInstall(b, job);
      return;
    }
    s := CompleteInstall(b, job, matches);
  }

  /** The job in the journal may be worked on here. Ending it needs nothing; going on needs its
      own source, and activation that it was never launched. */
  predicate MayWork(e: Env, journal: Journal, booted: Slot, cancelled: bool, leased: bool, installed: bool) {
    journal.Present? ==>
      var job := journal.job;
      var home := booted == job.source && job.target == job.source.Other();
      match job.state
      case Queued | Downloading | Verifying => home || cancelled || !leased
      case Installing => home || !installed
      case Restarting => MayActivate(e, booted, job) || !leased
      case _ => true
  }

  /** `run_worker` on whatever the journal holds. */
  method RunWorker(b: Box, cancelled: bool, leased: bool, downloaded: bool, verified: bool, late: bool,
                   installed: bool, matches: bool, trusted: bool)
    returns (s: Status, rebooting: bool)
    requires b.Valid() && MayWork(b.env, b.journal, b.booted, cancelled, leased, installed)
    modifies b
    ensures b.Valid() && b.booted == old(b.booted) && b.reconciled == old(b.reconciled)
    ensures b.env.floor == old(b.env.floor)
    ensures || b.h == old(b.h) || b.h == old(b.h).(tracked := b.h.tracked, launches := 0)
            || (!leased && old(b.journal).Present? && old(b.journal.job.state) == Restarting
                && b.h == Leaseless(old(b.Now()), old(b.journal.job))
                && (old(TargetLives(b.env, b.booted, b.journal.job)) ==>
                      old(b.env.pending).Some? && old(b.env.pending.value.id) == old(b.journal.job.id)))
    // every job ends where its outcomes say
    ensures old(b.journal).Present? && s == Done ==>
              var job := old(b.journal.job);
              match job.state
              case Queued | Downloading | Verifying =>
                if cancelled || (leased && downloaded && verified && late) then
                  b.journal == Present(job.(state := Cancelled)) && b.guard == Idle
                else if !leased || !downloaded || !verified then
                  b.journal == Present(job.(state := Failed)) && b.guard == Idle
                else InstallEnded(b, job) && (b.guard == Waiting ==> installed && matches)
              case Installing => InstallEnded(b, job) && (b.guard == Waiting ==> installed && matches)
              case Restarting =>
                if !leased then b.journal == Present(job.(state := Failed)) && b.guard == Idle
                else (rebooting && b.journal == Present(job.(activated := true))) || b.WentBack(job)
              case _ => b.Now() == old(b.Now())
    ensures rebooting ==> b.env.pending.Some? && b.env.pending.value.phase == Activated && leased
    ensures b.steady ==> (s == Done <==> b.journal != Unreadable)
  {
    hide Inv;
    rebooting := false;
    if b.journal == Absent { return Done, false; }
    if b.journal == Unreadable { return Threw, false; }
    var job := b.journal.job;
    if !Working(job.state) && job.state !in {Installing, Restarting} { return Done, false; }
    if Working(job.state) && cancelled {
      s := Abandon(b, job, Cancelled);
      return;
    }
    if Working(job.state) && !leased {
      s := Abandon(b, job, Failed);
      return;
    }
    if job.state == Restarting && !leased {
      LeaselessKeepsInv(b.Now(), job);
      s := b.Finish(job, Failed, Leaseless(b.Now(), job));
      return;
    }
    // an installing job waits for the lease
    GuardKeepsInv(b.Now(), Active);
    s := b.SetGuard(Active);
    if s != Done { return; }
    if job.state == Installing {
      // reconcile_install: only RAUC's own recorded run can still complete the job
      if installed { s := CompleteInstall(b, job, matches); } else { s := FailInstall(b, job); }
    } else if job.state == Restarting {
      s, rebooting := b.Activate(job, trusted);
    } else {
      s := Work(b, job, downloaded, verified, late, installed, matches);
    }
  }

  // ---- boot health, the loader, and damage ----------------------------------------------

  /** The supervisor's confirmation of a healthy boot: a trial goes to the coordinator, any
      other boot refreshes its attempts. */
  method HealthyBoot(b: Box) returns (s: Status)
    requires b.Valid()
    modifies b
    ensures b.Valid() && b.booted == old(b.booted) && b.reconciled == old(b.reconciled)
    ensures Continues(old(b.h), b.h)
    ensures b.env.floor != old(b.env.floor) ==>
              old(b.env.pending).Some? && OnTrial(old(b.Now()), old(b.env.pending.value.id))
    ensures var p := old(b.env.pending);
            if p.Some? && p.value.target == b.booted && p.value.trial == Some(p.value.id)
            then s == Done ==> b.env.pending == None && b.journal.Present? && b.journal.job.id == p.value.id
                               && b.journal.job.state == Confirmed && b.env.floor == p.value.sequence
            else b.Now() == old(b.Now()).(env := b.env) && MarkedGood(old(b.env), b.env, b.booted)
                 && (b.steady ==> s == Done && b.env.Left(b.booted) == 3)
  {
    var e;
    s, e := b.ReadEnv();
    if s != Done { return; }
    if e.pending.Some? && b.booted == e.pending.value.target && e.pending.value.trial == Some(e.pending.value.id) {
      s := b.ConfirmCandidate(e.pending.value.id);
    } else {
      var ok;
      s, ok := b.MarkGood();
    }
  }

  /** A power cut or reboot: the loader chooses, spends and marks in one save, then starts
      the slot. `running` is false when the box halts or is cut before the save. */
  method Reboot(b: Box) returns (running: bool)
    requires b.Valid()
    modifies b
    ensures b.Valid()
    ensures !running ==> b.Now() == old(b.Now())
    ensures running ==> Eligible(old(b.env)).Some? && b.Now() == Booted(old(b.Now()), Eligible(old(b.env)).value)
    // the first slot of the order with attempts left; one is spent, a pending target is marked
    ensures running ==> exists k :: 0 <= k < |b.env.order| && b.booted == b.env.order[k]
                          && forall i :: 0 <= i < k ==> old(b.env.Left(b.env.order[i])) == 0
    ensures running ==>
              && b.env.Left(b.booted) + 1 == old(b.env).Left(b.booted)
              && b.env.Left(b.booted.Other()) == old(b.env).Left(b.booted.Other())
              && b.env.order == old(b.env.order) && b.env.floor == old(b.env.floor)
              && b.env.pending == (match old(b.env.pending)
                                   case Some(p) =>
                                     if p.target == b.booted then Some(p.(trial := Some(p.id))) else Some(p)
                                   case None => None)
              && b.journal == old(b.journal) && b.guard == old(b.guard)
    ensures running ==> StartsFrom(old(b.env))
    ensures b.steady && StartsFrom(old(b.env)) ==> running
  {
    hide Inv;
    running := false;
    var chosen := ChooseSlot(b.env);
    if chosen == None { return; }
    if !b.steady { if * { return; } }
    var slot := chosen.value;
    BootKeepsInv(b.Now(), slot);
    ghost var w := b.Now();
    b.h := Booted(w, slot).h;
    b.env, b.booted, b.reconciled := Spend(b.env, slot), slot, false;
    running := true;
  }

  /** The checks of the loader script and its loop over the order; None where it halts. */
  method ChooseSlot(e: Env) returns (chosen: Option<Slot>)
    ensures chosen.Some? <==> StartsFrom(e)
    ensures chosen.Some? <==> LoaderAccepts(e) && Eligible(e).Some?
    ensures chosen.Some? ==> chosen == Eligible(e)
    ensures chosen.Some? ==> exists k :: 0 <= k < |e.order| && chosen.value == e.order[k]
                               && forall i :: 0 <= i < k ==> e.Left(e.order[i]) == 0
  {
    chosen := None;
    if !ValidOrder(e.order) { return; }
    if e.leftA > 3 || e.leftB > 3 { return; }
    if e.pending.Some? {
      var p := e.pending.value;
      if p.target != p.source.Other() || (p.trial.Some? && p.trial.value != p.id) { return; }
    }
    var i := 0;
    while i < |e.order|
      invariant 0 <= i <= |e.order|
      invariant chosen.None? ==> forall k :: 0 <= k < i ==> e.Left(e.order[k]) == 0
      invariant chosen.Some? ==> exists k :: 0 <= k < i && chosen.value == e.order[k] && e.Left(chosen.value) > 0
                                   && forall j :: 0 <= j < k ==> e.Left(e.order[j]) == 0
    {
      if chosen.None? && e.Left(e.order[i]) > 0 { chosen := Some(e.order[i]); }
      i := i + 1;
    }
  }

  /** The loader does not halt: order, counters and pending slots are proper, and a slot of the
      order has attempts left. */
  predicate StartsFrom(e: Env) {
    && (e.order == [A, B] || e.order == [B, A] || e.order == [A] || e.order == [B]) && e.leftA <= 3 && e.leftB <= 3
    && (e.pending.Some? ==> e.pending.value.target != e.pending.value.source
                            && e.pending.value.trial in {None, Some(e.pending.value.id)})
    && exists s :: s in e.order && e.Left(s) > 0
  }

  /** Losing the journal alone keeps the invariant exactly unless an idle guard then stands
      beside a named job; an unreadable journal always does. */
  lemma JournalLoss(w: World)
    requires Inv(w)
    ensures Inv(w.(journal := Absent)) <==> w.guard != Idle || w.env.pending == None || Careless(w)
    ensures Inv(w.(journal := Unreadable))
    ensures w.env.pending.Some? ==>
              Inv(w.(journal := Absent, h := w.h.(careless := w.h.careless + {w.env.pending.value.id})))
  {
  }

  /** DATA erased or damaged: the guard gone, the journal gone or unreadable, in any
      combination. */
  method LoseData(b: Box, guardToo: bool, journalToo: bool, unreadable: bool)
    requires b.Valid()
    modifies b
    ensures b.Valid() && b.env == old(b.env) && b.booted == old(b.booted) && b.reconciled == old(b.reconciled)
    ensures b.guard == (if guardToo then Missing else old(b.guard))
    ensures b.journal == if !journalToo then old(b.journal) else if unreadable then Unreadable else Absent
    ensures b.h == old(b.h)
            || (!guardToo && journalToo && !unreadable && b.guard == Idle && b.env.pending.Some?
                && b.h == old(b.h).(careless := old(b.h.careless) + {b.env.pending.value.id}))
  {
    if guardToo {
      GuardKeepsInv(b.Now(), Missing);
      b.guard := Missing;
    }
    if journalToo {
      JournalLoss(b.Now());
      if !unreadable && b.guard == Idle && b.env.pending.Some? {
        b.h := b.h.(careless := b.h.careless + {b.env.pending.value.id});
      }
      b.journal := if unreadable then Unreadable else Absent;
    }
  }

  // ---- the whole life ---------------------------------------------------------------------

  datatype Action =
    | DoInstall(id: JobId, sequence: nat, own: nat, healthy: bool)
    | DoCancel(id: JobId, workerActive: bool) | DoDismiss(id: JobId)
    | DoRestart(id: JobId, workerActive: bool) | DoDiscard(id: JobId, workerActive: bool)
    | DoWork(cancelled: bool, leased: bool, downloaded: bool, verified: bool, late: bool, installed: bool,
             matches: bool)
    | DoReconcile(workerActive: bool) | DoHealthy | DoReboot
    | DoLoseData(guardToo: bool, journalToo: bool, unreadable: bool)

  /** A life goes on: earlier floor changes stay, and admitted identifiers are never reused. */
  predicate LivesOn(a: History, b: History) {
    a.base == b.base && a.log <= b.log && a.used <= b.used && a.careless <= b.careless
  }

  /** The events that carelessly end a job: its dismissal while it is named, a restart that
      finds no lease while its target can boot or runs, and the loss of its journal alone. */
  predicate EndsCarelessly(w: World, a: Action, id: JobId) {
    && w.env.pending.Some? && w.env.pending.value.id == id
    && match a
       case DoDismiss(_) => w.journal.Present? && Terminal(w.journal.job.state)
       case DoWork(_, leased, _, _, _, _, _) =>
         && !leased && w.journal.Present? && w.journal.job.state == Restarting
         && TargetLives(w.env, w.booted, w.journal.job)
       case DoLoseData(guardToo, journalToo, unreadable) => !guardToo && journalToo && !unreadable && w.guard == Idle
       case _ => false
  }

  predicate MayEndCarelessly(a: Action) {
    a.DoDismiss? || (a.DoWork? && !a.leased) || (a.DoLoseData? && !a.guardToo && a.journalToo && !a.unreadable)
  }

  /** One action. Every method it calls may stop after any of its durable steps. */
  method Act(b: Box, a: Action)
    requires b.Valid() && (a.DoInstall? ==> a.id !in b.h.used)
    modifies b
    ensures b.Valid() && LivesOn(old(b.h), b.h)
    ensures b.h.used <= old(b.h.used) + Admits(a)
    ensures b.env.floor != old(b.env.floor) ==>
              a.DoHealthy? && old(b.env.pending).Some? && OnTrial(old(b.Now()), old(b.env.pending.value.id))
    ensures forall id :: id in b.h.careless && id !in old(b.h.careless) ==> EndsCarelessly(old(b.Now()), a, id)
  {
    hide Inv;
    var s;
    match a {
      case DoInstall(id, sequence, own, healthy) =>
        var trusted: bool := *;
        s := Install(b, id, sequence, own, healthy, trusted);
      case DoCancel(id, workerActive) => s := Cancel(b, id, workerActive);
      case DoDismiss(id) => s := Dismiss(b, id);
      case DoRestart(id, workerActive) => s := b.Restart(id, workerActive);
      case DoDiscard(id, workerActive) => s := b.Discard(id, workerActive);
      case DoWork(cancelled, leased, downloaded, verified, late, installed, matches) =>
        if MayWork(b.env, b.journal, b.booted, cancelled, leased, installed) {
          var rebooting;
          var trusted: bool := *;
          s, rebooting := RunWorker(b, cancelled, leased, downloaded, verified, late, installed, matches, trusted);
        }
      case DoReconcile(workerActive) => s := b.ReconcileBoot(workerActive);
      case DoHealthy => s := HealthyBoot(b);
      case DoReboot => var running := Reboot(b);
      case DoLoseData(guardToo, journalToo, unreadable) => LoseData(b, guardToo, journalToo, unreadable);
    }
  }

  function Admits(a: Action): set<JobId> { if a.DoInstall? then {a.id} else {} }

  ghost predicate FreshIds(actions: seq<Action>, used: set<JobId>) {
    && (forall i :: 0 <= i < |actions| ==> Admits(actions[i]) !! used)
    && (forall i, j :: 0 <= i < j < |actions| ==> Admits(actions[i]) !! Admits(actions[j]))
  }

  /** The floor follows the log, so a life that goes on never lowers it. */
  lemma FloorNeverDrops(w: World, later: World)
    requires Inv(w) && Inv(later) && LivesOn(w.h, later.h)
    ensures w.env.floor <= later.env.floor
    ensures w.env.floor == later.env.floor <==> w.h.log == later.h.log
  {
    var n, m := |w.h.log|, |later.h.log|;
    if n < m {
      assert n > 0 ==> later.h.log[n - 1] == w.h.log[n - 1];
      assert n > 0 ==> later.h.log[n - 1].1 < later.h.log[m - 1].1;
    }
  }

  /** Any sequence of actions, each possibly cut, keeps the invariant; the floor only rises,
      each time by a confirmation. */
  method Life(b: Box, actions: seq<Action>)
    requires b.Valid() && FreshIds(actions, b.h.used)
    modifies b
    ensures b.Valid() && LivesOn(old(b.h), b.h) && old(b.env.floor) <= b.env.floor
    ensures (forall a :: a in actions ==> !MayEndCarelessly(a)) ==>
              b.h.careless == old(b.h.careless)
    ensures (forall a :: a in actions ==> !a.DoHealthy?) ==> b.env.floor == old(b.env.floor)
  {
    hide Inv;
    for i := 0 to |actions|
      invariant b.Valid() && LivesOn(old(b.h), b.h)
      invariant FreshIds(actions[i..], b.h.used)
      invariant (forall a :: a in actions ==> !MayEndCarelessly(a)) ==>
                  b.h.careless == old(b.h.careless)
      invariant (forall a :: a in actions ==> !a.DoHealthy?) ==> b.env.floor == old(b.env.floor)
    {
      assert actions[i..][0] == actions[i] && actions[i..][1..] == actions[i + 1..];
      assert actions[i] in actions;
      StillFresh(actions[i..], b.h.used);
      Act(b, actions[i]);
    }
    FloorNeverDrops(old(b.Now()), b.Now());
  }

  lemma StillFresh(actions: seq<Action>, used: set<JobId>)
    requires actions != [] && FreshIds(actions, used)
    ensures forall more :: more <= used + Admits(actions[0]) ==> FreshIds(actions[1..], more)
  {
    forall more | more <= used + Admits(actions[0]) ensures FreshIds(actions[1..], more) {
      forall i | 0 <= i < |actions[1..]| ensures Admits(actions[1..][i]) !! more {
        assert Admits(actions[i + 1]) !! Admits(actions[0]);
      }
    }
  }
}
