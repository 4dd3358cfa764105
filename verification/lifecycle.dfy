// The OS update life cycle on two media: the guarded environment and DATA.
// This module holds the durable state, the loader, and the invariant; the
// actions on it are in lifecycle_actions.dfy.
module Lifecycle {
  import opened Bytes

  datatype Slot = A | B {
    function Other(): Slot { if this == A then B else A }
  }

  /** Job identifiers are random UUIDs; only their freshness matters. */
  type JobId = nat

  /** `epk_os_phase` */
  datatype Phase = Intent | Activated | Confirming | Promoting

  /** The `epk_os_*` variables, present or absent together. */
  datatype Pending = Pending(id: JobId, target: Slot, source: Slot, sequence: nat, phase: Phase, trial: Option<JobId>)

  datatype Env = Env(order: seq<Slot>, leftA: nat, leftB: nat, pending: Option<Pending>, floor: nat) {
    function Left(s: Slot): nat { if s == A then leftA else leftB }

    function WithLeft(s: Slot, n: nat): (e: Env)
      ensures e.Left(s) == n && e.Left(s.Other()) == Left(s.Other())
      ensures e.order == order && e.pending == pending && e.floor == floor
    {
      if s == A then this.(leftA := n) else this.(leftB := n)
    }

    /** `BOOT_ORDER.split()[:1] == [s]` */
    predicate Heads(s: Slot) { |order| > 0 && order[0] == s }
  }

  datatype JobState =
    | Queued | Downloading | Verifying | Installing
    | Ready | Restarting | Trying | NeedsCheck
    | Confirmed | RolledBack | Failed | Cancelled | Discarded

  /** `WORKING` and `TERMINAL`; NeedsCheck is the state `reconciling`. */
  predicate Working(s: JobState) { s in {Queued, Downloading, Verifying} }
  predicate Terminal(s: JobState) { s in {Confirmed, RolledBack, Failed, Cancelled, Discarded} }

  datatype Job = Job(id: JobId, state: JobState, sequence: nat, source: Slot, target: Slot, activated: bool)

  datatype Journal = Absent | Unreadable | Present(job: Job)

  /** The guard file; `Missing` stands for a missing or malformed one. */
  datatype Guard = Missing | Idle | Active | Waiting | Reconciling

  /** `guard()`: a missing or malformed guard reads as reconciling. */
  function ReadGuard(g: Guard): Guard { if g == Missing then Reconciling else g }

  /** What is remembered about the past; the source stores none of it.
      tracked   the last job that reached ready, until the next admission
      launches  boots of its target before its trial was found healthy
      launched  jobs whose target the loader launched
      healthy   jobs whose trial was found healthy: mark-good was issued
      good      jobs for which mark-good then succeeded
      confirmed jobs the journal recorded as confirmed
      log       every change of the floor, with the job that caused it
      used      every job identifier ever admitted
      careless  jobs that were dismissed, or ended for want of the lease, while the environment
                still named them */
  datatype History = History(tracked: Option<Job>, launches: nat, launched: set<JobId>, healthy: set<JobId>,
                             good: set<JobId>, confirmed: set<JobId>, base: nat, log: seq<(JobId, nat)>,
                             used: set<JobId>, careless: set<JobId>)

  datatype World = World(env: Env, journal: Journal, guard: Guard, booted: Slot, reconciled: bool, h: History)

  // ---- the loader (boot-slot.cmd) ---------------------------------------------------

  predicate ValidOrder(order: seq<Slot>) {
    order == [A, B] || order == [B, A] || order == [A] || order == [B]
  }

  /** The checks before a slot is chosen; a failure halts the box. */
  predicate LoaderAccepts(e: Env) {
    && ValidOrder(e.order) && e.leftA <= 3 && e.leftB <= 3
    && match e.pending
       case None => true
       case Some(p) => p.target == p.source.Other() && (p.trial.Some? ==> p.trial.value == p.id)
  }

  /** The first slot of the order with attempts left. */
  function Eligible(e: Env): Option<Slot> {
    if |e.order| > 0 && e.Left(e.order[0]) > 0 then Some(e.order[0])
    else if |e.order| > 1 && e.Left(e.order[1]) > 0 then Some(e.order[1])
    else None
  }

  /** One attempt is spent, and a pending target is marked as launched, in one save. */
  function Spend(e: Env, s: Slot): Env
    requires e.Left(s) > 0
  {
    var spent := e.WithLeft(s, e.Left(s) - 1);
    match e.pending
    case Some(p) => if s == p.target then spent.(pending := Some(p.(trial := Some(p.id)))) else spent
    case None => spent
  }

  function IsTrial(e: Env, s: Slot): bool {
    e.pending.Some? && s == e.pending.value.target
  }

  function Booted(w: World, s: Slot): World
    requires w.env.Left(s) > 0
  {
    var trial := IsTrial(w.env, s);
    var h := if trial then
               w.h.(launched := w.h.launched + {w.env.pending.value.id},
                    launches := if w.env.pending.value.id in w.h.healthy then w.h.launches else w.h.launches + 1)
             else w.h;
    World(Spend(w.env, s), w.journal, w.guard, s, false, h)
  }

  // ---- the invariant ------------------------------------------------------------------

  /** Floor changes: one per job, each to a larger sequence, the last is the floor. */
  ghost predicate LogOk(base: nat, log: seq<(JobId, nat)>, floor: nat) {
    && (forall i, j :: 0 <= i < j < |log| ==> log[i].1 < log[j].1 && log[i].0 != log[j].0)
    && (forall i :: 0 <= i < |log| ==> base < log[i].1)
    && floor == if log == [] then base else log[|log| - 1].1
  }

  predicate Raised(h: History, id: JobId) { exists i :: 0 <= i < |h.log| && h.log[i].0 == id }

  predicate SameJob(job: Job, t: Job) {
    job.id == t.id && job.sequence == t.sequence && job.source == t.source && job.target == t.target
  }

  predicate Tracks(w: World, id: JobId) { w.h.tracked.Some? && w.h.tracked.value.id == id }

  ghost predicate HistoryOk(w: World) {
    && LogOk(w.h.base, w.h.log, w.env.floor)
    && (forall i :: 0 <= i < |w.h.log| ==> w.h.log[i].0 in w.h.good)
    && w.h.confirmed <= w.h.good <= w.h.healthy <= w.h.launched <= w.h.used && w.h.careless <= w.h.used
    && (forall id :: id in w.h.confirmed ==> Raised(w.h, id))
    && (w.h.tracked.Some? ==> w.h.tracked.value.id in w.h.used
                              && w.h.tracked.value.target == w.h.tracked.value.source.Other())
  }

  /** The environment names only the tracked job, and its phase tells how far it got. */
  ghost predicate PendingOk(w: World) {
    match w.env.pending
    case None => true
    case Some(p) =>
      && Tracks(w, p.id)
      && p.target == w.h.tracked.value.target && p.source == w.h.tracked.value.source
      && p.sequence == w.h.tracked.value.sequence
      && (p.trial == None || p.trial == Some(p.id))
      && (p.trial.Some? <==> p.id in w.h.launched)
      && (p.phase in {Confirming, Promoting} ==> p.trial.Some?)
      && (p.id in w.h.healthy ==> p.phase in {Confirming, Promoting})
      && (p.phase == Promoting <==> Raised(w.h, p.id))
      && (if p.phase == Promoting then w.env.floor == p.sequence else w.env.floor < p.sequence)
      && (p.trial.Some? && w.booted == p.source ==> w.env.Left(p.target) == 0)
      && (p.trial.Some? && w.booted == p.target ==> w.env.Heads(p.target) || w.env.Left(p.source) == 0)
  }

  /** The slot of the tracked job: bootable only while named or confirmed. */
  ghost predicate TargetOk(w: World) {
    match w.h.tracked
    case None => true
    case Some(t) =>
      && (w.env.Left(t.target) > 0 ==> w.env.pending.Some? || t.id in w.h.confirmed)
      && (w.booted == t.target ==> t.id in w.h.launched && (w.env.pending.Some? || t.id in w.h.confirmed))
      && (t.id !in w.h.launched ==> w.h.launches == 0)
      && (t.id !in w.h.healthy ==> w.h.launches + w.env.Left(t.target) <= 3)
      && w.h.launches <= 3
  }

  ghost predicate JournalOk(w: World) {
    match w.journal
    case Present(job) =>
      && job.id in w.h.used
      && (Tracks(w, job.id) ==> SameJob(job, w.h.tracked.value))
      && (w.env.pending.Some? ==> job.id == w.env.pending.value.id)
      && (Working(job.state) || job.state == Installing ==>
            w.h.tracked == None && w.env.pending == None && job.id !in w.h.launched)
      && (job.state in {Ready, Restarting} ==>
            && Tracks(w, job.id)
            && (w.env.pending == None ==> job.id !in w.h.launched)
            && (w.reconciled ==> w.booted == job.source && job.id !in w.h.launched))
      && (job.state == Trying ==> w.env.pending.Some?)
      && (job.state == RolledBack ==> job.id in w.h.launched)
      && (job.state == Confirmed ==> job.id in w.h.confirmed)
      && (Terminal(job.state) && job.state != Confirmed && w.env.pending.Some? && !Careless(w) ==>
            w.env.Left(job.target) == 0 && w.booted == job.source)
    case _ => true
  }

  /** The worker may activate the restarting job here: on its source, before any launch. */
  predicate MayActivate(e: Env, booted: Slot, job: Job) {
    booted == job.source && (e.pending.Some? ==> e.pending.value.trial == None)
  }

  /** An idle guard means no job, a finished one, or one not yet past verifying. */
  ghost predicate Exclusion(w: World) {
    w.guard == Idle && w.journal.Present? ==> Terminal(w.journal.job.state) || Working(w.journal.job.state)
  }

  /** The job the environment names was carelessly ended. */
  ghost predicate Careless(w: World) {
    w.env.pending.Some? && w.env.pending.value.id in w.h.careless
  }

  /** While the environment names a carelessly ended job, an idle guard may also stand beside
      its trial, and beside no journal; never otherwise. */
  ghost predicate GuardOk(w: World) {
    || (Exclusion(w) && (w.guard == Idle && w.journal == Absent ==> w.env.pending == None))
    || (Careless(w) && (w.guard == Idle && w.journal.Present? ==>
                          Terminal(w.journal.job.state) || w.journal.job.state == Trying))
  }

  ghost predicate Inv(w: World) {
    HistoryOk(w) && PendingOk(w) && TargetOk(w) && JournalOk(w) && GuardOk(w)
  }

  // ---- what the invariant says --------------------------------------------------------

  /** `blocking` on a protocol-2 card. */
  function Blocking(w: World): Guard {
    if ReadGuard(w.guard) != Idle then ReadGuard(w.guard)
    else match w.journal
      case Unreadable => Reconciling
      case Present(job) => if Working(job.state) || job.state == Installing then Active else Idle
      case Absent => Idle
  }

  /** The answer is idle exactly under an idle guard without a journal, or beside a job that is
      past installing; everything unreadable answers reconciling. */
  lemma BlockingAnswers(w: World)
    ensures Blocking(w) == Idle <==>
            w.guard == Idle && (w.journal == Absent || (w.journal.Present?
                                && w.journal.job.state !in {Queued, Downloading, Verifying, Installing}))
    ensures w.guard in {Active, Waiting, Reconciling} ==> Blocking(w) == w.guard
    ensures w.guard == Missing || (w.guard == Idle && w.journal == Unreadable) ==> Blocking(w) == Reconciling
  {
  }

  /** Other maintenance may start only when no job is live. The exception is exact: the trial
      of a carelessly ended job. */
  lemma BlockingIsSafe(w: World)
    requires Inv(w) && Blocking(w) == Idle
    ensures w.journal == Absent || (w.journal.Present?
            && (Terminal(w.journal.job.state) || w.journal.job.state == Trying))
    ensures !Careless(w) ==> w.journal == Absent || (w.journal.Present? && Terminal(w.journal.job.state))
    ensures !Careless(w) && w.journal == Absent ==> w.env.pending == None
    ensures w.env.pending == None ==> !Careless(w)
  {
  }

  /** Confirmed sequences strictly increase over the box's whole life, one per job, and
      only for jobs whose trial was marked good. */
  lemma ConfirmedSequencesIncrease(w: World, i: nat, j: nat)
    requires Inv(w) && i < j < |w.h.log|
    ensures w.h.base < w.h.log[i].1 < w.h.log[j].1 <= w.env.floor
    ensures w.h.log[i].0 != w.h.log[j].0 && w.h.log[i].0 in w.h.good && w.h.log[j].0 in w.h.launched
  {
    var last := |w.h.log| - 1;
    assert j < last ==> w.h.log[j].1 < w.h.log[last].1;
  }

  /** The loader never starts the target of a job that is neither pending nor confirmed. */
  lemma LoaderAvoidsTarget(w: World)
    requires Inv(w) && w.h.tracked.Some? && w.env.pending == None && w.h.tracked.value.id !in w.h.confirmed
    ensures Eligible(w.env) != Some(w.h.tracked.value.target)
  {
  }

  lemma BootKeepsHistory(w: World, s: Slot)
    requires Inv(w) && Eligible(w.env) == Some(s)
    ensures HistoryOk(Booted(w, s)) && PendingOk(Booted(w, s)) && GuardOk(Booted(w, s))
  {
  }

  lemma BootKeepsTarget(w: World, s: Slot)
    requires Inv(w) && Eligible(w.env) == Some(s)
    ensures TargetOk(Booted(w, s))
  {
  }

  lemma BootKeepsJournal(w: World, s: Slot)
    requires Inv(w) && Eligible(w.env) == Some(s)
    ensures JournalOk(Booted(w, s))
  {
  }

  /** A boot by the loader keeps the invariant. */
  lemma BootKeepsInv(w: World, s: Slot)
    requires Inv(w) && Eligible(w.env) == Some(s)
    ensures Inv(Booted(w, s))
  {
    BootKeepsHistory(w, s);
    BootKeepsTarget(w, s);
    BootKeepsJournal(w, s);
  }
}
