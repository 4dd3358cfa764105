// Every-boot health supervision (epilykos_boot_health.py): a state machine polled
// by one loop, with a clock that only moves forward and commands that may do anything.
module Supervisor {
  import opened Bytes

  const DEADLINE: real := 1200.0
  const REBOOT_FORCE: real := 120.0
  const REBOOT_SYSRQ: real := 60.0

  datatype Kind =
    | PodmanInfo | Health | MarkGood | Confirm | ReadEnv | IsFailed | StopApp
    | Reboot | ForceReboot | SysRq

  /** `BOUNDS`; what reboots the board is started without waiting for it. */
  function Bound(k: Kind): real {
    match k
    case PodmanInfo => 60.0
    case Health => 20.0
    case MarkGood => 60.0
    case Confirm => 300.0
    case ReadEnv => 15.0
    case IsFailed => 15.0
    case StopApp => 60.0
    case _ => 0.0
  }

  /** `Command`: set once when started; `spawned` is false when the program could not start. */
  datatype Command = Command(kind: Kind, started: real, spawned: bool)

  /** `out` is the output without the blanks around it. */
  datatype Exit = Code(n: int, out: string) | TimedOut

  datatype State = Checking | Confirming | Done | Rebooting

  type Env = map<string, string>

  /** What one boot is about: its deadline, its slot, and how `fw_printenv` lines are read. */
  datatype Boot = Boot(deadline: real, slot: Option<string>, parse: string -> Env)

  function Get(e: Env, name: string): string { if name in e then e[name] else "" }

  /** This boot is the target of a pending job that the loader launched for it. */
  predicate IsTrial(e: Env, slot: Option<string>) {
    && Get(e, "epk_os_pending") != ""
    && slot == (if "epk_os_target" in e then Some(e["epk_os_target"]) else None)
    && "epk_os_trial_started" in e && e["epk_os_trial_started"] == e["epk_os_pending"]
  }

  /** One tick of the loop, as seen from outside: when, what the world answered to its questions,
      what it started, and what it left. */
  datatype Tick = Tick(now: real, end: real, state: State, mounts: seq<bool>, answers: map<Kind, Exit>,
    spawned: set<Kind>, coordinator: Option<bool>, env: Option<Env>, recorded: bool,
    envStart: Option<real>, finishStart: Option<real>, stage: nat, stageAt: real)

  /** Only these questions may have got an answer since. */
  ghost predicate SameAnswers(a: map<Kind, Exit>, b: map<Kind, Exit>, but: set<Kind>) {
    forall k :: k !in but ==> (k in b <==> k in a) && (k in b ==> b[k] == a[k])
  }

  predicate Zero(answers: map<Kind, Exit>, k: Kind) {
    k in answers && answers[k].Code? && answers[k].n == 0
  }

  /** What one tick may do after another. */
  ghost predicate Follows(boot: Boot, prev: Tick, cur: Tick) {
    && InTime(boot.deadline, prev, cur)
    && (prev.state == Checking ==> Checked(boot.deadline, cur))
    && Confirmed(boot, prev, cur)
  }

  ghost predicate InTime(deadline: real, prev: Tick, cur: Tick) {
    && prev.end <= cur.now <= cur.end
    && (prev.state == Done ==> cur.state == Done)
    && (prev.state == Rebooting ==> cur.state == Rebooting && prev.stage <= cur.stage <= prev.stage + 1)
    && (cur.state == Checking ==> prev.state == Checking && cur.now < deadline)
    && (cur.state == Rebooting ==> prev.state in {Checking, Rebooting})
    && (prev.envStart.Some? ==> cur.envStart == prev.envStart)
    && (prev.finishStart.Some? ==> cur.finishStart == prev.finishStart)
    && (cur.envStart.Some? ==> cur.envStart.value <= cur.end)
    && (cur.finishStart.Some? ==> cur.finishStart.value <= cur.end)
    && (cur.state == Confirming ==>
          && prev.state in {Checking, Confirming} && cur.envStart.Some?
          && (cur.finishStart.None? ==> cur.now <= cur.envStart.value + Bound(ReadEnv))
          && (cur.finishStart.Some? ==> cur.now <= cur.finishStart.value + Bound(Confirm)))
    && (cur.state == Rebooting && prev.state == Rebooting ==> StagesFollow(prev, cur))
    && (cur.state == Rebooting && prev.state == Checking ==> cur.stage == 0)
  }

  /** DATA is mounted, podman answers, and the container says that it is healthy. */
  predicate SawHealth(t: Tick) {
    && |t.mounts| == 2 && t.mounts[1] && Zero(t.answers, PodmanInfo)
    && Health in t.answers && t.answers[Health] == Code(0, "healthy")
  }

  /** How a tick leaves the checking state. */
  predicate Checked(deadline: real, cur: Tick) {
    && (cur.state == Rebooting <==> cur.now >= deadline || Zero(cur.answers, IsFailed))
    && (cur.state in {Confirming, Done} <==> cur.state != Rebooting && SawHealth(cur))
  }

  /** How a boot is confirmed. */
  predicate Confirmed(boot: Boot, prev: Tick, cur: Tick) {
    && (prev.env.Some? ==> cur.env == prev.env)
    && (prev.env.None? && cur.env.Some? ==>
          Zero(cur.answers, ReadEnv) && cur.env.value == boot.parse(cur.answers[ReadEnv].out))
    && (MarkGood in cur.spawned ==> cur.env.Some? && !IsTrial(cur.env.value, boot.slot))
    && (Confirm in cur.spawned ==> cur.env.Some? && IsTrial(cur.env.value, boot.slot) && cur.coordinator == Some(true))
    && ((MarkGood in cur.spawned || Confirm in cur.spawned) <==> prev.finishStart.None? && cur.finishStart.Some?)
    && (cur.finishStart.Some? ==> cur.state in {Confirming, Done} && cur.env.Some?)
    && (cur.state == Confirming && cur.env.Some? ==> cur.finishStart.Some?)
    && (prev.state != Done ==> (cur.state == Done <==> Decided(cur)))
    && (cur.recorded <==> prev.recorded || Zero(cur.answers, MarkGood) || Zero(cur.answers, Confirm))
  }

  /** The environment could not be read, a trial has no coordinator, or the last command ended. */
  predicate Decided(t: Tick) {
    || (ReadEnv in t.answers && !Zero(t.answers, ReadEnv))
    || t.coordinator == Some(false)
    || MarkGood in t.answers || Confirm in t.answers
  }

  /** The reboot is asked for, then forced, then the kernel is reset. */
  predicate StagesFollow(prev: Tick, cur: Tick) {
    && (cur.stage == prev.stage ==> cur.stageAt == prev.stageAt)
    && (cur.stage == prev.stage + 1 && cur.stage < 3 ==> cur.stageAt == cur.now)
    && (prev.stage == 0 && cur.stage == 0 ==> cur.now <= cur.stageAt + Bound(StopApp))
    && (prev.stage == 0 && cur.stage == 1 ==> StopApp in cur.answers)
    && (prev.stage == 1 ==> (cur.stage == 2 <==> cur.now > prev.stageAt + REBOOT_FORCE))
    && (prev.stage == 2 ==> (cur.stage == 3 <==> cur.now > prev.stageAt + REBOOT_SYSRQ))
    && (Reboot in cur.spawned <==> prev.stage == 0 && cur.stage == 1)
    && (ForceReboot in cur.spawned <==> prev.stage == 1 && cur.stage == 2)
    && (SysRq in cur.spawned <==> prev.stage == 2 && cur.stage == 3)
  }

  /** Before the first tick nothing is decided and nothing was started. */
  function Before(ticks: seq<Tick>, i: nat): Tick
    requires i < |ticks|
  {
    if i == 0 then Tick(ticks[0].now, ticks[0].now, Checking, [], map[], {}, None, None, false, None, None, 0, 0.0)
    else ticks[i - 1]
  }

  ghost predicate Legal(boot: Boot, ticks: seq<Tick>) {
    forall i :: 0 <= i < |ticks| ==> Follows(boot, Before(ticks, i), ticks[i])
  }

  // ---- whole runs ---------------------------------------------------------------------------

  lemma At(boot: Boot, ticks: seq<Tick>, i: nat)
    requires Legal(boot, ticks) && i < |ticks|
    ensures InTime(boot.deadline, Before(ticks, i), ticks[i]) && Confirmed(boot, Before(ticks, i), ticks[i])
    ensures Before(ticks, i).state == Checking ==> Checked(boot.deadline, ticks[i])
  {
    hide InTime, Checked, Confirmed;
  }

  /** What no later tick takes back. */
  predicate Kept(a: Tick, b: Tick) {
    && (a.state == Done ==> b.state == Done) && (a.state == Rebooting ==> b.state == Rebooting)
    && (b.state == Checking ==> a.state == Checking)
    && (b.state == Confirming ==> a.state in {Checking, Confirming})
    && (a.envStart.Some? ==> b.envStart == a.envStart) && (a.finishStart.Some? ==> b.finishStart == a.finishStart)
    && (a.env.Some? ==> b.env == a.env) && (a.recorded ==> b.recorded)
  }

  lemma StepKeeps(boot: Boot, ticks: seq<Tick>, j: nat)
    requires Legal(boot, ticks) && 0 < j < |ticks|
    ensures Kept(ticks[j - 1], ticks[j]) && ticks[j - 1].end <= ticks[j].now <= ticks[j].end
  {
    At(boot, ticks, j);
    hide Legal, Follows, StagesFollow, Checked, IsTrial, Decided, Zero, Bound;
  }

  /** Done and rebooting are never left, and what was read or started stays so. */
  lemma {:induction false} Stays(boot: Boot, ticks: seq<Tick>, i: nat, j: nat)
    requires Legal(boot, ticks) && i <= j < |ticks|
    ensures ticks[i].state == Done ==> ticks[j].state == Done
    ensures ticks[i].state == Rebooting ==> ticks[j].state == Rebooting
    ensures ticks[j].state == Checking ==> ticks[i].state == Checking
    ensures ticks[j].state == Confirming ==> ticks[i].state in {Checking, Confirming}
    ensures ticks[i].envStart.Some? ==> ticks[j].envStart == ticks[i].envStart
    ensures ticks[i].finishStart.Some? ==> ticks[j].finishStart == ticks[i].finishStart
    ensures ticks[i].env.Some? ==> ticks[j].env == ticks[i].env
    ensures ticks[i].recorded ==> ticks[j].recorded
    ensures i < j ==> ticks[i].end <= ticks[j].now
    decreases j
  {
    hide Legal;
    if i < j {
      Stays(boot, ticks, i, j - 1);
      StepKeeps(boot, ticks, j);
      if i < j - 1 { StepKeeps(boot, ticks, j - 1); }
    }
  }

  lemma FollowsFrom(boot: Boot, prev: Tick, same: Tick, cur: Tick)
    requires Follows(boot, same, cur) && prev.end <= cur.now
    requires same.state == prev.state && same.env == prev.env && same.recorded == prev.recorded
    requires same.envStart == prev.envStart && same.finishStart == prev.finishStart
    requires same.stage == prev.stage && same.stageAt == prev.stageAt
    ensures Follows(boot, prev, cur)
  {
    hide IsTrial, Checked, Decided, Zero;
  }

  lemma LegalSnoc(boot: Boot, ticks: seq<Tick>, cur: Tick)
    requires Legal(boot, ticks) && Follows(boot, Before(ticks + [cur], |ticks|), cur)
    ensures Legal(boot, ticks + [cur])
  {
    hide Follows;
    var all := ticks + [cur];
    forall i | 0 <= i < |all| ensures Follows(boot, Before(all, i), all[i]) {
      if i < |ticks| { assert Before(all, i) == Before(ticks, i) && Follows(boot, Before(ticks, i), ticks[i]); }
    }
  }

  /** What a tick in each state says about the time. */
  lemma Overdue(boot: Boot, ticks: seq<Tick>, i: nat)
    requires Legal(boot, ticks) && i < |ticks|
    ensures ticks[i].state == Checking ==> ticks[i].now < boot.deadline
    ensures ticks[i].state == Confirming ==>
              && ticks[i].envStart.Some?
              && (ticks[i].finishStart.None? ==> ticks[i].now <= ticks[i].envStart.value + 15.0)
              && (ticks[i].finishStart.Some? ==> ticks[i].now <= ticks[i].finishStart.value + 300.0)
    ensures ticks[i].envStart.Some? ==> ticks[i].envStart.value <= ticks[i].end
    ensures ticks[i].finishStart.Some? ==> ticks[i].finishStart.value <= ticks[i].end
  {
    At(boot, ticks, i);
    hide Legal, Follows, StagesFollow, Checked, Confirmed, Before;
  }

  /** The first tick after the deadline leaves checking; 15 s after it the environment was read;
      300 s more and the boot is decided. */
  lemma LeavesInTime(boot: Boot, ticks: seq<Tick>, i: nat, j: nat, k: nat)
    requires Legal(boot, ticks) && i < j < k < |ticks|
    requires ticks[i].now >= boot.deadline
    requires ticks[j].now > ticks[i].end + 15.0
    requires ticks[k].now > ticks[j].end + 300.0
    ensures ticks[i].state != Checking
    ensures ticks[k].state in {Done, Rebooting}
  {
    Overdue(boot, ticks, i);
    Overdue(boot, ticks, j);
    Overdue(boot, ticks, k);
    hide Legal;
    Stays(boot, ticks, i, j);
    Stays(boot, ticks, j, k);
  }

  /** Once rebooting, each later stage comes within its bound and the last one resets the board;
      the second and the third never come before theirs. */
  lemma RebootEscalates(boot: Boot, ticks: seq<Tick>, i: nat)
    requires Legal(boot, ticks) && 0 < i < |ticks|
    requires ticks[i - 1].state == Rebooting && ticks[i - 1].stage < 3
    ensures ticks[i].now > ticks[i - 1].stageAt + [60.0, 120.0, 60.0][ticks[i - 1].stage] ==>
              ticks[i].stage == ticks[i - 1].stage + 1
    ensures ticks[i - 1].stage > 0 && ticks[i].stage == ticks[i - 1].stage + 1 ==>
              ticks[i].now > ticks[i - 1].stageAt + [60.0, 120.0, 60.0][ticks[i - 1].stage]
    ensures ticks[i].stage == ticks[i - 1].stage + 1 ==>
              [Reboot, ForceReboot, SysRq][ticks[i - 1].stage] in ticks[i].spawned
  {
    At(boot, ticks, i);
    hide Legal, Checked, Confirmed;
  }

  /** Something of a confirmation is there. */
  predicate Confirms(t: Tick) {
    || t.state in {Confirming, Done} || t.finishStart.Some? || t.recorded
    || MarkGood in t.spawned || Confirm in t.spawned
  }

  /** A boot is confirmed only after a tick that saw DATA mounted, podman working and the
      container healthy. */
  lemma ConfirmedIsHealthy(boot: Boot, ticks: seq<Tick>, j: nat) returns (i: nat)
    requires Legal(boot, ticks) && j < |ticks|
    requires || ticks[j].state in {Confirming, Done} || ticks[j].finishStart.Some? || ticks[j].recorded
             || MarkGood in ticks[j].spawned || Confirm in ticks[j].spawned
    ensures i <= j && ticks[i].now < boot.deadline
    ensures |ticks[i].mounts| == 2 && ticks[i].mounts[1]
    ensures PodmanInfo in ticks[i].answers && ticks[i].answers[PodmanInfo].Code? && ticks[i].answers[PodmanInfo].n == 0
    ensures Health in ticks[i].answers && ticks[i].answers[Health] == Code(0, "healthy")
  {
    hide Legal;
    i := ConfirmedSawHealth(boot, ticks, j);
  }

  lemma {:induction false} ConfirmedSawHealth(boot: Boot, ticks: seq<Tick>, j: nat) returns (i: nat)
    requires Legal(boot, ticks) && j < |ticks| && Confirms(ticks[j])
    ensures i <= j && ticks[i].now < boot.deadline && SawHealth(ticks[i])
    decreases j
  {
    hide Legal, SawHealth;
    ConfirmingIsLeaving(boot, ticks, j);
    if j == 0 || ticks[j - 1].state == Checking {
      i := j;
    } else {
      i := ConfirmedSawHealth(boot, ticks, j - 1);
    }
  }

  /** Whatever belongs to a confirmation is past checking, and past a reboot. */
  lemma ConfirmingIsLeaving(boot: Boot, ticks: seq<Tick>, j: nat)
    requires Legal(boot, ticks) && j < |ticks| && Confirms(ticks[j])
    ensures ticks[j].state in {Confirming, Done}
    ensures j == 0 || ticks[j - 1].state == Checking ==> ticks[j].now < boot.deadline && SawHealth(ticks[j])
    ensures j > 0 && ticks[j - 1].state != Checking ==> ticks[j - 1].state in {Confirming, Done}
  {
    if ticks[j].recorded { RecordedIsDone(boot, ticks, j); }
    At(boot, ticks, j);
    hide Legal, StagesFollow, IsTrial, Decided, Zero, SawHealth, Bound;
  }

  lemma RecordStep(boot: Boot, ticks: seq<Tick>, j: nat)
    requires Legal(boot, ticks) && j < |ticks| && ticks[j].recorded && (j == 0 || !ticks[j - 1].recorded)
    ensures ticks[j].state == Done
    ensures Zero(ticks[j].answers, MarkGood) || Zero(ticks[j].answers, Confirm)
  {
    At(boot, ticks, j);
    hide Legal, InTime, Checked, IsTrial;
    if j > 0 && ticks[j - 1].state == Done { Stays(boot, ticks, j - 1, j); }
  }

  lemma {:induction false} RecordedIsDone(boot: Boot, ticks: seq<Tick>, j: nat)
    requires Legal(boot, ticks) && j < |ticks| && ticks[j].recorded
    ensures ticks[j].state == Done
    decreases j
  {
    hide *;
    if j > 0 && ticks[j - 1].recorded {
      RecordedIsDone(boot, ticks, j - 1);
      Stays(boot, ticks, j - 1, j);
    } else {
      RecordStep(boot, ticks, j);
    }
  }

  /** And such a tick always leaves checking, unless the time is up or DATA failed. */
  lemma HealthIsNoticed(boot: Boot, ticks: seq<Tick>, i: nat)
    requires Legal(boot, ticks) && i < |ticks| && ticks[i].now < boot.deadline
    requires IsFailed !in ticks[i].answers && |ticks[i].mounts| == 2 && ticks[i].mounts[1]
    requires PodmanInfo in ticks[i].answers && ticks[i].answers[PodmanInfo].Code? && ticks[i].answers[PodmanInfo].n == 0
    requires Health in ticks[i].answers && ticks[i].answers[Health] == Code(0, "healthy")
    requires i == 0 || ticks[i - 1].state == Checking
    ensures ticks[i].state in {Confirming, Done}
  {
    At(boot, ticks, i);
    hide Legal, StagesFollow, Confirmed, InTime;
  }

  lemma RebootStep(boot: Boot, ticks: seq<Tick>, j: nat)
    requires Legal(boot, ticks) && j < |ticks| && ticks[j].state == Rebooting
    ensures j == 0 || ticks[j - 1].state == Checking ==>
              ticks[j].now >= boot.deadline || Zero(ticks[j].answers, IsFailed)
    ensures j > 0 && ticks[j - 1].state != Checking ==> ticks[j - 1].state == Rebooting
  {
    At(boot, ticks, j);
    hide Legal, StagesFollow, Confirmed, Bound, Zero, SawHealth;
  }

  /** A reboot has a reason: the deadline has passed, or `data.mount` has failed. */
  lemma {:induction false} RebootHasReason(boot: Boot, ticks: seq<Tick>, j: nat) returns (i: nat)
    requires Legal(boot, ticks) && j < |ticks| && ticks[j].state == Rebooting
    ensures i <= j && (ticks[i].now >= boot.deadline
                       || (IsFailed in ticks[i].answers && ticks[i].answers[IsFailed].Code?
                           && ticks[i].answers[IsFailed].n == 0))
    decreases j
  {
    hide Legal;
    RebootStep(boot, ticks, j);
    if j == 0 || ticks[j - 1].state == Checking {
      i := j;
    } else {
      i := RebootHasReason(boot, ticks, j - 1);
    }
  }

  /** The confirmed record needs a zero exit of the one command that was started: the coordinator
      on a launched trial of this slot, mark-good on any other boot. */
  lemma {:induction false} RecordNeedsZeroExit(boot: Boot, ticks: seq<Tick>, j: nat) returns (i: nat)
    requires Legal(boot, ticks) && j < |ticks| && ticks[j].recorded
    ensures i <= j
    ensures exists k :: k in {MarkGood, Confirm} && k in ticks[i].answers && ticks[i].answers[k].Code?
                        && ticks[i].answers[k].n == 0
    decreases j
  {
    hide Legal;
    if j > 0 && ticks[j - 1].recorded {
      i := RecordNeedsZeroExit(boot, ticks, j - 1);
    } else {
      RecordStep(boot, ticks, j);
      i := j;
    }
  }

  /** What is started fits the environment that was read. */
  lemma StartedFitsEnv(boot: Boot, ticks: seq<Tick>, i: nat)
    requires Legal(boot, ticks) && i < |ticks| && (MarkGood in ticks[i].spawned || Confirm in ticks[i].spawned)
    ensures ticks[i].env.Some?
    ensures var e := ticks[i].env.value;
            var trial := && "epk_os_pending" in e && e["epk_os_pending"] != ""
                         && (if "epk_os_target" in e then boot.slot == Some(e["epk_os_target"]) else boot.slot == None)
                         && "epk_os_trial_started" in e && e["epk_os_trial_started"] == e["epk_os_pending"];
            (MarkGood in ticks[i].spawned <==> !trial) && (Confirm in ticks[i].spawned <==> trial)
  {
    At(boot, ticks, i);
    hide Legal, StagesFollow, InTime, Checked, Decided;
  }

  lemma StartsWithFinish(boot: Boot, ticks: seq<Tick>, i: nat)
    requires Legal(boot, ticks) && i < |ticks|
    ensures MarkGood in ticks[i].spawned || Confirm in ticks[i].spawned <==>
            (i == 0 || ticks[i - 1].finishStart.None?) && ticks[i].finishStart.Some?
  {
    At(boot, ticks, i);
    hide Legal, InTime, Checked, IsTrial, Decided, Zero;
  }

  /** The confirming command starts once. */
  lemma StartsOnce(boot: Boot, ticks: seq<Tick>, i: nat, j: nat)
    requires Legal(boot, ticks) && i < j < |ticks| && (MarkGood in ticks[i].spawned || Confirm in ticks[i].spawned)
    ensures MarkGood !in ticks[j].spawned && Confirm !in ticks[j].spawned
  {
    hide *;
    StartsWithFinish(boot, ticks, i);
    StartsWithFinish(boot, ticks, j);
    Stays(boot, ticks, i, j - 1);
  }

  // ---- the outside world -------------------------------------------------------------------

  /** The monotonic clock, mounts and processes; everything but the clock's direction is free.
      The ghost fields keep what was asked and answered since the tick began. */
  class Host {
    var time: real
    ghost var mounts: seq<bool>
    ghost var answers: map<Kind, Exit>
    ghost var spawned: set<Kind>
    ghost var coordinator: Option<bool>

    ghost predicate Quiet()
      reads this
    {
      mounts == [] && answers == map[] && spawned == {} && coordinator == None
    }

    /** A tick begins. */
    ghost method Begin()
      modifies this
      ensures Quiet() && time == old(time)
    {
      mounts, answers, spawned, coordinator := [], map[], {}, None;
    }

    method Clock() returns (t: real)
      modifies this`time
      ensures t == time >= old(time)
    {
      var step: real := *;
      if step > 0.0 { time := time + step; }
      t := time;
    }

    method IsMount() returns (mounted: bool)
      modifies this`mounts
      ensures mounts == old(mounts) + [mounted]
    {
      mounted := *;
      mounts := mounts + [mounted];
    }

    method Spawn(kind: Kind) returns (ok: bool)
      modifies this`spawned
      ensures spawned == old(spawned) + {kind}
    {
      ok := *;
      spawned := spawned + {kind};
    }

    /** `coordinator_exists()` */
    method CoordinatorExists() returns (there: bool)
      modifies this`coordinator
      ensures coordinator == Some(there)
    {
      there := *;
      coordinator := Some(there);
    }

    /** `process.poll()` and its output */
    method Poll() returns (code: Option<(int, string)>)
    {
      code := *;
    }
  }

  /** `Command.result()`: None while the command runs within its bound. */
  method Result(host: Host, c: Command) returns (r: Option<Exit>)
    requires c.kind !in host.answers
    modifies host`time, host`answers
    ensures host.time >= old(host.time)
    ensures r.None? ==> c.spawned && host.time <= c.started + Bound(c.kind)
    ensures r == Some(TimedOut) ==> c.spawned && host.time > c.started + Bound(c.kind)
    ensures !c.spawned ==> r == Some(Code(127, ""))
    ensures host.answers == match r case None => old(host.answers) case Some(e) => old(host.answers)[c.kind := e]
  {
    if !c.spawned {
      r := Some(Code(127, ""));
    } else {
      var code := host.Poll();
      if code.Some? {
        r := Some(Code(code.value.0, code.value.1));
      } else {
        var t := host.Clock();
        r := if t - c.started > Bound(c.kind) then Some(TimedOut) else None;
      }
    }
    if r.Some? { host.answers := host.answers[c.kind := r.value]; }
  }

  // ---- the supervisor ------------------------------------------------------------------------

  class Watch {
    const host: Host
    const boot: Boot
    var state: State
    var mountCheck: Option<Command>
    var mountChecked: Option<real>
    var dataFailed: bool
    var podman: Option<Command>
    var health: Option<Command>
    var envRead: Option<Command>
    var env: Option<Env>
    var finish: Option<Command>
    var stopping: Option<Command>
    var stage: nat
    var rebootAt: real
    var recorded: bool
    var beats: nat
    ghost var ticks: seq<Tick>

    constructor (host: Host, start: real, slot: Option<string>, parse: string -> Env)
      ensures Between() && state == Checking && ticks == [] && !recorded && beats == 0
      ensures this.host == host && boot == Boot(start + 1200.0, slot, parse)
    {
      this.host, boot := host, Boot(start + DEADLINE, slot, parse);
      state, mountCheck, mountChecked, dataFailed := Checking, None, None, false;
      podman, health, envRead, env, finish, stopping := None, None, None, None, None, None;
      stage, rebootAt, recorded, beats := 0, 0.0, false, 0;
      ticks := [];
    }

    /** How the fields belong together. */
    ghost predicate Valid()
      reads this, host
    {
      && (mountCheck.Some? ==> mountCheck.value.kind == IsFailed)
      && (podman.Some? ==> podman.value.kind == PodmanInfo)
      && (health.Some? ==> health.value.kind == Health)
      && (finish.Some? ==> env.Some? && finish.value.kind == FinishKind(env.value))
      && (finish.Some? ==> finish.value.started <= host.time)
      && (envRead.Some? ==> envRead.value.kind == ReadEnv && envRead.value.started <= host.time)
      && (env.Some? ==> envRead.Some?)
      && (state == Checking ==> Deciding())
      && (state == Confirming ==> stopping.None? && !recorded && (env.Some? ==> finish.Some?))
      && (state == Rebooting <==> stopping.Some?)
      && (state == Rebooting ==> stopping.value.kind == StopApp && stage <= 3 && finish.None? && rebootAt <= host.time)
      && (recorded ==> state == Done)
    }

    function FinishKind(e: Env): Kind { if IsTrial(e, boot.slot) then Confirm else MarkGood }

    /** Nothing has been decided: only checks were started. */
    ghost predicate Deciding()
      reads this
    {
      state == Checking && envRead.None? && env.None? && finish.None? && stopping.None? && !recorded
    }

    /** `self.command(key, argv)` */
    method Start(kind: Kind) returns (c: Command)
      modifies host`time, host`spawned
      ensures host.time >= old(host.time)
      ensures c.kind == kind && c.started == host.time
      ensures host.spawned == old(host.spawned) + {kind}
    {
      var t := host.Clock();
      var ok := host.Spawn(kind);
      c := Command(kind, t, ok);
    }

    // The tick itself is in Step; the pieces below are its branches.

    /** `data_mount_failed`: exactly if `systemctl is-failed` said so in this tick. */
    method DataMountFailed(now: real) returns (failed: bool)
      requires Valid() && Deciding() && !dataFailed && now <= host.time && host.Quiet()
      modifies this`mountCheck, this`mountChecked, this`dataFailed, host
      ensures host.time >= old(host.time) && dataFailed == failed
      ensures Valid() && Deciding()
      ensures |host.mounts| == 1 && host.answers.Keys <= {IsFailed} && host.spawned <= {IsFailed}
      ensures host.coordinator == None && (failed <==> Zero(host.answers, IsFailed))
      ensures IsFailed in host.answers ==> !host.mounts[0]
      // asked whenever DATA is not mounted, every ten seconds at most
      ensures var due := old(mountChecked).None? || now - old(mountChecked).value >= 10.0;
              && (IsFailed in host.spawned <==> !host.mounts[0] && old(mountCheck).None? && due)
              && (!host.mounts[0] && (old(mountCheck).Some? || due) && IsFailed !in host.answers ==>
                    mountCheck.Some? && host.time <= mountCheck.value.started + 15.0)
    {
      hide IsTrial;
      var mounted := host.IsMount();
      if mounted { return false; }
      if mountCheck.None? && (mountChecked.None? || now - mountChecked.value >= 10.0) {
        var c := Start(IsFailed);
        mountCheck := Some(c);
      }
      if mountCheck.Some? {
        var r := Result(host, mountCheck.value);
        if r.Some? {
          mountCheck, mountChecked := None, Some(now);
          dataFailed := r.value.Code? && r.value.n == 0;
        }
      }
      failed := dataFailed;
    }

    /** What `check` asks: DATA, then podman, then the container. */
    method CheckHealth(now: real) returns (healthy: bool)
      requires Valid() && Deciding() && now <= host.time
      requires |host.mounts| == 1 && host.answers.Keys <= {IsFailed} && host.spawned <= {IsFailed}
      requires host.coordinator == None
      modifies this`podman, this`health, host`time, host`mounts, host`answers, host`spawned
      ensures Valid() && host.time >= old(host.time)
      ensures healthy <==> && |host.mounts| == 2 && host.mounts[1] && Zero(host.answers, PodmanInfo)
                           && Health in host.answers && host.answers[Health] == Code(0, "healthy")
      ensures IsFailed in host.answers <==> IsFailed in old(host.answers)
      ensures IsFailed in host.answers ==> host.answers[IsFailed] == old(host.answers)[IsFailed]
      ensures host.answers.Keys <= {IsFailed, PodmanInfo, Health} && host.spawned <= {IsFailed, PodmanInfo, Health}
    {
      hide IsTrial;
      var mounted := host.IsMount();
      if !mounted { return false; }
      var works := AskPodman();
      if !works { return false; }
      healthy := AskHealth();
    }

    method AskPodman() returns (works: bool)
      requires PodmanInfo !in host.answers && (podman.Some? ==> podman.value.kind == PodmanInfo)
      modifies this`podman, host`time, host`answers, host`spawned
      ensures host.time >= old(host.time) && (podman.Some? ==> podman.value.kind == PodmanInfo)
      ensures works <==> Zero(host.answers, PodmanInfo)
      ensures PodmanInfo !in host.answers ==> podman.Some? && host.time <= podman.value.started + 60.0
      ensures PodmanInfo in host.answers && host.answers[PodmanInfo] == TimedOut ==>
                host.time > (if old(podman).Some? then old(podman).value.started else old(host.time)) + 60.0
      ensures SameAnswers(old(host.answers), host.answers, {PodmanInfo})
      ensures host.spawned <= old(host.spawned) + {PodmanInfo}
    {
      if podman.None? {
        var c := Start(PodmanInfo);
        podman := Some(c);
      }
      var r := Result(host, podman.value);
      works := r.Some? && r.value.Code? && r.value.n == 0;
      if r.Some? && !works { podman := None; }    // try again next tick; the deadline bounds it
    }

    method AskHealth() returns (healthy: bool)
      requires Health !in host.answers && (health.Some? ==> health.value.kind == Health)
      modifies this`health, host`time, host`answers, host`spawned
      ensures host.time >= old(host.time) && (health.Some? ==> health.value.kind == Health)
      ensures healthy <==> Health in host.answers && host.answers[Health] == Code(0, "healthy")
      ensures Health !in host.answers ==> health.Some? && host.time <= health.value.started + 20.0
      ensures Health in host.answers && host.answers[Health] == TimedOut ==>
                host.time > (if old(health).Some? then old(health).value.started else old(host.time)) + 20.0
      ensures SameAnswers(old(host.answers), host.answers, {Health})
      ensures host.spawned <= old(host.spawned) + {Health}
    {
      if health.None? {
        var c := Start(Health);
        health := Some(c);
      }
      var r := Result(host, health.value);
      if r.None? { return false; }
      health := None;
      healthy := r.value == Code(0, "healthy");
    }

    /** `check`: leaves checking exactly after all three were found well. */
    method Check(now: real)
      requires Valid() && Deciding() && now <= host.time
      requires |host.mounts| == 1 && host.answers.Keys <= {IsFailed} && host.spawned <= {IsFailed}
      requires host.coordinator == None
      modifies this`podman, this`health, this`envRead, this`env, this`finish, this`state, this`recorded, host
      ensures Valid() && host.time >= old(host.time)
      ensures state == Checking || After(now)
      ensures state == Checking <==>
              !(|host.mounts| == 2 && host.mounts[1] && Zero(host.answers, PodmanInfo)
                && Health in host.answers && host.answers[Health] == Code(0, "healthy"))
      ensures Zero(host.answers, IsFailed) == Zero(old(host.answers), IsFailed)
      ensures Confirmed(boot, old(Snapshot(now)), Snapshot(now))
    {
      hide IsTrial, Confirmed;
      ghost var before := Snapshot(now);
      var healthy := CheckHealth(now);
      if !healthy {
        StillChecking(before, Snapshot(now));
        return;
      }
      state := Confirming;
      ghost var entered := Snapshot(now);
      ConfirmBoot(now);
      ConfirmedFrom(before, entered, Snapshot(now));
    }

    lemma StillChecking(prev: Tick, cur: Tick)
      requires prev.state == Checking && cur.state == Checking && prev.env.None? && cur.env.None?
      requires cur.finishStart == prev.finishStart == None && cur.recorded == prev.recorded && cur.coordinator == None
      requires cur.answers.Keys <= {IsFailed, PodmanInfo, Health} && cur.spawned <= {IsFailed, PodmanInfo, Health}
      ensures Confirmed(boot, prev, cur)
    {
    }

    /** The rules of confirming look only at these parts of the last tick. */
    lemma ConfirmedFrom(prev: Tick, same: Tick, cur: Tick)
      requires Confirmed(boot, same, cur) && prev.state != Done && same.state != Done
      requires prev.env == same.env && prev.finishStart == same.finishStart && prev.recorded == same.recorded
      ensures Confirmed(boot, prev, cur)
    {
      hide IsTrial;
    }

    /** Where a tick in the confirming state ends. */
    ghost predicate After(now: real)
      reads this
    {
      && state in {Confirming, Done} && stopping.None?
      && (state == Confirming ==>
            && envRead.Some?
            && (finish.None? ==> now <= envRead.value.started + Bound(ReadEnv))
            && (finish.Some? ==> now <= finish.value.started + Bound(Confirm)))
    }

    /** Nothing of a confirmation was asked or started in this tick yet. */
    ghost predicate Unasked()
      reads host
    {
      && host.coordinator == None
      && ReadEnv !in host.answers && MarkGood !in host.answers && Confirm !in host.answers
      && MarkGood !in host.spawned && Confirm !in host.spawned
    }

    /** `confirm` */
    method ConfirmBoot(now: real)
      requires Valid() && state == Confirming && now <= host.time && Unasked()
      requires env.Some? ==> finish.Some?
      modifies this`envRead, this`env, this`finish, this`state, this`recorded,
               host`time, host`answers, host`spawned, host`coordinator
      ensures Valid() && host.time >= old(host.time) && After(now)
      ensures old(envRead).Some? ==> envRead == old(envRead)
      ensures old(finish).Some? ==> finish == old(finish)
      ensures SameAnswers(old(host.answers), host.answers, {ReadEnv, MarkGood, Confirm})
      ensures Confirmed(boot, old(Snapshot(now)), Snapshot(now))
    {
      hide IsTrial, Confirmed, SameAnswers, Zero, Bound;
      ghost var before := Snapshot(now);
      var ready := ReadEnvironment(now);
      ghost var read := host.answers;
      if !ready {
        SameTwice(before.answers, read, read);
        UnreadConfirms(before, Snapshot(now));
        return;
      }
      ConfirmWithEnv(now);
      SameTwice(before.answers, read, host.answers);
      ReadConfirms(before, Snapshot(now));
    }

    lemma SameTwice(a: map<Kind, Exit>, b: map<Kind, Exit>, c: map<Kind, Exit>)
      requires SameAnswers(a, b, {ReadEnv})
      requires b == c || SameAnswers(b, c, {MarkGood}) || SameAnswers(b, c, {Confirm})
      ensures SameAnswers(a, c, {ReadEnv, MarkGood, Confirm})
      ensures b == c ==> (MarkGood in c <==> MarkGood in a) && (Confirm in c <==> Confirm in a)
      ensures ReadEnv in b <==> ReadEnv in c
      ensures ReadEnv in b ==> b[ReadEnv] == c[ReadEnv]
      ensures Zero(b, ReadEnv) <==> Zero(c, ReadEnv)
      ensures Zero(b, ReadEnv) ==> ReadEnv in b && b[ReadEnv].Code?
      ensures SameAnswers(b, c, {MarkGood}) ==> (Confirm in c <==> Confirm in a)
      ensures SameAnswers(b, c, {Confirm}) ==> (MarkGood in c <==> MarkGood in a)
    {
    }

    lemma UnreadConfirms(prev: Tick, cur: Tick)
      requires prev.state != Done && prev.env.None? && cur.env.None? && cur.coordinator == None
      requires cur.finishStart == prev.finishStart == None && cur.recorded == prev.recorded
      requires MarkGood !in cur.answers && Confirm !in cur.answers
      requires MarkGood !in cur.spawned && Confirm !in cur.spawned
      requires cur.state == Done <==> ReadEnv in cur.answers && !Zero(cur.answers, ReadEnv)
      ensures Confirmed(boot, prev, cur)
    {
    }

    lemma ReadConfirms(prev: Tick, cur: Tick)
      requires prev.state != Done && cur.state in {Confirming, Done} && cur.env.Some? && !prev.recorded
      requires if prev.env.Some? then cur.env == prev.env && ReadEnv !in cur.answers
               else Zero(cur.answers, ReadEnv) && cur.env.value == boot.parse(cur.answers[ReadEnv].out)
      requires var k := FinishKind(cur.env.value); var other := if k == Confirm then MarkGood else Confirm;
               && other !in cur.answers && other !in cur.spawned
               && (k in cur.spawned <==> prev.finishStart.None? && cur.finishStart.Some?)
               && (k in cur.spawned && k == Confirm ==> cur.coordinator == Some(true))
               && (cur.state == Done <==> cur.coordinator == Some(false) || k in cur.answers)
               && (cur.recorded <==> Zero(cur.answers, k))
               && (cur.state == Confirming ==> cur.finishStart.Some?)
      ensures Confirmed(boot, prev, cur)
    {
    }

    /** The first part of `confirm`: the environment is read once; `ready` when it is there. */
    method ReadEnvironment(now: real) returns (ready: bool)
      requires Valid() && state == Confirming && now <= host.time && ReadEnv !in host.answers
      requires env.Some? ==> finish.Some?
      modifies this`envRead, this`env, this`state, host`time, host`answers, host`spawned
      ensures host.time >= old(host.time) && envRead.Some?
      ensures old(envRead).Some? ==> envRead == old(envRead)
      ensures envRead.value.kind == ReadEnv && envRead.value.started <= host.time
      ensures SameAnswers(old(host.answers), host.answers, {ReadEnv})
      ensures MarkGood in host.answers ==> MarkGood in old(host.answers)
      ensures Confirm in host.answers ==> Confirm in old(host.answers)
      ensures host.spawned <= old(host.spawned) + {ReadEnv} && old(host.spawned) <= host.spawned
      ensures ready ==> env.Some? && state == Confirming
      ensures ready && old(env).Some? ==> env == old(env) && ReadEnv !in host.answers
      ensures ready && old(env).None? ==>
                Zero(host.answers, ReadEnv) && env.value == boot.parse(host.answers[ReadEnv].out)
      ensures !ready ==> env.None? && old(env).None? && state in {Confirming, Done}
                         && (state == Done <==> ReadEnv in host.answers && !Zero(host.answers, ReadEnv))
                         && (state == Confirming ==> ReadEnv !in host.answers
                                                     && now <= envRead.value.started + Bound(ReadEnv))
    {
      hide IsTrial;
      if env.Some? { return true; }
      if envRead.None? {
        var c := Start(ReadEnv);
        envRead := Some(c);
      }
      var r := Result(host, envRead.value);
      if r.None? { return false; }
      if !(r.value.Code? && r.value.n == 0) {
        state := Done;        // never guess a confirmation
        return false;
      }
      env := Some(boot.parse(r.value.out));
      ready := true;
    }

    /** The rest: the one confirming command, and the record after its zero exit. */
    method ConfirmWithEnv(now: real)
      requires state == Confirming && now <= host.time && env.Some? && stopping.None? && !recorded
      requires finish.Some? ==> finish.value.kind == FinishKind(env.value) && finish.value.started <= host.time
      requires host.coordinator == None && MarkGood !in host.answers && Confirm !in host.answers
      modifies this`finish, this`state, this`recorded, host`time, host`answers, host`spawned, host`coordinator
      ensures host.time >= old(host.time) && state in {Confirming, Done}
      ensures old(finish).Some? ==> finish == old(finish)
      ensures finish.Some? ==> finish.value.kind == FinishKind(env.value) && finish.value.started <= host.time
      ensures SameAnswers(old(host.answers), host.answers, {FinishKind(env.value)})
      ensures host.spawned == old(host.spawned) + if finish == old(finish) then {} else {FinishKind(env.value)}
      ensures host.coordinator == Some(false) ==> finish.None? && old(finish).None?
      ensures finish.Some? && old(finish).None? && FinishKind(env.value) == Confirm ==> host.coordinator == Some(true)
      ensures state == Done <==> host.coordinator == Some(false) || FinishKind(env.value) in host.answers
      ensures recorded <==> Zero(host.answers, FinishKind(env.value))
      ensures recorded ==> state == Done
      ensures state == Confirming ==> finish.Some? && now <= finish.value.started + Bound(Confirm)
    {
      var trial := IsTrial(env.value, boot.slot);
      hide IsTrial;
      if finish.None? {
        if trial {
          var coordinator := host.CoordinatorExists();
          if !coordinator {
            state := Done;      // leave the trial unconfirmed
            return;
          }
        }
        var kind := if trial then Confirm else MarkGood;
        var c := Start(kind);
        finish := Some(c);
      }
      var r := Result(host, finish.value);
      if r.None? { return; }
      state := Done;
      if r.value.Code? && r.value.n == 0 { recorded := true; }
    }

    method StartReboot(now: real)
      requires Valid() && Deciding() && now <= host.time
      modifies this`rebootAt, this`stage, this`stopping, this`state, host`time, host`spawned
      ensures host.time >= old(host.time) && host.spawned == old(host.spawned) + {StopApp}
      ensures state == Rebooting && stage == 0 && rebootAt == now
      ensures stopping.Some? && Valid()
    {
      hide IsTrial;
      rebootAt, stage := now, 0;
      var c := Start(StopApp);
      stopping, state := Some(c), Rebooting;
    }

    method ContinueReboot(now: real)
      requires Valid() && state == Rebooting && now == host.time && host.Quiet()
      modifies this`stage, this`rebootAt, host
      ensures Valid() && host.time >= old(host.time)
      ensures old(stage) <= stage <= old(stage) + 1
      ensures stage == old(stage) ==> rebootAt == old(rebootAt)
      ensures stage == old(stage) + 1 && stage < 3 ==> rebootAt == now
      ensures old(stage) == 0 && stage == 0 ==> now <= stopping.value.started + Bound(StopApp)
      ensures old(stage) == 0 && stage == 1 ==> StopApp in host.answers
      ensures old(stage) == 1 ==> (stage == 2 <==> now > old(rebootAt) + REBOOT_FORCE)
      ensures old(stage) == 2 ==> (stage == 3 <==> now > old(rebootAt) + REBOOT_SYSRQ)
      ensures host.answers.Keys <= {StopApp} && host.coordinator == None
      ensures host.spawned == if stage == old(stage) then {}
                              else if stage == 1 then {Reboot} else if stage == 2 then {ForceReboot} else {SysRq}
    {
      hide IsTrial;
      var ok;
      if stage == 0 {
        var r := Result(host, stopping.value);
        if r.None? { return; }
        ok := host.Spawn(Reboot);
        stage, rebootAt := 1, now;
      } else if stage == 1 && now - rebootAt > REBOOT_FORCE {
        ok := host.Spawn(ForceReboot);
        stage, rebootAt := 2, now;
      } else if stage == 2 && now - rebootAt > REBOOT_SYSRQ {
        ok := host.Spawn(SysRq);      // the write that resets the board
        stage := 3;
      }
    }

    // ---- one tick ----

    ghost function Snapshot(now: real): Tick
      reads this, host
    {
      Tick(now, host.time, state, host.mounts, host.answers, host.spawned, host.coordinator, env, recorded,
           if envRead.Some? then Some(envRead.value.started) else None,
           if finish.Some? then Some(finish.value.started) else None,
           if state == Rebooting then stage else 0,
           if state == Rebooting && stage == 0 && stopping.Some? then stopping.value.started else rebootAt)
    }

    /** The tick describes the fields. */
    ghost predicate Describes(t: Tick)
      reads this, host
    {
      t == Snapshot(t.now).(end := t.end, mounts := t.mounts, answers := t.answers, spawned := t.spawned,
                            coordinator := t.coordinator)
    }

    /** The last tick describes the fields; only the clock may have moved since. */
    ghost predicate Between()
      reads this, host
    {
      && Valid() && (state == Checking ==> !dataFailed)
      && Legal(boot, ticks)
      && |ticks| == beats
      && (ticks == [] ==> state == Checking && rebootAt == 0.0)
      && (ticks != [] ==> ticks[|ticks| - 1].end <= host.time && Describes(ticks[|ticks| - 1]))
    }

    /** `step()`: one tick. Every tick beats the watchdog, whatever else happens. */
    method Step()
      requires Between()
      modifies this, host
      ensures Between() && |ticks| == |old(ticks)| + 1 && old(ticks) == ticks[..|old(ticks)|]
      ensures beats == old(beats) + 1 && host.time >= old(host.time)
      ensures recorded ==> state == Done
    {
      hide Follows, IsTrial, Legal;
      var now := Open();
      ghost var before := ticks;
      ghost var same := Snapshot(now);
      Branch(now);
      ghost var tick := Snapshot(now);
      OneMoreTick(before, same, tick);
      ticks := before + [tick];
    }

    /** Every tick starts with the clock and the watchdog. */
    method Open() returns (now: real)
      requires Between()
      modifies this`beats, host
      ensures Valid() && now == host.time >= old(host.time) && host.Quiet() && beats == old(beats) + 1
      ensures ticks != [] ==>
                var last := ticks[|ticks| - 1];
                && last.end <= now
                && Snapshot(now) == last.(now := now, end := now, mounts := [], answers := map[], spawned := {},
                                          coordinator := None)
    {
      hide IsTrial, Legal, Follows;
      host.Begin();
      now := host.Clock();
      beats := beats + 1;
    }

    lemma OneMoreTick(before: seq<Tick>, same: Tick, tick: Tick)
      requires Legal(boot, before) && Follows(boot, same, tick)
      requires before == [] ==> same.state == Checking && same.env.None? && !same.recorded && same.envStart.None?
                                && same.finishStart.None? && same.stage == 0 && same.stageAt == 0.0
      requires before != [] ==>
                 var last := before[|before| - 1];
                 && last.end <= tick.now
                 && same == last.(now := same.now, end := same.end, mounts := same.mounts, answers := same.answers,
                                  spawned := same.spawned, coordinator := same.coordinator)
      ensures Legal(boot, before + [tick])
    {
      hide Legal, InTime, Checked;
      FollowsFrom(boot, Before(before + [tick], |before|), same, tick);
      LegalSnoc(boot, before, tick);
    }

    /** The branches of `step()`. */
    method Branch(now: real)
      requires Valid() && now == host.time && host.Quiet() && (state == Checking ==> !dataFailed)
      modifies this, host
      ensures state == Checking ==> !dataFailed
      ensures Valid() && ticks == old(ticks) && beats == old(beats) && host.time >= old(host.time)
      ensures Follows(boot, old(Snapshot(now)), Snapshot(now))
    {
      hide IsTrial;
      if state == Rebooting {
        ContinueReboot(now);
        return;
      }
      if state == Done { return; }
      if state == Checking {
        Decide(now);
        return;
      }
      ConfirmBoot(now);
    }

    /** A tick of the checking state. */
    method Decide(now: real)
      requires Valid() && Deciding() && !dataFailed && now == host.time && host.Quiet()
      modifies this, host
      ensures state == Checking ==> !dataFailed
      ensures Valid() && ticks == old(ticks) && beats == old(beats) && host.time >= old(host.time)
      ensures Follows(boot, old(Snapshot(now)), Snapshot(now))
    {
      hide IsTrial, Confirmed;
      ghost var before := Snapshot(now);
      var failed := DataMountFailed(now);
      if failed || now >= boot.deadline {
        StartReboot(now);
        RebootConfirmsNothing(before, Snapshot(now));
        return;
      }
      ghost var asked := Snapshot(now);
      Check(now);
      ConfirmedFrom(before, asked, Snapshot(now));
    }

    lemma RebootConfirmsNothing(prev: Tick, cur: Tick)
      requires prev.state == Checking && cur.state == Rebooting && prev.env.None? && cur.env.None?
      requires cur.finishStart == prev.finishStart == None && cur.recorded == prev.recorded && cur.coordinator == None
      requires cur.answers.Keys <= {IsFailed} && cur.spawned <= {IsFailed, StopApp}
      ensures Confirmed(boot, prev, cur)
    {
    }
  }
}
