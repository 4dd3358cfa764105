// Application updates (epilykos_update.py): a newer image is started as a candidate and
// promoted once it is healthy. The four files below are written in a fixed order, and a
// cut or an error may fall between any two writes.
module AppUpdate {
  import opened Bytes
  import opened Steps

  type ImageId = string

  /** A release and its image; `shipped` marks the one this OS slot preloaded. */
  datatype Release = Release(sequence: nat, digest: string, channel: string, image: ImageId, shipped: bool)

  /** What `active.env` says. */
  datatype Active = Active(image: ImageId, sequence: nat)

  datatype Files = Files(current: Option<Release>, previous: Option<Release>, floor: Option<nat>,
    active: Option<Active>)

  function Named(r: Release): Active { Active(r.image, r.sequence) }

  /** `current()` */
  function Current(f: Files, base: Release): Release {
    if f.current.Some? && f.current.value.sequence >= base.sequence then f.current.value else base
  }

  function Stored(f: Files): nat { if f.floor.Some? then f.floor.value else 0 }

  /** `floor()` */
  function Floor(f: Files, base: Release): nat {
    if Stored(f) > base.sequence then Stored(f) else base.sequence
  }

  /** `_set_active` */
  function SetActive(f: Files, r: Release): Files {
    f.(active := if r.shipped then None else Some(Named(r)))
  }

  /** The release the files select for a slot with this baseline. */
  function Selected(f: Files, base: Release): Active {
    if f.active.Some? && f.active.value.sequence >= base.sequence then f.active.value else Named(base)
  }

  /** `epilykos-run` reads sequences of at most nine digits. */
  const SEQUENCE_LIMIT: nat := 1_000_000_000

  /** The image `epilykos-run` starts. */
  function Starts(f: Files, base: Release, images: set<ImageId>): ImageId {
    if f.active.Some? && base.sequence <= f.active.value.sequence < SEQUENCE_LIMIT && f.active.value.image in images
    then f.active.value.image else base.image
  }

  /** The box runs what it reports as its current release. */
  predicate Agrees(f: Files, base: Release) {
    Selected(f, base) == Named(Current(f, base))
  }

  predicate WellFormed(f: Files, base: Release) {
    base.shipped && (f.current.Some? ==> !f.current.value.shipped)
  }

  /** `apply`: newer than everything ever promoted, and not what runs. */
  predicate Admitted(f: Files, base: Release, candidate: Release) {
    !candidate.shipped && candidate.sequence > Floor(f, base) && candidate.digest != Current(f, base).digest
  }

  /** The files after the first `n` writes of `_run`. */
  function Tried(f: Files, base: Release, candidate: Release, n: nat): Files {
    var before := Current(f, base);
    Files(if n >= 3 then Some(candidate) else f.current,
          if n >= 2 && !before.shipped then Some(before) else f.previous,
          if n >= 4 then Some(candidate.sequence) else f.floor,
          if n >= 1 then Some(Named(candidate)) else f.active)
  }

  lemma CurrentIs(f: Files, base: Release)
    requires WellFormed(f, base)
    ensures Current(f, base).shipped <==> Current(f, base) == base
  {
  }

  lemma AdmittedMeans(f: Files, base: Release, candidate: Release)
    ensures Admitted(f, base, candidate) <==>
            && !candidate.shipped && candidate.sequence > base.sequence
            && (f.floor.Some? ==> candidate.sequence > f.floor.value)
            && candidate.digest != (if f.current.Some? && f.current.value.sequence >= base.sequence
                                    then f.current.value.digest else base.digest)
  {
  }

  // ---- what a cut or an error leaves ------------------------------------------------------

  /** Recovery ends in agreement from any files at all. */
  lemma RecoveryAgrees(f: Files, base: Release)
    requires WellFormed(f, base)
    ensures var after := SetActive(f, Current(f, base));
            Agrees(after, base) && Current(after, base) == Current(f, base) && Stored(after) == Stored(f)
  {
  }

  /** What it goes back to is the new release once `current.json` was written, although the
      result it reports always says that the previous version was kept. */
  lemma RecoveryGoesBackTo(f: Files, base: Release, candidate: Release, n: nat)
    requires WellFormed(f, base) && Admitted(f, base, candidate)
    ensures var stopped := Tried(f, base, candidate, n);
            var after := SetActive(stopped, Current(stopped, base));
            Selected(after, base) == Named(if n >= 3 then candidate else Current(f, base))
  {
    RecoveryAgrees(Tried(f, base, candidate, n), base);
  }

  /** The handler puts the old image back. That is right exactly until `current.json` was
      written: after it, the box runs the old release and reports the new one. */
  lemma PuttingBackAgrees(f: Files, base: Release, candidate: Release, n: nat)
    requires WellFormed(f, base) && Admitted(f, base, candidate)
    ensures Agrees(SetActive(Tried(f, base, candidate, n), Current(f, base)), base)
            <==> n <= 2 || Named(candidate) == Named(Current(f, base))
  {
  }

  /** When the handler cannot put it back either, it is the other way round. */
  lemma LeavingAgrees(f: Files, base: Release, candidate: Release, n: nat)
    requires WellFormed(f, base) && Admitted(f, base, candidate) && Agrees(f, base)
    ensures Agrees(Tried(f, base, candidate, n), base)
            <==> n == 0 || n >= 3 || Named(candidate) == Named(Current(f, base))
  {
  }

  /** No release older than the promoted one is admitted again. */
  predicate Guarded(f: Files, base: Release) {
    Current(f, base).sequence <= Floor(f, base)
  }

  /** Exactly a stop between `current.json` and `floor` loses that guard. */
  lemma GuardedUnlessBetween(f: Files, base: Release, candidate: Release, n: nat, restored: Release)
    requires WellFormed(f, base) && Admitted(f, base, candidate) && Guarded(f, base)
    ensures Guarded(Tried(f, base, candidate, n), base) <==> n != 3
    ensures Guarded(SetActive(Tried(f, base, candidate, n), restored), base) <==> n != 3
  {
  }

  /** Then any release between the old floor and the promoted one is admitted. */
  lemma OlderAdmittedAfterStop(f: Files, base: Release, candidate: Release, older: Release)
    requires WellFormed(f, base) && Admitted(f, base, candidate)
    requires !older.shipped && Floor(f, base) < older.sequence < candidate.sequence && older.digest != candidate.digest
    ensures var stopped := Tried(f, base, candidate, 3);
            var after := SetActive(stopped, Current(stopped, base));
            Admitted(after, base, older) && older.sequence < Current(after, base).sequence
  {
  }

  /** A healthy start is a healthy candidate exactly when `epilykos-run` can read its sequence. */
  lemma CandidateIsStarted(f: Files, base: Release, candidate: Release, images: set<ImageId>)
    requires Admitted(f, base, candidate) && candidate.image in images
    ensures Starts(Tried(f, base, candidate, 1), base, images) == candidate.image
            <==> candidate.sequence < SEQUENCE_LIMIT || candidate.image == base.image
  {
  }

  /** What is started is what the files select exactly when `active.env` is passed over for its
      age, or can be read and its image is there, or the images are one; else the baseline is. */
  lemma SelectedStarts(f: Files, base: Release, images: set<ImageId>)
    ensures Starts(f, base, images) == Selected(f, base).image <==>
            || f.active.None? || f.active.value.sequence < base.sequence
            || (f.active.value.sequence <= 999_999_999 && f.active.value.image in images)
            || f.active.value.image == base.image
    ensures Starts(f, base, images) in {Selected(f, base).image, base.image}
  {
  }

  /** What is left by a run that stopped after `n` writes. */
  function Left(f: Files, base: Release, candidate: Release, n: nat, restored: bool): Files {
    var files := Tried(f, base, candidate, n);
    if restored then SetActive(files, Current(f, base)) else files
  }

  lemma LeftIsExact(f: Files, base: Release, candidate: Release, n: nat, restored: bool)
    requires WellFormed(f, base) && Admitted(f, base, candidate)
    ensures var left := Left(f, base, candidate, n, restored);
      && (Agrees(f, base) ==>
            (Agrees(left, base) <==> (if restored then n <= 2 else n == 0 || n >= 3)
                                     || Named(candidate) == Named(Current(f, base))))
      && (Guarded(f, base) ==> (Guarded(left, base) <==> n != 3))
      && Stored(left) == (if n >= 4 then candidate.sequence else Stored(f))
  {
    PuttingBackAgrees(f, base, candidate, n);
    if Guarded(f, base) { GuardedUnlessBetween(f, base, candidate, n, Current(f, base)); }
    if Agrees(f, base) { LeavingAgrees(f, base, candidate, n); }
  }

  // ---- other slots --------------------------------------------------------------------------

  /** `active.env` names `current.json`, or neither exists. */
  predicate Settled(f: Files) {
    f.active == if f.current.Some? then Some(Named(f.current.value)) else None
  }

  function Shipping(sequence: nat, image: ImageId): Release {
    Release(sequence, "", "", image, true)
  }

  /** The files agree whichever slot boots, exactly when they are settled. */
  lemma AgreeingOnEverySlot(f: Files)
    requires f.current.Some? ==> !f.current.value.shipped
    ensures (forall base: Release | base.shipped :: Agrees(f, base)) <==> Settled(f)
  {
    if !Settled(f) {
      var sequence := if f.active.Some? then f.active.value.sequence else f.current.value.sequence;
      var other := if f.active.Some? then f.active.value.image else f.current.value.image;
      var base := if f.active.Some? && f.current.Some? then Shipping(0, "") else Shipping(sequence, other + "x");
      assert (other + "x")[..|other|] == other && |other + "x"| != |other|;
      assert !Agrees(f, base);
    }
  }

  /** What a file says for this slot: a release at least as new as its baseline, or nothing. */
  function Reaching(a: Option<Active>, slot: Release): Option<Active> {
    if a.Some? && a.value.sequence >= slot.sequence then a else None
  }

  function CurrentName(f: Files): Option<Active> {
    if f.current.Some? then Some(Named(f.current.value)) else None
  }

  /** On one slot the files agree exactly when, of the releases at least as new as its baseline,
      `active.env` and `current.json` name the same, or only one names any and that one is the
      baseline itself. */
  predicate FitsSlot(f: Files, slot: Release) {
    var a, c := Reaching(f.active, slot), Reaching(CurrentName(f), slot);
    a == c || (a == None && c == Some(Named(slot))) || (c == None && a == Some(Named(slot)))
  }

  lemma AgreeingOnOneSlot(f: Files, slot: Release)
    requires WellFormed(f, slot)
    ensures Agrees(f, slot) <==> FitsSlot(f, slot)
  {
  }

  /** An update of the OS to a newer baseline keeps agreement. */
  lemma NewerBaselineAgrees(f: Files, base: Release, newer: Release)
    requires WellFormed(f, base) && newer.shipped && newer.sequence > base.sequence && Agrees(f, base)
    ensures Agrees(f, newer)
  {
  }

  // ---- promotion of the bundled application --------------------------------------------------

  /** `promote_app` has nothing to do. */
  predicate Bundled(f: Files, base: Release) {
    || base.image == "" || base.sequence == 0
    || (f.current.Some? && f.current.value.channel == base.channel && f.current.value.sequence >= base.sequence)
  }

  function Larger(a: nat, b: nat): nat { if a > b then a else b }

  /** The files after the first `n` writes of `promote_app`. */
  function Promoted(f: Files, base: Release, n: nat): Files {
    if Bundled(f, base) then f
    else Files(if n >= 2 then Some(base.(shipped := false)) else f.current,
               if n >= 1 && f.current.Some? && f.current.value.channel == base.channel then f.current else f.previous,
               if n >= 3 then Some(Larger(Stored(f), base.sequence)) else f.floor,
               if n >= 4 then Some(Named(base)) else f.active)
  }

  /** Those files, one by one. */
  lemma PromotedIs(f: Files, base: Release, n: nat)
    ensures var g := Promoted(f, base, n);
            if base.image == "" || base.sequence == 0
               || (f.current.Some? && f.current.value.channel == base.channel
                   && f.current.value.sequence >= base.sequence)
            then g == f
            else
              && g.previous == (if n >= 1 && f.current.Some? && f.current.value.channel == base.channel
                                then f.current else f.previous)
              && g.current == (if n >= 2 then Some(base.(shipped := false)) else f.current)
              && g.floor == (if n < 3 then f.floor
                             else if f.floor.Some? && f.floor.value > base.sequence then f.floor
                             else Some(base.sequence))
              && g.active == (if n >= 4 then Some(Active(base.image, base.sequence)) else f.active)
  {
  }

  /** A finished promotion agrees on every slot, and the floor covers it. */
  lemma PromotionSettles(f: Files, base: Release)
    requires WellFormed(f, base) && !Bundled(f, base)
    ensures var after := Promoted(f, base, 4);
            Settled(after) && Stored(after) >= Stored(f) && Stored(after) >= base.sequence && Bundled(after, base)
  {
  }

  /** Stopped after `n` writes, bundling disturbs an agreement exactly when `current.json` was
      written and `active.env` was not, and what `active.env` names runs on this slot and is not
      the bundled release. In the usual case, an older promoted release, it never does. */
  lemma BundlingStopAgrees(f: Files, base: Release, n: nat)
    requires WellFormed(f, base) && !Bundled(f, base) && Agrees(f, base)
    ensures Agrees(Promoted(f, base, n), base) <==>
            n <= 1 || n >= 4 || f.active.None? || f.active.value.sequence < base.sequence
            || f.active.value == Named(base)
  {
  }

  /** Stopped after `n` writes and called again: the same as one call exactly when it had not
      yet written `current.json`, or the writes it then skips would have changed nothing. */
  lemma RetriedPromotion(f: Files, base: Release, n: nat)
    requires WellFormed(f, base) && !Bundled(f, base)
    ensures Promoted(Promoted(f, base, n), base, 4) == Promoted(f, base, 4)
            <==> n <= 1 || n >= 4
                 || (f.active == Some(Named(base)) && (n == 2 ==> f.floor == Some(Larger(Stored(f), base.sequence))))
  {
    if n >= 2 { assert Bundled(Promoted(f, base, n), base); }
  }
  // ---- the updater ------------------------------------------------------------------------------

  datatype Job = Job(sequence: nat, starting: bool)

  /** `result.json` */
  datatype Ended = Ended(ok: bool, rolledBack: bool, sequence: nat)

  /** What happened so far: the values the floor file took, the sequences a healthy start was
      reported for, the baselines whose OS was confirmed, the automatic updates that began. */
  datatype Ledger = Ledger(start: nat, raises: seq<nat>, healthy: set<nat>, bundled: set<nat>, automatic: seq<nat>)

  function Last(s: seq<nat>, otherwise: nat): nat { if s == [] then otherwise else s[|s| - 1] }

  /** Never downwards, from `start` on. */
  ghost predicate Ascending(start: nat, raises: seq<nat>) {
    && (forall i :: 0 <= i < |raises| ==> start <= raises[i])
    && (forall i, j :: 0 <= i < j < |raises| ==> raises[i] <= raises[j])
  }

  ghost predicate Increasing(s: seq<nat>) {
    forall i, j :: 0 <= i < j < |s| ==> s[i] < s[j]
  }

  /** The floor only rose, each time to a healthy candidate or a confirmed baseline, and no
      automatic update began twice. */
  ghost predicate Earned(l: Ledger, stored: nat, attempted: Option<nat>) {
    && Ascending(l.start, l.raises) && stored == Last(l.raises, l.start)
    && (forall r :: r in l.raises ==> r in l.healthy + l.bundled || r == l.start)
    && Increasing(l.automatic)
    && (l.automatic != [] ==> attempted.Some? && attempted.value >= Last(l.automatic, 0))
  }

  predicate Extends(a: Ledger, b: Ledger) {
    && a.start == b.start && a.raises <= b.raises && a.healthy <= b.healthy && a.bundled <= b.bundled
    && a.automatic <= b.automatic
  }

  lemma RaiseIsEarned(l: Ledger, stored: nat, attempted: Option<nat>, r: nat)
    requires Earned(l, stored, attempted) && r >= stored && (r in l.healthy + l.bundled || r == l.start)
    ensures Earned(l.(raises := l.raises + [r]), r, attempted)
  {
    var raises := l.raises + [r];
    assert raises[|raises| - 1] == r;
    assert forall i :: 0 <= i < |l.raises| ==> raises[i] == l.raises[i] <= stored;
    assert forall x :: x in raises ==> x in l.raises || x == r;
  }

  lemma HealthIsEarned(l: Ledger, stored: nat, attempted: Option<nat>, healthy: set<nat>, bundled: set<nat>)
    requires Earned(l, stored, attempted)
    ensures Earned(l.(healthy := l.healthy + healthy, bundled := l.bundled + bundled), stored, attempted)
  {
  }

  lemma AttemptIsEarned(l: Ledger, stored: nat, attempted: Option<nat>, sequence: nat)
    requires Earned(l, stored, attempted) && (attempted.Some? ==> attempted.value < sequence)
    ensures Earned(l, stored, Some(sequence))
    ensures Earned(l.(automatic := l.automatic + [sequence]), stored, Some(sequence))
  {
    var all := l.automatic + [sequence];
    forall i, j | 0 <= i < j < |all| ensures all[i] < all[j] {
      if j < |l.automatic| {
        assert all[i] == l.automatic[i] && all[j] == l.automatic[j];
      } else {
        assert all[i] == l.automatic[i];
        assert i < |l.automatic| - 1 ==> l.automatic[i] < l.automatic[|l.automatic| - 1];
      }
    }
  }

  /** Every step may be cut or fail, unless the updater is steady: then each does what it is
      asked, and a start reports what it is told to. */
  class Updater {
    const steady: bool
    var base: Release
    var current: Option<Release>
    var previous: Option<Release>
    var floor: Option<nat>
    var active: Option<Active>
    var job: Option<Job>
    var result: Option<Ended>
    var attempted: Option<nat>
    var images: set<ImageId>
    var runs: Option<ImageId>     // what the container is known to run, healthy
    var running: bool
    ghost var log: Ledger

    constructor (base: Release, steady: bool)
      requires base.shipped
      ensures Valid() && Agrees(Kept(), base) && job == None && !running && this.base == base && this.steady == steady
    {
      this.steady := steady;
      this.base, current, previous, floor, active := base, None, None, None, None;
      job, result, attempted, images, runs, running := None, None, None, {base.image}, None, false;
      log := Ledger(0, [], {}, {}, []);
    }

    function Kept(): Files
      reads this
    {
      Files(current, previous, floor, active)
    }

    ghost function Now(): Stand
      reads this
    {
      Stand(Kept(), base, job.Some?)
    }

    ghost predicate Valid()
      reads this
    {
      && WellFormed(Kept(), base)
      && base.image in images
      && (current.Some? ==> current.value.image in images)
      && (active.Some? ==> active.value.image in images)
      && Earned(log, Stored(Kept()), attempted)
    }

    /** `systemctl restart`: returns once the container is healthy, or its start failed. */
    method Restart(healthy: bool) returns (s: Status, ok: bool)
      modifies this`runs
      ensures s.Done? && ok ==> runs == Some(Starts(Kept(), base, images))
      ensures steady ==> s.Done? && ok == healthy
    {
      s, ok, runs := *, *, None;
      if steady { s, ok := Done, healthy; }
      if s.Done? && ok {
        runs := Some(Starts(Kept(), base, images));
      }
    }

    method WriteFloor(value: nat) returns (s: Status, took: bool)
      requires Valid() && value >= Stored(Kept())
      requires value in log.healthy + log.bundled || value == log.start
      modifies this`floor, this`log
      ensures Valid() && (s.Done? ==> took)
      ensures floor == (if took then Some(value) else old(floor))
      ensures log == if took then old(log).(raises := old(log).raises + [value]) else old(log)
      ensures steady ==> s.Done?
    {
      RaiseIsEarned(log, Stored(Kept()), attempted, value);
      hide Earned;
      s, took := Attempt(steady);
      if took {
        floor := Some(value);
        log := log.(raises := log.raises + [value]);
      }
    }

    /** The writes of a promotion, after the candidate was reported healthy. */
    method Promote(candidate: Release, before: Release) returns (s: Status, ghost n: nat)
      requires Valid() && !candidate.shipped && candidate.image in images && before.image in images
      requires before == Current(Kept(), base) && candidate.sequence >= Stored(Kept())
               && candidate.sequence in log.healthy
      requires active == Some(Named(candidate)) && job.Some?
      modifies this`current, this`previous, this`floor, this`result, this`images, this`log
      ensures Valid() && 1 <= n <= 4 && Kept() == Tried(old(Kept()), base, candidate, n)
      // file by file: what ran before, then the candidate, then its sequence
      ensures previous == if n >= 2 && before != base then Some(before) else old(previous)
      ensures current == if n >= 3 then Some(candidate) else old(current)
      ensures floor == if n >= 4 then Some(candidate.sequence) else old(floor)
      ensures active == Some(Active(candidate.image, candidate.sequence))
      ensures base.image in images && old(images) - images <= {if old(previous).Some? then old(previous).value.image
                                                               else base.image}
      ensures steady ==> s.Done?
      ensures s.Done? ==> n == 4 && result == Some(Ended(true, false, candidate.sequence))
      ensures result == old(result) || (n == 4 && result == Some(Ended(true, false, candidate.sequence)))
      ensures log == old(log) || log == old(log).(raises := old(log).raises + [candidate.sequence])
      ensures candidate.image in images && before.image in images
    {
      hide Earned, Starts, Floor, Agrees, Guarded;
      n := 1;
      var oldPrevious := previous;
      var took;
      if !before.shipped {
        s, took := Attempt(steady);
        if took { previous := Some(before); n := 2; }
        if s.IsFailure() { return; }
      }
      n := 2;
      s, took := Attempt(steady);
      if took { current := Some(candidate); n := 3; }
      if s.IsFailure() { return; }
      s, took := Attempt(steady);
      if took {
        floor := Some(candidate.sequence);
        RaiseIsEarned(log, Stored(old(Kept())), attempted, candidate.sequence);
        log := log.(raises := log.raises + [candidate.sequence]);
        n := 4;
      }
      if s.IsFailure() { return; }
      s, took := Attempt(steady);
      if took { result := Some(Ended(true, false, candidate.sequence)); }
      if s.IsFailure() { return; }
      if oldPrevious.Some? && oldPrevious.value.image !in {candidate.image, before.image, base.image} {
        s, took := Attempt(steady);
        if took { images := images - {oldPrevious.value.image}; }
      }
    }

    /** The body of `_run` up to its handler. */
    method Try(candidate: Release, before: Release, healthy: bool) returns (s: Status, started: bool, ghost n: nat)
      requires Valid() && Admitted(Kept(), base, candidate) && before == Current(Kept(), base) && job.Some?
      modifies this`current, this`previous, this`floor, this`active, this`job, this`result, this`images, this`runs,
               this`log
      ensures Valid() && n <= 4 && Kept() == Tried(old(Kept()), base, candidate, n)
      ensures s.Done? ==> n == 4 && result == Some(Ended(true, false, candidate.sequence))
      ensures previous == if n >= 2 && before != base then Some(before) else old(previous)
      ensures current == if n >= 3 then Some(candidate) else old(current)
      ensures floor == if n >= 4 then Some(candidate.sequence) else old(floor)
      ensures active == if n >= 1 then Some(Active(candidate.image, candidate.sequence)) else old(active)
      ensures steady ==> started && (if healthy then s.Done? else s.Threw? && n == 1)
      ensures result == old(result) || (n == 4 && result == Some(Ended(true, false, candidate.sequence)))
      ensures before.image in images && job.Some?
      ensures !started ==> n <= 1 && runs == old(runs)
      ensures n >= 2 ==> runs == Some(if candidate.sequence < SEQUENCE_LIMIT then candidate.image else base.image)
      ensures Extends(old(log), log) && log.automatic == old(log).automatic && log.bundled == old(log).bundled
      ensures n >= 2 ==> candidate.sequence in log.healthy
      ensures log.healthy <= old(log).healthy + {candidate.sequence}
    {
      hide Earned, Agrees, Guarded, Starts;
      s, started, n := Launch(candidate, healthy);
      if s.IsFailure() { return; }
      s, n := Promote(candidate, before);
    }

    /** Pulls the candidate, selects it and starts it; done once it reports healthy. */
    method Launch(candidate: Release, healthy: bool) returns (s: Status, started: bool, ghost n: nat)
      requires Valid() && !candidate.shipped && candidate.sequence >= base.sequence && job.Some?
      modifies this`active, this`job, this`images, this`runs, this`log
      ensures Valid() && n <= 1 && active == (if n == 1 then Some(Named(candidate)) else old(active))
      ensures old(images) <= images && job.Some?
      ensures !started ==> runs == old(runs)
      ensures log == old(log) || log == old(log).(healthy := old(log).healthy + {candidate.sequence})
      ensures s.Done? ==> started && n == 1 && candidate.image in images && candidate.sequence in log.healthy
      ensures steady ==> started && n == 1 && (if healthy then s.Done? else s.Threw?)
      ensures s.Done? ==> runs == Some(if candidate.sequence < SEQUENCE_LIMIT then candidate.image else base.image)
    {
      hide Earned, Agrees, Guarded, Floor, Tried;
      started, n := false, 0;
      var took;
      s, took := Attempt(steady);                     // podman pull, then its inspection
      if took { images := images + {candidate.image}; }
      if s.IsFailure() { return; }
      s, took := Attempt(steady);
      if took { job := Some(Job(candidate.sequence, true)); }
      if s.IsFailure() { return; }
      s, took := Attempt(steady);
      if took { active := Some(Named(candidate)); n := 1; }
      if s.IsFailure() { return; }
      started := true;
      var ok;
      s, ok := Restart(healthy);
      if s.IsFailure() { return; }
      if !ok { return Threw, true, n; }
      HealthIsEarned(log, Stored(Kept()), attempted, {candidate.sequence}, {});
      assert log.bundled + {} == log.bundled;
      log := log.(healthy := log.healthy + {candidate.sequence});
    }

    /** The handler: any failure ends in the image that ran before. */
    method PutBack(candidate: Release, before: Release, started: bool, again: bool)
      returns (s: Status, ghost restored: bool)
      requires Valid() && job.Some? && before.image in images
      modifies this`active, this`runs, this`result
      ensures Valid() && s != Threw
      ensures Kept() == (if restored then SetActive(old(Kept()), before) else old(Kept()))
      ensures result == old(result) || (result.Some? && !result.value.ok && result.value.sequence == candidate.sequence)
      ensures result != old(result) && result.value.rolledBack ==>
                restored && runs == (if started then Some(Starts(Kept(), base, images)) else old(runs))
      ensures restored ==> active == if before.shipped then None else Some(Active(before.image, before.sequence))
      ensures steady ==> s.Done? && restored && result == Some(Ended(false, !started || again, candidate.sequence))
    {
      hide Earned;
      var rolledBack, took := false, false;
      s, took := Attempt(steady);
      if took { active := if before.shipped then None else Some(Named(before)); }
      restored := took;
      if s.Stopped? { return; }
      if s.Done? {
        if started {
          s, rolledBack := Restart(again);
          if s.Stopped? { return; }
          if s.Threw? { rolledBack := false; }
        } else {
          rolledBack := true;
        }
      }
      s, took := Attempt(steady);
      if took { result := Some(Ended(false, rolledBack, candidate.sequence)); }
      if s.Threw? { s := Done; }               // the finally block runs either way
    }

    /** `_run` without its last part: the attempt, and the handler if it raised. */
    method Handled(candidate: Release, before: Release, healthy: bool, again: bool)
      returns (s: Status, ghost n: nat, ghost raised: bool, ghost restored: bool)
      requires Valid() && Admitted(Kept(), base, candidate) && before == Current(Kept(), base) && job.Some?
      modifies this`current, this`previous, this`floor, this`active, this`job, this`result, this`images, this`runs,
               this`log
      ensures Valid() && job.Some? && n <= 4 && s != Threw
      ensures Kept() == Left(old(Kept()), base, candidate, n, restored)
      ensures !s.Stopped? && !raised ==> n == 4 && result == Some(Ended(true, false, candidate.sequence))
      ensures !raised ==> !restored
      ensures n >= 2 && !raised ==>
                runs == Some(if candidate.sequence < SEQUENCE_LIMIT then candidate.image else base.image)
      ensures raised && result != old(result) && result.Some? && result.value.ok ==> n == 4
      ensures raised && result != old(result) && result.Some? && result.value.rolledBack ==>
                restored && (runs == old(runs) || runs == Some(Starts(Kept(), base, images)))
      ensures previous == if n >= 2 && before != base then Some(before) else old(previous)
      ensures current == if n >= 3 then Some(candidate) else old(current)
      ensures floor == if n >= 4 then Some(candidate.sequence) else old(floor)
      ensures active == if restored then if before == base then None else Some(Active(before.image, before.sequence))
                        else if n >= 1 then Some(Active(candidate.image, candidate.sequence)) else old(active)
      ensures steady ==> s.Done? && (raised <==> !healthy) && (restored <==> !healthy) && n == if healthy then 4 else 1
      ensures steady ==> result == Some(Ended(healthy, !healthy && again, candidate.sequence))
      ensures n >= 2 ==> candidate.sequence in log.healthy
      ensures Extends(old(log), log) && log.healthy <= old(log).healthy + {candidate.sequence}
      ensures log.automatic == old(log).automatic && log.bundled == old(log).bundled
    {
      CurrentIs(Kept(), base);
      hide Earned, Tried, SetActive, Agrees, Guarded, Starts, Stored, Admitted, Current;
      var started;
      raised, restored := false, false;
      s, started, n := Try(candidate, before, healthy);
      if s.Threw? {
        raised := true;
        s, restored := PutBack(candidate, before, started, again);
      }
    }

    /** `_run`: `n` writes were made; `raised` says the handler ran, `restored` that it put
        the old selection back. `healthy` and `again` are what the starts of the candidate and of
        what ran before report, on a steady updater. */
    method Run(candidate: Release, healthy: bool, again: bool)
      returns (s: Status, ghost n: nat, ghost raised: bool, ghost restored: bool)
      requires Valid() && Admitted(Kept(), base, candidate) && job.Some? && running
      modifies this`current, this`previous, this`floor, this`active, this`job, this`result, this`images, this`runs,
               this`log, this`running
      ensures Valid() && n <= 4
      ensures Kept() == Left(old(Kept()), base, candidate, n, restored)
      ensures s.Done? ==> job.None? && !running
      ensures job.None? && !raised ==> n == 4 && !restored
      ensures !s.Stopped? && !raised ==> n == 4 && !restored && result == Some(Ended(true, false, candidate.sequence))
      ensures n >= 2 && !raised ==>
                runs == Some(if candidate.sequence < SEQUENCE_LIMIT then candidate.image else base.image)
      ensures raised && result != old(result) && result.Some? && result.value.ok ==> n == 4
      ensures raised && result != old(result) && result.Some? && result.value.rolledBack ==>
                restored && (runs == old(runs) || runs == Some(Starts(Kept(), base, images)))
      // file by file
      ensures var before := old(Current(Kept(), base));
              && previous == (if n >= 2 && before != base then Some(before) else old(previous))
              && current == (if n >= 3 then Some(candidate) else old(current))
              && floor == (if n >= 4 then Some(candidate.sequence) else old(floor))
              && active == (if restored then
                              if before == base then None else Some(Active(before.image, before.sequence))
                            else if n >= 1 then Some(Active(candidate.image, candidate.sequence)) else old(active))
      ensures steady ==> s.Done? && (raised <==> !healthy) && (restored <==> !healthy) && n == if healthy then 4 else 1
      ensures steady ==> result == Some(Ended(healthy, !healthy && again, candidate.sequence))
      // the agreement, the guard and the floor, exactly
      ensures old(Agrees(Kept(), base)) ==>
                (Agrees(Kept(), base) <==> (if restored then n <= 2 else n == 0 || n >= 3)
                                           || Named(candidate) == old(Named(Current(Kept(), base))))
      ensures old(Guarded(Kept(), base)) ==> (Guarded(Kept(), base) <==> n != 3)
      ensures Stored(Kept()) == if n == 4 then candidate.sequence else old(Stored(Kept()))
      ensures n >= 2 ==> candidate.sequence in log.healthy
      ensures Extends(old(log), log) && log.healthy <= old(log).healthy + {candidate.sequence}
      ensures log.automatic == old(log).automatic && log.bundled == old(log).bundled
    {
      hide Earned, Left, Agrees, Guarded, Starts, Stored, Admitted, Current, Extends, Tried, SetActive, WellFormed;
      ghost var files := Kept();
      var before, took := Current(Kept(), base), false;
      s, n, raised, restored := Handled(candidate, before, healthy, again);
      LeftIsExact(files, base, candidate, n, restored);
      if s.Stopped? { return; }
      s, took := Attempt(steady);
      if took { job := None; }
      if s.Stopped? { return; }
      running := false;
    }

    /** `recover`, when hostd starts. */
    method Recover() returns (s: Status)
      requires Valid() && !running
      modifies this
      ensures Valid() && base == old(base) && log == old(log) && attempted == old(attempted) && !running
      ensures Kept() == old(Kept()) || Kept() == SetActive(old(Kept()), old(Current(Kept(), base)))
      ensures s.Done? ==> job.None?
      ensures old(job).None? ==> Kept() == old(Kept()) && result == old(result)
      ensures old(job).Some? && job.None? ==>
                Agrees(Kept(), base) && result == Some(Ended(false, true, old(job).value.sequence))
      ensures job == old(job) || job.None?
      ensures Agrees(old(Kept()), base) ==> Agrees(Kept(), base)
      ensures current == old(current) && previous == old(previous) && floor == old(floor)
      ensures steady ==> s.Done?
    {
      hide Earned;
      s := Done;
      if job.None? { return; }
      var took, cur := false, Current(Kept(), base);
      RecoveryAgrees(Kept(), base);
      s, took := Attempt(steady);
      if took { active := if cur.shipped then None else Some(Named(cur)); }
      if s.IsFailure() { return; }
      s, took := Attempt(steady);
      if took { result := Some(Ended(false, true, job.value.sequence)); }
      if s.IsFailure() { return; }
      s, took := Attempt(steady);
      if took { job := None; }
    }

    /** `apply`: `began` is true once its thread was started. `automatic` is the release an
        automatic update was decided for, `allowed` the lease and the compatibility check. */
    method Apply(candidate: Option<Release>, automatic: Option<(nat, string)>, allowed: bool)
      returns (s: Status, began: bool)
      requires Valid() && (candidate.Some? ==> !candidate.value.shipped)
      modifies this
      ensures Valid() && base == old(base) && Kept() == old(Kept()) && result == old(result) && runs == old(runs)
      ensures began ==> s.Done? && candidate.Some? && Admitted(Kept(), base, candidate.value) && job.Some? && running
      ensures began ==> old(job).None? && !old(running)
      ensures began ==> var c := candidate.value;
                c.sequence > base.sequence && (old(floor).Some? ==> c.sequence > old(floor).value)
                && c.digest != (if old(current).Some? && old(current).value.sequence >= base.sequence
                                then old(current).value.digest else base.digest)
      ensures began && automatic.Some? ==>
                automatic.value.0 == candidate.value.sequence && automatic.value.1 == candidate.value.digest
      // an update that is not begun has a reason, unless a step failed
      ensures steady && allowed && !began ==>
                || old(running) || old(job).Some? || candidate.None?
                || (automatic.Some? && automatic.value != (candidate.value.sequence, candidate.value.digest))
                || (automatic.Some? && old(attempted).Some? && old(attempted).value >= candidate.value.sequence)
                || (automatic.Some? && candidate.value.sequence == 0)
                || !Admitted(old(Kept()), base, candidate.value)
      ensures began && automatic.Some? ==>
                log == old(log).(automatic := old(log).automatic + [candidate.value.sequence])
      ensures !(began && automatic.Some?) ==> log == old(log)
      ensures began && automatic.Some? ==> old(attempted).None? || old(attempted).value < candidate.value.sequence
      ensures !began && !s.Stopped? ==> running == old(running)
      ensures old(job).Some? ==> job == old(job)
    {
      s, began := Decide(candidate, automatic);
      if !began { return; }
      began := false;
      s := Threw;
      if !allowed { return; }
      s, began := Begin(candidate.value, automatic.Some?);
    }

    /** Whether there is anything to apply: `already-attempted` and `current` are answers, not
        errors. */
    method Decide(candidate: Option<Release>, automatic: Option<(nat, string)>) returns (s: Status, go: bool)
      requires Valid() && (candidate.Some? ==> !candidate.value.shipped)
      ensures go ==> candidate.Some? && Admitted(Kept(), base, candidate.value) && job.None? && !running
      ensures go ==> var c := candidate.value;
                && c.sequence > base.sequence && (floor.Some? ==> c.sequence > floor.value)
                && c.digest != (if current.Some? && current.value.sequence >= base.sequence then current.value.digest
                                else base.digest)
                && (automatic.Some? ==> automatic.value == (c.sequence, c.digest)
                                        && (attempted.Some? ==> attempted.value < c.sequence))
      ensures !go ==>
                || running || job.Some? || candidate.None?
                || (automatic.Some? && automatic.value != (candidate.value.sequence, candidate.value.digest))
                || (automatic.Some? && attempted.Some? && attempted.value >= candidate.value.sequence)
                || (automatic.Some? && candidate.value.sequence == 0)
                || !Admitted(Kept(), base, candidate.value)
    {
      if candidate.Some? { AdmittedMeans(Kept(), base, candidate.value); }
      hide Earned, Tried, Agrees;
      s, go := Threw, false;
      if running || job.Some? || candidate.None? { return; }
      var c := candidate.value;
      if automatic.Some? {
        if automatic.value != (c.sequence, c.digest) { return; }
        if (if attempted.Some? then attempted.value else 0) >= c.sequence { return Done, false; }
      }
      if c.sequence <= Floor(Kept(), base) || c.digest == Current(Kept(), base).digest { return Done, false; }
      go := true;
    }

    /** The attempt, the job file and the thread. */
    method Begin(c: Release, automatic: bool) returns (s: Status, began: bool)
      requires Valid() && job.None? && !running
      requires automatic && attempted.Some? ==> attempted.value < c.sequence
      modifies this`attempted, this`job, this`log, this`running
      ensures Valid() && (began ==> s.Done? && job.Some? && running)
      ensures log == if began && automatic then old(log).(automatic := old(log).automatic + [c.sequence]) else old(log)
      ensures !began && !s.Stopped? ==> running == old(running)
      ensures steady ==> began
    {
      if automatic { AttemptIsEarned(log, Stored(Kept()), attempted, c.sequence); }
      hide Earned, Floor, Current, Stored, Agrees;
      s, began := Threw, false;
      var took;
      if automatic {
        s, took := Attempt(steady);
        if took { attempted := Some(c.sequence); }
        if s.IsFailure() {
          if s.Threw? { s := GiveUp(); }
          return;
        }
      }
      s, took := Attempt(steady);
      if took { job := Some(Job(c.sequence, false)); }
      if s.IsFailure() {
        if s.Threw? { s := GiveUp(); }
        return;
      }
      var threaded: bool := *;
      if !threaded && !steady {
        s := GiveUp();
        return;
      }
      if automatic { log := log.(automatic := log.automatic + [c.sequence]); }
      running, began := true, true;
    }

    /** The unwinding of `apply`. */
    method GiveUp() returns (s: Status)
      requires Valid()
      modifies this`running, this`job
      ensures Valid() && !s.Done? && !running && (job == old(job) || job.None?)
    {
      running := false;
      var took;
      s, took := Attempt(steady);
      if took { job := None; }
      if s.Done? { s := Threw; }
    }

    /** The floor's own value may be written again. */
    lemma StoredIsEarned(l: Ledger, stored: nat, attempted: Option<nat>)
      requires Earned(l, stored, attempted)
      ensures stored in l.healthy + l.bundled || stored == l.start
    {
    }

    /** The OS of this slot is confirmed: what allows its application to be promoted. */
    ghost method Confirmed()
      requires Valid()
      modifies this`log
      ensures Valid() && log == old(log).(bundled := old(log).bundled + {base.sequence})
    {
      HealthIsEarned(log, Stored(Kept()), attempted, {}, {base.sequence});
      log := log.(healthy := log.healthy + {}, bundled := log.bundled + {base.sequence});
    }

    /** `promote_app`, after the OS was confirmed; it stops after `n` writes. */
    method BundleApp() returns (s: Status, ghost n: nat)
      requires Valid() && base.sequence in log.bundled
      modifies this`current, this`previous, this`floor, this`active, this`log
      ensures Valid() && n <= 4 && Kept() == Promoted(old(Kept()), base, n)
      ensures s.Done? && !old(Bundled(Kept(), base)) ==> n == 4
      ensures n == 4 ==> Settled(Kept())
      // file by file, unless there was nothing to do
      ensures if base.image == "" || base.sequence == 0
                 || (old(current).Some? && old(current).value.channel == base.channel
                     && old(current).value.sequence >= base.sequence)
              then n == 0 && Kept() == old(Kept())
              else
                && previous == (if n >= 1 && old(current).Some? && old(current).value.channel == base.channel
                                then old(current) else old(previous))
                && current == (if n >= 2 then Some(base.(shipped := false)) else old(current))
                && floor == (if n < 3 then old(floor)
                             else if old(floor).Some? && old(floor).value > base.sequence then old(floor)
                             else Some(base.sequence))
                && active == (if n >= 4 then Some(Active(base.image, base.sequence)) else old(active))
      ensures steady ==> s.Done?
      ensures Extends(old(log), log) && Stored(Kept()) >= old(Stored(Kept()))
    {
      ghost var before := Kept();
      s, n := WriteBundled();
      hide Valid, Earned, Extends;
      PromotedIs(before, base, n);
    }

    /** The writes of `promote_app`. */
    method WriteBundled() returns (s: Status, ghost n: nat)
      requires Valid() && base.sequence in log.bundled
      modifies this`current, this`previous, this`floor, this`active, this`log
      ensures Valid() && n <= 4 && Kept() == Promoted(old(Kept()), base, n)
      ensures if old(Bundled(Kept(), base)) then n == 0 else s.Done? ==> n == 4
      ensures n == 4 ==> Settled(Kept())
      ensures steady ==> s.Done?
      ensures Extends(old(log), log) && Stored(Kept()) >= old(Stored(Kept()))
    {
      hide Earned, Floor, Current, Tried, Agrees, Starts;
      n, s := 0, Done;
      if base.image == "" || base.sequence == 0 { return; }
      var same := current.Some? && current.value.channel == base.channel;
      if same && current.value.sequence >= base.sequence { return; }
      var took;
      if same {
        s, took := Attempt(steady);
        if took { previous := current; n := 1; }
        if s.IsFailure() { return; }
      }
      n := 1;
      s, took := Attempt(steady);
      if took { current := Some(base.(shipped := false)); n := 2; }
      if s.IsFailure() { return; }
      var stored := if floor.Some? then floor.value else 0;
      StoredIsEarned(log, stored, attempted);
      s, took := WriteFloor(Larger(stored, base.sequence));
      if took { n := 3; }
      if s.IsFailure() { return; }
      s, took := Attempt(steady);
      if took { active := Some(Named(base)); n := 4; }
    }

    /** hostd starts: after a cut, a restart, or a boot of either slot. */
    method Start(slot: Release) returns (s: Status)
      requires Valid() && slot.shipped
      modifies this
      ensures Valid() && base == slot && log == old(log) && !running && attempted == old(attempted)
      ensures Kept() == old(Kept()) || Kept() == SetActive(old(Kept()), Current(old(Kept()), base))
      ensures s.Done? ==> job.None?
      ensures old(job).Some? && job.None? ==> Agrees(Kept(), base)
      ensures old(job).None? ==> Kept() == old(Kept()) && job.None?
    {
      hide Earned;
      base, running, runs := slot, false, None;
      images := images + {slot.image};
      s := Recover();
    }
  }

  // ---- whole runs ------------------------------------------------------------------------------

  datatype Event =
    | Update(candidate: Option<Release>, automatic: Option<(nat, string)>)
    | Confirm               // the OS of this slot is confirmed and bundles its application
    | PowerUp(slot: Release)

  predicate Possible(e: Event) {
    match e
    case Update(candidate, _) => candidate.Some? ==> !candidate.value.shipped
    case Confirm => true
    case PowerUp(slot) => slot.shipped
  }

  /** What a run is judged by: the files, the baseline, and whether a job file is left. */
  datatype Stand = Stand(files: Files, base: Release, busy: bool)

  /** What an event did: how many of its writes took, and whether the handler restored. */
  datatype Outcome = Nothing | Ran(writes: nat, restored: bool) | Wrote(writes: nat) | Started

  /** The outcome accounts for the files after an event. */
  predicate Explains(a: Stand, e: Event, o: Outcome, b: Stand) {
    match e
    case Update(candidate, _) =>
      && b.base == a.base && (a.busy ==> b == a && o == Nothing)
      && (o == Nothing ==> b.files == a.files)
      && (o != Nothing ==> o.Ran? && o.writes <= 4 && candidate.Some? && Admitted(a.files, a.base, candidate.value)
                           && b.files == Left(a.files, a.base, candidate.value, o.writes, o.restored))
    case Confirm =>
      b.base == a.base && b.busy == a.busy && o.Wrote? && b.files == Promoted(a.files, a.base, o.writes)
    case PowerUp(slot) =>
      && b.base == slot && o == Started && (!a.busy ==> !b.busy && b.files == a.files)
      && (b.files == a.files || b.files == SetActive(a.files, Current(a.files, slot)))
  }

  /** The events that break an agreement: an update that ended by restoring after `current.json`
      or by not restoring before it, a bundling that stopped between `current.json` and
      `active.env` while another release runs, and a boot of a slot the files do not fit. */
  predicate Faulty(a: Stand, e: Event, o: Outcome) {
    match o
    case Nothing => false
    case Ran(n, restored) =>
      && (if restored then n > 2 else 1 <= n <= 2)
      && e.Update? && e.candidate.Some? && Named(e.candidate.value) != Named(Current(a.files, a.base))
    case Wrote(n) =>
      && 2 <= n < 4 && !Bundled(a.files, a.base)
      && a.files.active.Some? && a.files.active.value.sequence >= a.base.sequence
      && a.files.active.value != Named(a.base)
    case Started => e.PowerUp? && !FitsSlot(a.files, e.slot)
  }

  /** Exactly: an agreeing stand stays one unless the event is faulty, and a recovered job
      always ends in one. */
  ghost predicate Keeps(a: Stand, e: Event, o: Outcome, b: Stand) {
    && (!a.busy && !b.busy && Agrees(a.files, a.base) ==> (Agrees(b.files, b.base) <==> !Faulty(a, e, o)))
    && (a.busy && !b.busy ==> Agrees(b.files, b.base))
  }

  /** One event, possibly cut anywhere. */
  method Happen(u: Updater, e: Event) returns (ghost o: Outcome)
    requires u.Valid() && !u.running && Possible(e)
    modifies u
    ensures u.Valid() && !u.running && Extends(old(u.log), u.log)
    ensures Explains(old(u.Now()), e, o, u.Now()) && Keeps(old(u.Now()), e, o, u.Now())
    ensures Stored(u.Kept()) >= old(Stored(u.Kept()))
  {
    hide Earned, Tried, Starts, Guarded, Promoted;
    match e {
      case Update(candidate, automatic) =>
        o := TryUpdate(u, candidate, automatic);
      case Confirm =>
        o := TryConfirm(u);
      case PowerUp(slot) =>
        o := Started;
        AgreeingOnOneSlot(u.Kept(), slot);
        var s := u.Start(slot);
    }
  }

  method TryUpdate(u: Updater, candidate: Option<Release>, automatic: Option<(nat, string)>) returns (ghost o: Outcome)
    requires u.Valid() && !u.running && (candidate.Some? ==> !candidate.value.shipped)
    modifies u
    ensures u.Valid() && !u.running && Extends(old(u.log), u.log)
    ensures var e := Update(candidate, automatic);
            Explains(old(u.Now()), e, o, u.Now()) && Keeps(old(u.Now()), e, o, u.Now())
    ensures Stored(u.Kept()) >= old(Stored(u.Kept()))
  {
    hide Earned, Tried, Starts, Guarded, Left;
    o := Nothing;
    var allowed, healthy, again := *, *, *;
    var s, began := u.Apply(candidate, automatic, allowed);
    if began {
      ghost var n, raised, restored;
      s, n, raised, restored := u.Run(candidate.value, healthy, again);
      o := Ran(n, restored);
    }
    u.running := false;
  }

  method TryConfirm(u: Updater) returns (ghost o: Outcome)
    requires u.Valid() && !u.running
    modifies u
    ensures u.Valid() && !u.running && Extends(old(u.log), u.log)
    ensures Explains(old(u.Now()), Confirm, o, u.Now()) && Keeps(old(u.Now()), Confirm, o, u.Now())
    ensures Stored(u.Kept()) >= old(Stored(u.Kept()))
  {
    hide Earned, Tried, Starts, Guarded;
    u.Confirmed();
    if !Bundled(u.Kept(), u.base) && Agrees(u.Kept(), u.base) {
      forall k: nat ensures Agrees(Promoted(u.Kept(), u.base, k), u.base) <==>
          !Faulty(u.Now(), Confirm, Wrote(k)) { BundlingStopAgrees(u.Kept(), u.base, k); }
    }
    ghost var n;
    var s;
    s, n := u.BundleApp();
    o := Wrote(n);
  }

  /** A run from stand to stand. */
  ghost predicate Lived(stands: seq<Stand>, events: seq<Event>, outcomes: seq<Outcome>) {
    && |stands| == |events| + 1 && |outcomes| == |events|
    && forall i :: 0 <= i < |events| ==>
         Explains(stands[i], events[i], outcomes[i], stands[i + 1])
         && Keeps(stands[i], events[i], outcomes[i], stands[i + 1])
  }

  /** Without a faulty event, the box runs what it reports whenever no job is left. A boot of
      the same or a newer baseline is never one, and neither is a boot with settled files. */
  lemma {:induction false} AgreesThroughout(stands: seq<Stand>, events: seq<Event>, outcomes: seq<Outcome>, j: nat)
    requires Lived(stands, events, outcomes) && j < |stands|
    requires !stands[0].busy && Agrees(stands[0].files, stands[0].base)
    requires forall i :: 0 <= i < j ==> !Faulty(stands[i], events[i], outcomes[i])
    ensures !stands[j].busy ==> Agrees(stands[j].files, stands[j].base)
  {
    hide Agrees, Faulty, Explains;
    if j > 0 {
      AgreesThroughout(stands, events, outcomes, j - 1);
      assert Keeps(stands[j - 1], events[j - 1], outcomes[j - 1], stands[j]);
      assert !Faulty(stands[j - 1], events[j - 1], outcomes[j - 1]);
    }
  }

  lemma HarmlessBoots(a: Stand, slot: Release)
    requires WellFormed(a.files, a.base) && slot.shipped
    requires (Agrees(a.files, a.base) && (slot == a.base || slot.sequence > a.base.sequence)) || Settled(a.files)
    ensures !Faulty(a, PowerUp(slot), Started)
  {
    if Settled(a.files) {
      AgreeingOnEverySlot(a.files);
    } else if slot.sequence > a.base.sequence {
      NewerBaselineAgrees(a.files, a.base, slot);
    }
    AgreeingOnOneSlot(a.files, slot);
  }

  /** And whatever broke it, the next completed recovery repairs it. */
  lemma RecoveryRepairs(stands: seq<Stand>, events: seq<Event>, outcomes: seq<Outcome>, i: nat)
    requires Lived(stands, events, outcomes) && i < |events|
    requires stands[i].busy && !stands[i + 1].busy
    ensures events[i].PowerUp? && Agrees(stands[i + 1].files, stands[i + 1].base)
  {
    assert Explains(stands[i], events[i], outcomes[i], stands[i + 1]);
    assert Keeps(stands[i], events[i], outcomes[i], stands[i + 1]);
  }

  /** Any sequence of events, each possibly cut, is such a run; the floor never drops and only
      rose to what earned it. */
  method Live(u: Updater, events: seq<Event>) returns (ghost stands: seq<Stand>, ghost outcomes: seq<Outcome>)
    requires u.Valid() && !u.running
    requires forall e :: e in events ==> Possible(e)
    modifies u
    ensures u.Valid() && Extends(old(u.log), u.log) && Stored(u.Kept()) >= old(Stored(u.Kept()))
    ensures Lived(stands, events, outcomes) && stands[0] == old(u.Now()) && stands[|events|] == u.Now()
  {
    hide Earned, Agrees, Stored, Explains, Keeps;
    stands, outcomes := [u.Now()], [];
    for i := 0 to |events|
      invariant u.Valid() && !u.running && Extends(old(u.log), u.log) && Stored(u.Kept()) >= old(Stored(u.Kept()))
      invariant Lived(stands, events[..i], outcomes) && stands[0] == old(u.Now()) && stands[i] == u.Now()
    {
      assert events[i] in events;
      ghost var o := Happen(u, events[i]);
      LivedOn(stands, events[..i], outcomes, events[i], o, u.Now());
      assert events[..i] + [events[i]] == events[..i + 1];
      stands, outcomes := stands + [u.Now()], outcomes + [o];
    }
    assert events[..|events|] == events;
  }

  lemma LivedOn(stands: seq<Stand>, events: seq<Event>, outcomes: seq<Outcome>, e: Event, o: Outcome, b: Stand)
    requires Lived(stands, events, outcomes)
    requires Explains(stands[|events|], e, o, b) && Keeps(stands[|events|], e, o, b)
    ensures Lived(stands + [b], events + [e], outcomes + [o])
  {
    hide Explains, Keeps;
  }
}
