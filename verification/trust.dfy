// The trust state in the environment (epilykos_os_trust.py) on top of the guarded commit:
// a root-signed policy with an epoch, and releases that are valid under one epoch only.
module Trust {
  import opened Bytes
  import opened Decimals
  import opened EnvFormat
  import opened EnvSelect
  import opened EnvBuild
  import opened EnvCommit
  import opened EnvSnapshot
  import opened FwEnv
  import Base64

  /** The pinned root. What a policy's bytes say and what the root signed are opaque. */
  datatype Root = Root(epochOf: seq<Byte> -> Option<nat>, signed: (seq<Byte>, seq<Byte>) -> bool)

  datatype TrustState = TrustState(raw: seq<Byte>, signature: seq<Byte>, epoch: nat, floor: nat)

  /** `verify_policy` without a current state. */
  predicate Verified(root: Root, raw: seq<Byte>, signature: seq<Byte>) {
    && 0 < |raw| <= 6144 && |signature| == 64
    && root.epochOf(raw).Some? && 1 <= root.epochOf(raw).value <= U64_MAX
    && root.signed(raw, signature)
  }

  /** The ordering of `verify_policy`: no older epoch, and one epoch has one policy. */
  predicate InOrder(root: Root, raw: seq<Byte>, current: TrustState)
    requires root.epochOf(raw).Some?
  {
    var epoch := root.epochOf(raw).value;
    epoch > current.epoch || (epoch == current.epoch && raw == current.raw)
  }

  /** `current_state` on the entries the guard selected. */
  function TrustOf(root: Root, es: seq<Entry>): (s: Option<TrustState>)
    ensures s.Some? ==>
              Verified(root, s.value.raw, s.value.signature) && s.value.epoch == root.epochOf(s.value.raw).value
    ensures s.Some? ==> Lookup(es, EPOCH) == Some(Digits(s.value.epoch))
  {
    var policy, signature := Lookup(es, POLICY), Lookup(es, POLICY_SIG);
    var epoch, floor := Lookup(es, EPOCH), Lookup(es, FLOOR);
    if policy.None? || signature.None? || epoch.None? || floor.None? then None
    else if !Base64.Canonical(policy.value) || !Base64.Canonical(signature.value) then None
    else if Lookup(es, SCHEMA) != Some(Ascii("1")) || floor.value == [] || !AllDigits(floor.value) then None
    else
      var raw, sig := Base64.Decode(policy.value), Base64.Decode(signature.value);
      if !Verified(root, raw, sig) || Digits(root.epochOf(raw).value) != epoch.value then None
      else Some(TrustState(raw, sig, root.epochOf(raw).value, Value(floor.value)))
  }

  ghost function CurrentState(root: Root, c: Card): Option<TrustState> {
    if Choose(c).Chosen? then TrustOf(root, State(c).entries) else None
  }

  /** The script `admit_policy` hands to the guarded `fw_setenv`. */
  function PolicyUpdates(raw: seq<Byte>, signature: seq<Byte>, epoch: nat): seq<Update> {
    [Update(POLICY, Some(Base64.Encode(raw))), Update(POLICY_SIG, Some(Base64.Encode(signature))),
     Update(EPOCH, Some(Digits(epoch)))]
  }

  /** A signed release entry; the key it names and its signature are opaque. */
  datatype Release = Release(sequence: nat, epoch: nat, listed: bool, signed: bool)

  /** `verify_os_release` and `admissible` */
  predicate Offered(r: Release, s: TrustState, own: nat) {
    r.epoch == s.epoch && r.listed && r.signed && r.sequence > s.floor && r.sequence > own
  }

  /** `verify_os_release` and then `admissible`, for one entry. */
  method CheckRelease(r: Release, s: TrustState, own: nat) returns (ok: bool)
    ensures ok <==> Offered(r, s, own)
    ensures ok <==> r.epoch == s.epoch && r.listed && r.signed && s.floor < r.sequence && own < r.sequence
  {
    if r.epoch != s.epoch { return false; }
    if !r.listed || !r.signed { return false; }
    ok := !(r.sequence <= s.floor || r.sequence <= own);
  }

  // ---- what an admission writes -------------------------------------------------------------

  lemma NamesApart()
    ensures POLICY != POLICY_SIG && POLICY != EPOCH && POLICY_SIG != EPOCH
    ensures FLOOR != POLICY && FLOOR != POLICY_SIG && FLOOR != EPOCH
    ensures SCHEMA != POLICY && SCHEMA != POLICY_SIG && SCHEMA != EPOCH
    ensures GENERATION !in {POLICY, POLICY_SIG, EPOCH, FLOOR, SCHEMA}
    ensures EQUALS !in POLICY && EQUALS !in POLICY_SIG && EQUALS !in EPOCH
    ensures NulFree(POLICY) && NulFree(POLICY_SIG) && NulFree(EPOCH)
  {
    assert |POLICY| == 16 && |POLICY_SIG| == 20 && |EPOCH| == 15 && |FLOOR| == 12 && |SCHEMA| == 16
           && |GENERATION| == 20;
    assert POLICY[4] == 't' as int && SCHEMA[4] == 's' as int && POLICY_SIG[4] == 't' as int
           && GENERATION[4] == 's' as int;
  }

  lemma UpdatesAreGood(raw: seq<Byte>, signature: seq<Byte>, epoch: nat)
    requires raw != [] && signature != []
    ensures var us := PolicyUpdates(raw, signature, epoch);
            CStrings(us) && forall u :: u in us ==> EQUALS !in u.name && u.name != GENERATION
  {
    NamesApart();
    Base64.EncodeIsCanonical(raw);
    Base64.EncodeIsCanonical(signature);
    hide Base64.Encode, Digits;
  }

  /** What the script of a policy says. */
  lemma PolicyWords(raw: seq<Byte>, signature: seq<Byte>, epoch: nat, name: seq<Byte>)
    ensures LastWord(PolicyUpdates(raw, signature, epoch), name) ==
            if name == POLICY then Some(Some(Base64.Encode(raw)))
            else if name == POLICY_SIG then Some(Some(Base64.Encode(signature)))
            else if name == EPOCH then Some(Some(Digits(epoch)))
            else None
  {
    hide Base64.Encode, Digits;
    var us := PolicyUpdates(raw, signature, epoch);
    NamesApart();
    assert us[..2][..1][..0] == [] && us[..2] == [us[0], us[1]] && us[..2][..1] == [us[0]];
    assert LastWord(us[..2][..1], name) == if us[0].name == name then Some(us[0].value) else None;
  }

  function EditedWith(es: seq<Entry>, raw: seq<Byte>, signature: seq<Byte>, epoch: nat): seq<Entry> {
    EditAll(es, PolicyUpdates(raw, signature, epoch))
  }

  lemma EditedLookup(es: seq<Entry>, raw: seq<Byte>, signature: seq<Byte>, epoch: nat, name: seq<Byte>)
    ensures Lookup(EditedWith(es, raw, signature, epoch), name) ==
            if name == POLICY then Some(Base64.Encode(raw))
            else if name == POLICY_SIG then Some(Base64.Encode(signature))
            else if name == EPOCH then Some(Digits(epoch))
            else Lookup(es, name)
  {
    hide Base64.Encode, Digits, EditAll, LastWord, Lookup;
    EditAllLooksUp(es, PolicyUpdates(raw, signature, epoch), name);
    PolicyWords(raw, signature, epoch, name);
  }

  /** The image parses to the edited entries: a desired record of the same generation. */
  ghost predicate Desires(v: View, next: View, raw: seq<Byte>, signature: seq<Byte>, epoch: nat) {
    && Sensible(v) && Sensible(next) && next.generation == v.generation
    && next.entries == EditedWith(v.entries, raw, signature, epoch)
  }

  /** What admitting the policy leaves under every name that matters here. */
  lemma PolicyReadsBack(v: View, next: View, raw: seq<Byte>, signature: seq<Byte>, epoch: nat)
    requires Desires(v, next, raw, signature, epoch) && raw != [] && signature != []
    requires BuildStatus(v.entries, Diff(v.entries, next.entries)) in {Ok, Conflict}
    ensures var es := Result(v.entries, Diff(v.entries, next.entries));
            && Lookup(es, POLICY) == Some(Base64.Encode(raw))
            && Lookup(es, POLICY_SIG) == Some(Base64.Encode(signature))
            && Lookup(es, EPOCH) == Some(Digits(epoch))
            && Lookup(es, FLOOR) == Lookup(v.entries, FLOOR) && Lookup(es, SCHEMA) == Lookup(v.entries, SCHEMA)
            && Scalars(es) && ViewOf(es).epoch == epoch && ViewOf(es).floor == v.floor
  {
    NamesApart();
    ConflictIsAge(v, Diff(v.entries, next.entries));
    hide Base64.Encode, Lookup, Diff, Result, BuildStatus, EditedWith;
    forall name | name in {POLICY, POLICY_SIG, EPOCH, FLOOR, SCHEMA}
      ensures Lookup(Result(v.entries, Diff(v.entries, next.entries)), name) ==
              Lookup(EditedWith(v.entries, raw, signature, epoch), name)
    {
      DiffResult(v, next, name);
    }
    EditedLookup(v.entries, raw, signature, epoch, POLICY);
    EditedLookup(v.entries, raw, signature, epoch, POLICY_SIG);
    EditedLookup(v.entries, raw, signature, epoch, EPOCH);
    EditedLookup(v.entries, raw, signature, epoch, FLOOR);
    EditedLookup(v.entries, raw, signature, epoch, SCHEMA);
    ValueOfDigits(epoch);
  }

  /** An admitted policy is exactly what the state then reads as, with the floor as it was. */
  lemma AdmittedReadsBack(root: Root, v: View, next: View, raw: seq<Byte>, signature: seq<Byte>)
    requires Verified(root, raw, signature) && Desires(v, next, raw, signature, root.epochOf(raw).value)
    requires BuildOutcome(v, Diff(v.entries, next.entries)).Built?
    ensures var epoch := root.epochOf(raw).value;
            var after := BuildOutcome(v, Diff(v.entries, next.entries)).view;
            && TrustOf(root, after.entries) == Some(TrustState(raw, signature, epoch, v.floor))
            && after.epoch == epoch >= v.epoch && after.floor == v.floor
  {
    PolicyReadsBack(v, next, raw, signature, root.epochOf(raw).value);
    DiffIsGood(v, next);
    BuildAdvances(v, Diff(v.entries, next.entries));
    Base64.EncodeIsInjective(raw);
    Base64.EncodeIsInjective(signature);
  }

  /** The guard's own ordering agrees with `verify_policy`, except that it also fixes the
      signature of an epoch: a second signature of the same policy is refused. */
  lemma OnlySignaturesConflict(root: Root, v: View, next: View, s: TrustState, raw: seq<Byte>, signature: seq<Byte>)
    requires Verified(root, raw, signature) && Desires(v, next, raw, signature, root.epochOf(raw).value)
    requires TrustOf(root, v.entries) == Some(s) && InOrder(root, raw, s)
    requires BuildStatus(v.entries, Diff(v.entries, next.entries)) in {Ok, Conflict}
    ensures BuildStatus(v.entries, Diff(v.entries, next.entries)) == Conflict <==>
            root.epochOf(raw).value == s.epoch && signature != s.signature
  {
    ConflictIsAge(v, Diff(v.entries, next.entries));
    hide BuildStatus, Result, Diff, Desires, TrustOf, Verified, Sensible, ViewOf;
    SignatureComparison(root, v, next, s, raw, signature);
  }

  lemma ConflictIsAge(v: View, us: seq<Update>)
    requires Sensible(v) && BuildStatus(v.entries, us) in {Ok, Conflict}
    ensures Used(Next(v.entries, us)) <= DATA_SIZE && StatusOf(Payload(v.entries, us)) == Ok
    ensures Scalars(Result(v.entries, us))
    ensures BuildStatus(v.entries, us) == Conflict <==> !NotOlder(ViewOf(Result(v.entries, us)), v)
  {
  }

  lemma SignatureComparison(root: Root, v: View, next: View, s: TrustState, raw: seq<Byte>, signature: seq<Byte>)
    requires Verified(root, raw, signature) && Desires(v, next, raw, signature, root.epochOf(raw).value)
    requires TrustOf(root, v.entries) == Some(s) && InOrder(root, raw, s)
    requires BuildStatus(v.entries, Diff(v.entries, next.entries)) in {Ok, Conflict}
    ensures var us := Diff(v.entries, next.entries);
            && Used(Next(v.entries, us)) <= DATA_SIZE && StatusOf(Payload(v.entries, us)) == Ok
            && (!NotOlder(ViewOf(Result(v.entries, us)), v) <==>
                  root.epochOf(raw).value == s.epoch && signature != s.signature)
  {
    ConflictIsAge(v, Diff(v.entries, next.entries));
    hide BuildStatus, Result, Diff, Base64.Encode;
    PolicyReadsBack(v, next, raw, signature, root.epochOf(raw).value);
    StateReadsBack(root, v, s);
    Base64.EncodeIsInjective(raw);
    Base64.EncodeIsInjective(signature);
    Base64.EncodeIsInjective(s.raw);
    Base64.EncodeIsInjective(s.signature);
  }

  lemma StateReadsBack(root: Root, v: View, s: TrustState)
    requires Sensible(v) && TrustOf(root, v.entries) == Some(s)
    ensures Lookup(v.entries, POLICY) == Some(Base64.Encode(s.raw))
    ensures Lookup(v.entries, POLICY_SIG) == Some(Base64.Encode(s.signature))
    ensures v.epoch == s.epoch && v.floor == s.floor
  {
    Base64.DecodeIsInverse(Lookup(v.entries, POLICY).value);
    Base64.DecodeIsInverse(Lookup(v.entries, POLICY_SIG).value);
    ValueOfDigits(s.epoch);
  }

  /** The state is reported exactly when the entries carry a policy that the root signed, with its
      own epoch beside it. */
  lemma StateIsReported(root: Root, v: View, raw: seq<Byte>, signature: seq<Byte>)
    requires Sensible(v) && 1 <= |raw| <= 6144 && |signature| == 64
    requires Lookup(v.entries, Ascii("epk_trust_policy")) == Some(Base64.Encode(raw))
    requires Lookup(v.entries, Ascii("epk_trust_policy_sig")) == Some(Base64.Encode(signature))
    ensures TrustOf(root, v.entries) ==
            if root.signed(raw, signature) && root.epochOf(raw) == Some(v.epoch) && v.epoch >= 1
            then Some(TrustState(raw, signature, v.epoch, v.floor)) else None
  {
    Base64.EncodeIsInjective(raw);
    Base64.EncodeIsInjective(signature);
    DigitsOfValue(Lookup(v.entries, EPOCH).value);
    hide Base64.Encode, Base64.Decode, Base64.Canonical, WellFormed;
    if root.epochOf(raw).Some? { ValueOfDigits(root.epochOf(raw).value); }
  }

  // ---- whole runs ---------------------------------------------------------------------------------

  lemma EpochOfState(root: Root, c: Card)
    requires CurrentState(root, c).Some?
    ensures Choose(c).Chosen? && State(c).epoch == CurrentState(root, c).value.epoch
  {
    ValueOfDigits(CurrentState(root, c).value.epoch);
  }

  /** Revocation is final: once a policy was in force, no later state of the card, whatever
      commits were cut, offers a release that was authorised under an older epoch, and the
      same epoch always means the same policy and signature. */
  lemma RevocationIsFinal(root: Root, cards: seq<Card>, batches: seq<seq<Update>>, i: nat, j: nat, r: Release, own: nat)
    requires Run(cards, batches) && i <= j < |cards|
    requires CurrentState(root, cards[i]).Some? && CurrentState(root, cards[j]).Some?
    ensures var before, after := CurrentState(root, cards[i]).value, CurrentState(root, cards[j]).value;
            && before.epoch <= after.epoch
            && (before.epoch == after.epoch ==> before.raw == after.raw && before.signature == after.signature)
            && (r.epoch < before.epoch ==> !Offered(r, after, own))
  {
    hide Choose, State, Run;
    RunsNeverGoBack(cards, batches, i, j);
    EpochOfState(root, cards[i]);
    EpochOfState(root, cards[j]);
  }

  /** After an acknowledged admission it also survives the loss of either copy. */
  lemma RevocationSurvivesLoss(root: Root, c: Card, lost: nat, cards: seq<Card>, batches: seq<seq<Update>>, j: nat,
                               r: Release, own: nat)
    requires Replicated(c) && lost < 2 && CurrentState(root, c).Some?
    requires Run(cards, batches) && Torn(c, lost, cards[0])
    requires j < |cards| && CurrentState(root, cards[j]).Some?
    ensures r.epoch < CurrentState(root, c).value.epoch ==> !Offered(r, CurrentState(root, cards[j]).value, own)
  {
    hide Choose, State, Run, Look;
    AcknowledgedSurvives(c, lost, cards, batches, j);
    EpochOfState(root, c);
    EpochOfState(root, cards[j]);
  }

  // ---- methods ----------------------------------------------------------------------------------------

  /** `current_state`: None whenever the guard refuses or the policy does not verify. */
  method ReadState(root: Root, io: Device) returns (s: Option<TrustState>)
    ensures s.Some? ==> s == CurrentState(root, io.card)
    ensures s.Some? ==> root.signed(s.value.raw, s.value.signature) && root.epochOf(s.value.raw) == Some(s.value.epoch)
    ensures s.Some? ==> 1 <= |s.value.raw| <= 6144 && |s.value.signature| == 64
    ensures io.reliable ==> s == CurrentState(root, io.card)
    ensures s.Some? ==> Choose(io.card).Chosen? && s.value.floor == State(io.card).floor
                        && s.value.epoch == State(io.card).epoch
  {
    hide TrustOf, Look, Choose, Base64.Encode, Sensible, Lookup;
    var status, records, chosen := Load(io);
    if status != Ok { return None; }
    var v := ParseSelected(records, chosen.index);
    s := TrustOf(root, v.entries);
    if s.Some? { StateReadsBack(root, v, s.value); }
  }

  /** `admit_policy`: acknowledged only when both copies hold exactly this policy; refused
      policies write nothing; a cut leaves the old state or the new one. */
  method AdmitPolicy(root: Root, io: Device, raw: seq<Byte>, signature: seq<Byte>, state: TrustState)
    returns (after: Option<TrustState>)
    requires io.Valid()
    modifies io
    ensures io.Valid() && old(io.trace) <= io.trace
    ensures !Verified(root, raw, signature) || !InOrder(root, raw, state) ==> after.None? && io.card == old(io.card)
    ensures after.Some? ==> Verified(root, raw, signature) && InOrder(root, raw, state)
    // the same in full: an unsigned policy, or one that goes back, is refused before it is written
    ensures !root.signed(raw, signature) ==> after.None? && io.card == old(io.card) && io.trace == old(io.trace)
    ensures !(1 <= |raw| <= 6144 && |signature| == 64) ==> after.None? && io.card == old(io.card)
    ensures root.epochOf(raw).Some? && root.epochOf(raw).value < state.epoch ==> after.None? && io.card == old(io.card)
    ensures root.epochOf(raw) == Some(state.epoch) && raw != state.raw ==> after.None? && io.card == old(io.card)
    ensures after.Some? ==>
              && root.signed(raw, signature) && root.epochOf(raw) == Some(after.value.epoch)
              && 1 <= after.value.epoch <= 18446744073709551615
              && state.epoch <= after.value.epoch && (state.epoch == after.value.epoch ==> raw == state.raw)
    ensures after.Some? ==> Choose(old(io.card)).Chosen? && Replicated(io.card)
                            && after == CurrentState(root, io.card)
    ensures after.Some? ==>
              after.value == TrustState(raw, signature, root.epochOf(raw).value, old(State(io.card)).floor)
              && after.value.epoch >= old(State(io.card)).epoch
    ensures io.honest && Choose(old(io.card)).Chosen? && Verified(root, raw, signature) ==>
              OnlyCommitStates(io, old(|io.trace|), old(io.card),
                               ScriptDiff(old(io.card), PolicyUpdates(raw, signature, root.epochOf(raw).value)))
    ensures io.reliable && Verified(root, raw, signature) && InOrder(root, raw, state) ==>
              (after.Some? <==>
                 ScriptStatus(old(io.card), PolicyUpdates(raw, signature, root.epochOf(raw).value)) == Ok)
  {
    hide TrustOf, Choose, PolicyUpdates, Committed, CommitState, BuildOutcome, Look, ScriptStatus, Diff, EditAll;
    if !Verified(root, raw, signature) || !InOrder(root, raw, state) { return None; }
    var epoch := root.epochOf(raw).value;
    var us := PolicyUpdates(raw, signature, epoch);
    UpdatesAreGood(raw, signature, epoch);
    var status := SetEnv(io, us);
    if status != Ok { return None; }
    CommittedSelects(old(io.card), ScriptDiff(old(io.card), us));
    AdmissionReadsBack(root, old(io.card), raw, signature);
    after := ReadState(root, io);
    if after.Some? && (after.value.raw != raw || after.value.epoch != epoch) { after := None; }
  }

  lemma AdmissionReadsBack(root: Root, c: Card, raw: seq<Byte>, signature: seq<Byte>)
    requires Verified(root, raw, signature) && Choose(c).Chosen?
    requires var us := PolicyUpdates(raw, signature, root.epochOf(raw).value);
             ScriptStatus(c, us) == Ok && Planned(c, ScriptDiff(c, us)).Built?
    ensures var us := PolicyUpdates(raw, signature, root.epochOf(raw).value);
            var after := Planned(c, ScriptDiff(c, us)).view;
            && TrustOf(root, after.entries) == Some(TrustState(raw, signature, root.epochOf(raw).value, State(c).floor))
            && root.epochOf(raw).value >= State(c).epoch
  {
    var epoch := root.epochOf(raw).value;
    var us := PolicyUpdates(raw, signature, epoch);
    UpdatesAreGood(raw, signature, epoch);
    var image := Image(State(c).entries, us, Flag(c.At(Choose(c).index)));
    ImageOfState(c, us, image);
    StateFits(c);
    SoundFits(image);
    hide Look, Choose, BuildOutcome, TrustOf, PolicyUpdates, Sensible;
    AdmittedReadsBack(root, State(c), Look(image).view, raw, signature);
  }
}
