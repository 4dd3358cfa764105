// Resuming a download (`_transfer` and `download` of epilykos_os_update.py) against a
// server that honours If-Range (section 13.1.5 of RFC 9110) and may otherwise answer,
// stall, drop or change its mind at any time. The process may be killed anywhere.
module Download {
  import opened Bytes

  const CHUNK: nat := 1048576

  /** An ETag or a Last-Modified value; `weak` marks the W/ form. */
  datatype Validator = Validator(text: string, weak: bool)

  /** `Content-Range: bytes first-last/total` */
  datatype Range = Range(first: int, last: int, total: int)

  datatype Response = Response(code: int, validator: Option<Validator>, range: Option<Range>, content: seq<Byte>)

  /** One turn of the read loop: a request to cancel, a failing read, a kill, or a chunk of at
      most `n` bytes after which DATA may lack headroom. No bytes means the end. */
  datatype Read = Cancel | Fails | Kill | Chunk(n: nat, room: bool)

  /** One connection: what the server answers, whether the process is killed after the new
      validator was saved, and how the body is read. */
  datatype Exchange = Exchange(reply: Option<Response>, killed: bool, turns: seq<Read>)

  datatype Outcome = Finished | Dropped | Refused | Cancelled | Killed

  /** What is on DATA: the part file and the saved validator. */
  datatype Staged = Staged(part: seq<Byte>, validator: Option<string>)

  /** The package bodies the server has had, by the strong validator it gave them. */
  type Bodies = map<string, seq<Byte>>

  // ---- what is asked and what an honest server answers -------------------------------------

  function Offset(s: Staged, size: nat): nat {
    if 0 < |s.part| <= size && s.validator.Some? then |s.part| else 0
  }

  /** What RFC 9110 promises: a strong validator names one body, and a partial answer to a
      conditional range request, with the range that was asked for, is the rest of the body that
      validator names. A partial answer with any other range may hold anything. */
  predicate Honest(bodies: Bodies, s: Staged, size: nat, x: Exchange) {
    x.reply.Some? ==>
      var r, offset := x.reply.value, Offset(s, size);
      && (r.code == 200 && Strong(r).Some? ==> Strong(r).value in bodies && r.content == bodies[Strong(r).value])
      && (r.code == 206 && offset > 0 && r.range == Some(Range(offset, size - 1, size)) ==>
            s.validator.value in bodies && offset <= |bodies[s.validator.value]|
            && r.content == bodies[s.validator.value][offset..])
  }

  function Strong(r: Response): Option<string> {
    if r.validator.Some? && !r.validator.value.weak then Some(r.validator.value.text) else None
  }

  /** The part file is a prefix of the body its saved validator names. */
  predicate PartOf(bodies: Bodies, s: Staged) {
    s.validator.Some? ==> s.validator.value in bodies && s.part <= bodies[s.validator.value]
  }

  // ---- one exchange -----------------------------------------------------------------------------

  /** How many bytes the read loop appends to a part of `have` bytes, and how it ends. */
  function Appended(have: nat, size: nat, content: seq<Byte>, turns: seq<Read>): (r: (Outcome, nat))
    ensures r.1 <= |content| && (have <= size ==> have + r.1 <= size)
    ensures r.0 == Finished ==> have + r.1 == size
    decreases |turns|
  {
    if turns == [] then (if have == size then Finished else Dropped, 0)
    else match turns[0]
      case Cancel => (Cancelled, 0)
      case Fails => (Dropped, 0)
      case Kill => (Killed, 0)
      case Chunk(n, room) =>
        var k := Least(n, Least(CHUNK, |content|));
        if k == 0 then (if have == size then Finished else Dropped, 0)
        else if have + k > size then (Refused, 0)
        else if !room then (Refused, k)
        else
          var rest := Appended(have + k, size, content[k..], turns[1..]);
          (rest.0, k + rest.1)
  }

  function Least(a: nat, b: nat): nat { if a < b then a else b }

  function Filled(s: Staged, size: nat, content: seq<Byte>, turns: seq<Read>): (Outcome, Staged) {
    var r := Appended(|s.part|, size, content, turns);
    (r.0, s.(part := s.part + content[..r.1]))
  }

  lemma FilledStep(s: Staged, size: nat, content: seq<Byte>, turns: seq<Read>, k: nat)
    requires turns != [] && turns[0].Chunk? && turns[0].room && k == Least(turns[0].n, Least(CHUNK, |content|))
    requires k > 0 && |s.part| + k <= size
    ensures Filled(s, size, content, turns) == Filled(s.(part := s.part + content[..k]), size, content[k..], turns[1..])
  {
    var next := s.part + content[..k];
    var rest := Appended(|next|, size, content[k..], turns[1..]);
    assert |next| == |s.part| + k;
    assert Appended(|s.part|, size, content, turns) == (rest.0, k + rest.1);
    assert s.part + content[..k + rest.1] == next + content[k..][..rest.1];
  }

  /** What one exchange makes of the staging area. */
  function Step(s: Staged, size: nat, x: Exchange): (Outcome, Staged) {
    match x.reply
    case None => (Dropped, s)
    case Some(r) =>
      var offset := Offset(s, size);
      if offset > 0 && r.code == 206 then
        if r.range != Some(Range(offset, size - 1, size)) then (Dropped, s.(part := []))
        else Filled(s, size, r.content, x.turns)
      else if r.code == 200 then
        if x.killed then (Killed, s.(validator := Strong(r)))
        else Filled(Staged([], Strong(r)), size, r.content, x.turns)
      else (Refused, s)
  }

  /** Nothing stops the reading: every turn asks for something and DATA has room. */
  predicate Patient(turns: seq<Read>) {
    forall t :: t in turns ==> t.Chunk? && t.n > 0 && t.room
  }

  /** Read to its end, a body finishes the part exactly if it has the missing size; a shorter one
      counts as dropped, and a longer one is refused before the part grows too far. */
  lemma {:induction false} PatientReading(have: nat, size: nat, content: seq<Byte>, turns: seq<Read>)
    requires Patient(turns) && |turns| > |content|
    ensures have + |content| == size ==> Appended(have, size, content, turns) == (Finished, |content|)
    ensures have + |content| < size ==> Appended(have, size, content, turns) == (Dropped, |content|)
    ensures have + |content| > size && have <= size ==> Appended(have, size, content, turns).0 == Refused
    decreases |turns|
  {
    assert turns[0] in turns;
    if content != [] {
      var k := Least(turns[0].n, Least(CHUNK, |content|));
      assert forall t :: t in turns[1..] ==> t in turns;
      if have + k <= size { PatientReading(have + k, size, content[k..], turns[1..]); }
    }
  }

  /** A request to cancel is obeyed at the next turn, and a failing read ends the attempt. */
  lemma {:induction false} ReadingStops(have: nat, size: nat, content: seq<Byte>, turns: seq<Read>, i: nat)
    requires i < |turns| && Patient(turns[..i]) && i * CHUNK < |content| && have + |content| <= size
    ensures turns[i] == Cancel ==> Appended(have, size, content, turns).0 == Cancelled
    ensures turns[i] == Fails ==> Appended(have, size, content, turns).0 == Dropped
    decreases |turns|
  {
    if i > 0 {
      assert turns[0] == turns[..i][0] && turns[0] in turns[..i];
      var k := Least(turns[0].n, Least(CHUNK, |content|));
      assert turns[1..][i - 1] == turns[i];
      assert turns[1..][..i - 1] == turns[..i][1..];
      assert forall t :: t in turns[..i][1..] ==> t in turns[..i];
      ReadingStops(have + k, size, content[k..], turns[1..], i - 1);
    }
  }

  /** A full answer of the signed size, read to its end, is the package; so is the rest of one. */
  lemma WholeBodyFinishes(s: Staged, size: nat, x: Exchange)
    requires x.reply.Some? && !x.killed && Patient(x.turns) && |x.turns| > |x.reply.value.content|
    ensures var r := x.reply.value;
            && (r.code == 200 && |r.content| == size ==>
                  Step(s, size, x).0 == Finished && Step(s, size, x).1.part == r.content)
            && (r.code == 206 && 0 < |s.part| <= size && s.validator.Some? && |s.part| + |r.content| == size
                && r.range == Some(Range(|s.part|, size - 1, size)) ==>
                  Step(s, size, x) == (Finished, s.(part := s.part + r.content)))
  {
    var r := x.reply.value;
    PatientReading(0, size, r.content, x.turns);
    PatientReading(|s.part|, size, r.content, x.turns);
    assert r.content[..|r.content|] == r.content && [] + r.content == r.content;
  }

  // ---- which exchanges keep the promise ----------------------------------------------------------

  /** The exchange gives the part up: a full answer, or a partial one nobody asked for. */
  predicate Restarts(s: Staged, size: nat, x: Exchange) {
    && x.reply.Some?
    && var r := x.reply.value;
       if Offset(s, size) > 0 && r.code == 206
       then r.range != Some(Range(Offset(s, size), size - 1, size))
       else r.code == 200
  }

  /** A kill between saving a new validator and truncating a part that does not start the
      new body. */
  predicate Breaks(bodies: Bodies, s: Staged, size: nat, x: Exchange) {
    && Restarts(s, size, x) && x.reply.value.code == 200 && x.killed && s.part != []
    && var v := Strong(x.reply.value);
       v.Some? && v.value in bodies && !(s.part <= bodies[v.value])
  }

  /** Exactly: a restart leaves a proper part unless it breaks it, anything else keeps what
      was there. */
  lemma StepMatches(bodies: Bodies, s: Staged, size: nat, x: Exchange)
    requires Honest(bodies, s, size, x) && (s.validator.Some? ==> s.validator.value in bodies)
    ensures var after := Step(s, size, x).1;
            && (after.validator.Some? ==> after.validator.value in bodies)
            && (PartOf(bodies, after) <==>
                  if Restarts(s, size, x) then !Breaks(bodies, s, size, x) else PartOf(bodies, s))
  {
    if x.reply.Some? {
      var r, offset := x.reply.value, Offset(s, size);
      if offset > 0 && r.code == 206 && !Restarts(s, size, x) {
        var body := bodies[s.validator.value];
        var n := Appended(|s.part|, size, r.content, x.turns).1;
        ResumeMatches(body, s.part, n);
      }
    }
  }

  lemma ResumeMatches(body: seq<Byte>, part: seq<Byte>, n: nat)
    requires |part| <= |body| && n <= |body| - |part|
    ensures part + body[|part|..][..n] <= body <==> part <= body
  {
    var longer := part + body[|part|..][..n];
    if part <= body { assert longer == body[..|part| + n]; }
    if longer <= body { assert part == longer[..|part|] == body[..|part|]; }
  }

  /** From a proper part, a kill in that window leaves a proper part exactly if there was no
      part, or the new validator is absent or the old one, or the old part starts the new body. */
  lemma KillInWindow(bodies: Bodies, s: Staged, size: nat, x: Exchange)
    requires Honest(bodies, s, size, x) && PartOf(bodies, s)
    requires x.killed && x.reply.Some? && x.reply.value.code == 200
    ensures var v := Strong(x.reply.value);
            && Step(s, size, x) == (Killed, Staged(s.part, v))
            && (PartOf(bodies, Step(s, size, x).1) <==>
                  s.part == [] || v == None || v == s.validator || s.part <= bodies[v.value])
  {
    StepMatches(bodies, s, size, x);
  }

  /** The signed size is never exceeded, and a finished part has exactly that size. */
  lemma StepSize(s: Staged, size: nat, x: Exchange)
    ensures var r := Step(s, size, x);
            && (|r.1.part| <= size || r.1.part == s.part)
            && (r.0 == Finished ==> |r.1.part| == size)
  {
  }

  // ---- whole runs, kills included -------------------------------------------------------------------

  /** Any number of attempts in any number of worker runs. */
  predicate Ran(bodies: Bodies, size: nat, states: seq<Staged>, xs: seq<Exchange>) {
    && |states| == |xs| + 1
    && (forall i :: 0 <= i < |xs| ==> Honest(bodies, states[i], size, xs[i]))
    && (forall i :: 0 <= i < |xs| ==> states[i + 1] == Step(states[i], size, xs[i]).1)
  }

  /** The part at `n` was broken by exchange `i` and never given up since. */
  predicate BrokenSince(bodies: Bodies, size: nat, states: seq<Staged>, xs: seq<Exchange>, i: nat, n: nat)
    requires |states| == |xs| + 1 && i < n <= |xs|
  {
    Breaks(bodies, states[i], size, xs[i]) && forall j :: i < j < n ==> !Restarts(states[j], size, xs[j])
  }

  /** Over any run from a proper part: the part is not the start of its body exactly if some
      kill broke it and nothing restarted it since. */
  lemma {:induction false} BrokenExactly(bodies: Bodies, size: nat, states: seq<Staged>, xs: seq<Exchange>, n: nat)
    requires Ran(bodies, size, states, xs) && PartOf(bodies, states[0]) && n <= |xs|
    ensures states[n].validator.Some? ==> states[n].validator.value in bodies
    ensures !PartOf(bodies, states[n]) <==> exists i :: 0 <= i < n && BrokenSince(bodies, size, states, xs, i, n)
  {
    if n > 0 {
      var k := n - 1;
      BrokenExactly(bodies, size, states, xs, k);
      hide Step, Honest, PartOf, Restarts, Breaks;
      StepMatches(bodies, states[k], size, xs[k]);
      if Breaks(bodies, states[k], size, xs[k]) {
        assert BrokenSince(bodies, size, states, xs, k, n) && Restarts(states[k], size, xs[k]) by {
          BreakingRestarts(bodies, states[k], size, xs[k]);
        }
      } else {
        Extend(bodies, size, states, xs, k, n);
      }
    }
  }

  lemma BreakingRestarts(bodies: Bodies, s: Staged, size: nat, x: Exchange)
    requires Breaks(bodies, s, size, x)
    ensures Restarts(s, size, x)
  {
  }

  lemma Extend(bodies: Bodies, size: nat, states: seq<Staged>, xs: seq<Exchange>, k: nat, n: nat)
    requires |states| == |xs| + 1 && n == k + 1 <= |xs| && !Breaks(bodies, states[k], size, xs[k])
    ensures (exists i :: 0 <= i < n && BrokenSince(bodies, size, states, xs, i, n)) <==>
            (!Restarts(states[k], size, xs[k]) && exists i :: 0 <= i < k && BrokenSince(bodies, size, states, xs, i, k))
  {
    hide Restarts, Breaks;
    if i :| 0 <= i < n && BrokenSince(bodies, size, states, xs, i, n) {
      assert i < k && BrokenSince(bodies, size, states, xs, i, k);
    }
    if i :| 0 <= i < k && BrokenSince(bodies, size, states, xs, i, k) {
      if !Restarts(states[k], size, xs[k]) { assert BrokenSince(bodies, size, states, xs, i, n); }
    }
  }

  /** Without kills in that window the part is always the start of its body, and any two parts
      saved under one validator are prefixes of each other: two bodies never mix. */
  lemma PartsAgree(bodies: Bodies, size: nat, states: seq<Staged>, xs: seq<Exchange>, i: nat, j: nat)
    requires Ran(bodies, size, states, xs) && PartOf(bodies, states[0]) && i <= j <= |xs|
    requires forall x :: x in xs ==> !x.killed
    ensures PartOf(bodies, states[i]) && PartOf(bodies, states[j])
    ensures states[i].validator.Some? && states[i].validator == states[j].validator ==>
              states[i].part <= states[j].part || states[j].part <= states[i].part
  {
    BrokenExactly(bodies, size, states, xs, i);
    BrokenExactly(bodies, size, states, xs, j);
    forall k | 0 <= k < |xs| ensures !Breaks(bodies, states[k], size, xs[k]) { assert xs[k] in xs; }
    if states[i].validator.Some? && states[i].validator == states[j].validator {
      var body := bodies[states[i].validator.value];
      if |states[i].part| <= |states[j].part| {
        assert states[i].part == states[j].part[..|states[i].part|];
      } else {
        assert states[j].part == states[i].part[..|states[j].part|];
      }
    }
  }

  // ---- the staging area ---------------------------------------------------------------------------------

  class Staging {
    const size: nat
    const bodies: Bodies
    var part: seq<Byte>
    var validator: Option<string>
    var final: Option<seq<Byte>>

    constructor (size: nat, bodies: Bodies)
      requires size > 0
      ensures Now() == Staged([], None) && final == None && this.size == size && this.bodies == bodies
    {
      this.size, this.bodies := size, bodies;
      part, validator, final := [], None, None;
    }

    ghost function Now(): Staged
      reads this
    {
      Staged(part, validator)
    }

    /** One HTTP exchange: anything an honest server can answer, and anything after it. */
    method Serve() returns (x: Exchange)
      ensures Honest(bodies, Now(), size, x)
    {
      x := *;
      if !Honest(bodies, Staged(part, validator), size, x) { x := Exchange(None, false, []); }
    }

    /** The `Range` and `If-Range` headers: the rest of a part is asked for only under the strong
        validator it was saved with. */
    method Ask() returns (offset: nat)
      ensures offset == Offset(Now(), size)
      ensures offset == if validator.Some? && |part| <= size then |part| else 0
    {
      offset := |part|;
      if offset > size { offset := 0; }
      if offset == 0 || validator.None? { offset := 0; }
    }

    /** `_transfer`: one attempt. */
    method Transfer(x: Exchange) returns (o: Outcome)
      modifies this`part, this`validator
      ensures (o, Now()) == Step(old(Now()), size, x)
      // only a full answer replaces the validator, and only by a strong one
      ensures x.reply.Some? && x.reply.value.code == 200 ==>
                validator == match x.reply.value.validator
                             case Some(Validator(text, false)) => Some(text)
                             case _ => None
      ensures !(x.reply.Some? && x.reply.value.code == 200) ==> validator == old(validator)
      // no answer and a wrong range are tried again, any other answer is not
      ensures x.reply.None? ==> o == Dropped && part == old(part)
      ensures var asked := old(if validator.Some? && |part| <= size then |part| else 0);
              x.reply.Some? && x.reply.value.code != 200 ==>
                if x.reply.value.code != 206 || asked == 0 then o == Refused && part == old(part)
                else x.reply.value.range != Some(Range(asked, size - 1, size)) ==> o == Dropped && part == []
    {
      var offset := Ask();
      if x.reply.None? { return Dropped; }
      var response := x.reply.value;
      if offset > 0 && response.code == 206 {
        if response.range != Some(Range(offset, size - 1, size)) {
          part := [];           // not the part we asked for: start again
          return Dropped;
        }
      } else if response.code == 200 {
        offset := 0;            // Range ignored or the file changed: start again
        validator := if response.validator.Some? && !response.validator.value.weak
                     then Some(response.validator.value.text) else None;
        if x.killed { return Killed; }
      } else {
        return Refused;
      }
      assert offset > 0 ==> part[..offset] == part;
      part := part[..offset];
      o := Receive(response.content, x.turns);
    }

    /** The read loop. */
    method Receive(content: seq<Byte>, turns: seq<Read>) returns (o: Outcome)
      modifies this`part
      ensures (o, Now()) == Filled(old(Now()), size, content, turns)
    {
      ghost var goal := Filled(Now(), size, content, turns);
      var rest, i := content, 0;
      while i < |turns|
        invariant 0 <= i <= |turns| && validator == old(validator)
        invariant Filled(Now(), size, rest, turns[i..]) == goal
        decreases |turns| - i
      {
        assert turns[i..][1..] == turns[i + 1..];
        assert part + rest[..0] == part;
        match turns[i] {
          case Cancel => return Cancelled;
          case Fails => return Dropped;
          case Kill => return Killed;
          case Chunk(n, room) =>
            var k := Least(n, Least(CHUNK, |rest|));
            if k == 0 {
              return if |part| == size then Finished else Dropped;
            }
            if |part| + k > size { return Refused; }
            if room { FilledStep(Now(), size, rest, turns[i..], k); }
            part, rest := part + rest[..k], rest[k..];
            if !room { return Refused; }
            i := i + 1;
        }
      }
      assert part + rest[..0] == part;
      o := if |part| == size then Finished else Dropped;
    }

    /** `download`: a package is returned only with exactly the signed size. It is the start of
        the body its validator names exactly if no kill broke the part and none restarted it
        since (`BrokenExactly`); in particular whenever no kill fell into the window. */
    method Fetch(attempts: nat) returns (package: Option<seq<Byte>>, ghost states: seq<Staged>, ghost xs: seq<Exchange>)
      requires attempts > 0
      modifies this
      ensures Ran(bodies, size, states, xs) && states[0] == old(Now()) && |xs| <= attempts
      ensures xs == [] ==> package == old(final) && package.Some?
      ensures package.Some? ==> |package.value| == size && final == package
      ensures package.Some? && xs != [] ==>
                package.value == states[|xs|].part && Now() == Staged([], states[|xs|].validator)
      ensures package.None? ==> final == old(final) && Now() == states[|xs|]
      // only a dropped attempt is repeated, and only the last one may finish
      ensures forall i :: 0 <= i < |xs| - 1 ==> Step(states[i], size, xs[i]).0 == Dropped
      ensures xs != [] ==> (package.Some? <==> Step(states[|xs| - 1], size, xs[|xs| - 1]).0 == Finished)
      ensures xs != [] && Step(states[|xs| - 1], size, xs[|xs| - 1]).0 == Dropped ==> |xs| == attempts
      ensures old(|part|) <= size ==> |part| <= size
      ensures PartOf(bodies, old(Now())) && (forall x :: x in xs ==> !x.killed) ==>
                PartOf(bodies, states[|xs|]) && PartOf(bodies, Now())
    {
      hide Step, Honest, PartOf;
      states, xs := [Now()], [];
      if final.Some? && |final.value| == size { return final, states, xs; }
      package := None;
      for attempt := 0 to attempts
        invariant Ran(bodies, size, states, xs) && states[0] == old(Now()) && |xs| == attempt
        invariant states[|xs|] == Now() && final == old(final) && package.None?
        invariant old(|part|) <= size ==> |part| <= size
        invariant forall i :: 0 <= i < |xs| ==> Step(states[i], size, xs[i]).0 == Dropped
      {
        var x := Serve();
        StepSize(Now(), size, x);
        var o := Transfer(x);
        states, xs := states + [Now()], xs + [x];
        if o == Finished {
          NoKillsKeepPart(bodies, size, states, xs);
          final, package := Some(part), Some(part);
          part := [];           // the part file was renamed
          return;
        }
        if o != Dropped {
          NoKillsKeepPart(bodies, size, states, xs);
          return;
        }
      }
      NoKillsKeepPart(bodies, size, states, xs);
    }
  }

  lemma NoKillsKeepPart(bodies: Bodies, size: nat, states: seq<Staged>, xs: seq<Exchange>)
    requires Ran(bodies, size, states, xs)
    ensures PartOf(bodies, states[0]) && (forall x :: x in xs ==> !x.killed) ==>
              PartOf(bodies, states[|xs|]) && PartOf(bodies, states[|xs|].(part := []))
  {
    if PartOf(bodies, states[0]) && forall x :: x in xs ==> !x.killed {
      PartsAgree(bodies, size, states, xs, |xs|, |xs|);
    }
  }

  /** A kill in the window does mix two bodies: the part of the old one is resumed under the
      new validator, and the package finishes with the right size. */
  method KillCanMixBodies() returns (bodies: Bodies, s: Staging, o: Outcome)
    ensures bodies == map["old" := [1, 2], "new" := [3, 4]] && s.bodies == bodies && s.size == 2
    ensures o == Finished && s.Now() == Staged([1, 4], Some("new")) && !PartOf(bodies, s.Now())
  {
    bodies := map["old" := [1, 2], "new" := [3, 4]];
    s := new Staging(2, bodies);
    var full := Response(200, Some(Validator("old", false)), None, [1, 2]);
    var first := Exchange(Some(full), false, [Chunk(1, true), Fails]);
    assert Honest(bodies, s.Now(), 2, first);
    o := s.Transfer(first);
    assert s.Now() == Staged([1], Some("old"));
    var second := Exchange(Some(Response(200, Some(Validator("new", false)), None, [3, 4])), true, []);
    assert Honest(bodies, s.Now(), 2, second);
    o := s.Transfer(second);
    assert s.Now() == Staged([1], Some("new"));
    var third := Exchange(Some(Response(206, None, Some(Range(1, 1, 2)), [4])), false, [Chunk(1, true)]);
    assert bodies["new"][1..] == [4];
    assert Honest(bodies, s.Now(), 2, third);
    o := s.Transfer(third);
    assert s.Now() == Staged([1, 4], Some("new"));
    assert [1, 4][0] != bodies["new"][0];
  }
}
