// The guarded fw_setenv: its script edits an image of the selected record and hands the
// whole image to the snapshot adapter (`epk_flush` in the u-boot-tools patch).
module FwEnv {
  import opened Bytes
  import opened EnvFormat
  import opened EnvSelect
  import opened EnvBuild
  import opened EnvCommit
  import opened EnvSnapshot

  // ---- editing the image ------------------------------------------------------------------

  function Without(es: seq<Entry>, name: seq<Byte>): (r: seq<Entry>)
    ensures forall e :: e in r ==> e in es && e.name != name
  {
    if es == [] then []
    else (if es[0].name == name then [] else [es[0]]) + Without(es[1..], name)
  }

  /** `fw_env_write`: the old entry goes, the new one is appended. */
  function Edit(es: seq<Entry>, u: Update): seq<Entry> {
    Without(es, u.name) + (if u.value.Some? then [Entry(u.name, u.value.value)] else [])
  }

  function EditAll(es: seq<Entry>, us: seq<Update>): seq<Entry> {
    if us == [] then es else Edit(EditAll(es, us[..|us| - 1]), us[|us| - 1])
  }

  lemma {:induction false} WithoutLooksUp(es: seq<Entry>, name: seq<Byte>, other: seq<Byte>)
    ensures Lookup(Without(es, name), other) == if other == name then None else Lookup(es, other)
  {
    if es != [] {
      WithoutLooksUp(es[1..], name, other);
      assert [] + Without(es[1..], name) == Without(es[1..], name);
      if es[0].name != name { assert ([es[0]] + Without(es[1..], name))[1..] == Without(es[1..], name); }
    }
  }

  lemma {:induction false} LookupConcat(a: seq<Entry>, b: seq<Entry>, name: seq<Byte>)
    ensures Lookup(a + b, name) == if Lookup(a, name).Some? then Lookup(a, name) else Lookup(b, name)
  {
    if a == [] {
      assert a + b == b;
    } else {
      assert (a + b)[1..] == a[1..] + b;
      LookupConcat(a[1..], b, name);
    }
  }

  /** What a script finally says about a name, if anything. */
  function LastWord(us: seq<Update>, name: seq<Byte>): Option<Option<seq<Byte>>> {
    if us == [] then None
    else if us[|us| - 1].name == name then Some(us[|us| - 1].value)
    else LastWord(us[..|us| - 1], name)
  }

  lemma EditLooksUp(es: seq<Entry>, u: Update, name: seq<Byte>)
    ensures Lookup(Edit(es, u), name) == if u.name == name then u.value else Lookup(es, name)
  {
    var added := if u.value.Some? then [Entry(u.name, u.value.value)] else [];
    WithoutLooksUp(es, u.name, name);
    LookupConcat(Without(es, u.name), added, name);
  }

  /** A script's last word on a name counts; other names keep their values. */
  lemma {:induction false} EditAllLooksUp(es: seq<Entry>, us: seq<Update>, name: seq<Byte>)
    ensures Lookup(EditAll(es, us), name) ==
            if LastWord(us, name).Some? then LastWord(us, name).value else Lookup(es, name)
  {
    if us != [] {
      var front := us[..|us| - 1];
      EditAllLooksUp(es, front, name);
      EditLooksUp(EditAll(es, front), us[|us| - 1], name);
    }
  }

  /** What can be told apart in the image stays so. */
  lemma {:induction false} EditAllIsPlain(es: seq<Entry>, us: seq<Update>)
    requires AllPlain(es) && CStrings(us) && forall u :: u in us ==> EQUALS !in u.name
    ensures AllPlain(EditAll(es, us))
  {
    if us != [] {
      var front, last := us[..|us| - 1], us[|us| - 1];
      forall u | u in front ensures u in us {
        var i :| 0 <= i < |front| && front[i] == u;
        assert us[i] == u;
      }
      EditAllIsPlain(es, front);
      var all := EditAll(es, us);
      assert last in us;
      forall i | 0 <= i < |all| ensures Plain(all[i]) {
        assert all[i] in all;
        if all[i] in EditAll(es, front) {
          var k :| 0 <= k < |EditAll(es, front)| && EditAll(es, front)[k] == all[i];
        }
      }
    }
  }

  // ---- the flush -------------------------------------------------------------------------------

  /** The edited image, sealed; the bytes after its end play no part. */
  function Image(es: seq<Entry>, us: seq<Update>, flag: Byte): (r: Record)
    requires Used(EditAll(es, us)) <= DATA_SIZE
    ensures CrcValid(r) && Block(EditAll(es, us)) <= Data(r)
  {
    Sealed(flag, Padded(Block(EditAll(es, us))))
  }

  /** The guard parses the image into exactly the edited entries, or refuses it. */
  lemma ImageDecodes(es: seq<Entry>, us: seq<Update>, flag: Byte)
    requires WellFormed(es) && CStrings(us) && forall u :: u in us ==> EQUALS !in u.name
    requires Used(EditAll(es, us)) <= DATA_SIZE && Look(Image(es, us, flag)).Sound?
    ensures Look(Image(es, us, flag)).view.entries == EditAll(es, us)
  {
    WellFormedIsPlain(es);
    EditAllIsPlain(es, us);
    var r := Image(es, us, flag);
    var found := Look(r).view.entries;
    assert Accepted(Data(r), found);
    WellFormedIsPlain(found);
    hide Render, EditAll;
    DecodingIsUnique(Data(r), found, EditAll(es, us), 0);
  }

  /** The status of a script on a device that never fails. */
  ghost function ScriptStatus(c: Card, us: seq<Update>): Status {
    match Choose(c)
    case Refused(s) => s
    case Chosen(i) =>
      if Used(EditAll(State(c).entries, us)) > DATA_SIZE then Capacity
      else SnapshotStatus(c, Image(State(c).entries, us, Flag(c.At(i))))
  }

  /** The updates the snapshot adapter makes of a script. */
  ghost function ScriptDiff(c: Card, us: seq<Update>): seq<Update>
    requires Choose(c).Chosen?
  {
    Diff(State(c).entries, EditAll(State(c).entries, us))
  }

  /** `fw_setenv --script`: opens the selected record, edits it, flushes it whole. */
  method SetEnv(io: Device, us: seq<Update>) returns (status: Status)
    requires io.Valid() && CStrings(us)
    requires forall u :: u in us ==> EQUALS !in u.name && u.name != GENERATION
    modifies io
    ensures io.Valid() && old(io.trace) <= io.trace
    ensures status == Io || status == ScriptStatus(old(io.card), us)
    ensures io.reliable ==> status == ScriptStatus(old(io.card), us)
    ensures ScriptStatus(old(io.card), us) != Ok ==> io.card == old(io.card) && io.trace == old(io.trace)
    ensures io.honest && Choose(old(io.card)).Chosen? ==>
              OnlyCommitStates(io, old(|io.trace|), old(io.card), ScriptDiff(old(io.card), us))
    ensures status == Ok ==>
              && Choose(old(io.card)).Chosen? && Planned(old(io.card), ScriptDiff(old(io.card), us)).Built?
              && io.card == Committed(old(io.card), ScriptDiff(old(io.card), us))
  {
    hide Look, Planned, Choose, Pick, Committed, CommitState, Sensible, Diff, Image, Render, EditAll;
    var records, chosen;
    status, records, chosen := Load(io);
    if status != Ok { return; }
    var cur := ParseSelected(records, chosen.index);
    var edited := EditAll(cur.entries, us);
    if Used(edited) > DATA_SIZE { return Capacity; }
    var image := Image(cur.entries, us, records.At(chosen.index)[4]);
    ImageOfState(io.card, us, image);
    var out;
    status, out := CommitSnapshot(io, image);
  }

  lemma ImageOfState(c: Card, us: seq<Update>, image: Record)
    requires Choose(c).Chosen? && CStrings(us) && forall u :: u in us ==> EQUALS !in u.name
    requires Used(EditAll(State(c).entries, us)) <= DATA_SIZE
    requires image == Image(State(c).entries, us, Flag(c.At(Choose(c).index)))
    ensures Look(image).Sound? ==> Look(image).view.entries == EditAll(State(c).entries, us)
    ensures SnapshotStatus(c, image) == Ok ==> Look(image).Sound?
    ensures !Look(image).Sound? ==> SnapshotStatus(c, image) != Ok
  {
    StateFits(c);
    hide Look, Choose, Pick, EditAll, Image, Render;
    if Look(image).Sound? { ImageDecodes(State(c).entries, us, Flag(c.At(Choose(c).index))); }
  }
}
