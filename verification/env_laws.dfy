// What the guard refuses and selects, stated on the values of the entries alone.
module EnvLaws {
  import opened Bytes
  import opened Decimals
  import opened EnvFormat
  import opened EnvSelect
  import opened EnvBuild
  import opened EnvCommit
  import Base64
  import Crc

  // ---- the bytes of a record ---------------------------------------------------------------

  /** A valid record: the checksum of its last 16379 bytes, least significant byte first. */
  lemma RecordIsLittleEndian(r: Record)
    ensures |r| == 16384
    ensures CrcValid(r) <==>
            r[0] as int + 256 * r[1] as int + 65536 * r[2] as int + 16777216 * r[3] as int == Crc.Checksum(r[5..])
  {
    hide Crc.Checksum;
  }

  /** Entries are `name=value` and a NUL each, with one more NUL at the end. */
  lemma {:induction false} BlockIsWritten(es: seq<Entry>, e: Entry)
    ensures Block([]) == [0]
    ensures Block(es + [e]) == Block(es)[..|Block(es)| - 1] + e.name + [61] + e.value + [0, 0]
  {
    RenderSnoc(es, e);
    assert Block(es)[..|Block(es)| - 1] == Render(es);
  }

  /** What the parser accepts, in full. */
  lemma AcceptedInFull(data: seq<Byte>, es: seq<Entry>)
    ensures Accepted(data, es) <==>
            && |data| == 16379 && Block(es) <= data && |Block(es)| + 2048 <= 16379
            && 1 <= |es| <= 256
            && (forall i :: 0 <= i < |es| ==>
                  && es[i].name != [] && (forall k :: 0 <= k < |es[i].name| ==> NameChar(es[i].name[k]))
                  && (forall k :: 0 <= k < |es[i].value| ==> ' ' <= es[i].value[k] as char <= '~'))
            && (forall i, j :: 0 <= i < j < |es| ==> es[i].name != es[j].name)
            && Scalars(es)
  {
    hide Scalars, Render, NameChar, IsNameChar;
    forall c: Byte ensures IsNameChar(c) <==> NameChar(c) { NameCharsListed(c); }
    forall i | 0 <= i < |es|
      ensures ValidEntry(es[i]) <==>
              && es[i].name != [] && (forall k :: 0 <= k < |es[i].name| ==> NameChar(es[i].name[k]))
              && (forall k :: 0 <= k < |es[i].value| ==> ' ' <= es[i].value[k] as char <= '~')
    {
      EntryInFull(es[i]);
    }
  }

  lemma EntryInFull(e: Entry)
    requires forall c: Byte :: IsNameChar(c) <==> NameChar(c)
    ensures ValidEntry(e) <==>
            && e.name != [] && (forall k :: 0 <= k < |e.name| ==> NameChar(e.name[k]))
            && (forall k :: 0 <= k < |e.value| ==> ' ' <= e.value[k] as char <= '~')
  {
    hide NameChar, IsNameChar;
  }

  predicate NameChar(c: Byte) {
    var x := c as char;
    'A' <= x <= 'Z' || 'a' <= x <= 'z' || '0' <= x <= '9' || x in {'_', '.', '-', '#'}
  }

  lemma NameCharsListed(c: Byte)
    ensures IsNameChar(c) <==> NameChar(c)
  {
  }

  // ---- what an accepted record carries -------------------------------------------------------

  /** An entry holds the canonical digits of a number of at most 64 bits. */
  ghost predicate Carries(es: seq<Entry>, name: seq<Byte>, n: nat) {
    n <= 18446744073709551615 && Lookup(es, name) == Some(Digits(n))
  }

  ghost predicate CarriesNumber(es: seq<Entry>, name: seq<Byte>) {
    exists n: nat :: Carries(es, name, n)
  }

  /** An entry holds the base64 encoding of so many bytes. */
  ghost predicate CarriesBytes(es: seq<Entry>, name: seq<Byte>, least: nat, most: nat) {
    exists raw: seq<Byte> :: least <= |raw| <= most && Lookup(es, name) == Some(Base64.Encode(raw))
  }

  /** The view is what the entries say. */
  lemma ViewIsRead(v: View)
    requires Sensible(v)
    ensures Carries(v.entries, Ascii("epk_state_generation"), v.generation)
    ensures Carries(v.entries, Ascii("epk_os_floor"), v.floor)
    ensures Carries(v.entries, Ascii("epk_trust_epoch"), v.epoch)
    ensures Lookup(v.entries, Ascii("epk_state_schema")) == Some(Ascii("1"))
  {
    DigitsOfValue(Lookup(v.entries, GENERATION).value);
    DigitsOfValue(Lookup(v.entries, FLOOR).value);
    DigitsOfValue(Lookup(v.entries, EPOCH).value);
  }

  lemma NumberIsDigits(es: seq<Entry>, name: seq<Byte>)
    ensures HasU64(es, name) <==> CarriesNumber(es, name)
  {
    if HasU64(es, name) {
      DigitsOfValue(Lookup(es, name).value);
      assert Carries(es, name, Number(es, name));
    }
    if n: nat :| Carries(es, name, n) { ValueOfDigits(n); }
  }

  lemma SizeIsEncoding(es: seq<Entry>, name: seq<Byte>, least: nat, most: nat)
    requires 0 < least
    ensures least <= SizeOfValue(Lookup(es, name)) <= most <==> CarriesBytes(es, name, least, most)
  {
    hide Lookup, Base64.Encode, Base64.SizeOf;
    var size := SizeOfValue(Lookup(es, name));
    if least <= size <= most { Base64.SizeIsExact(Lookup(es, name).value, size); }
    if raw: seq<Byte> :| least <= |raw| <= most && Lookup(es, name) == Some(Base64.Encode(raw)) {
      Base64.SizeIsExact(Lookup(es, name).value, |raw|);
    }
  }

  /** The values every accepted record carries. */
  lemma ScalarsAreValues(es: seq<Entry>)
    ensures Scalars(es) <==>
            && Lookup(es, Ascii("epk_state_schema")) == Some(Ascii("1"))
            && CarriesNumber(es, Ascii("epk_state_generation"))
            && CarriesNumber(es, Ascii("epk_os_floor"))
            && CarriesNumber(es, Ascii("epk_trust_epoch"))
            && CarriesBytes(es, Ascii("epk_trust_policy"), 1, 6144)
            && CarriesBytes(es, Ascii("epk_trust_policy_sig"), 64, 64)
  {
    hide Lookup, SizeOfValue, HasU64, CarriesNumber, CarriesBytes;
    NumberIsDigits(es, GENERATION);
    NumberIsDigits(es, FLOOR);
    NumberIsDigits(es, EPOCH);
    SizeIsEncoding(es, POLICY, 1, 6144);
    SizeIsEncoding(es, POLICY_SIG, 64, 64);
  }

  // ---- which copy is selected --------------------------------------------------------------------

  /** The newer view lowers the floor or the epoch, or gives one epoch two policies or signatures. */
  ghost predicate GoesBack(newer: View, older: View) {
    || newer.floor < older.floor || newer.epoch < older.epoch
    || (newer.epoch == older.epoch
        && (|| Lookup(newer.entries, Ascii("epk_trust_policy")) != Lookup(older.entries, Ascii("epk_trust_policy"))
            || Lookup(newer.entries, Ascii("epk_trust_policy_sig"))
               != Lookup(older.entries, Ascii("epk_trust_policy_sig"))))
  }

  ghost predicate SameValues(a: seq<Entry>, b: seq<Entry>) {
    forall name: seq<Byte> :: Ascii("epk_") <= name ==> Lookup(a, name) == Lookup(b, name)
  }

  lemma ComparisonsSay(a: View, b: View)
    ensures NotOlder(a, b) <==> !GoesBack(a, b)
    ensures SameCritical(a.entries, b.entries) <==> SameValues(a.entries, b.entries)
  {
    hide Lookup;
    assert forall name :: Critical(name) <==> Ascii("epk_") <= name;
  }

  /** Two sound copies of different generations: the newer one, unless it goes back. */
  lemma SelectsNewer(c: Card, i: nat)
    requires i < 2 && Look(c.At(i)).Sound? && Look(c.At(1 - i)).Sound?
    requires Look(c.At(i)).view.generation > Look(c.At(1 - i)).view.generation
    ensures Choose(c) == if GoesBack(Look(c.At(i)).view, Look(c.At(1 - i)).view) then Refused(Conflict) else Chosen(i)
  {
    ComparisonsSay(Look(c.At(i)).view, Look(c.At(1 - i)).view);
    hide Look, NotOlder, GoesBack, SameCritical, Sensible, Pick;
    PicksSound(Look(c.a), Look(c.b));
  }

  lemma PicksSound(a: Copy, b: Copy)
    requires a.Sound? && b.Sound?
    ensures a.view.generation > b.view.generation ==>
              Pick(a, b) == if NotOlder(a.view, b.view) then Chosen(0) else Refused(Conflict)
    ensures b.view.generation > a.view.generation ==>
              Pick(a, b) == if NotOlder(b.view, a.view) then Chosen(1) else Refused(Conflict)
    ensures a.view.generation == b.view.generation ==>
              Pick(a, b) == if SameCritical(a.view.entries, b.view.entries) then Chosen(FlagChoice(a.flag, b.flag))
                            else Refused(Conflict)
  {
    hide NotOlder, SameCritical, FlagChoice;
  }

  /** The copy whose flag is one ahead, or else the larger flag. */
  function FlagAhead(f: Byte, g: Byte): nat {
    if g == (f + 1) % 256 then 1 else if f == (g + 1) % 256 then 0 else if g > f then 1 else 0
  }

  lemma FlagsSay(f: Byte, g: Byte)
    ensures FlagChoice(f, g) == FlagAhead(f, g)
  {
  }

  /** Two sound copies of one generation: the copy that is ahead, or a conflict exactly when some
      `epk_` value differs. */
  lemma SelectsAhead(c: Card)
    requires Look(c.a).Sound? && Look(c.b).Sound? && Look(c.a).view.generation == Look(c.b).view.generation
    ensures Choose(c) == if !SameValues(Look(c.a).view.entries, Look(c.b).view.entries) then Refused(Conflict)
                         else Chosen(FlagAhead(Look(c.a).flag, Look(c.b).flag))
  {
    FlagsSay(Look(c.a).flag, Look(c.b).flag);
    ComparisonsSay(Look(c.a).view, Look(c.b).view);
    hide Look, SameCritical, SameValues, Sensible, FlagAhead, FlagChoice, NotOlder, Pick;
    PicksSound(Look(c.a), Look(c.b));
  }

  /** One damaged copy never decides; an undecodable one always does, copy A first. */
  lemma SelectsBesideDamage(c: Card)
    ensures Look(c.a).Undecodable? ==> Choose(c) == Refused(Look(c.a).status)
    ensures !Look(c.a).Undecodable? && Look(c.b).Undecodable? ==> Choose(c) == Refused(Look(c.b).status)
    ensures Look(c.a).Damaged? && Look(c.b).Damaged? ==> Choose(c) == Refused(Invalid)
    ensures Look(c.a).Sound? && Look(c.b).Damaged? ==> Choose(c) == Chosen(0)
    ensures Look(c.a).Damaged? && Look(c.b).Sound? ==> Choose(c) == Chosen(1)
  {
    hide Look, NotOlder, SameCritical, Sensible;
  }

  // ---- which updates are refused -----------------------------------------------------------------

  ghost predicate BadNames(us: seq<Update>) {
    || (exists u :: u in us && (u.name == [] || u.name == Ascii("epk_state_generation")))
    || (exists i, j :: 0 <= i < j < |us| && us[i].name == us[j].name)
  }

  /** Some `epk_` value would change. */
  ghost predicate Advancing(cur: seq<Entry>, us: seq<Update>) {
    exists u :: u in us && Ascii("epk_") <= u.name && Lookup(cur, u.name) != u.value
  }

  lemma NamesAndChanges(cur: seq<Entry>, us: seq<Update>)
    ensures GoodNames(us) <==> !BadNames(us)
    ensures ChangesCritical(cur, us) <==> Advancing(cur, us)
  {
    hide Lookup;
    forall u | u in us && Ascii("epk_") <= u.name && Lookup(cur, u.name) != u.value ensures ChangesCritical(cur, us) {
      var j :| 0 <= j < |us| && us[j] == u;
      assert Critical(us[j].name);
    }
    if ChangesCritical(cur, us) {
      var j :| 0 <= j < |us| && Critical(us[j].name) && Lookup(cur, us[j].name) != us[j].value;
      assert us[j] in us && Ascii("epk_") <= us[j].name;
    }
    if GoodNames(us) {
      forall u | u in us ensures u.name != [] && u.name != Ascii("epk_state_generation") {
        var j :| 0 <= j < |us| && us[j] == u;
      }
    } else if !(exists i, j :: 0 <= i < j < |us| && us[i].name == us[j].name) {
      var j :| 0 <= j < |us| && (us[j].name == [] || us[j].name == GENERATION);
      assert us[j] in us;
    }
  }

  /** A list is refused for its names, then for a generation that cannot advance, then for space,
      then if what it builds is not a record, then if that record goes back. */
  lemma BuildRefuses(v: View, us: seq<Update>)
    requires Sensible(v)
    ensures var s := BuildStatus(v.entries, us); var next := Next(v.entries, us);
            && (BadNames(us) ==> s == Invalid)
            && (s == Overflow <==> !BadNames(us) && Advancing(v.entries, us) && v.generation == 18446744073709551615)
            && (!BadNames(us) && s != Overflow && |Render(next)| + 1 > 16379 ==> s == Capacity)
            && (s == Ok ==> !BadNames(us) && |Render(Result(v.entries, us))| + 1 + 2048 <= 16379)
  {
    NamesAndChanges(v.entries, us);
    hide Render, Kept, Added, Lookup, ChangesCritical, GoodNames, BadNames, Advancing, NotOlder, Scalars, WellFormed;
  }

  lemma BuildConflicts(v: View, us: seq<Update>)
    requires Sensible(v) && BuildStatus(v.entries, us) in {Ok, Conflict}
    ensures Scalars(Result(v.entries, us))
    ensures BuildStatus(v.entries, us) == Conflict <==> GoesBack(ViewOf(Result(v.entries, us)), v)
  {
    BuildCompares(v, us);
    ComparisonsSay(ViewOf(Result(v.entries, us)), v);
  }

  lemma BuildCompares(v: View, us: seq<Update>)
    requires Sensible(v) && BuildStatus(v.entries, us) in {Ok, Conflict}
    ensures StatusOf(Payload(v.entries, us)) == Ok && Scalars(Result(v.entries, us))
    ensures BuildStatus(v.entries, us) == Conflict <==> !NotOlder(ViewOf(Result(v.entries, us)), v)
  {
    hide NotOlder, Next, ChangesCritical, GoodNames, Scalars, WellFormed, Holds;
  }
}
