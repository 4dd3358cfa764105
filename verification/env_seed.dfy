// The other two implementations of the record format: the seed builder
// (tools/os_bootstrap.py) and the card checker's reader (check_card_image.py).
module EnvSeed {
  import opened Bytes
  import opened Decimals
  import opened EnvFormat
  import opened EnvParse
  import opened EnvSelect
  import opened EnvBuild
  import Base64

  // ---- Python dictionaries: entries in insertion order ---------------------------

  /** `d[name] = value` */
  function Put(d: seq<Entry>, name: seq<Byte>, value: seq<Byte>): (r: seq<Entry>)
    ensures |d| <= |r| <= |d| + 1
  {
    if d == [] then [Entry(name, value)]
    else if d[0].name == name then [Entry(name, value)] + d[1..]
    else [d[0]] + Put(d[1..], name, value)
  }

  lemma {:induction false} PutLooksUp(d: seq<Entry>, name: seq<Byte>, value: seq<Byte>, other: seq<Byte>)
    ensures Lookup(Put(d, name, value), other) == if other == name then Some(value) else Lookup(d, other)
  {
    if d != [] && d[0].name != name {
      PutLooksUp(d[1..], name, value, other);
      assert Put(d, name, value)[1..] == Put(d[1..], name, value);
    } else if d != [] {
      assert Put(d, name, value)[1..] == d[1..];
    }
  }

  lemma {:induction false} PutMember(d: seq<Entry>, name: seq<Byte>, value: seq<Byte>, e: Entry)
    requires e in Put(d, name, value)
    ensures e == Entry(name, value) || e in d
  {
    if d != [] && d[0].name != name && e != d[0] { PutMember(d[1..], name, value, e); }
  }

  lemma {:induction false} PutKeepsDistinct(d: seq<Entry>, name: seq<Byte>, value: seq<Byte>)
    requires NoDuplicates(d)
    ensures NoDuplicates(Put(d, name, value))
  {
    if d != [] && d[0].name != name {
      PutKeepsDistinct(d[1..], name, value);
      var t := Put(d[1..], name, value);
      forall j | 0 <= j < |t| ensures t[j].name != d[0].name {
        PutMember(d[1..], name, value, t[j]);
        if t[j] in d[1..] {
          var k :| 0 <= k < |d[1..]| && d[1..][k] == t[j];
          assert d[k + 1] == t[j];
        }
      }
    }
  }

  // ---- sizes do not depend on the order of the entries -----------------------------

  function Total(es: seq<Entry>): nat { |Render(es)| }

  lemma {:induction false} TotalOfConcat(a: seq<Entry>, b: seq<Entry>)
    ensures Total(a + b) == Total(a) + Total(b)
  {
    if b == [] {
      assert a + b == a;
    } else {
      TotalOfConcat(a, b[..|b| - 1]);
      assert (a + b)[..|a + b| - 1] == a + b[..|b| - 1];
    }
  }

  lemma {:induction false} TotalOfPermutation(a: seq<Entry>, b: seq<Entry>)
    requires multiset(a) == multiset(b)
    ensures Total(a) == Total(b) && |a| == |b|
    decreases |a|
  {
    if a == [] {
      assert |multiset(b)| == 0;
    } else {
      var e := a[|a| - 1];
      assert a == a[..|a| - 1] + [e];
      assert e in multiset(b);
      var k :| 0 <= k < |b| && b[k] == e;
      var rest := b[..k] + b[k + 1..];
      assert b == b[..k] + [e] + b[k + 1..];
      assert multiset(a[..|a| - 1]) == multiset(a) - multiset{e};
      assert multiset(rest) == multiset(b) - multiset{e};
      TotalOfPermutation(a[..|a| - 1], rest);
      TotalOfConcat(b[..k], [e]);
      TotalOfConcat(b[..k] + [e], b[k + 1..]);
      TotalOfConcat(b[..k], b[k + 1..]);
      assert Total([e]) == |RenderEntry(e)| by { assert [e][..0] == []; }
    }
  }

  // ---- parse_defaults ---------------------------------------------------------------

  predicate IsLineBreak(c: Byte) { 10 <= c <= 13 || 28 <= c <= 30 }

  function FirstBreak(raw: seq<Byte>): (k: nat)
    ensures k <= |raw| && (k < |raw| ==> IsLineBreak(raw[k]))
  {
    if raw == [] || IsLineBreak(raw[0]) then 0 else 1 + FirstBreak(raw[1..])
  }

  /** `str.splitlines` on ASCII text: \r\n is one break, the last break ends the last line. */
  function SplitLines(raw: seq<Byte>): seq<seq<Byte>>
    decreases |raw|
  {
    if raw == [] then []
    else
      var k := FirstBreak(raw);
      if k == |raw| then [raw]
      else
        var width := if raw[k] == 13 && k + 1 < |raw| && raw[k + 1] == 10 then 2 else 1;
        [raw[..k]] + SplitLines(raw[k + width..])
  }

  predicate IsIdentifier(name: seq<Byte>) {
    && |name| > 0
    && (65 <= name[0] <= 90 || 97 <= name[0] <= 122 || name[0] == 95)
    && forall i :: 0 < i < |name| ==>
         65 <= name[i] <= 90 || 97 <= name[i] <= 122 || name[i] == 95 || 48 <= name[i] <= 57
  }

  predicate Reserved(name: seq<Byte>) {
    Ascii("epk_") <= name || Ascii("BOOT_") <= name
  }

  /** `name, value = line.split("=", 1)` */
  function SplitLine(line: seq<Byte>): Entry {
    var k := FirstEquals(line);
    if k == |line| then Entry(line, []) else Entry(line[..k], line[k + 1..])
  }

  ghost predicate GoodLine(line: seq<Byte>) {
    EQUALS in line && IsIdentifier(SplitLine(line).name) && !Reserved(SplitLine(line).name)
    && ValidValue(SplitLine(line).value)
  }

  /** A dictionary `parse_defaults` can return. */
  ghost predicate Defaults(d: seq<Entry>) {
    && NoDuplicates(d)
    && forall i :: 0 <= i < |d| ==> IsIdentifier(d[i].name) && !Reserved(d[i].name) && ValidValue(d[i].value)
  }

  lemma EmptyDefaults()
    ensures Defaults([])
  {
  }

  lemma DefaultsSnoc(d: seq<Entry>, e: Entry)
    requires Defaults(d) && IsIdentifier(e.name) && !Reserved(e.name) && ValidValue(e.value)
    requires forall i :: 0 <= i < |d| ==> d[i].name != e.name
    ensures Defaults(d + [e])
  {
  }

  /** `parse_defaults`: one entry per line, in order. */
  method ParseDefaults(raw: seq<Byte>) returns (ok: bool, values: seq<Entry>)
    ensures ok <==> GoodText(raw) && GoodLines(SplitLines(raw))
    ensures ok ==> Defaults(values) && |values| == |SplitLines(raw)|
    ensures ok ==> forall i :: 0 <= i < |values| ==> values[i] == SplitLine(SplitLines(raw)[i])
    ensures ok ==> forall e :: e in values ==> Assignment(e)
  {
    hide SplitLines, Assignment, GoodLine;
    values := [];
    ok := CheckText(raw);
    if !ok { return; }
    ok, values := ReadLines(SplitLines(raw));
    if ok { DefaultsAreAssignments(values); }
  }

  /** An entry that a line of defaults may hold: an identifier outside the reserved prefixes, and
      a printable value. */
  ghost predicate Assignment(e: Entry) {
    && e.name != [] && !('0' <= e.name[0] as char <= '9')
    && (forall k :: 0 <= k < |e.name| ==>
          var c := e.name[k] as char; 'A' <= c <= 'Z' || 'a' <= c <= 'z' || '0' <= c <= '9' || c == '_')
    && !(Ascii("epk_") <= e.name) && !(Ascii("BOOT_") <= e.name)
    && forall k :: 0 <= k < |e.value| ==> ' ' <= e.value[k] as char <= '~'
  }

  lemma AssignmentIs(e: Entry)
    ensures Assignment(e) <==> IsIdentifier(e.name) && !Reserved(e.name) && ValidValue(e.value)
  {
  }

  lemma DefaultsAreAssignments(d: seq<Entry>)
    ensures Defaults(d) <==> NoDuplicates(d) && forall e :: e in d ==> Assignment(e)
  {
    hide Assignment, IsIdentifier, Reserved, ValidValue, NoDuplicates;
    forall e ensures Assignment(e) <==> IsIdentifier(e.name) && !Reserved(e.name) && ValidValue(e.value) {
      AssignmentIs(e);
    }
    assert forall i :: 0 <= i < |d| ==> d[i] in d;
  }

  /** The text of a dictionary: one `name=value` line per entry. */
  function TextOf(d: seq<Entry>): seq<Byte> {
    if d == [] then [] else d[0].name + [EQUALS] + d[0].value + [10] + TextOf(d[1..])
  }

  /** The lines are proper and read as the entries. */
  ghost predicate ReadAs(lines: seq<seq<Byte>>, d: seq<Entry>) {
    |lines| == |d| && forall i :: 0 <= i < |d| ==> GoodLine(lines[i]) && SplitLine(lines[i]) == d[i]
  }

  /** Reading that text gives the dictionary back. */
  lemma DefaultsRoundTrip(d: seq<Entry>)
    requires NoDuplicates(d) && (forall e :: e in d ==> Assignment(e)) && d != [] && |TextOf(d)| <= 16379
    ensures GoodText(TextOf(d)) && GoodLines(SplitLines(TextOf(d))) && ReadAs(SplitLines(TextOf(d)), d)
  {
    DefaultsAreAssignments(d);
    hide Assignment, NoDuplicates;
    LinesAreRead(d);
    TextIsGood(d);
    hide GoodText, SplitLines, TextOf, GoodLine, SplitLine;
    LinesDiffer(SplitLines(TextOf(d)), d);
  }

  lemma {:induction false} LinesAreRead(d: seq<Entry>)
    requires Defaults(d)
    ensures ReadAs(SplitLines(TextOf(d)), d)
  {
    if d == [] {
      NoLines();
    } else {
      var line, rest := d[0].name + [EQUALS] + d[0].value, TextOf(d[1..]);
      hide IsIdentifier, Reserved, ValidValue, SplitLines, ReadAs, GoodLine, SplitLine;
      assert Defaults(d[1..]);
      LineIsRead(d[0]);
      hide Defaults;
      LinesAreRead(d[1..]);
      FirstLine(line, 10, rest);
      assert TextOf(d) == line + [10] + rest;
      OneMoreLine(line, SplitLines(rest), d);
    }
  }

  lemma OneMoreLine(line: seq<Byte>, lines: seq<seq<Byte>>, d: seq<Entry>)
    requires d != [] && ReadAs(lines, d[1..]) && GoodLine(line) && SplitLine(line) == d[0]
    ensures ReadAs([line] + lines, d)
  {
    hide GoodLine, SplitLine;
    var all := [line] + lines;
    forall i | 0 <= i < |d| ensures GoodLine(all[i]) && SplitLine(all[i]) == d[i] {
      if i > 0 { assert all[i] == lines[i - 1] && d[i] == d[1..][i - 1]; }
    }
  }

  lemma {:induction false} TextIsGood(d: seq<Entry>)
    requires Defaults(d) && d != [] && |TextOf(d)| <= 16379
    ensures GoodText(TextOf(d))
  {
    var line, rest := d[0].name + [EQUALS] + d[0].value, TextOf(d[1..]);
    hide IsIdentifier, Reserved, ValidValue, GoodLine, SplitLine;
    assert Defaults(d[1..]);
    LineIsRead(d[0]);
    assert TextOf(d) == line + [10] + rest;
    hide Defaults;
    if d[1..] != [] { TextIsGood(d[1..]); }
    TextIsAscii(line, rest, d[1..]);
  }

  lemma NoLines()
    ensures ReadAs(SplitLines(TextOf([])), [])
  {
  }

  lemma LinesDiffer(lines: seq<seq<Byte>>, d: seq<Entry>)
    requires Defaults(d) && ReadAs(lines, d)
    ensures GoodLines(lines)
  {
    hide GoodLine, SplitLine;
  }

  lemma TextIsAscii(line: seq<Byte>, rest: seq<Byte>, d: seq<Entry>)
    requires (forall i :: 0 <= i < |line| ==> line[i] < 128) && rest == TextOf(d)
    requires if d == [] then rest == [] else |rest| <= 16379 ==> GoodText(rest)
    ensures |line + [10] + rest| <= 16379 ==> GoodText(line + [10] + rest)
  {
    var text := line + [10] + rest;
    if |text| <= 16379 && d != [] { assert text[|text| - 1] == rest[|rest| - 1]; }
  }

  lemma LineIsRead(e: Entry)
    requires IsIdentifier(e.name) && !Reserved(e.name) && ValidValue(e.value)
    ensures var line := e.name + [EQUALS] + e.value;
            && SplitLine(line) == e && GoodLine(line)
            && forall i :: 0 <= i < |line| ==> line[i] < 128 && !IsLineBreak(line[i])
  {
    var line := e.name + [EQUALS] + e.value;
    FirstEqualsIs(line, |e.name|);
    assert line[..|e.name|] == e.name && line[|e.name| + 1..] == e.value;
    assert line[|e.name|] == EQUALS;
  }

  lemma FirstEqualsIs(name: seq<Byte>, k: nat)
    requires k < |name| && name[k] == EQUALS && forall i :: 0 <= i < k ==> name[i] != EQUALS
    ensures FirstEquals(name) == k
  {
  }

  /** Every break ends its line, the break CR LF as one; what is left over is a line. These cases
      make up every text. */
  lemma LinesEnd(line: seq<Byte>, b: Byte, rest: seq<Byte>)
    requires forall c :: c in line ==> c !in {10, 11, 12, 13, 28, 29, 30}
    ensures SplitLines(line) == if line == [] then [] else [line]
    ensures b in {10, 11, 12, 13, 28, 29, 30} && (b != 13 || rest == [] || rest[0] != 10) ==>
              SplitLines(line + [b] + rest) == [line] + SplitLines(rest)
    ensures SplitLines(line + [13, 10] + rest) == [line] + SplitLines(rest)
  {
    hide SplitLines;
    assert forall i :: 0 <= i < |line| ==> line[i] in line;
    if b in {10, 11, 12, 13, 28, 29, 30} && (b != 13 || rest == [] || rest[0] != 10) { FirstLine(line, b, rest); }
    WholeLine(line);
    FirstCrLf(line, rest);
  }

  lemma WholeLine(line: seq<Byte>)
    requires forall i :: 0 <= i < |line| ==> !IsLineBreak(line[i])
    ensures SplitLines(line) == if line == [] then [] else [line]
  {
    if line != [] { NoBreak(line); }
  }

  lemma {:induction false} NoBreak(line: seq<Byte>)
    requires forall i :: 0 <= i < |line| ==> !IsLineBreak(line[i])
    ensures FirstBreak(line) == |line|
  {
    if line != [] { NoBreak(line[1..]); }
  }

  lemma FirstLine(line: seq<Byte>, b: Byte, rest: seq<Byte>)
    requires forall i :: 0 <= i < |line| ==> !IsLineBreak(line[i])
    requires IsLineBreak(b) && (b != 13 || rest == [] || rest[0] != 10)
    ensures SplitLines(line + [b] + rest) == [line] + SplitLines(rest)
  {
    var raw := line + [b] + rest;
    FirstBreakIs(raw, |line|);
    assert raw[..|line|] == line && raw[|line| + 1..] == rest;
  }

  lemma FirstCrLf(line: seq<Byte>, rest: seq<Byte>)
    requires forall i :: 0 <= i < |line| ==> !IsLineBreak(line[i])
    ensures SplitLines(line + [13, 10] + rest) == [line] + SplitLines(rest)
  {
    var raw := line + [13, 10] + rest;
    FirstBreakIs(raw, |line|);
    assert raw[..|line|] == line && raw[|line| + 1] == 10 && raw[|line| + 2..] == rest;
  }

  lemma {:induction false} FirstBreakIs(raw: seq<Byte>, k: nat)
    requires k < |raw| && IsLineBreak(raw[k]) && forall i :: 0 <= i < k ==> !IsLineBreak(raw[i])
    ensures FirstBreak(raw) == k
  {
    if k > 0 { FirstBreakIs(raw[1..], k - 1); }
  }

  ghost predicate GoodText(raw: seq<Byte>) {
    0 < |raw| <= DATA_SIZE && raw[|raw| - 1] == 10 && forall i :: 0 <= i < |raw| ==> raw[i] < 128
  }

  ghost predicate GoodLines(lines: seq<seq<Byte>>) {
    && (forall i :: 0 <= i < |lines| ==> GoodLine(lines[i]))
    && (forall i, j :: 0 <= i < j < |lines| ==> SplitLine(lines[i]).name != SplitLine(lines[j]).name)
  }

  method CheckText(raw: seq<Byte>) returns (ok: bool)
    ensures ok <==> GoodText(raw)
  {
    if |raw| == 0 || |raw| > DATA_SIZE || raw[|raw| - 1] != 10 { return false; }
    var k := 0;
    while k < |raw|
      invariant 0 <= k <= |raw| && forall i :: 0 <= i < k ==> raw[i] < 128
    {
      if raw[k] >= 128 { return false; }
      k := k + 1;
    }
    return true;
  }

  /** The loop of `parse_defaults`. */
  method ReadLines(lines: seq<seq<Byte>>) returns (ok: bool, values: seq<Entry>)
    ensures ok <==> GoodLines(lines)
    ensures ok ==> Defaults(values) && |values| == |lines|
    ensures ok ==> forall i :: 0 <= i < |values| ==> values[i] == SplitLine(lines[i])
  {
    hide SplitLine, FirstEquals, Defaults;
    values := [];
    EmptyDefaults();
    var n := 0;
    while n < |lines|
      invariant 0 <= n <= |lines| && |values| == n && Defaults(values)
      invariant forall i :: 0 <= i < n ==> GoodLine(lines[i]) && values[i] == SplitLine(lines[i])
      invariant forall i, j :: 0 <= i < j < n ==> SplitLine(lines[i]).name != SplitLine(lines[j]).name
    {
      var line := lines[n];
      if EQUALS !in line { return false, values; }
      var e := SplitLine(line);
      var seen := false;
      var i := 0;
      while i < |values|
        invariant 0 <= i <= |values|
        invariant seen <==> exists j :: 0 <= j < i && values[j].name == e.name
      {
        if values[i].name == e.name { seen := true; }
        i := i + 1;
      }
      if !IsIdentifier(e.name) || seen || Reserved(e.name) { return false, values; }
      if !ValidValue(e.value) { return false, values; }
      DefaultsSnoc(values, e);
      values := values + [e];
      n := n + 1;
    }
    return true, values;
  }

  // ---- payload and record ------------------------------------------------------------

  /** `payload` of a dictionary whose items were sorted into this order. */
  function PayloadOf(sorted: seq<Entry>): Option<seq<Byte>> {
    if |sorted| > MAX_ENTRIES then None
    else if |Block(sorted)| > DATA_SIZE - HEADROOM then None
    else Some(Block(sorted))
  }

  /** `record`: padding is 0xFF, unlike the zeros of the guard's builder. */
  function RecordOf(sorted: seq<Entry>, flag: Byte): (r: Option<Record>)
    ensures r.Some? <==> PayloadOf(sorted).Some?
    ensures r.Some? ==> CrcValid(r.value) && Flag(r.value) == flag && Block(sorted) <= Data(r.value)
  {
    match PayloadOf(sorted)
    case None => None
    case Some(block) => Some(Sealed(flag, block + seq(DATA_SIZE - |block|, _ => 255)))
  }

  // ---- build_seed ----------------------------------------------------------------------

  const BOOT_ORDER := Ascii("BOOT_ORDER")
  const BOOT_A_LEFT := Ascii("BOOT_A_LEFT")
  const BOOT_B_LEFT := Ascii("BOOT_B_LEFT")
  const BUDGET_NAME := Ascii("epk_budget_runtime")
  const RUNTIME_RESERVE: nat := 4096
  const RESERVE_ENTRIES: nat := 64

  /** The verified inputs of a seed: the defaults, the platform's sequence, and a policy
      whose signature was checked (the check itself is opaque here). */
  datatype Seed = Seed(defaults: seq<Entry>, sequence: nat, epoch: nat, policy: seq<Byte>, signature: seq<Byte>)

  ghost predicate GoodSeed(s: Seed) {
    && Defaults(s.defaults)
    && 1 <= s.sequence <= U64_MAX && 1 <= s.epoch <= U64_MAX
    && 1 <= |s.policy| <= 6144 && |s.signature| == 64
  }

  /** `values` after the update in `build_seed`. */
  function Values(s: Seed): seq<Entry> {
    var d := Put(s.defaults, BOOT_ORDER, Ascii("A B"));
    var d := Put(d, BOOT_A_LEFT, Ascii("3"));
    var d := Put(d, BOOT_B_LEFT, Ascii("3"));
    var d := Put(d, SCHEMA, Ascii("1"));
    var d := Put(d, GENERATION, Ascii("0"));
    var d := Put(d, FLOOR, Digits(s.sequence));
    var d := Put(d, EPOCH, Digits(s.epoch));
    var d := Put(d, POLICY, Base64.Encode(s.policy));
    Put(d, POLICY_SIG, Base64.Encode(s.signature))
  }

  predicate GoodItem(e: Entry) { ValidName(e.name) && ValidValue(e.value) }

  ghost predicate GoodDictionary(d: seq<Entry>) {
    NoDuplicates(d) && forall e :: e in d ==> GoodItem(e)
  }

  lemma PutKeepsGood(d: seq<Entry>, name: seq<Byte>, value: seq<Byte>)
    requires GoodDictionary(d) && GoodItem(Entry(name, value))
    ensures GoodDictionary(Put(d, name, value))
  {
    PutKeepsDistinct(d, name, value);
    forall e | e in Put(d, name, value) ensures GoodItem(e) { PutMember(d, name, value, e); }
  }

  lemma ConstantsAreNames()
    ensures ValidName(BOOT_ORDER) && ValidName(BOOT_A_LEFT) && ValidName(BOOT_B_LEFT)
  {
  }

  lemma ScalarNamesAreNames()
    ensures ValidName(SCHEMA) && ValidName(GENERATION) && ValidName(FLOOR)
    ensures ValidName(EPOCH) && ValidName(POLICY) && ValidName(POLICY_SIG)
  {
  }

  lemma NamesDiffer()
    ensures |SCHEMA| == |POLICY| == 16 && |GENERATION| == |POLICY_SIG| == 20 && |FLOOR| == 12 && |EPOCH| == 15
    ensures |BOOT_ORDER| == 10 && |BOOT_A_LEFT| == |BOOT_B_LEFT| == 11
    ensures SCHEMA != POLICY && GENERATION != POLICY_SIG && BOOT_A_LEFT != BOOT_B_LEFT
  {
    assert SCHEMA[4] != POLICY[4] && GENERATION[4] != POLICY_SIG[4] && BOOT_A_LEFT[5] != BOOT_B_LEFT[5];
  }

  lemma DefaultsAreGood(d: seq<Entry>)
    requires Defaults(d)
    ensures GoodDictionary(d)
  {
    forall e | e in d ensures GoodItem(e) {
      var i :| 0 <= i < |d| && d[i] == e;
      assert IsIdentifier(d[i].name);
    }
  }

  lemma DigitsArePrintable(n: nat)
    ensures ValidValue(Digits(n))
  {
    assert AllDigits(Digits(n));
    forall i | 0 <= i < |Digits(n)| ensures 32 <= Digits(n)[i] <= 126 { assert IsDigit(Digits(n)[i]); }
  }

  lemma ValuesAreGood(s: Seed)
    requires GoodSeed(s)
    ensures GoodDictionary(Values(s))
  {
    hide Put, Digits, Base64.Encode;
    ConstantsAreNames();
    ScalarNamesAreNames();
    DefaultsAreGood(s.defaults);
    DigitsArePrintable(s.sequence);
    DigitsArePrintable(s.epoch);
    Base64.EncodeIsCanonical(s.policy);
    Base64.EncodeIsCanonical(s.signature);
    var d := s.defaults;
    PutKeepsGood(d, BOOT_ORDER, Ascii("A B"));
    d := Put(d, BOOT_ORDER, Ascii("A B"));
    PutKeepsGood(d, BOOT_A_LEFT, Ascii("3"));
    d := Put(d, BOOT_A_LEFT, Ascii("3"));
    PutKeepsGood(d, BOOT_B_LEFT, Ascii("3"));
    d := Put(d, BOOT_B_LEFT, Ascii("3"));
    PutKeepsGood(d, SCHEMA, Ascii("1"));
    d := Put(d, SCHEMA, Ascii("1"));
    PutKeepsGood(d, GENERATION, Ascii("0"));
    d := Put(d, GENERATION, Ascii("0"));
    PutKeepsGood(d, FLOOR, Digits(s.sequence));
    d := Put(d, FLOOR, Digits(s.sequence));
    PutKeepsGood(d, EPOCH, Digits(s.epoch));
    d := Put(d, EPOCH, Digits(s.epoch));
    PutKeepsGood(d, POLICY, Base64.Encode(s.policy));
    d := Put(d, POLICY, Base64.Encode(s.policy));
    PutKeepsGood(d, POLICY_SIG, Base64.Encode(s.signature));
  }

  lemma ValuesLookUp(s: Seed)
    ensures Lookup(Values(s), SCHEMA) == Some(Ascii("1"))
    ensures Lookup(Values(s), GENERATION) == Some(Ascii("0"))
    ensures Lookup(Values(s), FLOOR) == Some(Digits(s.sequence))
    ensures Lookup(Values(s), EPOCH) == Some(Digits(s.epoch))
    ensures Lookup(Values(s), POLICY) == Some(Base64.Encode(s.policy))
    ensures Lookup(Values(s), POLICY_SIG) == Some(Base64.Encode(s.signature))
  {
    forall name
      ensures Lookup(Values(s), name) == Seeded(s, name)
    {
      ValuesLookUpOne(s, name);
    }
    hide Values;
    NamesDiffer();
  }

  /** What the seed stores under a name. */
  function Seeded(s: Seed, name: seq<Byte>): Option<seq<Byte>> {
    if name == POLICY_SIG then Some(Base64.Encode(s.signature))
    else if name == POLICY then Some(Base64.Encode(s.policy))
    else if name == EPOCH then Some(Digits(s.epoch))
    else if name == FLOOR then Some(Digits(s.sequence))
    else if name == GENERATION then Some(Ascii("0"))
    else if name == SCHEMA then Some(Ascii("1"))
    else if name in {BOOT_A_LEFT, BOOT_B_LEFT} then Some(Ascii("3"))
    else if name == BOOT_ORDER then Some(Ascii("A B"))
    else Lookup(s.defaults, name)
  }

  lemma ValuesLookUpOne(s: Seed, name: seq<Byte>)
    ensures Lookup(Values(s), name) == Seeded(s, name)
  {
    hide Put, Lookup, Digits, Base64.Encode;
    var d1 := Put(s.defaults, BOOT_ORDER, Ascii("A B"));
    var d2 := Put(d1, BOOT_A_LEFT, Ascii("3"));
    var d3 := Put(d2, BOOT_B_LEFT, Ascii("3"));
    var d4 := Put(d3, SCHEMA, Ascii("1"));
    var d5 := Put(d4, GENERATION, Ascii("0"));
    var d6 := Put(d5, FLOOR, Digits(s.sequence));
    var d7 := Put(d6, EPOCH, Digits(s.epoch));
    var d8 := Put(d7, POLICY, Base64.Encode(s.policy));
    PutLooksUp(s.defaults, BOOT_ORDER, Ascii("A B"), name);
    PutLooksUp(d1, BOOT_A_LEFT, Ascii("3"), name);
    PutLooksUp(d2, BOOT_B_LEFT, Ascii("3"), name);
    PutLooksUp(d3, SCHEMA, Ascii("1"), name);
    PutLooksUp(d4, GENERATION, Ascii("0"), name);
    PutLooksUp(d5, FLOOR, Digits(s.sequence), name);
    PutLooksUp(d6, EPOCH, Digits(s.epoch), name);
    PutLooksUp(d7, POLICY, Base64.Encode(s.policy), name);
    PutLooksUp(d8, POLICY_SIG, Base64.Encode(s.signature), name);
  }

  /** What is seeded: the given policy and signature, ... */
  lemma SeedHolds(s: Seed, sorted: seq<Entry>)
    requires GoodSeed(s) && multiset(sorted) == multiset(Values(s))
    ensures Lookup(sorted, POLICY) == Some(Base64.Encode(s.policy))
    ensures Lookup(sorted, POLICY_SIG) == Some(Base64.Encode(s.signature))
  {
    SeededOne(s, sorted, POLICY);
    SeededOne(s, sorted, POLICY_SIG);
    hide Values, Lookup, GoodDictionary, Base64.Encode, Digits, GoodSeed;
    BootNamesDiffer(POLICY);
  }

  /** ... every default as it was, ... */
  lemma SeedKeepsDefaults(s: Seed, sorted: seq<Entry>, name: seq<Byte>)
    requires GoodSeed(s) && multiset(sorted) == multiset(Values(s))
    requires !(Ascii("epk_") <= name) && !(Ascii("BOOT_") <= name)
    ensures Lookup(sorted, name) == Lookup(s.defaults, name)
  {
    SeededOne(s, sorted, name);
    hide Values, Lookup, GoodDictionary, Base64.Encode, Digits, GoodSeed;
    BootNamesDiffer(name);
  }

  lemma SeededOne(s: Seed, sorted: seq<Entry>, name: seq<Byte>)
    requires GoodSeed(s) && multiset(sorted) == multiset(Values(s))
    ensures Lookup(sorted, name) == Seeded(s, name)
  {
    hide Values, Lookup, GoodDictionary, Seeded;
    ValuesLookUpOne(s, name);
    ValuesAreGood(s);
    PermutationKeepsGood(Values(s), sorted);
  }

  /** ... and a fixed boot state: both slots start with three attempts, A first. */
  lemma SeedBoots(s: Seed, sorted: seq<Entry>)
    requires GoodSeed(s) && multiset(sorted) == multiset(Values(s))
    ensures Lookup(sorted, Ascii("BOOT_ORDER")) == Some(Ascii("A B"))
  {
    SeededOne(s, sorted, BOOT_ORDER);
    hide Values, Lookup, GoodDictionary, Base64.Encode, Digits, GoodSeed;
    BootNamesDiffer(BOOT_ORDER);
  }

  lemma SeedTries(s: Seed, sorted: seq<Entry>)
    requires GoodSeed(s) && multiset(sorted) == multiset(Values(s))
    ensures Lookup(sorted, Ascii("BOOT_A_LEFT")) == Lookup(sorted, Ascii("BOOT_B_LEFT")) == Some([51])
  {
    SeededOne(s, sorted, BOOT_A_LEFT);
    SeededOne(s, sorted, BOOT_B_LEFT);
    hide Values, Lookup, GoodDictionary, Base64.Encode, Digits, GoodSeed;
    BootNamesDiffer(BOOT_A_LEFT);
    BootNamesDiffer(BOOT_B_LEFT);
    assert Ascii("3") == [51];
  }

  lemma BootNamesDiffer(name: seq<Byte>)
    ensures name in {BOOT_ORDER, BOOT_A_LEFT, BOOT_B_LEFT} ==>
              name !in {POLICY_SIG, POLICY, EPOCH, FLOOR, GENERATION, SCHEMA}
    ensures name == BOOT_ORDER ==> name !in {BOOT_A_LEFT, BOOT_B_LEFT}
    ensures name == POLICY ==> name != POLICY_SIG
    ensures !(Ascii("epk_") <= name) && !(Ascii("BOOT_") <= name) ==>
              name !in {POLICY_SIG, POLICY, EPOCH, FLOOR, GENERATION, SCHEMA, BOOT_ORDER, BOOT_A_LEFT, BOOT_B_LEFT}
  {
    assert |BOOT_ORDER| == 10 && |BOOT_A_LEFT| == 11 && |POLICY| == 16 && |POLICY_SIG| == 20;
    assert BOOT_ORDER[0] == 66 && BOOT_A_LEFT[0] == 66 && BOOT_B_LEFT[0] == 66;
  }

  function Repeat(c: Byte, n: nat): (s: seq<Byte>)
    ensures |s| == n
  {
    seq(n, _ => c)
  }

  /** The budget fixture: every growing field at its limit, and one placeholder for the
      runtime reserve. It is measured, never written. */
  function Worst(d: seq<Entry>): seq<Entry> {
    var w := Put(d, GENERATION, Digits(U64_MAX));
    var w := Put(w, FLOOR, Digits(U64_MAX));
    var w := Put(w, EPOCH, Digits(U64_MAX));
    var w := Put(w, POLICY, Repeat(65, 8192));
    var w := Put(w, POLICY_SIG, Repeat(65, 86) + [61, 61]);
    Put(w, BUDGET_NAME, Repeat(120, RUNTIME_RESERVE - |BUDGET_NAME| - 2))
  }

  ghost predicate Accepts(s: Seed, sorted: seq<Entry>, sortedWorst: seq<Entry>) {
    && GoodSeed(s)
    && multiset(sorted) == multiset(Values(s)) && multiset(sortedWorst) == multiset(Worst(Values(s)))
    && |Values(s)| + RESERVE_ENTRIES <= MAX_ENTRIES
    && PayloadOf(sorted).Some? && PayloadOf(sortedWorst).Some?
  }

  // ---- the guard reads what the builder wrote ---------------------------------------

  lemma PermutationKeepsGood(d: seq<Entry>, sorted: seq<Entry>)
    requires GoodDictionary(d) && multiset(sorted) == multiset(d)
    ensures GoodDictionary(sorted) && |sorted| == |d|
    ensures forall name :: Lookup(sorted, name) == Lookup(d, name)
  {
    assert forall e :: e in sorted <==> e in multiset(sorted);
    assert forall e :: e in d <==> e in multiset(d);
    PermutationDistinct(d, sorted);
    TotalOfPermutation(sorted, d);
    forall name ensures Lookup(sorted, name) == Lookup(d, name) {
      hide Lookup, Render;
      if Lookup(sorted, name).Some? {
        var v := Lookup(sorted, name).value;
        LookupMember(sorted, name, v);
        LookupMember(d, name, v);
      } else if Lookup(d, name).Some? {
        var v := Lookup(d, name).value;
        LookupMember(d, name, v);
        LookupMember(sorted, name, v);
      }
    }
  }

  lemma PermutationDistinct(d: seq<Entry>, sorted: seq<Entry>)
    requires NoDuplicates(d) && multiset(sorted) == multiset(d)
    ensures NoDuplicates(sorted)
  {
    forall i, j | 0 <= i < j < |sorted| ensures sorted[i].name != sorted[j].name {
      assert sorted[i] in multiset(d) && sorted[j] in multiset(d);
      if sorted[i] == sorted[j] {
        assert sorted == sorted[..j] + [sorted[j]] + sorted[j + 1..];
        assert sorted[i] in sorted[..j];
        assert multiset(sorted)[sorted[i]] >= 2;
        OnceOnly(d, sorted[i]);
      } else {
        var p :| 0 <= p < |d| && d[p] == sorted[i];
        var q :| 0 <= q < |d| && d[q] == sorted[j];
      }
    }
  }

  lemma {:induction false} OnceOnly(d: seq<Entry>, e: Entry)
    requires NoDuplicates(d)
    ensures multiset(d)[e] <= 1
  {
    if d != [] {
      var front := d[..|d| - 1];
      OnceOnly(front, e);
      assert d == front + [d[|d| - 1]];
      assert forall k :: 0 <= k < |front| ==> front[k] == d[k] && d[k].name != d[|d| - 1].name;
    }
  }

  /** Every accepted seed is selected by the guard as copy B, at generation 0, with the
      given floor and epoch. */
  lemma SeedIsSelected(s: Seed, sorted: seq<Entry>, sortedWorst: seq<Entry>, a: Record, b: Record)
    requires Accepts(s, sorted, sortedWorst)
    requires RecordOf(sorted, 1) == Some(a) && RecordOf(sorted, 2) == Some(b)
    ensures Choose(Card(a, b)) == Chosen(1)
    ensures var v := State(Card(a, b));
            && v.entries == sorted && v.generation == 0 && v.floor == s.sequence && v.epoch == s.epoch
  {
    hide Pick, Values, Worst, Sealed, CrcValid, Render;
    ValuesAreGood(s);
    PermutationKeepsGood(Values(s), sorted);
    SeedScalars(s, sorted);
    WellFormedSeed(sorted);
    EntriesUnique(a, sorted);
    EntriesUnique(b, sorted);
    assert Look(a) == Sound(1, ViewOf(sorted)) && Look(b) == Sound(2, ViewOf(sorted));
    PickEqual(Look(a), Look(b));
  }

  lemma PickEqual(a: Copy, b: Copy)
    requires a.Sound? && b.Sound? && a.view == b.view && a.flag == 1 && b.flag == 2
    ensures Pick(a, b) == Chosen(1)
  {
  }

  lemma WellFormedSeed(sorted: seq<Entry>)
    requires GoodDictionary(sorted) && 0 < |sorted| <= MAX_ENTRIES
    ensures WellFormed(sorted)
  {
    forall i | 0 <= i < |sorted| ensures ValidEntry(sorted[i]) { assert sorted[i] in sorted; }
  }

  lemma SeedScalars(s: Seed, sorted: seq<Entry>)
    requires GoodSeed(s) && forall name :: Lookup(sorted, name) == Lookup(Values(s), name)
    ensures Scalars(sorted) && sorted != []
    ensures Number(sorted, GENERATION) == 0 && Number(sorted, FLOOR) == s.sequence && Number(sorted, EPOCH) == s.epoch
  {
    hide Values;
    ValuesLookUp(s);
    ValueOfDigits(s.sequence);
    ValueOfDigits(s.epoch);
    ValueOfDigits(0);
    assert Ascii("0") == Digits(0);
    Base64.EncodeIsCanonical(s.policy);
    Base64.EncodeIsCanonical(s.signature);
    assert Lookup(sorted, SCHEMA).Some?;
  }

  // ---- the space budget ----------------------------------------------------------------

  /** Bytes of one entry, its `=` and NUL included. */
  function SizeOf(name: seq<Byte>, value: seq<Byte>): nat { |name| + |value| + 2 }

  function SizeIn(d: seq<Entry>, name: seq<Byte>): nat {
    if Lookup(d, name).Some? then SizeOf(name, Lookup(d, name).value) else 0
  }

  lemma {:induction false} TotalOfPut(d: seq<Entry>, name: seq<Byte>, value: seq<Byte>)
    ensures Total(Put(d, name, value)) == Total(d) - SizeIn(d, name) + SizeOf(name, value)
  {
    var e := Entry(name, value);
    TotalOfOne(e);
    if d != [] {
      assert d == [d[0]] + d[1..];
      TotalOfConcat([d[0]], d[1..]);
      TotalOfOne(d[0]);
      if d[0].name == name {
        TotalOfConcat([e], d[1..]);
      } else {
        TotalOfPut(d[1..], name, value);
        TotalOfConcat([d[0]], Put(d[1..], name, value));
      }
    } else {
      assert Render([]) == [];
    }
  }

  lemma TotalOfOne(e: Entry)
    ensures Total([e]) == SizeOf(e.name, e.value)
  {
    assert [e][..0] == [] && Render([]) == [];
    assert Render([e]) == Render([]) + RenderEntry(e);
  }

  /** A later state of the card: the seeded names with values that stay within the
      limits of the growing fields, and at most 64 more entries of 4096 bytes in all. */
  ghost predicate Grown(d: seq<Entry>, later: seq<Entry>, extra: seq<Entry>) {
    && |later| == |d| && |extra| <= RESERVE_ENTRIES && Total(extra) <= RUNTIME_RESERVE
    && forall i :: 0 <= i < |d| ==> later[i].name == d[i].name && |later[i].value| <= Limit(d[i])
  }

  function Limit(e: Entry): nat {
    if e.name in {GENERATION, FLOOR, EPOCH} then 20
    else if e.name == POLICY then 8192
    else if e.name == POLICY_SIG then 88
    else |e.value|
  }

  /** Sum of the limits of the entries. */
  function LimitTotal(d: seq<Entry>): nat {
    if d == [] then 0 else |d[0].name| + Limit(d[0]) + 2 + LimitTotal(d[1..])
  }

  lemma {:induction false} GrownTotal(d: seq<Entry>, later: seq<Entry>)
    requires |later| == |d|
    requires forall i :: 0 <= i < |d| ==> later[i].name == d[i].name && |later[i].value| <= Limit(d[i])
    ensures Total(later) <= LimitTotal(d)
  {
    if d == [] {
      assert later == [] && Render(later) == [];
    } else {
      GrownTotal(d[1..], later[1..]);
      assert later == [later[0]] + later[1..];
      TotalOfConcat([later[0]], later[1..]);
      TotalOfOne(later[0]);
    }
  }

  predicate Grows(name: seq<Byte>) { name in {GENERATION, FLOOR, EPOCH, POLICY, POLICY_SIG} }

  /** Setting a growing field does not move the limits. */
  lemma {:induction false} LimitOfPut(d: seq<Entry>, name: seq<Byte>, value: seq<Byte>)
    requires Lookup(d, name).Some? && Grows(name)
    ensures LimitTotal(Put(d, name, value)) == LimitTotal(d)
  {
    if d[0].name != name {
      LimitOfPut(d[1..], name, value);
      assert Put(d, name, value)[1..] == Put(d[1..], name, value);
    } else {
      assert Put(d, name, value)[1..] == d[1..];
    }
  }

  ghost predicate AtLimit(d: seq<Entry>, names: set<seq<Byte>>) {
    forall e :: e in d && (e.name in names || !Grows(e.name)) ==> |e.value| == Limit(e)
  }

  lemma {:induction false} LimitReached(d: seq<Entry>)
    requires AtLimit(d, {GENERATION, FLOOR, EPOCH, POLICY, POLICY_SIG})
    ensures Total(d) == LimitTotal(d)
  {
    if d == [] {
      assert Render(d) == [];
    } else {
      LimitReached(d[1..]);
      assert d == [d[0]] + d[1..];
      TotalOfConcat([d[0]], d[1..]);
      TotalOfOne(d[0]);
    }
  }

  lemma {:induction false} PutReplaces(d: seq<Entry>, name: seq<Byte>, value: seq<Byte>, e: Entry)
    requires NoDuplicates(d) && e in Put(d, name, value)
    ensures e.name == name ==> e.value == value
  {
    if d != [] && d[0].name != name {
      if e != d[0] { PutReplaces(d[1..], name, value, e); }
    } else if d != [] {
      if e in d[1..] { var k :| 0 < k < |d| && d[k] == e; }
    }
  }

  lemma RaiseOne(d: seq<Entry>, names: set<seq<Byte>>, name: seq<Byte>, value: seq<Byte>)
    requires NoDuplicates(d) && AtLimit(d, names) && Grows(name) && Lookup(d, name).Some?
    requires |value| == Limit(Entry(name, value))
    ensures var w := Put(d, name, value);
            NoDuplicates(w) && AtLimit(w, names + {name}) && LimitTotal(w) == LimitTotal(d)
    ensures forall other :: Lookup(Put(d, name, value), other).Some? <==> Lookup(d, other).Some?
  {
    PutKeepsDistinct(d, name, value);
    LimitOfPut(d, name, value);
    forall e | e in Put(d, name, value) && (e.name in names + {name} || !Grows(e.name))
      ensures |e.value| == Limit(e)
    {
      PutMember(d, name, value, e);
      PutReplaces(d, name, value, e);
    }
    forall other { PutLooksUp(d, name, value, other); }
  }

  lemma MaximumDigits()
    ensures |Digits(U64_MAX)| == 20
  {
    MaximumIsU64Max(MAXIMUM);
    assert MAXIMUM[0] == 49;
    DigitsOfValue(MAXIMUM);
  }

  /** The three numbers at their limit. */
  lemma RaiseNumbers(d: seq<Entry>) returns (w: seq<Entry>)
    requires NoDuplicates(d) && forall name :: Grows(name) ==> Lookup(d, name).Some?
    ensures w == Put(Put(Put(d, GENERATION, Digits(U64_MAX)), FLOOR, Digits(U64_MAX)), EPOCH, Digits(U64_MAX))
    ensures NoDuplicates(w) && AtLimit(w, {GENERATION, FLOOR, EPOCH}) && LimitTotal(w) == LimitTotal(d)
    ensures forall other :: Lookup(w, other).Some? <==> Lookup(d, other).Some?
  {
    assert AtLimit(d, {});
    hide Put, Lookup, Digits, AtLimit, NoDuplicates, LimitTotal;
    MaximumDigits();
    PolicyLimits();
    var digits := Digits(U64_MAX);
    RaiseOne(d, {}, GENERATION, digits);
    w := Put(d, GENERATION, digits);
    assert {} + {GENERATION} == {GENERATION};
    RaiseOne(w, {GENERATION}, FLOOR, digits);
    w := Put(w, FLOOR, digits);
    assert {GENERATION} + {FLOOR} == {GENERATION, FLOOR};
    RaiseOne(w, {GENERATION, FLOOR}, EPOCH, digits);
    w := Put(w, EPOCH, digits);
    assert {GENERATION, FLOOR} + {EPOCH} == {GENERATION, FLOOR, EPOCH};
  }

  /** And then the policy and its signature. */
  lemma RaisePolicy(d: seq<Entry>) returns (w: seq<Entry>)
    requires NoDuplicates(d) && AtLimit(d, {GENERATION, FLOOR, EPOCH})
    requires Lookup(d, POLICY).Some? && Lookup(d, POLICY_SIG).Some?
    ensures w == Put(Put(d, POLICY, Repeat(65, 8192)), POLICY_SIG, Repeat(65, 86) + [61, 61])
    ensures AtLimit(w, {GENERATION, FLOOR, EPOCH, POLICY, POLICY_SIG}) && LimitTotal(w) == LimitTotal(d)
    ensures forall other :: Lookup(w, other).Some? <==> Lookup(d, other).Some?
  {
    hide Put, Lookup, Digits, AtLimit, NoDuplicates, LimitTotal;
    PolicyLimits();
    RaiseOne(d, {GENERATION, FLOOR, EPOCH}, POLICY, Repeat(65, 8192));
    w := Put(d, POLICY, Repeat(65, 8192));
    assert {GENERATION, FLOOR, EPOCH} + {POLICY} == {GENERATION, FLOOR, EPOCH, POLICY};
    RaiseOne(w, {GENERATION, FLOOR, EPOCH, POLICY}, POLICY_SIG, Repeat(65, 86) + [61, 61]);
    w := Put(w, POLICY_SIG, Repeat(65, 86) + [61, 61]);
    assert {GENERATION, FLOOR, EPOCH, POLICY} + {POLICY_SIG} == {GENERATION, FLOOR, EPOCH, POLICY, POLICY_SIG};
  }

  /** The measured fixture is exactly the limits plus the runtime reserve. */
  lemma WorstTotal(d: seq<Entry>)
    requires NoDuplicates(d) && Lookup(d, BUDGET_NAME) == None
    requires forall name :: Grows(name) ==> Lookup(d, name).Some?
    ensures Total(Worst(d)) == LimitTotal(d) + RUNTIME_RESERVE
  {
    hide Put, Lookup, Render, Digits, AtLimit, NoDuplicates, LimitTotal, Repeat;
    var numbers := RaiseNumbers(d);
    var all := RaisePolicy(numbers);
    LimitReached(all);
    TotalOfPut(all, BUDGET_NAME, Repeat(120, RUNTIME_RESERVE - |BUDGET_NAME| - 2));
  }

  lemma PolicyLimits()
    ensures forall v :: Limit(Entry(POLICY, v)) == 8192 && Limit(Entry(POLICY_SIG, v)) == 88
    ensures forall v :: Limit(Entry(GENERATION, v)) == Limit(Entry(FLOOR, v)) == Limit(Entry(EPOCH, v)) == 20
  {
    NamesDiffer();
  }

  /** The budget holds: after every growing field has reached its limit and the runtime
      reserve is spent, in any order, the card still fits with its headroom. */
  lemma SeedBudget(s: Seed, sorted: seq<Entry>, sortedWorst: seq<Entry>,
                   later: seq<Entry>, extra: seq<Entry>, after: seq<Entry>)
    requires Accepts(s, sorted, sortedWorst)
    requires Grown(Values(s), later, extra) && multiset(after) == multiset(later + extra)
    ensures Used(after) + HEADROOM <= DATA_SIZE && |after| <= MAX_ENTRIES
  {
    hide Values, Worst, Render;
    var d := Values(s);
    ValuesAreGood(s);
    ValuesLookUp(s);
    BudgetNameIsFree(s);
    WorstTotal(d);
    TotalOfPermutation(sortedWorst, Worst(d));
    GrownTotal(d, later);
    TotalOfConcat(later, extra);
    TotalOfPermutation(after, later + extra);
  }

  lemma BudgetNameIsFree(s: Seed)
    requires GoodSeed(s)
    ensures Lookup(Values(s), BUDGET_NAME) == None
  {
    ValuesLookUpOne(s, BUDGET_NAME);
    NamesDiffer();
    assert |BUDGET_NAME| == 18 && Ascii("epk_") <= BUDGET_NAME;
    assert Reserved(BUDGET_NAME);
    var i := LookupFinds(s.defaults, BUDGET_NAME);
  }

  /** Every value a seed starts with is within its limit. */
  lemma ValuesWithinLimits(s: Seed, i: nat)
    requires GoodSeed(s) && i < |Values(s)|
    ensures |Values(s)[i].value| <= Limit(Values(s)[i])
  {
    hide Values, Render;
    ValuesAreGood(s);
    ValuesLookUp(s);
    LookupAt(Values(s), i);
    MaximumDigits();
    NumberWidth(s.sequence);
    NumberWidth(s.epoch);
    EncodedWidth(s.policy);
    EncodedWidth(s.signature);
  }

  lemma NumberWidth(n: nat)
    requires n <= U64_MAX
    ensures |Digits(n)| <= 20
  {
    Power10Values();
    DigitsLength(n, 20);
  }

  lemma EncodedWidth(raw: seq<Byte>)
    requires raw != []
    ensures |raw| <= 6144 ==> |Base64.Encode(raw)| <= 8192
    ensures |raw| == 64 ==> |Base64.Encode(raw)| <= 88
  {
    Base64.EncodeIsCanonical(raw);
  }

  lemma WorstLength(d: seq<Entry>)
    ensures |Worst(d)| <= |d| + 6
  {
  }

  lemma ValuesFacts(s: Seed)
    requires GoodSeed(s)
    ensures NoDuplicates(Values(s)) && forall name :: Grows(name) ==> Lookup(Values(s), name).Some?
  {
    hide Values;
    ValuesAreGood(s);
    ValuesLookUp(s);
  }

  /** Both budget checks together: the limits of all entries and the runtime reserve fit. */
  lemma SeedFits(s: Seed, sorted: seq<Entry>, sortedWorst: seq<Entry>)
    requires GoodSeed(s) && |Values(s)| + RESERVE_ENTRIES <= MAX_ENTRIES
    requires multiset(sorted) == multiset(Values(s)) && multiset(sortedWorst) == multiset(Worst(Values(s)))
    ensures PayloadOf(sorted).Some? && PayloadOf(sortedWorst).Some? <==>
            LimitTotal(Values(s)) + RUNTIME_RESERVE + 1 + HEADROOM <= DATA_SIZE
  {
    var d := Values(s);
    WorstLength(d);
    hide Values, Worst, Render, Lookup, LimitTotal, GoodDictionary;
    ValuesFacts(s);
    BudgetNameIsFree(s);
    WorstTotal(d);
    TotalOfPermutation(sorted, d);
    TotalOfPermutation(sortedWorst, Worst(d));
    forall i | 0 <= i < |d| ensures |d[i].value| <= Limit(d[i]) { ValuesWithinLimits(s, i); }
    GrownTotal(d, d);
  }

  /** Whatever this card grows to within the limits leaves the headroom free. */
  ghost predicate KeepsBudget(d: seq<Entry>) {
    forall later, extra, after :: Grown(d, later, extra) && multiset(after) == multiset(later + extra) ==>
      Used(after) + HEADROOM <= DATA_SIZE && |after| <= MAX_ENTRIES
  }

  lemma SeedKeepsBudget(s: Seed, sorted: seq<Entry>, sortedWorst: seq<Entry>)
    requires Accepts(s, sorted, sortedWorst)
    ensures KeepsBudget(Values(s))
  {
    hide Values, Worst, Accepts, Grown, Render;
    forall later, extra, after | Grown(Values(s), later, extra) && multiset(after) == multiset(later + extra)
      ensures Used(after) + HEADROOM <= DATA_SIZE && |after| <= MAX_ENTRIES
    {
      SeedBudget(s, sorted, sortedWorst, later, extra, after);
    }
  }

  /** `build_seed` from verified inputs; the two orders are what `sorted` returns. It builds
      exactly if the entries leave 64 slots and their limits leave room for the reserve, and
      then the guard selects copy B with the seeded state, for as long as the budget is kept. */
  method BuildSeed(s: Seed, sorted: seq<Entry>, sortedWorst: seq<Entry>) returns (r: Option<(Record, Record)>)
    requires GoodSeed(s)
    requires multiset(sorted) == multiset(Values(s)) && multiset(sortedWorst) == multiset(Worst(Values(s)))
    ensures r.Some? <==> |Values(s)| + 64 <= 256 && LimitTotal(Values(s)) + 4096 + 1 + 2048 <= 16379
    ensures r.Some? ==> Choose(Card(r.value.0, r.value.1)) == Chosen(1)
    ensures r.Some? ==>
              var v := State(Card(r.value.0, r.value.1));
              v.entries == sorted && v.generation == 0 && v.floor == s.sequence && v.epoch == s.epoch
    ensures r.Some? ==> Flag(r.value.0) == 1 && Flag(r.value.1) == 2 && Block(sorted) <= Data(r.value.0)
    ensures r.Some? ==> KeepsBudget(Values(s))
  {
    hide Values, Worst, LimitTotal, Choose, State;
    if |Values(s)| + RESERVE_ENTRIES > MAX_ENTRIES { return None; }
    SeedFits(s, sorted, sortedWorst);
    if PayloadOf(sorted).None? || PayloadOf(sortedWorst).None? { return None; }
    r := Some((RecordOf(sorted, 1).value, RecordOf(sorted, 2).value));
    SeedIsSelected(s, sorted, sortedWorst, r.value.0, r.value.1);
    SeedKeepsBudget(s, sorted, sortedWorst);
  }

  // ---- parse_env: the checker's reader ---------------------------------------------

  /** What `parse_env` accepts: no rule for names or values but ASCII and a first `=`. */
  ghost predicate Readable(data: seq<Byte>, es: seq<Entry>) {
    && Renders(data, es) && NoDuplicates(es)
    && forall i :: 0 <= i < |es| ==> IsAscii(es[i].name) && IsAscii(es[i].value)
  }

  predicate IsAscii(s: seq<Byte>) { forall i :: 0 <= i < |s| ==> s[i] < 128 }

  ghost predicate IsMapOf(m: map<seq<Byte>, seq<Byte>>, es: seq<Entry>) {
    forall name :: Lookup(es, name) == if name in m then Some(m[name]) else None
  }

  /** Whatever the guard decodes, the checker can read too. */
  lemma HoldsIsReadable(data: seq<Byte>, es: seq<Entry>)
    requires Holds(data, es)
    ensures Readable(data, es)
  {
    WellFormedIsPlain(es);
    forall i | 0 <= i < |es| ensures IsAscii(es[i].name) && IsAscii(es[i].value) { assert ValidEntry(es[i]); }
  }

  ghost predicate Leads(data: seq<Byte>, entries: seq<Entry>) {
    forall es :: Readable(data, es) ==> entries <= es
  }

  lemma {:induction false} LookupSnoc(es: seq<Entry>, e: Entry, name: seq<Byte>)
    ensures Lookup(es + [e], name) ==
            if Lookup(es, name).Some? then Lookup(es, name) else if e.name == name then Some(e.value) else None
  {
    if es == [] {
      assert es + [e] == [e] && [e][1..] == [];
    } else {
      assert (es + [e])[1..] == es[1..] + [e];
      LookupSnoc(es[1..], e, name);
    }
  }

  /** The values found so far are a prefix of every reading of the record. */
  ghost predicate Progress(data: seq<Byte>, position: nat, entries: seq<Entry>, values: map<seq<Byte>, seq<Byte>>) {
    && position <= |data| && Render(entries) == data[..position]
    && AllPlain(entries) && NoDuplicates(entries) && IsMapOf(values, entries)
    && (forall i :: 0 <= i < |entries| ==> IsAscii(entries[i].name) && IsAscii(entries[i].value))
    && Leads(data, entries)
  }

  /** One turn of the loop of `parse_env`. */
  method ReadOne(data: seq<Byte>, position: nat, values: map<seq<Byte>, seq<Byte>>, ghost entries: seq<Entry>)
    returns (ok: bool, next: nat, more: map<seq<Byte>, seq<Byte>>, ghost e: Entry)
    requires Progress(data, position, entries, values) && position < |data| && data[position] != 0
    ensures ok ==> position < next <= |data|
    ensures ok && next < |data| ==> Progress(data, next, entries + [e], more)
    ensures !ok || next == |data| ==> forall es :: !Readable(data, es)
  {
    hide Progress, Readable;
    e, next, more := Entry([], []), position, values;
    var end := MemChr(data, position, |data|, 0);
    var equals := MemChr(data, position, end, EQUALS);
    ReadingContinues(data, position, equals, end, entries, values);
    if end == |data| { return false, next, more, e; }
    var k := position;
    while k < end
      invariant position <= k <= end && forall i :: position <= i < k ==> data[i] < 128
    {
      if data[k] >= 128 { return false, next, more, e; }
      k := k + 1;
    }
    if equals == end { return false, next, more, e; }
    var name, value := data[position..equals], data[equals + 1..end];
    e := Entry(name, value);
    if name in values {
      NoRepeatedName(data, position, entries, values, e);
      return false, next, more, e;
    }
    more := values[name := value];
    next := end + 1;
    ok := true;
    if next < |data| {
      ReadOneProgress(data, position, equals, end, entries, values, e);
    }
  }

  /** Every reading of the record continues with the entry the scan found. */
  lemma ReadingContinues(data: seq<Byte>, position: nat, equals: nat, end: nat, entries: seq<Entry>,
                         values: map<seq<Byte>, seq<Byte>>)
    requires Progress(data, position, entries, values) && position < |data| && data[position] != 0
    requires position <= equals <= end <= |data|
    requires end < |data| ==> data[end] == 0
    requires forall k :: position <= k < end ==> data[k] != 0
    requires equals < end ==> data[equals] == EQUALS
    requires forall k :: position <= k < equals ==> data[k] != EQUALS
    ensures forall es :: Readable(data, es) ==>
              && end < |data| - 1 && equals < end
              && |entries| < |es| && es[|entries|] == Entry(data[position..equals], data[equals + 1..end])
    ensures (exists k :: position <= k < end && data[k] >= 128) ==> forall es :: !Readable(data, es)
  {
    hide Render, RenderEntry, Lookup;
    forall es | Readable(data, es)
      ensures end < |data| - 1 && equals < end
      ensures |entries| < |es| && es[|entries|] == Entry(data[position..equals], data[equals + 1..end])
      ensures forall k :: position <= k < end ==> data[k] < 128
    {
      NextEntry(data, entries, es, position);
      var e := es[|entries|];
      EntryShape(data, position, e);
      assert position + |e.name| == equals;
      assert end == equals + 1 + |e.value|;
      assert IsAscii(e.name) && IsAscii(e.value);
      forall k | position <= k < end ensures data[k] < 128 {
        if k < equals { WindowAt(data, position, e.name, k - position); }
        if k > equals { WindowAt(data, equals + 1, e.value, k - equals - 1); }
      }
    }
  }

  lemma NoRepeatedName(data: seq<Byte>, position: nat, entries: seq<Entry>, values: map<seq<Byte>, seq<Byte>>, e: Entry)
    requires Progress(data, position, entries, values) && e.name in values
    requires forall es :: Readable(data, es) ==> |entries| < |es| && es[|entries|] == e
    ensures forall es :: !Readable(data, es)
  {
    var i := LookupFinds(entries, e.name);
    forall es: seq<Entry> | entries <= es && |entries| < |es| && es[|entries|] == e
      ensures !NoDuplicates(es)
    {
      assert es[i].name == es[|entries|].name;
    }
  }

  lemma OnlyReading(data: seq<Byte>, position: nat, entries: seq<Entry>, values: map<seq<Byte>, seq<Byte>>)
    requires Progress(data, position, entries, values) && position < |data| && data[position] == 0
    ensures Readable(data, entries) && IsMapOf(values, entries) && Used(entries) == position + 1
    ensures forall es :: Readable(data, es) ==> es == entries
  {
    hide Lookup;
    assert Block(entries) == data[..position + 1];
    forall es | Readable(data, es) ensures es == entries { NextEntry(data, entries, es, position); }
  }

  lemma ReadOneProgress(data: seq<Byte>, position: nat, equals: nat, end: nat, entries: seq<Entry>,
                        values: map<seq<Byte>, seq<Byte>>, e: Entry)
    requires Progress(data, position, entries, values)
    requires Scanned(data, position, equals, end) && end + 1 < |data| && e.name !in values
    requires e == Entry(data[position..equals], data[equals + 1..end])
    requires forall i :: position <= i < end ==> data[i] < 128
    requires forall es :: Readable(data, es) ==> |entries| < |es| && es[|entries|] == e
    ensures Progress(data, end + 1, entries + [e], values[e.name := e.value])
  {
    hide Render, RenderEntry, Lookup;
    EntryFromShape(data, position, equals, end);
    RenderSnoc(entries, e);
    forall name
      ensures Lookup(entries + [e], name) ==
              if name in values[e.name := e.value] then Some(values[e.name := e.value][name]) else None
    {
      LookupSnoc(entries, e, name);
    }
    LookupNoneNotMember(entries, e.name);
    forall i | 0 <= i < |entries| ensures entries[i].name != e.name { assert entries[i] in entries; }
    ScannedIsPlain(data, position, equals, end);
  }

  lemma ScannedIsPlain(data: seq<Byte>, position: nat, equals: nat, end: nat)
    requires Scanned(data, position, equals, end) && forall i :: position <= i < end ==> data[i] < 128
    ensures var e := Entry(data[position..equals], data[equals + 1..end]);
            Plain(e) && IsAscii(e.name) && IsAscii(e.value)
  {
  }

  /** `parse_env`: the dictionary of the one reading of the record, or an exception. */
  method ParseEnv(record: seq<Byte>) returns (ok: bool, flag: Byte, values: map<seq<Byte>, seq<Byte>>, used: nat)
    ensures ok ==> |record| == RECORD_SIZE && CrcValid(record) && flag == Flag(record)
    ensures |record| == RECORD_SIZE && CrcValid(record) ==>
              (ok <==> exists es :: Readable(Data(record), es))
    ensures ok ==> forall es :: Readable(Data(record), es) ==> IsMapOf(values, es) && used == Used(es)
  {
    hide Readable, CrcValid, Progress;
    flag, values, used := 0, map[], 0;
    ok := false;
    if |record| != RECORD_SIZE { return; }
    if !CrcValid(record) { return; }
    flag := record[4];
    var data := Data(record);
    var position := 0;
    ghost var entries: seq<Entry> := [];
    NoProgressYet(data);
    while position < |data| && data[position] != 0
      invariant 0 <= position <= |data|
      invariant position < |data| ==> Progress(data, position, entries, values)
      invariant position == |data| ==> forall es :: !Readable(data, es)
      decreases |data| - position
    {
      ghost var e;
      ok, position, values, e := ReadOne(data, position, values, entries);
      if !ok { return; }
      entries := entries + [e];
    }
    if position == |data| { ok := false; return; }    // data[position] raises
    OnlyReading(data, position, entries, values);
    ok := true;
    used := position + 1;
  }

  lemma NoProgressYet(data: seq<Byte>)
    ensures Progress(data, 0, [], map[])
  {
  }

  /** The checker reads a record the guard accepts as the same map, of the same size. */
  lemma ReadersAgreeOnRecords(r: Record, es: seq<Entry>, values: map<seq<Byte>, seq<Byte>>, used: nat)
    requires CrcValid(r) && Holds(Data(r), es)
    requires forall fs :: Readable(Data(r), fs) ==> IsMapOf(values, fs) && used == Used(fs)
    ensures IsMapOf(values, es) && used == Used(es)
  {
    HoldsIsReadable(Data(r), es);
  }

  /** Both readers on one record: whatever the guard accepts, the checker reads as the same map
      of the same length, under the same flag. */
  method ReadBoth(r: Record)
    returns (copy: Copy, ok: bool, flag: Byte, values: map<seq<Byte>, seq<Byte>>, used: nat)
    ensures copy == Look(r)
    ensures copy.Sound? ==> ok && flag == copy.flag && IsMapOf(values, copy.view.entries) && used == copy.view.used
    ensures copy == Damaged ==> !ok
  {
    var valid, status, view;
    valid, status, view := Inspect(r);
    copy := if !valid then Damaged else if status != Ok then Undecodable(status) else Sound(r[4], view);
    ok, flag, values, used := ParseEnv(r);
    if copy.Sound? {
      HoldsIsReadable(Data(r), view.entries);
      ReadersAgreeOnRecords(r, view.entries, values, used);
    }
  }
}
