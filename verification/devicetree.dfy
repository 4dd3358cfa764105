// The devicetree checker of tools/slot_linux.py (`check_dtb`), against the structure
// block as a tree (section 5.4 of the Devicetree Specification).
module Devicetree {
  import opened Bytes

  // ---- trees and tokens ----------------------------------------------------------------

  /** What a node contains, in order; Gap is a NOP token. */
  datatype Item = Property(name: seq<Byte>, value: seq<Byte>) | Child(name: seq<Byte>, items: seq<Item>) | Gap

  datatype Token = Begin(name: seq<Byte>) | Close | Prop(name: seq<Byte>, value: seq<Byte>) | Nop

  function Flatten(items: seq<Item>): seq<Token> {
    if items == [] then [] else FlattenItem(items[0]) + Flatten(items[1..])
  }

  function FlattenItem(item: Item): seq<Token> {
    match item
    case Property(name, value) => [Prop(name, value)]
    case Child(name, items) => [Begin(name)] + Flatten(items) + [Close]
    case Gap => [Nop]
  }

  const COMPATIBLE := Ascii("compatible")

  /** The values of the `compatible` properties directly in a node. */
  function CompatibleOf(items: seq<Item>): seq<seq<Byte>> {
    if items == [] then []
    else (if items[0].Property? && items[0].name == COMPATIBLE then [items[0].value] else []) + CompatibleOf(items[1..])
  }

  /** Which values those are. */
  lemma {:induction false} CompatibleMember(items: seq<Item>, value: seq<Byte>)
    ensures value in CompatibleOf(items) <==> Property(Ascii("compatible"), value) in items
  {
    if items != [] { CompatibleMember(items[1..], value); }
  }

  function Nops(n: nat): (ts: seq<Token>)
    ensures |ts| == n
  {
    seq(n, _ => Nop)
  }

  /** One empty-named root with these items, and only NOPs around it. */
  ghost predicate OneRoot(ts: seq<Token>, items: seq<Item>) {
    exists before: nat, after: nat :: ts == Nops(before) + FlattenItem(Child([], items)) + Nops(after)
  }

  // ---- the checker's running state ---------------------------------------------------------

  datatype Progress = Progress(depth: nat, roots: nat, compatible: Option<seq<Byte>>)

  /** What one token does; None is one of the checker's refusals. */
  function Advance(p: Progress, t: Token): Option<Progress> {
    match t
    case Begin(name) =>
      if p.depth == 0 && (p.roots != 0 || name != []) then None
      else Some(p.(depth := p.depth + 1, roots := if p.depth == 0 then p.roots + 1 else p.roots))
    case Close => if p.depth == 0 then None else Some(p.(depth := p.depth - 1))
    case Prop(name, value) =>
      if p.depth < 1 then None
      else if p.depth == 1 && name == COMPATIBLE then
        if p.compatible.Some? then None else Some(p.(compatible := Some(value)))
      else Some(p)
    case Nop => Some(p)
  }

  function Run(p: Progress, ts: seq<Token>): Option<Progress>
    decreases |ts|
  {
    if ts == [] then Some(p)
    else match Advance(p, ts[0])
      case None => None
      case Some(q) => Run(q, ts[1..])
  }

  lemma {:induction false} RunConcat(p: Progress, a: seq<Token>, b: seq<Token>)
    ensures Run(p, a + b) == match Run(p, a) case None => None case Some(q) => Run(q, b)
    decreases |a|
  {
    if a == [] {
      assert a + b == b;
    } else {
      assert (a + b)[1..] == a[1..] + b;
      match Advance(p, a[0]) {
        case None =>
        case Some(q) => RunConcat(q, a[1..], b);
      }
    }
  }

  lemma {:induction false} RunNops(p: Progress, n: nat)
    ensures Run(p, Nops(n)) == Some(p)
  {
    if n > 0 {
      assert Nops(n)[1..] == Nops(n - 1);
      RunNops(p, n - 1);
    }
  }

  /** Running the inside of a node: nothing but `compatible` of the root is remembered. */
  function Inside(p: Progress, items: seq<Item>): Option<Progress>
    requires p.depth >= 1
  {
    if p.depth > 1 || CompatibleOf(items) == [] then Some(p)
    else if p.compatible.Some? || |CompatibleOf(items)| > 1 then None
    else Some(p.(compatible := Some(CompatibleOf(items)[0])))
  }

  lemma {:induction false} RunFlatten(p: Progress, items: seq<Item>)
    requires p.depth >= 1
    ensures Run(p, Flatten(items)) == Inside(p, items)
    decreases items
  {
    if items != [] {
      RunConcat(p, FlattenItem(items[0]), Flatten(items[1..]));
      RunItem(p, items[0]);
      match Run(p, FlattenItem(items[0])) {
        case None =>
        case Some(q) => RunFlatten(q, items[1..]);
      }
    }
  }

  lemma {:induction false} RunItem(p: Progress, item: Item)
    requires p.depth >= 1
    ensures Run(p, FlattenItem(item)) ==
            (match item
             case Property(name, value) => Advance(p, Prop(name, value))
             case Child(_, _) => Some(p)
             case Gap => Some(p))
    decreases item
  {
    match item {
      case Property(name, value) =>
        assert FlattenItem(item)[1..] == [];
      case Gap =>
        assert FlattenItem(item)[1..] == [];
      case Child(name, items) =>
        var inner := p.(depth := p.depth + 1);
        RunFlatten(inner, items);
        RunConcat(inner, Flatten(items), [Close]);
        assert [Close][1..] == [];
        var ts := FlattenItem(item);
        assert ts[0] == Begin(name) && ts[1..] == Flatten(items) + [Close];
    }
  }

  /** A run that ends below its depth passes the close of the node it started in; what comes
      before that close is the flattening of some items. */
  lemma {:induction false} SplitAtClose(p: Progress, ts: seq<Token>) returns (items: seq<Item>, rest: seq<Token>)
    requires p.depth >= 1 && Run(p, ts).Some? && Run(p, ts).value.depth < p.depth
    ensures ts == Flatten(items) + [Close] + rest
    ensures Inside(p, items).Some?
    ensures Run(p, ts) == Run(Inside(p, items).value.(depth := p.depth - 1), rest)
    decreases |ts|, 1
  {
    if ts[0] == Close {
      items, rest := [], ts[1..];
      assert ts == [Close] + rest;
    } else {
      var item, tail := FirstItem(p, ts);
      var q := Run(p, FlattenItem(item)).value;
      RunConcat(p, FlattenItem(item), tail);
      var more;
      more, rest := SplitAtClose(q, tail);
      items := [item] + more;
      RunPrepend(p, item, more);
      assert ts == FlattenItem(item) + Flatten(more) + [Close] + rest;
    }
  }

  lemma RunPrepend(p: Progress, item: Item, more: seq<Item>)
    requires p.depth >= 1
    requires Run(p, FlattenItem(item)).Some? && Run(p, FlattenItem(item)).value.depth == p.depth
    ensures Inside(p, [item] + more) == Inside(Run(p, FlattenItem(item)).value, more)
    ensures Flatten([item] + more) == FlattenItem(item) + Flatten(more)
  {
    assert ([item] + more)[1..] == more;
    RunConcat(p, FlattenItem(item), Flatten(more));
    RunFlatten(p, [item] + more);
    RunFlatten(Run(p, FlattenItem(item)).value, more);
  }

  /** The first item of a node that is closed later. */
  lemma {:induction false} FirstItem(p: Progress, ts: seq<Token>) returns (item: Item, tail: seq<Token>)
    requires p.depth >= 1 && Run(p, ts).Some? && Run(p, ts).value.depth < p.depth && ts[0] != Close
    ensures ts == FlattenItem(item) + tail && |tail| < |ts|
    ensures Run(p, FlattenItem(item)).Some? && Run(p, FlattenItem(item)).value.depth == p.depth
    decreases |ts|, 0
  {
    var q := Advance(p, ts[0]).value;
    if ts[0].Begin? {
      var inner, rest := SplitAtClose(q, ts[1..]);
      item, tail := Child(ts[0].name, inner), rest;
      assert ts == [ts[0]] + (Flatten(inner) + [Close] + rest);
      assert ts == ([ts[0]] + Flatten(inner) + [Close]) + rest;
    } else {
      item := if ts[0].Nop? then Gap else Property(ts[0].name, ts[0].value);
      tail := ts[1..];
      assert FlattenItem(item) == [ts[0]];
      assert Run(p, [ts[0]]) == Some(q) by { assert [ts[0]][1..] == []; }
    }
    RunItem(p, item);
  }

  // ---- which token streams are trees of the right board ----------------------------------

  const START := Progress(0, 0, None)

  /** What the checker requires at the end token. */
  predicate Complete(p: Option<Progress>) {
    p.Some? && p.value.depth == 0 && p.value.compatible.Some? && ListsBoth(p.value.compatible.value)
  }

  predicate ListsBoth(value: seq<Byte>) {
    Lists(value, Ascii("raspberrypi,3-model-b")) && Lists(value, Ascii("brcm,bcm2837"))
  }

  /** `name in value.split(b'\0')` */
  predicate Lists(value: seq<Byte>, name: seq<Byte>) {
    name in Split(value)
  }

  function FindNul(s: seq<Byte>, from: nat): (k: nat)
    requires from <= |s|
    ensures from <= k <= |s|
    ensures k < |s| ==> s[k] == 0
    ensures forall i :: from <= i < k ==> s[i] != 0
    decreases |s| - from
  {
    if from == |s| || s[from] == 0 then from else FindNul(s, from + 1)
  }

  function Split(s: seq<Byte>): seq<seq<Byte>>
    decreases |s|
  {
    var k := FindNul(s, 0);
    if k == |s| then [s] else [s[..k]] + Split(s[k + 1..])
  }

  /** The name stands in the value between NULs, its start and its end. */
  ghost predicate StandsAt(value: seq<Byte>, name: seq<Byte>, k: nat) {
    && k + |name| <= |value| && value[k..k + |name|] == name
    && (k == 0 || value[k - 1] == 0) && (k + |name| == |value| || value[k + |name|] == 0)
  }

  ghost predicate Stands(value: seq<Byte>, name: seq<Byte>) {
    exists k: nat :: StandsAt(value, name, k)
  }

  /** A name is listed exactly when it stands somewhere in the value. */
  lemma {:induction false} ListedStands(value: seq<Byte>, name: seq<Byte>)
    requires NulFree(name)
    ensures Lists(value, name) <==> Stands(value, name)
    decreases |value|
  {
    var nul := FindNul(value, 0);
    FirstStands(value, name);
    hide StandsAt, NulFree;
    if nul == |value| {
      assert value[..nul] == value;
      assert Stands(value, name) <==> StandsAt(value, name, 0);
    } else {
      ListedStands(value[nul + 1..], name);
      LaterStands(value, name, nul);
      assert Lists(value, name) <==> name == value[..nul] || Lists(value[nul + 1..], name);
    }
  }

  lemma StandsShifted(value: seq<Byte>, name: seq<Byte>, nul: nat, j: nat)
    requires nul < |value| && value[nul] == 0
    ensures StandsAt(value[nul + 1..], name, j) <==> StandsAt(value, name, nul + 1 + j)
  {
    var tail, k := value[nul + 1..], nul + 1 + j;
    if k + |name| <= |value| {
      assert tail[j..j + |name|] == value[k..k + |name|];
      assert j > 0 ==> tail[j - 1] == value[k - 1];
      assert k + |name| < |value| ==> tail[j + |name|] == value[k + |name|];
    }
  }

  lemma NotBetween(value: seq<Byte>, name: seq<Byte>, nul: nat, k: nat)
    requires nul < |value| && nul == FindNul(value, 0) && StandsAt(value, name, k) && k > 0
    ensures k > nul
  {
  }

  lemma StandsInTail(value: seq<Byte>, name: seq<Byte>, nul: nat)
    requires nul < |value| && nul == FindNul(value, 0) && Stands(value, name) && !StandsAt(value, name, 0)
    ensures Stands(value[nul + 1..], name)
  {
    var k: nat :| StandsAt(value, name, k);
    NotBetween(value, name, nul, k);
    hide StandsAt;
    StandsShifted(value, name, nul, k - nul - 1);
  }

  lemma TailStands(value: seq<Byte>, name: seq<Byte>, nul: nat)
    requires nul < |value| && value[nul] == 0 && Stands(value[nul + 1..], name)
    ensures Stands(value, name)
  {
    hide StandsAt;
    var j: nat :| StandsAt(value[nul + 1..], name, j);
    StandsShifted(value, name, nul, j);
  }

  /** After the first NUL the rest decides. */
  lemma LaterStands(value: seq<Byte>, name: seq<Byte>, nul: nat)
    requires nul < |value| && nul == FindNul(value, 0)
    ensures Stands(value, name) <==> StandsAt(value, name, 0) || Stands(value[nul + 1..], name)
  {
    hide StandsAt;
    if Stands(value[nul + 1..], name) { TailStands(value, name, nul); }
    if Stands(value, name) && !StandsAt(value, name, 0) { StandsInTail(value, name, nul); }
  }

  lemma FirstStands(value: seq<Byte>, name: seq<Byte>)
    requires NulFree(name)
    ensures StandsAt(value, name, 0) <==> name == value[..FindNul(value, 0)]
    ensures FindNul(value, 0) == |value| ==> forall k: nat :: StandsAt(value, name, k) ==> k == 0
  {
    if StandsAt(value, name, 0) {
      forall i | 0 <= i < |name| ensures value[i] != 0 { assert value[i] == value[0..|name|][i]; }
      FindNulIs(value, 0, |name|);
    }
  }

  /** The tree the checker accepts: one root, one `compatible` in it, both names listed. */
  ghost predicate GoodTree(ts: seq<Token>) {
    exists items :: OneRoot(ts, items) && GoodItems(items)
  }

  ghost predicate GoodItems(items: seq<Item>) {
    |CompatibleOf(items)| == 1 && ListsBoth(CompatibleOf(items)[0])
  }

  /** Item k is the one property of that name. */
  ghost predicate Only(items: seq<Item>, name: seq<Byte>, k: nat) {
    && k < |items| && items[k].Property? && items[k].name == name
    && forall j :: 0 <= j < |items| && j != k ==> !(items[j].Property? && items[j].name == name)
  }

  ghost predicate BothStand(value: seq<Byte>) {
    Stands(value, Ascii("raspberrypi,3-model-b")) && Stands(value, Ascii("brcm,bcm2837"))
  }

  /** The items of a tree of the right board, item by item. */
  lemma BoardIsListed(items: seq<Item>)
    ensures GoodItems(items) <==> exists k: nat :: Only(items, Ascii("compatible"), k) && BothStand(items[k].value)
  {
    hide Lists, CompatibleOf, BothStand;
    OneCompatible(items);
    if |CompatibleOf(items)| == 1 {
      var k: nat :| Only(items, Ascii("compatible"), k) && CompatibleOf(items) == [items[k].value];
      BothListed(items[k].value);
    }
    if exists k: nat :: Only(items, Ascii("compatible"), k) && BothStand(items[k].value) {
      var k: nat :| Only(items, Ascii("compatible"), k) && BothStand(items[k].value);
      OnlyCompatible(items, k);
      BothListed(items[k].value);
    }
  }

  lemma BothListed(value: seq<Byte>)
    ensures BothStand(value) <==> ListsBoth(value)
  {
    hide Lists, Stands;
    ListedStands(value, Ascii("raspberrypi,3-model-b"));
    ListedStands(value, Ascii("brcm,bcm2837"));
  }

  lemma {:induction false} NoCompatible(items: seq<Item>)
    ensures CompatibleOf(items) == [] <==>
            forall j :: 0 <= j < |items| ==> !(items[j].Property? && items[j].name == Ascii("compatible"))
  {
    if items != [] { NoCompatible(items[1..]); }
  }

  lemma {:induction false} OnlyCompatible(items: seq<Item>, k: nat)
    requires Only(items, Ascii("compatible"), k)
    ensures CompatibleOf(items) == [items[k].value]
    decreases items
  {
    if k == 0 {
      NoCompatible(items[1..]);
    } else {
      assert Only(items[1..], Ascii("compatible"), k - 1);
      OnlyCompatible(items[1..], k - 1);
    }
  }

  lemma {:induction false} OneCompatible(items: seq<Item>)
    ensures |CompatibleOf(items)| == 1 ==>
              exists k: nat :: Only(items, Ascii("compatible"), k) && CompatibleOf(items) == [items[k].value]
    decreases items
  {
    if |CompatibleOf(items)| == 1 {
      if items[0].Property? && items[0].name == COMPATIBLE {
        NoCompatible(items[1..]);
        assert Only(items, Ascii("compatible"), 0);
      } else {
        OneCompatible(items[1..]);
        var k: nat :| Only(items[1..], Ascii("compatible"), k) && CompatibleOf(items[1..]) == [items[1..][k].value];
        assert Only(items, Ascii("compatible"), k + 1);
      }
    }
  }

  lemma RunRoot(before: nat, items: seq<Item>, after: nat)
    ensures var p := Inside(Progress(1, 1, None), items);
            Run(START, Nops(before) + FlattenItem(Child([], items)) + Nops(after)) ==
            if p.Some? then Some(p.value.(depth := 0)) else None
  {
    var inner := Progress(1, 1, None);
    var root := FlattenItem(Child([], items));
    RunConcat(START, Nops(before) + root, Nops(after));
    RunConcat(START, Nops(before), root);
    RunNops(START, before);
    assert root[0] == Begin([]) && root[1..] == Flatten(items) + [Close];
    RunFlatten(inner, items);
    RunConcat(inner, Flatten(items), [Close]);
    assert [Close][1..] == [];
    match Inside(inner, items) {
      case None =>
      case Some(p) => RunNops(p.(depth := 0), after);
    }
  }

  /** Tokens after the root was closed can only be NOPs. */
  lemma {:induction false} OnlyNopsAfter(p: Progress, ts: seq<Token>)
    requires p.depth == 0 && p.roots == 1 && Run(p, ts).Some?
    ensures ts == Nops(|ts|) && Run(p, ts) == Some(p)
    decreases |ts|
  {
    if ts != [] {
      OnlyNopsAfter(p, ts[1..]);
      assert ts == [Nop] + Nops(|ts| - 1);
    }
  }

  lemma TreesAreCounted(ts: seq<Token>)
    requires GoodTree(ts)
    ensures Complete(Run(START, ts))
  {
    var items :| OneRoot(ts, items) && GoodItems(items);
    var before: nat, after: nat :| ts == Nops(before) + FlattenItem(Child([], items)) + Nops(after);
    RunRoot(before, items, after);
  }

  lemma LeadingNop(ts: seq<Token>)
    requires GoodTree(ts)
    ensures GoodTree([Nop] + ts)
  {
    hide FlattenItem, GoodItems;
    var items :| OneRoot(ts, items) && GoodItems(items);
    var before: nat, after: nat :| ts == Nops(before) + FlattenItem(Child([], items)) + Nops(after);
    assert [Nop] + ts == Nops(before + 1) + FlattenItem(Child([], items)) + Nops(after);
    assert OneRoot([Nop] + ts, items);
  }

  lemma {:induction false} CountedAreTrees(ts: seq<Token>)
    requires Complete(Run(START, ts))
    ensures GoodTree(ts)
    decreases |ts|
  {
    if ts[0] == Nop {
      CountedAreTrees(ts[1..]);
      LeadingNop(ts[1..]);
      assert ts == [Nop] + ts[1..];
    } else {
      CountingBuildsTree(ts);
    }
  }

  /** The checker's depth counting accepts exactly the trees. */
  lemma CountingAcceptsTrees(ts: seq<Token>)
    ensures Complete(Run(START, ts)) <==> GoodTree(ts)
  {
    if GoodTree(ts) { TreesAreCounted(ts); }
    if Complete(Run(START, ts)) { CountedAreTrees(ts); }
  }

  lemma CountingBuildsTree(ts: seq<Token>)
    requires Complete(Run(START, ts)) && ts[0] != Nop
    ensures GoodTree(ts)
  {
    var inner := Progress(1, 1, None);
    OpensRoot(ts);
    hide Lists, Run, Advance, Flatten, CompatibleOf;
    var items, rest := SplitAtClose(inner, ts[1..]);
    OnlyNopsAfter(Inside(inner, items).value.(depth := 0), rest);
    RootedItems(ts, items, rest);
    assert OneRoot(ts, items);
    assert GoodItems(items);
  }

  lemma OpensRoot(ts: seq<Token>)
    requires ts != [] && ts[0] != Nop && Run(START, ts).Some?
    ensures ts[0] == Begin([]) && Run(START, ts) == Run(Progress(1, 1, None), ts[1..])
  {
    RunFirst(START, ts);
    hide Run, Ascii;
  }

  lemma RunFirst(p: Progress, ts: seq<Token>)
    requires ts != []
    ensures Run(p, ts) == match Advance(p, ts[0]) case None => None case Some(q) => Run(q, ts[1..])
  {
    hide Advance;
  }

  lemma RootedItems(ts: seq<Token>, items: seq<Item>, rest: seq<Token>)
    requires ts != [] && ts[0] == Begin([]) && ts[1..] == Flatten(items) + [Close] + rest
    ensures ts == Nops(0) + FlattenItem(Child([], items)) + rest
  {
    hide Flatten;
    assert ts == [ts[0]] + ts[1..];
    assert [ts[0]] + (Flatten(items) + [Close] + rest) == [ts[0]] + Flatten(items) + [Close] + rest;
  }

  // ---- bytes ----------------------------------------------------------------------------

  /** A big endian word of the blob. */
  function Word(raw: seq<Byte>, at: nat): (w: nat)
    requires at + 4 <= |raw|
  {
    ((raw[at] as int * 256 + raw[at + 1] as int) * 256 + raw[at + 2] as int) * 256 + raw[at + 3] as int
  }

  function Align(n: nat): (m: nat)
    ensures n <= m < n + 4 && m % 4 == 0
  {
    (n + 3) / 4 * 4
  }

  /** The structure block [.., end) and the strings block of a blob. */
  datatype Blob = Blob(raw: seq<Byte>, end: nat, names: seq<Byte>)

  predicate Sound(b: Blob) { b.end <= |b.raw| }

  /** A lexed token and where the next one starts; the end token has no content. */
  datatype Lexed = Next(token: Token, next: nat) | EndToken(next: nat) | Malformed

  /** One token at an offset, as the specification lays it out. */
  function Lex(b: Blob, at: nat): (l: Lexed)
    requires Sound(b) && at + 4 <= b.end
    ensures l.Next? ==> at < l.next
    ensures l.EndToken? ==> l.next == at + 4
  {
    var token, offset := Word(b.raw, at), at + 4;
    if token == 1 then
      var nul := FindNul(b.raw[..b.end], offset);
      if nul == b.end then Malformed else Next(Begin(b.raw[offset..nul]), Align(nul + 1))
    else if token == 2 then Next(Close, offset)
    else if token == 3 then
      if offset + 8 > b.end then Malformed
      else
        var size, name := Word(b.raw, offset), Word(b.raw, offset + 4);
        if name >= |b.names| || FindNul(b.names, name) == |b.names| || offset + 8 + size > b.end then Malformed
        else Next(Prop(b.names[name..FindNul(b.names, name)], b.raw[offset + 8..offset + 8 + size]),
                  Align(offset + 8 + size))
    else if token == 4 then Next(Nop, offset)
    else if token == 9 then EndToken(offset)
    else Malformed
  }

  /** All tokens from an offset up to an end token that closes the block exactly. */
  function Tokens(b: Blob, at: nat): Option<seq<Token>>
    requires Sound(b)
    decreases b.end - at
  {
    if at + 4 > b.end then None
    else match Lex(b, at)
      case Malformed => None
      case EndToken(next) => if next == b.end then Some([]) else None
      case Next(token, next) =>
        if next > b.end then None
        else match Tokens(b, next)
          case None => None
          case Some(rest) => Some([token] + rest)
  }

  datatype Header = Header(total: nat, offset: nat, strings: nat, reserve: nat, version: nat, last: nat,
                           stringsSize: nat, structureSize: nat)

  function ReadHeader(raw: seq<Byte>): Header
    requires |raw| >= 56
  {
    Header(Word(raw, 4), Word(raw, 8), Word(raw, 12), Word(raw, 16), Word(raw, 20), Word(raw, 24),
           Word(raw, 32), Word(raw, 36))
  }

  predicate GoodHeader(raw: seq<Byte>) {
    && |raw| >= 56
    && Word(raw, 0) == 0xd00dfeed
    && var h := ReadHeader(raw);
       && h.total == |raw| && h.version == 17 && h.last <= 17
       && h.offset >= 40 && h.offset % 4 == 0 && h.reserve >= 40 && h.reserve + 16 <= h.total
       && h.strings >= 40 && h.strings + h.stringsSize <= h.total && h.offset + h.structureSize <= h.total
  }

  function BlobOf(raw: seq<Byte>): (b: Blob)
    requires GoodHeader(raw)
    ensures Sound(b)
  {
    var h := ReadHeader(raw);
    Blob(raw, h.offset + h.structureSize, raw[h.strings..h.strings + h.stringsSize])
  }

  /** What an accepted blob is: a good header, a structure block made of tokens that ends at
      its declared size, and in it one tree of the right board. */
  ghost predicate Acceptable(raw: seq<Byte>) {
    && GoodHeader(raw)
    && var tokens := Tokens(BlobOf(raw), ReadHeader(raw).offset);
       tokens.Some? && GoodTree(tokens.value)
  }

  /** `bytes.find(b'\0', from, to)`; `to` when there is none. */
  method Find(s: seq<Byte>, from: nat, to: nat) returns (k: nat)
    requires from <= to <= |s|
    ensures k == FindNul(s[..to], from)
  {
    k := from;
    while k < to && s[k] != 0
      invariant from <= k <= to && FindNul(s[..to], from) == FindNul(s[..to], k)
    {
      k := k + 1;
    }
  }

  /** `check_dtb` without its exceptions' texts: reads only inside the blob and terminates. */
  method CheckDtb(raw: seq<Byte>) returns (ok: bool)
    ensures ok <==> Acceptable(raw)
  {
    if |raw| < 56 { return false; }
    if !GoodHeader(raw) { return false; }
    var b := BlobOf(raw);
    var start := ReadHeader(raw).offset;
    ok := CheckStructure(b, start);
  }

  /** The tokens from `start` are `seen` and then whatever is read from `at`. */
  ghost predicate Reads(b: Blob, start: nat, seen: seq<Token>, at: nat)
    requires Sound(b)
  {
    Tokens(b, start) ==
    if at > b.end then None
    else match Tokens(b, at)
      case None => None
      case Some(rest) => Some(seen + rest)
  }

  lemma ReadsStart(b: Blob, start: nat)
    requires Sound(b) && start <= b.end
    ensures Reads(b, start, [], start)
  {
    if Tokens(b, start).Some? { assert [] + Tokens(b, start).value == Tokens(b, start).value; }
  }

  lemma ReadsOne(b: Blob, start: nat, seen: seq<Token>, at: nat)
    requires Sound(b) && at + 4 <= b.end && Reads(b, start, seen, at) && Lex(b, at).Next?
    ensures Reads(b, start, seen + [Lex(b, at).token], Lex(b, at).next)
  {
    hide Lex;
    var l := Lex(b, at);
    if l.next <= b.end && Tokens(b, l.next).Some? {
      var rest := Tokens(b, l.next).value;
      assert seen + ([l.token] + rest) == seen + [l.token] + rest;
    }
  }

  /** No tree: the tokens are malformed, or their run is refused here. */
  lemma RefusedRun(b: Blob, start: nat, seen: seq<Token>, at: nat)
    requires Sound(b) && at + 4 <= b.end && Reads(b, start, seen, at) && Lex(b, at).Next?
    requires Run(START, seen + [Lex(b, at).token]).None?
    ensures Tokens(b, start).Some? ==> !GoodTree(Tokens(b, start).value)
  {
    hide Lex, GoodTree, Complete;
    ReadsOne(b, start, seen, at);
    if Tokens(b, start).Some? {
      var l := Lex(b, at);
      var rest := Tokens(b, l.next).value;
      RunConcat(START, seen + [l.token], rest);
      CountingAcceptsTrees(seen + [l.token] + rest);
      NoneIsIncomplete();
    }
  }

  lemma NoneIsIncomplete()
    ensures !Complete(None)
  {
  }

  lemma RunSnoc(seen: seq<Token>, t: Token, p: Progress)
    requires Run(START, seen) == Some(p)
    ensures Run(START, seen + [t]) == Advance(p, t)
  {
    RunConcat(START, seen, [t]);
    assert [t][1..] == [];
  }

  lemma ReadsEnd(b: Blob, start: nat, seen: seq<Token>, at: nat)
    requires Sound(b) && at + 4 <= b.end && Reads(b, start, seen, at) && Lex(b, at).EndToken?
    ensures Tokens(b, start) == if at + 4 == b.end then Some(seen) else None
  {
    assert seen + [] == seen;
  }

  /** One token other than the end token. */
  method LexHere(b: Blob, at: nat) returns (good: bool, t: Token, next: nat)
    requires Sound(b) && at + 4 <= b.end && Word(b.raw, at) != 9
    ensures good <==> Lex(b, at).Next?
    ensures good ==> Lex(b, at) == Next(t, next)
    ensures !good ==> Lex(b, at).Malformed?
  {
    var token := Word(b.raw, at);
    var offset := at + 4;
    t, next, good := Nop, offset, true;
    if token == 1 {
      var nul := Find(b.raw, offset, b.end);
      if nul == b.end { return false, t, next; }
      t, next := Begin(b.raw[offset..nul]), Align(nul + 1);
      assert b.raw[..b.end][offset..nul] == b.raw[offset..nul];
    } else if token == 2 {
      t := Close;
    } else if token == 3 {
      if offset + 8 > b.end { return false, t, next; }
      var size, name := Word(b.raw, offset), Word(b.raw, offset + 4);
      offset := offset + 8;
      if name >= |b.names| { return false, t, next; }
      var nul := Find(b.names, name, |b.names|);
      assert b.names[..|b.names|] == b.names;
      if nul == |b.names| || offset + size > b.end { return false, t, next; }
      t, next := Prop(b.names[name..nul], b.raw[offset..offset + size]), Align(offset + size);
    } else if token != 4 {
      good := false;
    }
  }

  /** The token loop; every local variable of the source is kept. */
  method CheckStructure(b: Blob, start: nat) returns (ok: bool)
    requires Sound(b) && start <= b.end
    ensures ok <==> Tokens(b, start).Some? && GoodTree(Tokens(b, start).value)
  {
    hide Lists, GoodTree, Word, Run, Advance;
    var offset, depth: nat, roots: nat := start, 0, 0;
    var compatible: Option<seq<Byte>> := None;
    ghost var seen: seq<Token> := [];
    ReadsStart(b, start);
    RunNothing();
    while offset + 4 <= b.end
      invariant Run(START, seen) == Some(Progress(depth, roots, compatible))
      invariant Reads(b, start, seen, offset)
      decreases b.end - offset
    {
      var token := Word(b.raw, offset);
      if token == 9 {
        LexEnd(b, offset);
        ReadsEnd(b, start, seen, offset);
        CountingAcceptsTrees(seen);
        return depth == 0 && offset + 4 == b.end && compatible.Some?
               && Lists(compatible.value, Ascii("raspberrypi,3-model-b"))
               && Lists(compatible.value, Ascii("brcm,bcm2837"));
      }
      var good, t, next := LexHere(b, offset);
      if !good {
        ReadsMalformed(b, start, seen, offset);
        return false;
      }
      var step := Advance(Progress(depth, roots, compatible), t);
      RunSnoc(seen, t, Progress(depth, roots, compatible));
      if step == None {
        RefusedRun(b, start, seen, offset);
        return false;
      }
      ReadsOne(b, start, seen, offset);
      seen := seen + [t];
      depth, roots, compatible := step.value.depth, step.value.roots, step.value.compatible;
      offset := next;
    }
    ReadsShort(b, start, seen, offset);
    return false;
  }

  lemma RunNothing()
    ensures Run(START, []) == Some(START)
  {
  }

  lemma LexEnd(b: Blob, at: nat)
    requires Sound(b) && at + 4 <= b.end && Word(b.raw, at) == 9
    ensures Lex(b, at) == EndToken(at + 4)
  {
  }

  lemma ReadsMalformed(b: Blob, start: nat, seen: seq<Token>, at: nat)
    requires Sound(b) && at + 4 <= b.end && Reads(b, start, seen, at) && Lex(b, at).Malformed?
    ensures Tokens(b, start) == None
  {
  }

  lemma ReadsShort(b: Blob, start: nat, seen: seq<Token>, at: nat)
    requires Sound(b) && at + 4 > b.end && Reads(b, start, seen, at)
    ensures Tokens(b, start) == None
  {
  }

  // ---- the writer's side: what a compiler emits is read back --------------------------------

  /** Big endian bytes of the low 32 bits of a number. */
  function Bytes4(w: nat): (b: seq<Byte>)
    ensures |b| == 4
  {
    var hi := w / 0x1_0000 % 0x1_0000;
    var lo := w % 0x1_0000;
    [hi / 0x100, hi % 0x100, lo / 0x100, lo % 0x100]
  }

  lemma WordOfBytes4(raw: seq<Byte>, at: nat, w: nat)
    requires w < 0x1_0000_0000 && at + 4 <= |raw| && raw[at..at + 4] == Bytes4(w)
    ensures Word(raw, at) == w
  {
    var b := Bytes4(w);
    assert raw[at] == raw[at..at + 4][0] && raw[at + 1] == raw[at..at + 4][1];
    assert raw[at + 2] == raw[at..at + 4][2] && raw[at + 3] == raw[at..at + 4][3];
    assert b[0] as int * 256 + b[1] as int == w / 0x1_0000;
    assert b[2] as int * 256 + b[3] as int == w % 0x1_0000;
  }

  /** Zeros up to the next multiple of four. */
  function Pad(n: nat): (b: seq<Byte>)
    ensures |b| == Align(n) - n
  {
    seq(Align(n) - n, _ => 0)
  }

  /** A token as section 5.4 lays it out; `nameAt` is a property name's place in the strings. */
  datatype Placed = Placed(token: Token, nameAt: nat)

  function Emit(p: Placed): seq<Byte> {
    match p.token
    case Begin(name) => Bytes4(1) + name + [0] + Pad(|name| + 1)
    case Close => Bytes4(2)
    case Prop(_, value) => Bytes4(3) + Bytes4(|value|) + Bytes4(p.nameAt) + value + Pad(|value|)
    case Nop => Bytes4(4)
  }

  /** The token fits its fields, and a property's name is where it says in the strings. */
  ghost predicate Emittable(p: Placed, names: seq<Byte>) {
    match p.token
    case Begin(name) => NulFree(name)
    case Prop(name, value) =>
      && |value| < 0x1_0000_0000 && NulFree(name)
      && p.nameAt < 0x1_0000_0000 && p.nameAt + |name| < |names|
      && names[p.nameAt..p.nameAt + |name|] == name && names[p.nameAt + |name|] == 0
    case _ => true
  }

  lemma {:induction false} FindNulIs(s: seq<Byte>, from: nat, k: nat)
    requires from <= k <= |s| && (k < |s| ==> s[k] == 0)
    requires forall i :: from <= i < k ==> s[i] != 0
    ensures FindNul(s, from) == k
    decreases k - from
  {
    if from < k { FindNulIs(s, from + 1, k); }
  }

  lemma AlignShift(a: nat, n: nat)
    requires a % 4 == 0
    ensures Align(a + n) == a + Align(n)
  {
  }

  lemma Slice(raw: seq<Byte>, at: nat, e: seq<Byte>, i: nat, j: nat)
    requires i <= j <= |e| && at + |e| <= |raw| && raw[at..at + |e|] == e
    ensures raw[at + i..at + j] == e[i..j]
  {
    forall k | 0 <= k < j - i
      ensures raw[at + i..at + j][k] == e[i..j][k]
    {
      assert raw[at..at + |e|][i + k] == e[i + k];
    }
  }

  /** The bytes a token takes. */
  function Length(t: Token): nat {
    match t
    case Begin(name) => 4 + Align(|name| + 1)
    case Prop(_, value) => 12 + Align(|value|)
    case _ => 4
  }

  lemma EmitIsAligned(p: Placed)
    ensures |Emit(p)| == Length(p.token) >= 4
  {
    hide Align, Bytes4;
    match p.token
    case Begin(_) => BeginLayout(p);
    case Prop(_, _) => PropLayout(p);
    case _ =>
  }

  lemma EmitLexes(b: Blob, at: nat, p: Placed)
    requires Sound(b) && at % 4 == 0 && Emittable(p, b.names)
    requires at + |Emit(p)| <= b.end && b.raw[at..at + |Emit(p)|] == Emit(p)
    ensures Lex(b, at) == Next(p.token, at + |Emit(p)|)
  {
    match p.token {
      case Begin(name) => LexesBegin(b, at, p, name);
      case Prop(name, value) => LexesProp(b, at, p, name, value);
      case Close => WordOfBytes4(b.raw, at, 2);
      case Nop => WordOfBytes4(b.raw, at, 4);
    }
  }

  lemma LexesBegin(b: Blob, at: nat, p: Placed, name: seq<Byte>)
    requires Sound(b) && at % 4 == 0 && p.token == Begin(name) && NulFree(name)
    requires at + |Emit(p)| <= b.end && b.raw[at..at + |Emit(p)|] == Emit(p)
    ensures Lex(b, at) == Next(Begin(name), at + |Emit(p)|)
  {
    BeginWords(b, at, p);
    NameEnds(b.raw[..b.end], at + 4, name);
    hide Emit, Bytes4, FindNul, Word, Align, NulFree;
    AlignShift(at + 4, |name| + 1);
  }

  lemma BeginWords(b: Blob, at: nat, p: Placed)
    requires Sound(b) && p.token.Begin?
    requires at + |Emit(p)| <= b.end && b.raw[at..at + |Emit(p)|] == Emit(p)
    ensures var n := |p.token.name|;
            && |Emit(p)| == 4 + Align(n + 1) && Word(b.raw, at) == 1 && at + 5 + n <= b.end
            && b.raw[at + 4..at + 4 + n] == p.token.name
            && b.raw[..b.end][at + 4..at + 5 + n] == p.token.name + [0]
  {
    var e, n := Emit(p), |p.token.name|;
    BeginLayout(p);
    hide Emit, Bytes4, FindNul, Word;
    Slice(b.raw, at, e, 0, 4);
    Slice(b.raw, at, e, 4, 4 + n);
    Slice(b.raw, at, e, 4, 5 + n);
    WordOfBytes4(b.raw, at, 1);
  }

  lemma NameEnds(s: seq<Byte>, at: nat, name: seq<Byte>)
    requires at + |name| < |s| && NulFree(name) && s[at..at + |name| + 1] == name + [0]
    ensures FindNul(s, at) == at + |name|
  {
    var t := s[at..at + |name| + 1];
    assert s[at + |name|] == t[|name|] == 0;
    assert s[at..at + |name|] == t[..|name|] == name;
    NameIsFound(s, at, name);
  }

  lemma BeginLayout(p: Placed)
    requires p.token.Begin?
    ensures var e := Emit(p); var n := |p.token.name|;
            && |e| == 4 + Align(n + 1) && e[..4] == Bytes4(1) && e[4..4 + n] == p.token.name
            && e[4..5 + n] == p.token.name + [0]
  {
    hide Bytes4;
  }

  lemma LexesProp(b: Blob, at: nat, p: Placed, name: seq<Byte>, value: seq<Byte>)
    requires Sound(b) && at % 4 == 0 && p.token == Prop(name, value) && Emittable(p, b.names)
    requires at + |Emit(p)| <= b.end && b.raw[at..at + |Emit(p)|] == Emit(p)
    ensures Lex(b, at) == Next(Prop(name, value), at + |Emit(p)|)
  {
    PropWords(b, at, p);
    NameIsFound(b.names, p.nameAt, name);
    hide Emit, Bytes4, FindNul, Word, Align, NulFree, Lex;
    AlignShift(at + 12, |value|);
    LexOfProp(b, at, p.nameAt, name, value);
  }

  lemma LexOfProp(b: Blob, at: nat, nameAt: nat, name: seq<Byte>, value: seq<Byte>)
    requires Sound(b) && at + 12 + |value| <= b.end
    requires Word(b.raw, at) == 3 && Word(b.raw, at + 4) == |value| && Word(b.raw, at + 8) == nameAt
    requires nameAt + |name| < |b.names| && FindNul(b.names, nameAt) == nameAt + |name|
    requires b.names[nameAt..nameAt + |name|] == name && b.raw[at + 12..at + 12 + |value|] == value
    ensures Lex(b, at) == Next(Prop(name, value), Align(at + 12 + |value|))
  {
    hide FindNul, Word, Align;
  }

  lemma PropWords(b: Blob, at: nat, p: Placed)
    requires Sound(b) && p.token.Prop? && Emittable(p, b.names)
    requires at + |Emit(p)| <= b.end && b.raw[at..at + |Emit(p)|] == Emit(p)
    ensures var n := |p.token.value|;
            && |Emit(p)| == 12 + Align(n) && Word(b.raw, at) == 3 && Word(b.raw, at + 4) == n
            && Word(b.raw, at + 8) == p.nameAt && b.raw[at + 12..at + 12 + n] == p.token.value
  {
    var e, n := Emit(p), |p.token.value|;
    PropLayout(p);
    hide Emit, Bytes4, FindNul, Word;
    Slice(b.raw, at, e, 0, 4);
    Slice(b.raw, at, e, 4, 8);
    Slice(b.raw, at, e, 8, 12);
    Slice(b.raw, at, e, 12, 12 + n);
    WordOfBytes4(b.raw, at, 3);
    WordOfBytes4(b.raw, at + 4, n);
    WordOfBytes4(b.raw, at + 8, p.nameAt);
  }

  lemma PropLayout(p: Placed)
    requires p.token.Prop?
    ensures var e := Emit(p); var n := |p.token.value|;
            && |e| == 12 + Align(n) && e[..4] == Bytes4(3) && e[4..8] == Bytes4(n)
            && e[8..12] == Bytes4(p.nameAt) && e[12..12 + n] == p.token.value
  {
    hide Bytes4;
  }

  lemma NameIsFound(names: seq<Byte>, at: nat, name: seq<Byte>)
    requires at + |name| < |names| && NulFree(name)
    requires names[at..at + |name|] == name && names[at + |name|] == 0
    ensures FindNul(names, at) == at + |name|
  {
    forall i | at <= i < at + |name| ensures names[i] != 0 {
      assert names[i] == names[at..at + |name|][i - at];
    }
    FindNulIs(names, at, at + |name|);
  }

  function EmitAll(ps: seq<Placed>): seq<Byte>
    decreases |ps|
  {
    if ps == [] then Bytes4(9) else Emit(ps[0]) + EmitAll(ps[1..])
  }

  function TokensOf(ps: seq<Placed>): seq<Token> {
    if ps == [] then [] else [ps[0].token] + TokensOf(ps[1..])
  }

  /** A block emitted from tokens, ending with the end token, is lexed into those tokens. */
  lemma {:induction false} EmittedIsRead(b: Blob, start: nat, ps: seq<Placed>)
    requires Sound(b) && start % 4 == 0 && forall p :: p in ps ==> Emittable(p, b.names)
    requires start + |EmitAll(ps)| == b.end && b.raw[start..b.end] == EmitAll(ps)
    ensures Tokens(b, start) == Some(TokensOf(ps))
    decreases |ps|
  {
    hide Lex, Emit, Emittable;
    var all := EmitAll(ps);
    if ps == [] {
      WordOfBytes4(b.raw, start, 9);
      LexEnd(b, start);
    } else {
      var e := Emit(ps[0]);
      Slice(b.raw, start, all, 0, |e|);
      Slice(b.raw, start, all, |e|, |all|);
      assert all[..|e|] == e && all[|e|..] == EmitAll(ps[1..]);
      EmitIsAligned(ps[0]);
      EmitLexes(b, start, ps[0]);
      EmittedIsRead(b, start + |e|, ps[1..]);
    }
  }

  // ---- whole blobs ----------------------------------------------------------------------------

  function Words(ws: seq<nat>): (b: seq<Byte>)
    ensures |b| == 4 * |ws|
  {
    if ws == [] then [] else Bytes4(ws[0]) + Words(ws[1..])
  }

  lemma {:induction false} WordsAt(ws: seq<nat>, i: nat)
    requires i < |ws|
    ensures Words(ws)[4 * i..4 * i + 4] == Bytes4(ws[i])
  {
    hide Bytes4;
    if i > 0 {
      WordsAt(ws[1..], i - 1);
      var rest := Words(ws[1..]);
      assert Words(ws)[4 * i..4 * i + 4] == rest[4 * (i - 1)..4 * (i - 1) + 4];
    }
  }

  lemma WordIsRead(raw: seq<Byte>, ws: seq<nat>, i: nat)
    requires i < |ws| && Words(ws) <= raw && ws[i] < 0x1_0000_0000
    ensures Word(raw, 4 * i) == ws[i]
  {
    hide Words, Bytes4, Word;
    WordsAt(ws, i);
    PrefixSlice(raw, Words(ws), 4 * i, 4 * i + 4);
    WordOfBytes4(raw, 4 * i, ws[i]);
  }

  lemma PrefixSlice(raw: seq<Byte>, e: seq<Byte>, i: nat, j: nat)
    requires e <= raw && i <= j <= |e|
    ensures raw[i..j] == e[i..j]
  {
  }

  /** The header of section 5.2: its ten big endian words in their order. */
  function HeaderWords(magic: nat, h: Header, cpu: nat): (ws: seq<nat>)
    ensures |ws| == 10
  {
    [magic, h.total, h.offset, h.strings, h.reserve, h.version, h.last, cpu, h.stringsSize, h.structureSize]
  }

  /** What the checker demands of it, for every blob. */
  lemma HeaderIsRead(raw: seq<Byte>, magic: nat, h: Header, cpu: nat)
    requires |raw| >= 56 && Words(HeaderWords(magic, h, cpu)) <= raw
    requires forall w :: w in HeaderWords(magic, h, cpu) ==> w < 0x1_0000_0000
    ensures ReadHeader(raw) == h
    ensures GoodHeader(raw) <==>
            && magic == 0xd00d_feed && h.total == |raw| && h.version == 17 && h.last <= 17
            && h.offset >= 40 && h.offset % 4 == 0 && h.reserve >= 40 && h.reserve + 16 <= |raw|
            && h.strings >= 40 && h.strings + h.stringsSize <= |raw| && h.offset + h.structureSize <= |raw|
  {
    var ws := HeaderWords(magic, h, cpu);
    hide Words, Word;
    forall i | 0 <= i < 10 ensures Word(raw, 4 * i) == ws[i] {
      assert ws[i] in ws;
      WordIsRead(raw, ws, i);
    }
    assert Word(raw, 4 * 0) == magic && Word(raw, 4 * 1) == h.total && Word(raw, 4 * 2) == h.offset;
    assert Word(raw, 4 * 3) == h.strings && Word(raw, 4 * 4) == h.reserve && Word(raw, 4 * 5) == h.version;
    assert Word(raw, 4 * 6) == h.last && Word(raw, 4 * 8) == h.stringsSize && Word(raw, 4 * 9) == h.structureSize;
  }

  /** A blob as a compiler writes it: header, memory reservations, structure, strings. */
  function EmitBlob(cpu: nat, reservations: seq<Byte>, ps: seq<Placed>, names: seq<Byte>): (raw: seq<Byte>)
    ensures |raw| == 40 + |reservations| + |EmitAll(ps)| + |names|
  {
    var structure := EmitAll(ps);
    var offset := 40 + |reservations|;
    Words([0xd00d_feed, offset + |structure| + |names|, offset, offset + |structure|, 40, 17, 16, cpu, |names|,
           |structure|])
    + reservations + structure + names
  }

  lemma EmittedParts(cpu: nat, reservations: seq<Byte>, ps: seq<Placed>, names: seq<Byte>)
    requires |reservations| >= 16 && |reservations| % 8 == 0 && cpu < 0x1_0000_0000
    requires |EmitBlob(cpu, reservations, ps, names)| < 0x1_0000_0000
    ensures var raw := EmitBlob(cpu, reservations, ps, names); var start := 40 + |reservations|;
            && GoodHeader(raw) && ReadHeader(raw).offset == start && start % 4 == 0
            && raw[start..start + |EmitAll(ps)|] == EmitAll(ps)
            && BlobOf(raw) == Blob(raw, start + |EmitAll(ps)|, names)
  {
    var structure := EmitAll(ps);
    var h := HeaderOf(reservations, structure, names);
    EmittedIs(cpu, reservations, ps, names);
    hide EmitBlob, EmitAll, Words, HeaderWords, GoodHeader, ReadHeader, BlobOf, Word;
    FourParts(Words(HeaderWords(0xd00d_feed, h, cpu)), reservations, structure, names);
    HeaderFits(EmitBlob(cpu, reservations, ps, names), cpu, reservations, structure, names);
  }

  function HeaderOf(reservations: seq<Byte>, structure: seq<Byte>, names: seq<Byte>): Header {
    var start := 40 + |reservations|;
    Header(start + |structure| + |names|, start, start + |structure|, 40, 17, 16, |names|, |structure|)
  }

  lemma EmittedIs(cpu: nat, reservations: seq<Byte>, ps: seq<Placed>, names: seq<Byte>)
    ensures EmitBlob(cpu, reservations, ps, names) ==
            Words(HeaderWords(0xd00d_feed, HeaderOf(reservations, EmitAll(ps), names), cpu))
            + reservations + EmitAll(ps) + names
  {
    hide EmitAll, Words;
  }

  lemma HeaderFits(raw: seq<Byte>, cpu: nat, reservations: seq<Byte>, structure: seq<Byte>, names: seq<Byte>)
    requires |reservations| >= 16 && |reservations| % 8 == 0 && cpu < 0x1_0000_0000
    requires var h := HeaderOf(reservations, structure, names);
             && |raw| == h.total < 0x1_0000_0000 && Words(HeaderWords(0xd00d_feed, h, cpu)) <= raw
             && raw[h.offset..h.offset + |structure|] == structure
             && raw[h.strings..h.strings + |names|] == names
    ensures GoodHeader(raw) && ReadHeader(raw).offset == 40 + |reservations|
    ensures BlobOf(raw) == Blob(raw, 40 + |reservations| + |structure|, names)
  {
    hide Words, GoodHeader, ReadHeader, Word;
    HeaderIsRead(raw, 0xd00d_feed, HeaderOf(reservations, structure, names), cpu);
  }

  lemma FourParts(a: seq<Byte>, b: seq<Byte>, c: seq<Byte>, d: seq<Byte>)
    ensures var all := a + b + c + d; var i := |a| + |b|;
            a <= all && all[i..i + |c|] == c && all[i + |c|..i + |c| + |d|] == d
  {
  }

  /** Every such blob is accepted exactly when its tokens form a tree of the right board. */
  lemma EmittedBlobIsChecked(cpu: nat, reservations: seq<Byte>, ps: seq<Placed>, names: seq<Byte>)
    requires |reservations| >= 16 && |reservations| % 8 == 0 && cpu < 0x1_0000_0000
    requires forall p :: p in ps ==> Emittable(p, names)
    requires |EmitBlob(cpu, reservations, ps, names)| < 0x1_0000_0000
    ensures Acceptable(EmitBlob(cpu, reservations, ps, names)) <==> GoodTree(TokensOf(ps))
  {
    EmittedParts(cpu, reservations, ps, names);
    hide EmitAll, EmitBlob, Emittable, GoodTree, Tokens, TokensOf, GoodHeader, BlobOf, ReadHeader;
    EmittedIsRead(BlobOf(EmitBlob(cpu, reservations, ps, names)), 40 + |reservations|, ps);
  }

  function LengthOf(ts: seq<Token>): nat { if ts == [] then 4 else Length(ts[0]) + LengthOf(ts[1..]) }

  /** What is read fills the block to its last byte, and an end token is its last word. */
  lemma {:induction false} TokensFillBlock(b: Blob, at: nat)
    requires Sound(b) && at % 4 == 0 && Tokens(b, at).Some?
    ensures at + LengthOf(Tokens(b, at).value) == b.end
    ensures Word(b.raw, b.end - 4) == 9
    decreases b.end - at
  {
    hide Word;
    match Lex(b, at) {
      case EndToken(_) => EndIsNine(b, at);
      case Next(token, next) =>
        NextIsAligned(b, at);
        TokensFillBlock(b, next);
        assert Tokens(b, at).value == [token] + Tokens(b, next).value;
    }
  }

  lemma EndIsNine(b: Blob, at: nat)
    requires Sound(b) && at + 4 <= b.end && Lex(b, at).EndToken?
    ensures Word(b.raw, at) == 9
  {
    hide Word;
  }

  lemma NextIsAligned(b: Blob, at: nat)
    requires Sound(b) && at + 4 <= b.end && at % 4 == 0 && Lex(b, at).Next?
    ensures Lex(b, at).next == at + Length(Lex(b, at).token) && Lex(b, at).next % 4 == 0
  {
    LexSays(b, at);
    LengthShifts(at, Lex(b, at).token);
    hide Lex, Align, Length;
  }

  lemma LengthShifts(at: nat, t: Token)
    requires at % 4 == 0
    ensures at + Length(t) == match t
                              case Begin(name) => Align(at + 4 + |name| + 1)
                              case Prop(_, value) => Align(at + 12 + |value|)
                              case _ => at + 4
    ensures (at + Length(t)) % 4 == 0
  {
    hide Align;
    match t {
      case Begin(name) => AlignShift(at + 4, |name| + 1);
      case Prop(_, value) => AlignShift(at + 12, |value|);
      case _ =>
    }
  }

  lemma LexSays(b: Blob, at: nat)
    requires Sound(b) && at + 4 <= b.end && Lex(b, at).Next?
    ensures var l := Lex(b, at);
            match l.token
            case Begin(name) => l.next == Align(at + 4 + |name| + 1)
            case Prop(_, value) => l.next == Align(at + 12 + |value|)
            case _ => l.next == at + 4
  {
    hide Word, FindNul, Align;
  }
}
