/** Nested settings written out line by line are read back as they were nested. */
module ConfigRoundTrip {
  import opened Strings
  import opened ConfigFile
  import opened ConfigReading

  /**
   * Settings as one writes them: entries, sections whose lines are indented by at least one more, and
   * lines that do not count. A key may occur again; the later one wins.
   */
  datatype Item =
    | Entry(key: string, raw: string)
    | Block(key: string, extra: nat, items: seq<Item>)
    | Note(line: string)

  predicate PlainValue(raw: string) {
    raw != "" && !IsSpace(raw[0]) && !IsSpace(raw[|raw| - 1]) && '#' !in raw && Unbroken(raw)
  }

  predicate WellFormed(items: seq<Item>) {
    forall i :: 0 <= i < |items| ==>
      match items[i]
      case Entry(key, raw) => IsKey(key) && PlainValue(raw)
      case Block(key, _, inner) => IsKey(key) && WellFormed(inner)
      case Note(line) => Skipped(Content(line))
  }

  function Spaces(n: nat): string {
    seq(n, i => ' ')
  }

  function Render(items: seq<Item>, indent: nat): seq<string>
    decreases items
  {
    if items == [] then [] else RenderItem(items[0], indent) + Render(items[1..], indent)
  }

  function RenderItem(item: Item, indent: nat): seq<string>
    decreases item
  {
    match item
    case Entry(key, raw) => [Spaces(indent) + (key + ":" + " " + raw)]
    case Block(key, extra, inner) => [Spaces(indent) + (key + ":" + "" + "")] + Render(inner, indent + 1 + extra)
    case Note(line) => [line]
  }

  /** The entries of a section after these settings. */
  function Fill(entries: Entries, items: seq<Item>): Entries
    decreases items
  {
    if items == [] then entries else Fill(FillOne(entries, items[0]), items[1..])
  }

  function FillOne(entries: Entries, item: Item): Entries
    decreases item
  {
    match item
    case Entry(key, raw) => entries[key := ParseScalar(raw)]
    case Block(key, _, inner) => entries[key := Section(Fill(map[], inner))]
    case Note(_) => entries
  }

  // -- replacing the entries of one section ------------------------------

  function At(tree: Entries, path: seq<string>): Entries
    requires Reaches(tree, path)
    decreases path
  {
    if path == [] then tree else At(tree[path[0]].entries, path[1..])
  }

  function SetAt(tree: Entries, path: seq<string>, entries: Entries): Entries
    requires Reaches(tree, path)
    decreases path
  {
    if path == [] then entries else tree[path[0] := Section(SetAt(tree[path[0]].entries, path[1..], entries))]
  }

  lemma {:induction false} SetAtIsAt(tree: Entries, path: seq<string>, entries: Entries, later: Entries)
    requires Reaches(tree, path)
    ensures Reaches(SetAt(tree, path, entries), path) && At(SetAt(tree, path, entries), path) == entries
    ensures SetAt(SetAt(tree, path, entries), path, later) == SetAt(tree, path, later)
    ensures SetAt(tree, path, At(tree, path)) == tree
    decreases path
  {
    if path != [] {
      SetAtIsAt(tree[path[0]].entries, path[1..], entries, later);
    }
  }

  /** An assignment in a section replaces one entry of it. */
  lemma {:induction false} PutIsSetAt(tree: Entries, path: seq<string>, key: string, v: Value)
    requires Reaches(tree, path)
    ensures (path + [key])[..|path|] == path
    ensures Put(tree, path + [key], v) == SetAt(tree, path, At(tree, path)[key := v])
    decreases path
  {
    var p := path + [key];
    assert p[..|path|] == path;
    if path != [] {
      assert p[1..] == path[1..] + [key];
      PutIsSetAt(tree[path[0]].entries, path[1..], key, v);
      PutInside(tree, p, v);
    }
  }

  /** Replacing the entries of an inner section replaces one entry of the outer one. */
  lemma {:induction false} SetAtInner(tree: Entries, path: seq<string>, key: string, entries: Entries)
    requires Reaches(tree, path) && Reaches(tree, path + [key])
    ensures SetAt(tree, path + [key], entries) == SetAt(tree, path, At(tree, path)[key := Section(entries)])
    decreases path
  {
    var p := path + [key];
    if path != [] {
      assert p[1..] == path[1..] + [key];
      SetAtInner(tree[path[0]].entries, path[1..], key, entries);
    } else {
      assert p[1..] == [];
    }
  }

  // -- lines -------------------------------------------------------------

  lemma SpacesAre(n: nat, body: string)
    requires body != "" && !IsSpace(body[0]) && !IsSpace(body[|body| - 1]) && '#' !in body
    ensures Simple(Spaces(n) + body, n) && (Spaces(n) + body)[n..] == body
  {
    var line := Spaces(n) + body;
    assert line[n..] == body && forall i :: 0 <= i < n ==> line[i] == ' ';
    assert line[|line| - 1] == body[|body| - 1];
  }

  lemma KeyHasNoSign(key: string)
    requires IsKey(key)
    ensures '#' !in key && !IsSpace(key[0])
  {
  }

  lemma LineReads(indent: nat, key: string, gap: string, raw: string)
    requires IsKey(key) && (if raw == "" then gap == "" else gap == " " && PlainValue(raw))
    ensures var line := Spaces(indent) + (key + ":" + gap + raw);
            && Content(line) == line && Indent(line) == indent && !Skipped(line) &&
              ReadPair(Trim(line)) == Pair(key, raw)
  {
    hide Content, Indent, Skipped, ReadPair, Trim, IsSpace;
    var body := key + ":" + gap + raw;
    KeyHasNoSign(key);
    assert body[0] == key[0];
    assert body[|body| - 1] == if raw == "" then ':' else raw[|raw| - 1];
    ColonIsNoSpace();
    SpacesAre(indent, body);
    SimpleReads(Spaces(indent) + body, indent);
    PairIs(key, gap, raw);
  }

  lemma ColonIsNoSpace()
    ensures !IsSpace(':')
  {
  }

  // -- reading what was written ------------------------------------------

  /** The reader is in the section `base` ends with; a line of this indentation would belong to it. */
  predicate Inside(stack: seq<Frame>, base: seq<Frame>, indent: nat) {
    stack != [] && base != [] && Pop(stack, indent) == base && Top(base).indent < indent && (indent > 0 ==> |base| > 1)
  }

  /** From s to r the reader has filled the section that `base` ends with, and is back in it. */
  predicate Filled(s: State, r: Stepped, base: seq<Frame>, indent: nat, items: seq<Item>)
    requires base != [] && Reaches(s.tree, Top(base).path)
  {
    && r.Next? && Live(r.state) && Inside(r.state.stack, base, indent)
    && r.state.tree == SetAt(s.tree, Top(base).path, Fill(At(s.tree, Top(base).path), items))
  }

  lemma BaseIsReached(s: State, base: seq<Frame>, indent: nat)
    requires Live(s) && Inside(s.stack, base, indent)
    ensures Reaches(s.tree, Top(base).path) && Live(State(s.tree, base)) && Pop(base, indent) == base
  {
    assert base[|base| - 1] == s.stack[|base| - 1];
  }

  lemma EntryFills(s: State, base: seq<Frame>, indent: nat, key: string, raw: string)
    requires Live(s) && Inside(s.stack, base, indent) && IsKey(key) && PlainValue(raw)
    ensures Reaches(s.tree, Top(base).path)
    ensures Filled(s, Step(s, Spaces(indent) + (key + ":" + " " + raw)), base, indent, [Entry(key, raw)])
  {
    hide Content, Indent, Skipped, ReadPair, Trim, PlainValue, ParseScalar;
    PlainIsSomething(raw);
    BaseIsReached(s, base, indent);
    LineReads(indent, key, " ", raw);
    PutIsSetAt(s.tree, Top(base).path, key, ParseScalar(raw));
    FillIsOne(At(s.tree, Top(base).path), Entry(key, raw));
  }

  lemma PlainIsSomething(raw: string)
    requires PlainValue(raw)
    ensures raw != ""
  {
  }

  lemma FillIsOne(entries: Entries, item: Item)
    ensures Fill(entries, [item]) == FillOne(entries, item)
  {
    assert [item][1..] == [];
  }

  /** A section's line opens it, empty. */
  lemma BlockOpens(s: State, base: seq<Frame>, indent: nat, key: string)
    requires Live(s) && Inside(s.stack, base, indent) && IsKey(key)
    ensures Reaches(s.tree, Top(base).path)
    ensures var r := Step(s, Spaces(indent) + (key + ":" + "" + ""));
            var path := Top(base).path;
            && r.Next? && Live(r.state) && r.state.stack == base + [Frame(indent, path + [key])]
            && r.state.tree == SetAt(s.tree, path, At(s.tree, path)[key := Section(map[])])
  {
    hide Content, Indent, Skipped, ReadPair, Trim;
    BaseIsReached(s, base, indent);
    LineReads(indent, key, "", "");
    PutIsSetAt(s.tree, Top(base).path, key, Section(map[]));
  }

  /** Filling a section that has just been opened replaces one entry of the section around it. */
  lemma FillOpened(tree: Entries, path: seq<string>, key: string, inner: Entries)
    requires Reaches(tree, path)
    ensures var opening := SetAt(tree, path, At(tree, path)[key := Section(map[])]);
            Reaches(opening, path + [key]) ==>
              && At(opening, path + [key]) == map[]
              && SetAt(opening, path + [key], inner) == SetAt(tree, path, At(tree, path)[key := Section(inner)])
  {
    hide At, SetAt, Reaches;
    var entries := At(tree, path)[key := Section(map[])];
    var opening := SetAt(tree, path, entries);
    SetAtIsAt(tree, path, entries, entries[key := Section(inner)]);
    if Reaches(opening, path + [key]) {
      SetAtInner(opening, path, key, inner);
      InnerIsEmpty(opening, path, key);
      assert entries[key := Section(inner)] == At(tree, path)[key := Section(inner)];
    }
  }

  /** Once the section's lines are over, the reader is back in the section around it. */
  lemma BackInside(stack: seq<Frame>, within: seq<Frame>, base: seq<Frame>, indent: nat, deeper: nat)
    requires Inside(stack, within, deeper) && within == base + [Frame(indent, Top(within).path)] && indent < deeper
    requires base != [] && Top(base).indent < indent && (indent > 0 ==> |base| > 1)
    ensures Inside(stack, base, indent)
  {
    assert within[..|base|] == base;
    PopPop(stack, deeper, indent);
  }

  /** With its section filled, the block is an entry of the section around it. */
  lemma BlockCloses(s: State, within: State, r: Stepped, base: seq<Frame>, indent: nat, key: string, extra: nat,
                    inner: seq<Item>)
    requires Live(s) && Live(within) && base != [] && Top(base).indent < indent && (indent > 0 ==> |base| > 1)
    requires Reaches(s.tree, Top(base).path)
    requires var path := Top(base).path;
             && within.stack == base + [Frame(indent, path + [key])]
             && within.tree == SetAt(s.tree, path, At(s.tree, path)[key := Section(map[])])
    requires Reaches(within.tree, Top(within.stack).path) && Filled(within, r, within.stack, indent + 1 + extra, inner)
    ensures Filled(s, r, base, indent, [Block(key, extra, inner)])
  {
    hide Inside, At, SetAt, Reaches, Fill, FillOne;
    var path := Top(base).path;
    BackInside(r.state.stack, within.stack, base, indent, indent + 1 + extra);
    FillOpened(s.tree, path, key, Fill(map[], inner));
    FillIsOne(At(s.tree, path), Block(key, extra, inner));
    BlockFillsOne(At(s.tree, path), key, extra, inner);
  }

  lemma BlockFillsOne(entries: Entries, key: string, extra: nat, inner: seq<Item>)
    ensures FillOne(entries, Block(key, extra, inner)) == entries[key := Section(Fill(map[], inner))]
  {
  }

  lemma {:induction false} InnerIsEmpty(tree: Entries, path: seq<string>, key: string)
    requires Reaches(tree, path) && Reaches(tree, path + [key])
    requires key in At(tree, path) && At(tree, path)[key] == Section(map[])
    ensures At(tree, path + [key]) == map[]
    decreases path
  {
    var p := path + [key];
    if path != [] {
      assert p[1..] == path[1..] + [key];
      InnerIsEmpty(tree[path[0]].entries, path[1..], key);
    } else {
      assert p[1..] == [];
    }
  }

  lemma {:induction false} ItemFills(s: State, base: seq<Frame>, indent: nat, item: Item)
    requires Live(s) && Inside(s.stack, base, indent) && WellFormed([item])
    ensures Reaches(s.tree, Top(base).path)
    ensures Filled(s, Advance(s, RenderItem(item, indent)), base, indent, [item])
    decreases item, 0
  {
    hide Step, Inside, Filled, Advance;
    BaseIsReached(s, base, indent);
    assert [item][0] == item;
    match item
    case Entry(key, raw) =>
      EntryFills(s, base, indent, key, raw);
      AdvanceOne(s, Spaces(indent) + (key + ":" + " " + raw));
    case Note(line) =>
      NoteFills(s, base, indent, line);
      AdvanceOne(s, line);
    case Block(key, extra, inner) =>
      BlockFills(s, base, indent, key, extra, inner);
  }

  lemma {:induction false} BlockFills(s: State, base: seq<Frame>, indent: nat, key: string, extra: nat,
                                      inner: seq<Item>)
    requires Live(s) && Inside(s.stack, base, indent) && IsKey(key) && WellFormed(inner)
    ensures Reaches(s.tree, Top(base).path)
    ensures var lines := [Spaces(indent) + (key + ":" + "" + "")] + Render(inner, indent + 1 + extra);
            Filled(s, Advance(s, lines), base, indent, [Block(key, extra, inner)])
    decreases inner, 2
  {
    hide Step, Filled, Inside, Advance, Render, WellFormed, SetAt, At;
    var line, deeper := Spaces(indent) + (key + ":" + "" + ""), indent + 1 + extra;
    InsideMeans(s.stack, base, indent);
    BlockOpens(s, base, indent, key);
    var within := Step(s, line).state;
    OpenedIsInside(within.stack, base, indent, deeper);
    AdvanceThrough(s, line, Render(inner, deeper));
    ItemsFill(within, within.stack, deeper, inner);
    BlockCloses(s, within, Advance(within, Render(inner, deeper)), base, indent, key, extra, inner);
  }

  lemma InsideMeans(stack: seq<Frame>, base: seq<Frame>, indent: nat)
    requires Inside(stack, base, indent)
    ensures base != [] && Top(base).indent < indent && (indent > 0 ==> |base| > 1)
  {
  }

  lemma OpenedIsInside(stack: seq<Frame>, base: seq<Frame>, indent: nat, deeper: nat)
    requires base != [] && stack != [] && |stack| == |base| + 1 && Top(stack).indent == indent < deeper
    ensures Inside(stack, stack, deeper)
  {
  }

  lemma NoteFills(s: State, base: seq<Frame>, indent: nat, line: string)
    requires Live(s) && Inside(s.stack, base, indent) && Skipped(Content(line))
    ensures Reaches(s.tree, Top(base).path)
    ensures Filled(s, Step(s, line), base, indent, [Note(line)])
  {
    BaseIsReached(s, base, indent);
    SetAtIsAt(s.tree, Top(base).path, map[], map[]);
    FillIsOne(At(s.tree, Top(base).path), Note(line));
  }

  lemma {:induction false} ItemsFill(s: State, base: seq<Frame>, indent: nat, items: seq<Item>)
    requires Live(s) && Inside(s.stack, base, indent) && WellFormed(items)
    ensures Reaches(s.tree, Top(base).path)
    ensures Filled(s, Advance(s, Render(items, indent)), base, indent, items)
    decreases items, 1
  {
    BaseIsReached(s, base, indent);
    var path := Top(base).path;
    if items == [] {
      SetAtIsAt(s.tree, path, map[], map[]);
    } else {
      var first, rest := RenderItem(items[0], indent), Render(items[1..], indent);
      assert WellFormed([items[0]]);
      ItemFills(s, base, indent, items[0]);
      var mid := Advance(s, first).state;
      ItemsFill(mid, base, indent, items[1..]);
      AdvanceSplits(s, first, rest);
      hide Inside, Advance, RenderItem, FillOne;
      FillIsOne(At(s.tree, path), items[0]);
      SetAtIsAt(s.tree, path, FillOne(At(s.tree, path), items[0]),
        Fill(FillOne(At(s.tree, path), items[0]), items[1..]));
    }
  }

  /**
   * Round trip: whatever is written as nested settings, with any indentation that is deeper inside than
   * outside and with blank lines and comments in between, is accepted and read back as it was nested.
   */
  lemma RenderedReadsBack(items: seq<Item>)
    requires WellFormed(items)
    ensures Parse(Render(items, 0)) == Config(Fill(map[], items))
  {
    assert Live(START) && Inside(START.stack, START.stack, 0);
    ItemsFill(START, START.stack, 0, items);
    var lines := Render(items, 0);
    LoadSplits(START, lines, [], 0);
    assert lines + [] == lines;
  }
}
