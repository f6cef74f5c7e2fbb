/** Why the line after an agent's block must not be deeper: a family of texts whose meaning the edit changes. */
module WakeHazard {
  import opened Strings
  import opened ConfigFile
  import opened ConfigReading
  import opened ConfigRoundTrip
  import opened WakeEdit
  import opened WakeMeaning
  import opened WakeOutcome

  /** One agent, whose block is a section with one entry. */
  function Settings(agent: string, section: string, key: string, raw: string): seq<Item> {
    [Block(AGENTS, 1, [Block(agent, 1, [Block(section, 1, [Entry(key, raw)])])])]
  }

  function Line(indent: nat, key: string): string {
    Spaces(indent) + (key + ":" + "" + "")
  }

  function Lines(agent: string, section: string, key: string, raw: string): seq<string> {
    [Line(0, AGENTS), Line(2, agent), Line(4, section), Spaces(6) + (key + ":" + " " + raw)]
  }

  lemma SettingsAreLines(agent: string, section: string, key: string, raw: string)
    ensures Render(Settings(agent, section, key, raw), 0) == Lines(agent, section, key, raw)
  {
    var entry := [Entry(key, raw)];
    var inner := [Block(section, 1, entry)];
    var outer := [Block(agent, 1, inner)];
    RenderOne(entry[0], 6);
    RenderOne(inner[0], 4);
    RenderOne(outer[0], 2);
    RenderOne(Settings(agent, section, key, raw)[0], 0);
  }

  lemma RenderOne(item: Item, indent: nat)
    ensures Render([item], indent) == RenderItem(item, indent)
  {
    assert [item][1..] == [];
  }

  /** Settings of one agent and nothing else. */
  function Tree(agent: string, entries: Entries): Entries {
    map[AGENTS := Section(map[agent := Section(entries)])]
  }

  lemma TreeAt(agent: string, entries: Entries, later: Entries)
    ensures Reaches(Tree(agent, entries), [AGENTS, agent]) && At(Tree(agent, entries), [AGENTS, agent]) == entries
    ensures SetAt(Tree(agent, entries), [AGENTS, agent], later) == Tree(agent, later)
  {
    assert [AGENTS, agent][1..] == [agent] && [agent][1..] == [];
    assert map[agent := Section(entries)][agent := Section(later)] == map[agent := Section(later)];
    var tree := Tree(agent, entries);
    assert SetAt(tree[AGENTS].entries, [agent], later) == map[agent := Section(later)];
    assert At(tree[AGENTS].entries, [agent]) == entries;
  }

  lemma TreesDiffer(agent: string, a: Entries, b: Entries)
    requires a != b
    ensures Tree(agent, a) != Tree(agent, b)
  {
    assert Tree(agent, a)[AGENTS].entries[agent].entries == a;
  }

  /** Before the edit, the entry is in the agent's section. */
  lemma ReadBefore(agent: string, section: string, key: string, raw: string)
    requires IsKey(agent) && IsKey(section) && IsKey(key) && PlainValue(raw)
    ensures Parse(Lines(agent, section, key, raw))
         == Config(Tree(agent, map[section := Section(map[key := ParseScalar(raw)])]))
  {
    hide Parse, Lines, ParseScalar, PlainValue, Render;
    SettingsAreLines(agent, section, key, raw);
    var entry := [Entry(key, raw)];
    var inner := [Block(section, 1, entry)];
    var outer := [Block(agent, 1, inner)];
    assert WellFormed(entry) && WellFormed(inner) && WellFormed(outer);
    RenderedReadsBack(Settings(agent, section, key, raw));
    FillIsOne(map[], entry[0]);
    FillIsOne(map[], inner[0]);
    FillIsOne(map[], outer[0]);
    FillIsOne(map[], Settings(agent, section, key, raw)[0]);
    assert map[][key := ParseScalar(raw)] == map[key := ParseScalar(raw)];
    assert map[][section := Section(Fill(map[], entry))] == map[section := Section(map[key := ParseScalar(raw)])];
    assert map[][agent := Section(Fill(map[], inner))] == map[agent := Section(Fill(map[], inner))];
  }

  // -- where the new line goes -------------------------------------------

  lemma LineChars(indent: nat, key: string)
    requires IsKey(key)
    ensures |Line(indent, key)| == indent + |key| + 1 && Line(indent, key)[indent..] == key + ":"
    ensures forall i :: 0 <= i < indent ==> Line(indent, key)[i] == ' '
    ensures Line(indent, key)[indent] == key[0] && !IsSpace(key[0])
  {
  }

  lemma GoesAfterSection(agent: string, section: string, key: string, raw: string, command: string)
    requires IsKey(agent) && IsKey(section) && section != WAKE
    ensures var lines := Lines(agent, section, key, raw);
            && StatusOf(lines, agent, command) == Add(WakeLine(command)) && Place(lines, agent) == 3
            && Find(lines, Header(agent)) == 1
  {
    var lines := Lines(agent, section, key, raw);
    LineChars(0, AGENTS);
    LineChars(2, agent);
    LineChars(4, section);
    assert lines[0][0] == 'a' && Header(agent)[0] == ' ';
    assert lines[1] == Header(agent);
    assert InBlock(lines[2]) && lines[3][4] == ' ' && !InBlock(lines[3]);
    SectionIsNoWake(section);
    hide InBlock, SetsWake, Line, Header;
    var start := Find(lines, Header(agent));
    assert start == 1;
    assert BlockEnd(lines, 3) == 3;
    assert BlockEnd(lines, 2) == 3;
    var wake := FindWake(lines, 2, 3);
  }

  lemma SectionIsNoWake(section: string)
    requires IsKey(section) && section != WAKE
    ensures !SetsWake(Line(4, section))
  {
    LineChars(4, section);
    TrimStartIs(Line(4, section), 4);
    assert Line(4, section)[4..] == section + ":" && |section| + 1 <= |Line(4, section)|;
    PrefixUpToColon(section, section + ":");
  }

  /** A key and a colon start a text in one way. */
  lemma PrefixUpToColon(section: string, s: string)
    requires IsKey(section) && section != WAKE && s == section + ":"
    ensures !(WAKE + ":" <= s)
  {
    assert forall i :: 0 <= i < |section| ==> KeyChar(s[i]) && s[i] != ':';
    assert |WAKE| == |section| ==> s[..|WAKE|] == section;
    assert (WAKE + ":")[|WAKE|] == ':' && (WAKE + ":")[..|WAKE|] == WAKE;
  }

  // -- after the edit ----------------------------------------------------

  function OpenStack(agent: string): seq<Frame> {
    [ROOT, Frame(0, [AGENTS]), Frame(2, [AGENTS, agent])]
  }

  lemma OpensOne(s: State, indent: nat, key: string)
    requires Live(s) && Top(s.stack).indent < indent && (indent > 0 ==> |s.stack| > 1) && IsKey(key)
    ensures Reaches(s.tree, Top(s.stack).path)
    ensures var path := Top(s.stack).path;
            var tree := SetAt(s.tree, path, At(s.tree, path)[key := Section(map[])]);
            Step(s, Line(indent, key)) == Next(State(tree, s.stack + [Frame(indent, path + [key])]))
  {
    assert Inside(s.stack, s.stack, indent);
    BlockOpens(s, s.stack, indent, key);
  }

  const AGENTS_OPEN := State(map[AGENTS := Section(map[])], [ROOT, Frame(0, [AGENTS])])

  lemma ReadsAgents()
    ensures Live(START) && Live(AGENTS_OPEN) && Step(START, Line(0, AGENTS)) == Next(AGENTS_OPEN)
  {
    assert Live(START);
    OpensOne(START, 0, AGENTS);
    hide Step;
    assert [] + [AGENTS] == [AGENTS] && [AGENTS][1..] == [];
    assert map[][AGENTS := Section(map[])] == map[AGENTS := Section(map[])];
  }

  /** The three section lines, read one after the other. */
  lemma ReadsSections(agent: string, section: string) returns (s2: State, s3: State)
    requires IsKey(agent) && IsKey(section)
    ensures Live(AGENTS_OPEN) && Step(AGENTS_OPEN, Line(2, agent)) == Next(s2)
    ensures Live(s2) && Step(s2, Line(4, section)) == Next(s3) && Live(s3)
    ensures s3.tree == Tree(agent, map[section := Section(map[])])
    ensures s3.stack == OpenStack(agent) + [Frame(4, [AGENTS, agent, section])]
  {
    hide Step, At, SetAt, Reaches, Tree, IsKey, Line;
    ReadsAgents();
    OpensOne(AGENTS_OPEN, 2, agent);
    s2 := Step(AGENTS_OPEN, Line(2, agent)).state;
    OpenedAgent(agent);
    assert [AGENTS] + [agent] == [AGENTS, agent];
    assert s2.stack == OpenStack(agent);
    OpensOne(s2, 4, section);
    s3 := Step(s2, Line(4, section)).state;
    TreeAt(agent, map[], map[section := Section(map[])]);
    assert map[][section := Section(map[])] == map[section := Section(map[])];
    assert [AGENTS, agent] + [section] == [AGENTS, agent, section];
  }

  lemma OpenedAgent(agent: string)
    ensures var tree := map[AGENTS := Section(map[])];
            && Reaches(tree, [AGENTS]) && At(tree, [AGENTS]) == map[]
            && SetAt(tree, [AGENTS], At(tree, [AGENTS])[agent := Section(map[])]) == Tree(agent, map[])
  {
    assert [AGENTS][1..] == [];
    assert map[][agent := Section(map[])] == map[agent := Section(map[])];
  }

  /** After the edit the entry is the agent's own, and the section is empty. */
  lemma ReadAfter(agent: string, section: string, key: string, raw: string, command: string)
    requires IsKey(agent) && IsKey(section) && IsKey(key) && PlainValue(raw) && section != WAKE && Writable(command)
    ensures var lines := Lines(agent, section, key, raw);
            var entries := map[section := Section(map[]), WAKE := Scalar(command)];
            Parse(Edit(lines, agent, command)) == Config(Tree(agent, entries[key := ParseScalar(raw)]))
  {
    hide Step, ParseScalar, PlainValue, StatusOf, Place, Find, Line, WakeLine;
    var lines := Lines(agent, section, key, raw);
    GoesAfterSection(agent, section, key, raw, command);
    var entry, w := Spaces(6) + (key + ":" + " " + raw), WakeLine(command);
    var edited := [Line(0, AGENTS), Line(2, agent), Line(4, section), w, entry];
    assert Edit(lines, agent, command) == edited;
    ReadsAgents();
    var s2, s3 := ReadsSections(agent, section);
    var inner := OpenStack(agent);
    SectionCloses(s3, agent, section);
    WakeStep(s3, inner, agent, command);
    var s4 := Step(s3, w).state;
    var entries := map[section := Section(map[]), WAKE := Scalar(command)];
    WakeTree(agent, section, command);
    assert Inside(s4.stack, inner, 6);
    EntryFills(s4, inner, 6, key, raw);
    FillIsOne(At(s4.tree, [AGENTS, agent]), Entry(key, raw));
    var s5 := Step(s4, entry).state;
    TreeAt(agent, entries, entries[key := ParseScalar(raw)]);
    LoadsFive(edited, AGENTS_OPEN, s2, s3, s4, s5);
  }

  lemma SectionCloses(s: State, agent: string, section: string)
    requires Live(s) && s.stack == OpenStack(agent) + [Frame(4, [AGENTS, agent, section])] && section != WAKE
    ensures InAgent(s.stack, OpenStack(agent), agent)
  {
    PopPushed(OpenStack(agent), Frame(4, [AGENTS, agent, section]));
    assert WakePath(agent)[2] == WAKE && [AGENTS, agent, section][2] == section;
  }

  lemma WakeTree(agent: string, section: string, command: string)
    ensures var tree := Tree(agent, map[section := Section(map[])]);
            && Reaches(tree, [AGENTS, agent]) && WakePath(agent)[..2] == [AGENTS, agent]
            && Put(tree, WakePath(agent), Scalar(command))
               == Tree(agent, map[section := Section(map[])][WAKE := Scalar(command)])
    ensures section != WAKE ==>
              map[section := Section(map[])][WAKE := Scalar(command)] ==
                map[section := Section(map[]), WAKE := Scalar(command)]
  {
    var before := map[section := Section(map[])];
    assert [AGENTS, agent] + [WAKE] == WakePath(agent) && WakePath(agent)[..2] == [AGENTS, agent];
    TreeAt(agent, before, before[WAKE := Scalar(command)]);
    PutIsSetAt(Tree(agent, before), [AGENTS, agent], WAKE, Scalar(command));
  }

  lemma LoadsFive(lines: seq<string>, s1: State, s2: State, s3: State, s4: State, s5: State)
    requires |lines| == 5 && Live(START) && Live(s1) && Live(s2) && Live(s3) && Live(s4) && Live(s5)
    requires Step(START, lines[0]) == Next(s1) && Step(s1, lines[1]) == Next(s2) && Step(s2, lines[2]) == Next(s3)
    requires Step(s3, lines[3]) == Next(s4) && Step(s4, lines[4]) == Next(s5)
    ensures Parse(lines) == Config(s5.tree)
  {
    hide Step, Live;
    assert lines[4..][1..] == [] && lines[3..][1..] == lines[4..] && lines[2..][1..] == lines[3..];
    assert lines[1..][1..] == lines[2..];
    assert Load(s4, lines[4..], 4) == Config(s5.tree);
    assert Load(s3, lines[3..], 3) == Config(s5.tree);
    assert Load(s2, lines[2..], 2) == Config(s5.tree);
    assert Load(s1, lines[1..], 1) == Config(s5.tree);
  }

  /**
   * With a deeper line after the place of the new line, the edit moves that line's entry out of its
   * section: the edited text is accepted, and it does not mean the old settings plus the command.
   */
  lemma DeeperLineChangesMeaning(agent: string, section: string, key: string, raw: string, command: string)
    requires IsKey(agent) && IsKey(section) && IsKey(key) && PlainValue(raw) && section != WAKE && Writable(command)
    ensures var lines := Lines(agent, section, key, raw);
            && StatusOf(lines, agent, command).Add?
            && Parse(lines).Config? && Parse(Edit(lines, agent, command)).Config?
            && WakePath(agent)[..2] == [AGENTS, agent] && Reaches(Parse(lines).tree, [AGENTS, agent])
            && Parse(Edit(lines, agent, command)).tree != Put(Parse(lines).tree, WakePath(agent), Scalar(command))
  {
    hide Parse, Edit, StatusOf, Lines, ParseScalar, PlainValue;
    GoesAfterSection(agent, section, key, raw, command);
    ReadBefore(agent, section, key, raw);
    ReadAfter(agent, section, key, raw, command);
    var value := ParseScalar(raw);
    var kept := map[section := Section(map[key := value])];
    var moved := map[section := Section(map[]), WAKE := Scalar(command)][key := value];
    assert [AGENTS, agent] + [WAKE] == WakePath(agent) && WakePath(agent)[..2] == [AGENTS, agent];
    TreeAt(agent, kept, kept[WAKE := Scalar(command)]);
    PutIsSetAt(Tree(agent, kept), [AGENTS, agent], WAKE, Scalar(command));
    ScalarIsNoSection(raw);
    assert key in map[key := value];
    assert kept[WAKE := Scalar(command)][section] == Section(map[key := value]);
    assert moved[section] != Section(map[key := value]);
    TreesDiffer(agent, moved, kept[WAKE := Scalar(command)]);
  }

  lemma ScalarIsNoSection(raw: string)
    ensures !ParseScalar(raw).Section?
  {
  }

  /**
   * In general: if the block ends in a section of its own, a deeper line after it belongs to that section
   * before the edit, and to the agent itself after it.
   */
  lemma DeeperLineChangesOwner(s: State, inner: seq<Frame>, agent: string, indent: nat)
    requires Live(s) && InAgent(s.stack, inner, agent) && s.stack != inner && Top(s.stack).indent == 4 < indent
    ensures Owner(s.stack, indent) == Top(s.stack).path != [AGENTS, agent]
    ensures Owner(inner, indent) == [AGENTS, agent]
  {
    assert |inner| < |s.stack|;
    assert inner[|inner| - 1] == s.stack[|inner| - 1];
  }
}
