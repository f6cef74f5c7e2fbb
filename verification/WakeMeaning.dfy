/** What the wake_command edit does to the configuration that is read back. */
module WakeMeaning {
  import opened Strings
  import opened ConfigFile
  import opened ConfigReading
  import opened WakeEdit

  // -- the lines of the edit ---------------------------------------------

  lemma HeaderReads(agent: string)
    requires IsKey(agent)
    ensures Content(Header(agent)) == Header(agent) && Indent(Header(agent)) == 2 && !Skipped(Header(agent))
    ensures ReadPair(Trim(Header(agent))) == Pair(agent, "")
  {
    var line := Header(agent);
    assert line[2] == agent[0] && line[|line| - 1] == ':';
    assert forall i :: 2 <= i < |line| - 1 ==> line[i] == agent[i - 2];
    SimpleReads(line, 2);
    assert line[2..] == agent + ":" + "" + "";
    PairIs(agent, "", "");
  }

  /** A command free of comment signs and line terminators. */
  predicate Writable(command: string) {
    '#' !in command && Unbroken(command)
  }

  lemma WakeLineIsSimple(command: string)
    requires Writable(command)
    ensures Simple(WakeLine(command), 4)
    ensures WakeLine(command)[4..] == WAKE + ":" + " " + ("\"" + command + "\"")
  {
    var line, raw := WakeLine(command), "\"" + command + "\"";
    assert line == "    wake_command: " + raw;
    assert forall i :: 19 <= i < |line| - 1 ==> line[i] == command[i - 19];
  }

  lemma WakeLineReads(command: string)
    requires Writable(command)
    ensures var line := WakeLine(command);
            && Content(line) == line && Indent(line) == 4 && !Skipped(line)
            && ReadPair(Trim(line)) == Pair(WAKE, "\"" + command + "\"")
  {
    hide Content, Indent, Skipped, ReadPair, Trim, WakeLine;
    var raw := "\"" + command + "\"";
    assert forall i :: 0 < i < |raw| - 1 ==> raw[i] == command[i - 1];
    WakeLineIsSimple(command);
    SimpleReads(WakeLine(command), 4);
    PairIs(WAKE, " ", raw);
  }

  lemma WakeLineIsSeen(command: string)
    ensures InBlock(WakeLine(command)) && SetsWake(WakeLine(command))
    ensures forall agent :: WakeLine(command) != Header(agent)
  {
    var line := WakeLine(command);
    TrimStartIs(line, 4);
    assert line[4..] == WAKE + ":" + " \"" + command + "\"";
    forall agent ensures line != Header(agent) {
      assert line[|line| - 1] == '"' && Header(agent)[|Header(agent)| - 1] == ':';
    }
  }

  // -- editing twice -----------------------------------------------------

  /** The k-th line sets the wake_command of the block that starts after line s. */
  predicate WakesAt(lines: seq<string>, s: nat, k: nat) {
    s < k < |lines| && SetsWake(lines[k]) && forall j :: s < j <= k ==> InBlock(lines[j])
  }

  /** The agent is missing, or its block sets a wake_command. */
  predicate Settled(lines: seq<string>, agent: string) {
    !StatusOf(lines, agent, "").Add?
  }

  lemma SettledIff(lines: seq<string>, agent: string)
    ensures Settled(lines, agent) <==>
              Find(lines, Header(agent)) == |lines| || exists k :: WakesAt(lines, Find(lines, Header(agent)), k)
  {
    var s := Find(lines, Header(agent));
    if s < |lines| {
      var end := BlockEnd(lines, s + 1);
      var wake := FindWake(lines, s + 1, end);
      if wake < end {
        assert WakesAt(lines, s, wake);
      }
    }
  }

  lemma FindAfterInsert(lines: seq<string>, e: nat, w: string, line: string)
    requires e <= |lines| && w != line
    ensures var f := Find(lines, line);
            Find(lines[..e] + [w] + lines[e..], line) == if f < e then f else f + 1
  {
    var next := lines[..e] + [w] + lines[e..];
    var f, g := Find(lines, line), Find(next, line);
    var moved := if f < e then f else f + 1;
    assert forall i :: 0 <= i < |next| ==> next[i] == if i < e then lines[i] else if i == e then w else lines[i - 1];
    if f < |lines| {
      assert next[moved] == line;
    }
    if g < |next| {
      assert g != e;
      assert lines[if g < e then g else g - 1] == line;
    }
  }

  lemma InsertKeepsWakes(lines: seq<string>, e: nat, w: string, s: nat, k: nat)
    requires e <= |lines| && InBlock(w) && WakesAt(lines, s, k)
    ensures WakesAt(lines[..e] + [w] + lines[e..], if s < e then s else s + 1, if k < e then k else k + 1)
  {
    hide InBlock, SetsWake;
    var next := lines[..e] + [w] + lines[e..];
    assert forall i :: 0 <= i < |next| ==> next[i] == if i < e then lines[i] else if i == e then w else lines[i - 1];
  }

  /** No edit unsettles an agent. */
  lemma EditKeepsSettled(lines: seq<string>, agent: string, command: string, other: string)
    requires Settled(lines, other)
    ensures Settled(Edit(lines, agent, command), other)
  {
    if StatusOf(lines, agent, command).Add? {
      var e, w, next := Place(lines, agent), WakeLine(command), Edit(lines, agent, command);
      hide InBlock, SetsWake, StatusOf, Settled, WakeLine, Header, Find, WakesAt, Place;
      WakeLineIsSeen(command);
      SettledIff(lines, other);
      SettledIff(next, other);
      FindAfterInsert(lines, e, w, Header(other));
      var s, t := Find(lines, Header(other)), Find(next, Header(other));
      if s < |lines| {
        var k :| WakesAt(lines, s, k);
        InsertKeepsWakes(lines, e, w, s, k);
      }
    }
  }

  lemma EditSettles(lines: seq<string>, agent: string, command: string)
    ensures Settled(Edit(lines, agent, command), agent)
  {
    if StatusOf(lines, agent, command).Add? {
      InsertSettles(lines, agent, command);
    }
  }

  lemma InsertSettles(lines: seq<string>, agent: string, command: string)
    requires StatusOf(lines, agent, command).Add?
    ensures Settled(Edit(lines, agent, command), agent)
  {
    hide InBlock, SetsWake, WakeLine, Header, Find, Settled, FindWake;
    var e, w, next := Place(lines, agent), WakeLine(command), Edit(lines, agent, command);
    var s := Find(lines, Header(agent));
    WakeLineIsSeen(command);
    SettledIff(next, agent);
    FindAfterInsert(lines, e, w, Header(agent));
    assert next[e] == w && forall i :: 0 <= i < e ==> next[i] == lines[i];
    assert WakesAt(next, s, e);
  }

  lemma {:induction false} EditAllKeepsSettled(lines: seq<string>, agents: seq<string>, commands: map<string, string>,
                                               other: string)
    requires (forall a :: a in agents ==> a in commands) && Settled(lines, other)
    ensures Settled(EditAll(lines, agents, commands), other)
    decreases |agents|
  {
    if agents != [] {
      EditKeepsSettled(lines, agents[0], commands[agents[0]], other);
      EditAllKeepsSettled(Edit(lines, agents[0], commands[agents[0]]), agents[1..], commands, other);
    }
  }

  lemma {:induction false} EditAllSettles(lines: seq<string>, agents: seq<string>, commands: map<string, string>)
    requires forall a :: a in agents ==> a in commands
    ensures forall a :: a in agents ==> Settled(EditAll(lines, agents, commands), a)
    decreases |agents|
  {
    if agents != [] {
      var next := Edit(lines, agents[0], commands[agents[0]]);
      EditSettles(lines, agents[0], commands[agents[0]]);
      EditAllKeepsSettled(next, agents[1..], commands, agents[0]);
      EditAllSettles(next, agents[1..], commands);
    }
  }

  lemma {:induction false} SettledUnchanged(lines: seq<string>, agents: seq<string>, commands: map<string, string>)
    requires (forall a :: a in agents ==> a in commands) && forall a :: a in agents ==> Settled(lines, a)
    ensures EditAll(lines, agents, commands) == lines
    decreases |agents|
  {
    if agents != [] {
      assert Settled(lines, agents[0]);
      SettledUnchanged(lines, agents[1..], commands);
    }
  }

  /** Editing again, for the same agents and with any commands, changes nothing. */
  lemma SecondEditChangesNothing(lines: seq<string>, agents: seq<string>, commands: map<string, string>,
                                 others: map<string, string>)
    requires forall a :: a in agents ==> a in commands && a in others
    ensures EditAll(EditAll(lines, agents, commands), agents, others) == EditAll(lines, agents, commands)
  {
    EditAllSettles(lines, agents, commands);
    SettledUnchanged(EditAll(lines, agents, commands), agents, others);
  }

  // -- reading on with one entry more ------------------------------------

  /** The section a line of this indentation would belong to. */
  function Owner(stack: seq<Frame>, indent: int): seq<string>
    requires stack != []
  {
    Top(Pop(stack, indent)).path
  }

  /** The line assigns the path, or a section around it. */
  predicate Touches(s: State, raw: string, path: seq<string>)
    requires Live(s)
  {
    var line := Content(raw);
    !Skipped(line) && ReadPair(Trim(line)).Pair? && Owner(s.stack, Indent(line)) + [ReadPair(Trim(line)).key] <= path
  }

  predicate LeavesAlone(s: State, lines: seq<string>, path: seq<string>)
    requires Live(s)
    decreases |lines|
  {
    lines != [] ==> !Touches(s, lines[0], path)
                    && (Step(s, lines[0]).Next? ==> LeavesAlone(Step(s, lines[0]).state, lines[1..], path))
  }

  /** The next line that counts is not indented deeper than this. */
  predicate NotDeeper(lines: seq<string>, indent: nat) {
    lines != [] ==>
      if Skipped(Content(lines[0])) then NotDeeper(lines[1..], indent) else Indent(Content(lines[0])) <= indent
  }

  /** None of the open sections is the path or lies inside it. */
  predicate Outside(stack: seq<Frame>, path: seq<string>) {
    forall i :: 0 <= i < |stack| ==> !(path <= stack[i].path)
  }

  /** Two readers: `e` has seen one assignment more than `s`, and may have closed more sections. */
  ghost predicate Ahead(s: State, e: State, path: seq<string>, v: Value, rest: seq<string>) {
    && Live(s) && Live(e) && path != [] && Reaches(s.tree, path[..|path| - 1]) && Outside(s.stack, path)
    && e.tree == Put(s.tree, path, v)
    && (e.stack == s.stack || (e.stack == Pop(s.stack, 4) && NotDeeper(rest, 4)))
  }

  lemma NotInsideExtension(path: seq<string>, base: seq<string>, key: string)
    requires !(path <= base) && !(base + [key] <= path)
    ensures !(path <= base + [key])
  {
    var q := base + [key];
    assert |path| <= |base| ==> q[..|path|] == base[..|path|];
    assert |path| == |q| ==> (path <= q ==> path == q);
  }

  lemma AssignStaysAhead(s: State, e: State, path: seq<string>, v: Value, key: string, w: Value)
    requires Live(s) && Live(e) && path != [] && Reaches(s.tree, path[..|path| - 1]) && Outside(s.stack, path)
    requires e.tree == Put(s.tree, path, v) && e.stack == s.stack
    requires !(Top(s.stack).path + [key] <= path)
    ensures var s', e' := Assign(s, key, w), Assign(e, key, w);
            Reaches(s'.tree, path[..|path| - 1]) && e'.tree == Put(s'.tree, path, v)
    ensures !(path <= Top(s.stack).path + [key])
  {
    var q := Top(s.stack).path + [key];
    assert q[..|q| - 1] == Top(s.stack).path;
    NotInsideExtension(path, Top(s.stack).path, key);
    PutsCommute(s.tree, path, v, q, w);
  }

  lemma EnterStaysAhead(s: State, e: State, path: seq<string>, v: Value, indent: nat, key: string, value: string,
                        rest: seq<string>)
    requires Live(s) && Live(e) && path != [] && Reaches(s.tree, path[..|path| - 1]) && Outside(s.stack, path)
    requires e.tree == Put(s.tree, path, v) && e.stack == s.stack
    requires !(Top(s.stack).path + [key] <= path) && Enter(s, indent, key, value).Next?
    ensures Enter(e, indent, key, value).Next?
    ensures Ahead(Enter(s, indent, key, value).state, Enter(e, indent, key, value).state, path, v, rest)
  {
    hide Put, ParseScalar, Reaches, NotDeeper, Pop, Assign;
    AssignStaysAhead(s, e, path, v, key, if value == "" then Section(map[]) else ParseScalar(value));
  }

  /** One line more keeps the one reader exactly one assignment ahead. */
  lemma StepStaysAhead(s: State, e: State, path: seq<string>, v: Value, raw: string, rest: seq<string>)
    requires Ahead(s, e, path, v, [raw] + rest) && !Touches(s, raw, path) && Step(s, raw).Next?
    ensures Step(e, raw).Next? && Ahead(Step(s, raw).state, Step(e, raw).state, path, v, rest)
  {
    hide Content, Skipped, ReadPair, Trim, Indent, Put, Reaches, Enter;
    var line := Content(raw);
    assert ([raw] + rest)[1..] == rest;
    if !Skipped(line) {
      var pair, indent := ReadPair(Trim(line)), Indent(line);
      PopPop(s.stack, 4, if e.stack == s.stack then 4 else indent);
      EnterStaysAhead(State(s.tree, Pop(s.stack, indent)), State(e.tree, Pop(e.stack, indent)), path, v,
                      indent, pair.key, pair.raw, rest);
    }
  }

  lemma {:induction false} LoadStaysAhead(s: State, e: State, path: seq<string>, v: Value, rest: seq<string>, n: nat,
                                          m: nat)
    requires Ahead(s, e, path, v, rest) && LeavesAlone(s, rest, path) && Load(s, rest, n).Config?
    ensures var tree := Load(s, rest, n).tree;
            Reaches(tree, path[..|path| - 1]) && Load(e, rest, m) == Config(Put(tree, path, v))
    decreases |rest|
  {
    if rest != [] {
      assert [rest[0]] + rest[1..] == rest;
      StepStaysAhead(s, e, path, v, rest[0], rest[1..]);
      LoadStaysAhead(Step(s, rest[0]).state, Step(e, rest[0]).state, path, v, rest[1..], n + 1, m + 1);
    }
  }

  // -- reading on until the entry is replaced ----------------------------

  /** An assignment to a section around a path undoes what was assigned there. */
  lemma {:induction false} PutReplaces(tree: Entries, p: seq<string>, v: Value, q: seq<string>, w: Value)
    requires q != [] && q <= p && Reaches(tree, p[..|p| - 1]) && Reaches(tree, q[..|q| - 1])
    ensures Reaches(Put(tree, p, v), q[..|q| - 1])
    ensures Put(Put(tree, p, v), q, w) == Put(tree, q, w)
    decreases p
  {
    hide Put, Reaches;
    ReachesAfterPut(tree, p, v, q[..|q| - 1]);
    var _ := PutIsLocal(tree, tree, p, v);
    if |q| > 1 {
      PutInside(tree, p, v);
      PutInside(tree, q, w);
      PutInside(Put(tree, p, v), q, w);
      assert q[1..] <= p[1..];
      PutReplaces(tree[p[0]].entries, p[1..], v, q[1..], w);
    } else {
      PutAtTop(tree, q, w);
      PutAtTop(Put(tree, p, v), q, w);
    }
  }

  lemma PutAtTop(tree: Entries, q: seq<string>, w: Value)
    requires |q| == 1
    ensures Reaches(tree, q[..0]) && Put(tree, q, w) == tree[q[0] := w]
  {
  }

  lemma EnterMeets(s: State, e: State, path: seq<string>, v: Value, indent: nat, key: string, value: string)
    requires Live(s) && Live(e) && path != [] && Reaches(s.tree, path[..|path| - 1])
    requires e.tree == Put(s.tree, path, v) && e.stack == s.stack
    requires Top(s.stack).path + [key] <= path
    ensures Enter(e, indent, key, value) == Enter(s, indent, key, value)
  {
    hide Put, ParseScalar, Reaches;
    var q := Top(s.stack).path + [key];
    assert q[..|q| - 1] == Top(s.stack).path;
    PutReplaces(s.tree, path, v, q, if value == "" then Section(map[]) else ParseScalar(value));
  }

  lemma StepMeets(s: State, e: State, path: seq<string>, v: Value, raw: string, rest: seq<string>)
    requires Ahead(s, e, path, v, [raw] + rest) && Touches(s, raw, path)
    ensures Step(e, raw) == Step(s, raw)
  {
    hide Content, Skipped, ReadPair, Trim, Indent, Put, Reaches, Enter;
    var line := Content(raw);
    assert ([raw] + rest)[1..] == rest;
    var pair, indent := ReadPair(Trim(line)), Indent(line);
    PopPop(s.stack, 4, if e.stack == s.stack then 4 else indent);
    EnterMeets(State(s.tree, Pop(s.stack, indent)), State(e.tree, Pop(e.stack, indent)), path, v,
               indent, pair.key, pair.raw);
  }

  lemma {:induction false} LoadCounts(s: State, lines: seq<string>, n: nat, m: nat)
    requires Live(s) && Load(s, lines, n).Config?
    ensures Load(s, lines, m) == Load(s, lines, n)
    decreases |lines|
  {
    hide Step;
    if lines != [] {
      LoadCounts(Step(s, lines[0]).state, lines[1..], n + 1, m + 1);
    }
  }

  /** When a line replaces the entry that the one reader is ahead by, both read on alike. */
  lemma {:induction false} LoadMeets(s: State, e: State, path: seq<string>, v: Value, rest: seq<string>, n: nat, m: nat)
    requires Ahead(s, e, path, v, rest) && !LeavesAlone(s, rest, path) && Load(s, rest, n).Config?
    ensures Load(e, rest, m) == Load(s, rest, n)
    decreases |rest|
  {
    hide Step, Ahead, Touches;
    AheadIsLive(s, e, path, v, rest);
    assert [rest[0]] + rest[1..] == rest;
    if Touches(s, rest[0], path) {
      StepMeets(s, e, path, v, rest[0], rest[1..]);
      LoadCounts(s, rest, n, m);
    } else {
      StepStaysAhead(s, e, path, v, rest[0], rest[1..]);
      LoadMeets(Step(s, rest[0]).state, Step(e, rest[0]).state, path, v, rest[1..], n + 1, m + 1);
    }
  }

  lemma AheadIsLive(s: State, e: State, path: seq<string>, v: Value, rest: seq<string>)
    requires Ahead(s, e, path, v, rest)
    ensures Live(s) && Live(e)
  {
  }
}
