/** The edited configuration means what it meant before, plus the one command. */
module WakeOutcome {
  import opened Strings
  import opened ConfigFile
  import opened ConfigReading
  import opened WakeEdit
  import opened WakeMeaning

  const AGENTS := "agents"

  function WakePath(agent: string): seq<string> {
    [AGENTS, agent, WAKE]
  }

  // -- lines of an agent's block -----------------------------------------

  lemma {:induction false} TrimEndKeeps(s: string, k: nat)
    requires k < |s| && !IsSpace(s[k])
    ensures k < |TrimEnd(s)|
  {
    if IsSpace(s[|s| - 1]) {
      TrimEndKeeps(s[..|s| - 1], k);
    }
  }

  lemma {:induction false} BlankIsTrimmed(s: string)
    requires forall i :: 0 <= i < |s| ==> IsSpace(s[i])
    ensures TrimEnd(s) == ""
  {
    if s != "" {
      BlankIsTrimmed(s[..|s| - 1]);
    }
  }

  /** A block line is skipped, or it is indented by four. */
  lemma BlockLineIndent(raw: string)
    requires InBlock(raw)
    ensures Content(raw) <= raw
    ensures Skipped(Content(raw)) || (Indent(Content(raw)) == 4 && Trim(Content(raw)) <= raw[4..])
    ensures TrimStart(raw) == raw[4..]
  {
    var kept, line := StripComment(raw), Content(raw);
    StripIsPrefix(raw);
    TrimEndTrims(kept);
    TrimStartIs(raw, 4);
    if |kept| <= 4 {
      assert forall i :: 0 <= i < |kept| ==> kept[i] == raw[i];
      BlankIsTrimmed(kept);
    } else {
      assert kept[4] == raw[4];
      TrimEndKeeps(kept, 4);
      assert line[4] == raw[4] && forall i :: 0 <= i < 4 ==> line[i] == raw[i];
      TrimStartIs(line, 4);
      TrimEndTrims(line[4..]);
    }
  }

  lemma BlockLineKey(raw: string)
    requires InBlock(raw) && !SetsWake(raw) && !Skipped(Content(raw))
    ensures ReadPair(Trim(Content(raw))).Pair? ==> ReadPair(Trim(Content(raw))).key != WAKE
  {
    BlockLineIndent(raw);
    var s := Trim(Content(raw));
    var pair := ReadPair(s);
    if pair.Pair? {
      assert s[..|pair.key| + 1] == pair.key + ":";
      assert pair.key + ":" <= raw[4..];
    }
  }

  /** Inside the agent's section, perhaps in one of its own that a shallower line would close. */
  predicate InAgent(stack: seq<Frame>, inner: seq<Frame>, agent: string) {
    && stack != [] && inner != [] && Pop(stack, 4) == inner && Top(inner) == Frame(2, [AGENTS, agent])
    && Outside(stack, WakePath(agent))
  }

  lemma BlockStep(s: State, raw: string, inner: seq<Frame>, agent: string)
    requires Live(s) && InAgent(s.stack, inner, agent) && InBlock(raw) && !SetsWake(raw) && Step(s, raw).Next?
    ensures InAgent(Step(s, raw).state.stack, inner, agent)
  {
    BlockLineIndent(raw);
    if !Skipped(Content(raw)) {
      BlockLineKey(raw);
      hide Content, Trim, Skipped, Indent, ReadPair, InBlock, SetsWake, Assign, ParseScalar;
      var pair := ReadPair(Trim(Content(raw)));
      var path := [AGENTS, agent] + [pair.key];
      assert path[2] == pair.key && WakePath(agent)[2] == WAKE;
      PopPushed(inner, Frame(4, [AGENTS, agent] + [pair.key]));
    }
  }

  lemma PopPushed(stack: seq<Frame>, frame: Frame)
    requires stack != [] && frame.indent == 4 && Top(stack).indent == 2
    ensures Pop(stack + [frame], 4) == stack && Pop(stack, 4) == stack
  {
    assert (stack + [frame])[..|stack|] == stack;
  }

  lemma {:induction false} BlockAdvances(s: State, block: seq<string>, inner: seq<Frame>, agent: string)
    requires Live(s) && InAgent(s.stack, inner, agent) && Advance(s, block).Next?
    requires forall k :: 0 <= k < |block| ==> InBlock(block[k]) && !SetsWake(block[k])
    ensures InAgent(Advance(s, block).state.stack, inner, agent)
    decreases |block|
  {
    if block != [] {
      BlockStep(s, block[0], inner, agent);
      BlockAdvances(Step(s, block[0]).state, block[1..], inner, agent);
    }
  }

  // -- the header and the new line ---------------------------------------

  lemma HeaderStep(s: State, agent: string)
    requires Live(s) && IsKey(agent) && Owner(s.stack, 2) == [AGENTS]
    ensures Step(s, Header(agent)).Next?
    ensures var stack := Step(s, Header(agent)).state.stack;
            stack != [] && InAgent(stack, stack, agent)
  {
    HeaderReads(agent);
    hide Content, Trim, Skipped, Indent, ReadPair, Header;
    var stack := Pop(s.stack, 2);
    assert |stack| == 2;
    var next := Open(State(s.tree, stack), agent, 2);
    assert next.stack == stack + [Frame(2, [AGENTS] + [agent])];
    assert forall i :: 0 <= i < |next.stack| ==> |next.stack[i].path| < |WakePath(agent)|;
  }

  lemma WakeStep(s: State, inner: seq<Frame>, agent: string, command: string)
    requires Live(s) && InAgent(s.stack, inner, agent) && Writable(command)
    ensures Reaches(s.tree, [AGENTS, agent]) && WakePath(agent)[..2] == [AGENTS, agent]
    ensures Step(s, WakeLine(command)) == Next(State(Put(s.tree, WakePath(agent), Scalar(command)), inner))
  {
    WakeLineReads(command);
    QuotedIs(command);
    hide Content, Trim, Skipped, Indent, ReadPair, WakeLine, ParseScalar;
    assert inner[|inner| - 1] == s.stack[|inner| - 1];
    assert |inner| == 3;
    assert WakePath(agent)[..2] == [AGENTS, agent];
    assert [AGENTS, agent] + [WAKE] == WakePath(agent);
  }

  // -- the result --------------------------------------------------------

  lemma AcceptedPrefix(lines: seq<string>, i: nat)
    requires i <= |lines| && Parse(lines).Config?
    ensures Live(START) && Advance(START, lines[..i]).Next?
    ensures Load(START, lines, 0) == Load(Advance(START, lines[..i]).state, lines[i..], i)
  {
    hide Step, Advance, Load;
    assert lines[..i] + lines[i..] == lines;
    LoadSplits(START, lines[..i], lines[i..], 0);
  }

  /** The state of the reader before the given line of an accepted text. */
  function StateAt(lines: seq<string>, i: nat): (s: State)
    requires i <= |lines| && Parse(lines).Config?
    ensures Live(s)
  {
    AcceptedPrefix(lines, i);
    Advance(START, lines[..i]).state
  }

  /** The first line that opens a section of the agent's name opens it in the agents section. */
  predicate IsMember(lines: seq<string>, agent: string)
    requires Parse(lines).Config?
  {
    var start := Find(lines, Header(agent));
    start < |lines| && Owner(StateAt(lines, start).stack, 2) == [AGENTS]
  }

  /** From the given line on, nothing assigns the agent's wake_command or a section around it. */
  predicate NotReplaced(lines: seq<string>, from: nat, agent: string)
    requires Parse(lines).Config? && from <= |lines|
  {
    LeavesAlone(StateAt(lines, from), lines[from..], WakePath(agent))
  }

  /** The next line that counts is not indented deeper than four, or there is no open section it would be taken from. */
  predicate NothingMoves(lines: seq<string>, from: nat)
    requires Parse(lines).Config? && from <= |lines|
  {
    NotDeeper(lines[from..], 4) || Pop(StateAt(lines, from).stack, 4) == StateAt(lines, from).stack
  }

  /** At the place of the new line, the reader is in the agent's section. */
  lemma PlaceIsInAgent(lines: seq<string>, agent: string, command: string)
    requires Parse(lines).Config? && IsKey(agent) && IsMember(lines, agent) && StatusOf(lines, agent, command).Add?
    ensures var stack := StateAt(lines, Place(lines, agent)).stack;
            InAgent(stack, Pop(stack, 4), agent)
  {
    hide Step, Advance, Pop, Load, Owner, InAgent, InBlock, SetsWake, Header, StatusOf;
    var start, end := Find(lines, Header(agent)), Place(lines, agent);
    var block := lines[start + 1..end];
    BlockSetsNoWake(lines, agent, command);
    SliceSetsNoWake(lines, start + 1, end);
    var s := StateAt(lines, start);
    HeaderStep(s, agent);
    assert lines[..end] == lines[..start] + ([Header(agent)] + block);
    AdvanceSplits(START, lines[..start], [Header(agent)] + block);
    AdvanceThrough(s, Header(agent), block);
    var within := Step(s, Header(agent)).state;
    AcceptedPrefix(lines, end);
    assert StateAt(lines, end) == Advance(within, block).state;
    BlockAdvances(within, block, within.stack, agent);
    InAgentPops(StateAt(lines, end).stack, within.stack, agent);
  }

  lemma SliceSetsNoWake(lines: seq<string>, from: nat, end: nat)
    requires from <= end <= |lines| && forall k :: from <= k < end ==> InBlock(lines[k]) && !SetsWake(lines[k])
    ensures forall k :: 0 <= k < |lines[from..end]| ==> InBlock(lines[from..end][k]) && !SetsWake(lines[from..end][k])
  {
  }

  lemma InAgentPops(stack: seq<Frame>, inner: seq<Frame>, agent: string)
    requires InAgent(stack, inner, agent)
    ensures stack != [] && InAgent(stack, Pop(stack, 4), agent)
  {
  }

  lemma BlockSetsNoWake(lines: seq<string>, agent: string, command: string)
    requires StatusOf(lines, agent, command).Add?
    ensures var start, end := Find(lines, Header(agent)), Place(lines, agent);
            && start < end && lines[start] == Header(agent)
            && forall k :: start < k < end ==> InBlock(lines[k]) && !SetsWake(lines[k])
  {
  }

  /**
   * The edit keeps the meaning of the configuration: if the text is accepted, the agent's line is in
   * the agents section, the new line takes no line out of its section, and nothing further down
   * replaces what is added, then the edited text is accepted, and it is read as before,
   * with the command, word for word, as the agent's wake_command.
   */
  lemma EditKeepsMeaning(lines: seq<string>, agent: string, command: string)
    requires Parse(lines).Config? && IsKey(agent) && Writable(command)
    requires StatusOf(lines, agent, command).Add? && IsMember(lines, agent)
    requires NothingMoves(lines, Place(lines, agent)) && NotReplaced(lines, Place(lines, agent), agent)
    ensures Reaches(Parse(lines).tree, WakePath(agent)[..2])
    ensures Parse(Edit(lines, agent, command)) == Config(Put(Parse(lines).tree, WakePath(agent), Scalar(command)))
  {
    hide Step, Advance, Pop, InAgent, StatusOf, LeavesAlone, NotDeeper, Find, WakeLine, Put, Reaches, Outside, Load;
    EditReads(lines, agent, command);
    PlaceIsInAgent(lines, agent, command);
    var end := Place(lines, agent);
    AcceptedPrefix(lines, end);
    OneAhead(StateAt(lines, end), lines[end..], agent, command, end);
  }

  /** Something further down replaces what is added: then the edited text is read just as before. */
  lemma ReplacedMeansNothing(lines: seq<string>, agent: string, command: string)
    requires Parse(lines).Config? && IsKey(agent) && Writable(command)
    requires StatusOf(lines, agent, command).Add? && IsMember(lines, agent)
    requires NothingMoves(lines, Place(lines, agent)) && !NotReplaced(lines, Place(lines, agent), agent)
    ensures Parse(Edit(lines, agent, command)) == Parse(lines)
  {
    hide Step, Advance, Pop, InAgent, StatusOf, LeavesAlone, NotDeeper, Find, WakeLine, Put, Reaches, Outside, Load;
    EditReads(lines, agent, command);
    PlaceIsInAgent(lines, agent, command);
    var end := Place(lines, agent);
    AcceptedPrefix(lines, end);
    BackTogether(StateAt(lines, end), lines[end..], agent, command, end);
  }

  /** The settings hold this value at this path. */
  predicate Has(tree: Entries, path: seq<string>, v: Value)
    requires path != []
    decreases path
  {
    path[0] in tree && (if |path| == 1 then tree[path[0]] == v
                        else tree[path[0]].Section? && Has(tree[path[0]].entries, path[1..], v))
  }

  /** The edited lines are read as the old settings with the command added. */
  predicate AddsCommand(lines: seq<string>, agent: string, command: string)
    requires Parse(lines).Config?
  {
    && Reaches(Parse(lines).tree, WakePath(agent)[..2])
    && Parse(Edit(lines, agent, command)) == Config(Put(Parse(lines).tree, WakePath(agent), Scalar(command)))
  }

  /**
   * If the new line takes no line out of its section, the edit adds the command exactly if nothing further
   * down replaces what is added, or the settings already had that command there at the end.
   */
  lemma AddsCommandIff(lines: seq<string>, agent: string, command: string)
    requires Parse(lines).Config? && IsKey(agent) && Writable(command)
    requires StatusOf(lines, agent, command).Add? && IsMember(lines, agent)
    requires NothingMoves(lines, Place(lines, agent))
    ensures AddsCommand(lines, agent, command) <==>
              NotReplaced(lines, Place(lines, agent), agent)
              || Has(Parse(lines).tree, WakePath(agent), Scalar(command))
  {
    hide Edit, Place, Parse, NotReplaced, NothingMoves, IsMember, Writable, Put, Reaches, Has;
    if NotReplaced(lines, Place(lines, agent), agent) {
      EditKeepsMeaning(lines, agent, command);
    } else {
      ReplacedMeansNothing(lines, agent, command);
      HasIff(Parse(lines).tree, WakePath(agent), Scalar(command));
    }
  }

  /** An assignment changes nothing exactly if the value is there already. */
  lemma {:induction false} HasIff(tree: Entries, path: seq<string>, v: Value)
    requires path != []
    ensures Has(tree, path, v) <==> Reaches(tree, path[..|path| - 1]) && Put(tree, path, v) == tree
    decreases path
  {
    if |path| == 1 {
      assert Has(tree, path, v) ==> tree[path[0] := v] == tree;
    } else if path[0] in tree && tree[path[0]].Section? {
      var inner := tree[path[0]].entries;
      assert path[..|path| - 1][1..] == path[1..][..|path| - 2];
      HasIff(inner, path[1..], v);
      if Reaches(tree, path[..|path| - 1]) {
        PutInside(tree, path, v);
        var put := Put(inner, path[1..], v);
        assert Put(tree, path, v)[path[0]] == Section(put);
        assert put == inner ==> tree[path[0] := Section(put)] == tree;
      }
    }
  }

  /** Where the two readers part. */
  lemma EditReads(lines: seq<string>, agent: string, command: string)
    requires Parse(lines).Config? && StatusOf(lines, agent, command).Add?
    ensures var end := Place(lines, agent);
            Parse(Edit(lines, agent, command)) == Load(StateAt(lines, end), [WakeLine(command)] + lines[end..], end)
  {
    hide Step, Advance, Find, WakeLine, Load;
    var end, w := Place(lines, agent), WakeLine(command);
    var before, rest := lines[..end], lines[end..];
    AcceptedPrefix(lines, end);
    LoadSplits(START, before, [w] + rest, 0);
    assert Edit(lines, agent, command) == before + ([w] + rest);
  }

  /** A reader that is given the new line stays exactly one assignment ahead of one that is not. */
  lemma OneAhead(s: State, rest: seq<string>, agent: string, command: string, n: nat)
    requires Live(s) && InAgent(s.stack, Pop(s.stack, 4), agent) && Writable(command)
    requires NotDeeper(rest, 4) || Pop(s.stack, 4) == s.stack
    requires LeavesAlone(s, rest, WakePath(agent)) && Load(s, rest, n).Config?
    ensures Reaches(Load(s, rest, n).tree, WakePath(agent)[..2])
    ensures Load(s, [WakeLine(command)] + rest, n)
         == Config(Put(Load(s, rest, n).tree, WakePath(agent), Scalar(command)))
  {
    hide Step, LeavesAlone, NotDeeper, WakeLine, Put, Reaches, Outside;
    var w := WakeLine(command);
    WakeStep(s, Pop(s.stack, 4), agent, command);
    assert ([w] + rest)[1..] == rest;
    LoadStaysAhead(s, Step(s, w).state, WakePath(agent), Scalar(command), rest, n, n + 1);
  }

  /** Once a line replaces what the new line has added, the two readers are in the same state. */
  lemma BackTogether(s: State, rest: seq<string>, agent: string, command: string, n: nat)
    requires Live(s) && InAgent(s.stack, Pop(s.stack, 4), agent) && Writable(command)
    requires NotDeeper(rest, 4) || Pop(s.stack, 4) == s.stack
    requires !LeavesAlone(s, rest, WakePath(agent)) && Load(s, rest, n).Config?
    ensures Load(s, [WakeLine(command)] + rest, n) == Load(s, rest, n)
  {
    hide Step, LeavesAlone, NotDeeper, WakeLine, Put, Reaches, Outside;
    var w := WakeLine(command);
    WakeStep(s, Pop(s.stack, 4), agent, command);
    assert ([w] + rest)[1..] == rest;
    LoadMeets(s, Step(s, w).state, WakePath(agent), Scalar(command), rest, n, n + 1);
  }
}
