/** Editing for several agents: the edit for one agent leaves what the edit for another one needs. */
module WakeAgents {
  import opened Strings
  import opened ConfigFile
  import opened ConfigReading
  import opened WakeEdit
  import opened WakeMeaning
  import opened WakeOutcome

  /** If a line is added for the agent at all, the edit adds the command and nothing else. */
  predicate EditsWell(lines: seq<string>, agent: string, command: string)
    requires Parse(lines).Config?
  {
    && IsKey(agent) && Writable(command)
    && (StatusOf(lines, agent, command).Add? ==>
          && IsMember(lines, agent)
          && NothingMoves(lines, Place(lines, agent)) && NotReplaced(lines, Place(lines, agent), agent))
  }

  // -- readers that differ in closed sections ----------------------------

  /** One reader may have closed sections that the next line that counts closes anyway. */
  predicate Nearly(a: seq<Frame>, b: seq<Frame>, rest: seq<string>) {
    a != [] && (b == a || (b == Pop(a, 4) && NotDeeper(rest, 4)))
  }

  lemma EnterStack(s: State, e: State, indent: nat, key: string, value: string)
    requires Live(s) && Live(e) && s.stack == e.stack
    ensures Enter(s, indent, key, value).Next? <==> Enter(e, indent, key, value).Next?
    ensures Enter(s, indent, key, value).Next? ==>
              Enter(s, indent, key, value).state.stack == Enter(e, indent, key, value).state.stack
  {
    hide ParseScalar;
  }

  lemma StepNearly(s: State, e: State, raw: string, rest: seq<string>, path: seq<string>)
    requires Live(s) && Live(e) && Nearly(s.stack, e.stack, [raw] + rest)
    ensures Step(s, raw).Next? <==> Step(e, raw).Next?
    ensures Step(s, raw).Next? ==> Nearly(Step(s, raw).state.stack, Step(e, raw).state.stack, rest)
    ensures Touches(s, raw, path) <==> Touches(e, raw, path)
  {
    hide Content, Skipped, ReadPair, Trim, Indent, Enter;
    var line := Content(raw);
    assert ([raw] + rest)[1..] == rest;
    if !Skipped(line) {
      var pair, indent := ReadPair(Trim(line)), Indent(line);
      PopPop(s.stack, 4, if e.stack == s.stack then 4 else indent);
      assert Pop(s.stack, indent) == Pop(e.stack, indent);
      if pair.Pair? {
        EnterStack(State(s.tree, Pop(s.stack, indent)), State(e.tree, Pop(e.stack, indent)), indent, pair.key,
                   pair.raw);
      }
    }
  }

  lemma {:induction false} AdvanceNearly(s: State, e: State, lines: seq<string>, rest: seq<string>)
    requires Live(s) && Live(e) && Nearly(s.stack, e.stack, lines + rest) && Advance(s, lines).Next?
    ensures Advance(e, lines).Next?
    ensures Nearly(Advance(s, lines).state.stack, Advance(e, lines).state.stack, rest)
    decreases |lines|
  {
    hide Step, Nearly;
    if lines == [] {
      assert lines + rest == rest;
    } else {
      assert lines + rest == [lines[0]] + (lines[1..] + rest);
      StepNearly(s, e, lines[0], lines[1..] + rest, []);
      AdvanceNearly(Step(s, lines[0]).state, Step(e, lines[0]).state, lines[1..], rest);
    }
  }

  lemma {:induction false} LeavesAloneNearly(s: State, e: State, lines: seq<string>, path: seq<string>)
    requires Live(s) && Live(e) && Nearly(s.stack, e.stack, lines) && LeavesAlone(s, lines, path)
    ensures LeavesAlone(e, lines, path)
    decreases |lines|
  {
    hide Step, Nearly, Touches;
    if lines != [] {
      assert lines == [lines[0]] + lines[1..];
      StepNearly(s, e, lines[0], lines[1..], path);
      if Step(s, lines[0]).Next? {
        LeavesAloneNearly(Step(s, lines[0]).state, Step(e, lines[0]).state, lines[1..], path);
      }
    }
  }

  lemma {:induction false} LeavesAloneSplits(s: State, a: seq<string>, b: seq<string>, path: seq<string>)
    requires Live(s) && Advance(s, a).Next?
    ensures LeavesAlone(s, a + b, path) <==> LeavesAlone(s, a, path) && LeavesAlone(Advance(s, a).state, b, path)
    decreases |a|
  {
    hide Step, Touches;
    if a == [] {
      assert a + b == b;
    } else {
      assert (a + b)[0] == a[0] && (a + b)[1..] == a[1..] + b;
      LeavesAloneSplits(Step(s, a[0]).state, a[1..], b, path);
    }
  }

  lemma {:induction false} NotDeeperInsert(a: seq<string>, w: string, b: seq<string>)
    requires NotDeeper(a + b, 4) && !Skipped(Content(w)) && Indent(Content(w)) == 4
    ensures NotDeeper(a + ([w] + b), 4)
    decreases |a|
  {
    hide Skipped, Content, Indent;
    if a == [] {
      assert a + ([w] + b) == [w] + b;
    } else {
      assert (a + b)[0] == a[0] && (a + b)[1..] == a[1..] + b;
      assert (a + ([w] + b))[0] == a[0] && (a + ([w] + b))[1..] == a[1..] + ([w] + b);
      if Skipped(Content(a[0])) {
        NotDeeperInsert(a[1..], w, b);
      }
    }
  }

  // -- where the lines go ------------------------------------------------

  lemma HeaderIsNoBlockLine(agent: string)
    requires IsKey(agent)
    ensures !InBlock(Header(agent))
  {
    assert Header(agent)[2] == agent[0];
  }

  lemma HeadersDiffer(a: string, b: string)
    requires a != b
    ensures Header(a) != Header(b)
  {
    assert Header(a)[2..|Header(a)| - 1] == a && Header(b)[2..|Header(b)| - 1] == b;
  }

  lemma BlockEndIs(lines: seq<string>, from: nat, end: nat)
    requires from <= end <= |lines| && (end < |lines| ==> !InBlock(lines[end]))
    requires forall k :: from <= k < end ==> InBlock(lines[k])
    ensures BlockEnd(lines, from) == end
  {
    hide InBlock;
  }

  /** The same lines, perhaps further down, set a wake_command in the same place. */
  lemma SameWake(lines: seq<string>, next: seq<string>, from: nat, end: nat, d: nat)
    requires from <= end <= |lines| && end + d <= |next|
    requires forall k :: from <= k < end ==> next[k + d] == lines[k]
    ensures FindWake(next, from + d, end + d) == FindWake(lines, from, end) + d
  {
    hide SetsWake;
    var i, j := FindWake(lines, from, end), FindWake(next, from + d, end + d);
    assert i < end ==> next[i + d] == lines[i];
    assert j - d < end ==> next[j - d + d] == lines[j - d];
  }

  /** No agent's line is in the block of another one. */
  lemma BlocksAreApart(lines: seq<string>, agent: string, other: string)
    requires IsKey(agent) && IsKey(other) && agent != other
    requires Find(lines, Header(agent)) < |lines| && Find(lines, Header(other)) < |lines|
    ensures Find(lines, Header(other)) < Place(lines, agent) ==> Place(lines, other) < Place(lines, agent)
  {
    hide InBlock, Header;
    HeaderIsNoBlockLine(agent);
    HeaderIsNoBlockLine(other);
    HeadersDiffer(agent, other);
  }

  /** How far the lines of another agent move: not at all, or down by one. */
  function Shift(lines: seq<string>, agent: string, other: string): nat
    requires Find(lines, Header(agent)) < |lines|
  {
    if Find(lines, Header(other)) < Place(lines, agent) then 0 else 1
  }

  /** The block of another agent stays as it is, or moves down by one line. */
  lemma OtherBlock(lines: seq<string>, agent: string, command: string, other: string)
    requires IsKey(agent) && IsKey(other) && agent != other && StatusOf(lines, agent, command).Add?
    requires Find(lines, Header(other)) < |lines|
    ensures var next, d := Edit(lines, agent, command), Shift(lines, agent, other);
            && Find(next, Header(other)) == Find(lines, Header(other)) + d && Find(next, Header(other)) < |next|
            && Place(next, other) == Place(lines, other) + d
            && (d == 0 ==> Place(lines, other) < Place(lines, agent))
  {
    hide InBlock, SetsWake, WakeLine, Header, Find, BlockEnd, FindWake;
    var e, w := Place(lines, agent), WakeLine(command);
    WakeLineIsSeen(command);
    FindAfterInsert(lines, e, w, Header(other));
    BlocksAreApart(lines, agent, other);
    BlockAfterInsert(lines, e, w, Find(lines, Header(other)) + 1);
  }

  lemma BlockAfterEdit(lines: seq<string>, agent: string, command: string, from: nat, d: nat)
    requires StatusOf(lines, agent, command).Add? && from <= |lines|
    requires from <= Place(lines, agent) ==> BlockEnd(lines, from) < Place(lines, agent)
    requires d == if from <= Place(lines, agent) then 0 else 1
    ensures var next, end := Edit(lines, agent, command), BlockEnd(lines, from);
            end + d <= |next| && FindWake(next, from + d, end + d) == FindWake(lines, from, end) + d
  {
    hide InBlock, SetsWake, WakeLine, Header, Find, BlockEnd, FindWake;
    BlockAfterInsert(lines, Place(lines, agent), WakeLine(command), from);
  }

  lemma OtherWake(lines: seq<string>, agent: string, command: string, other: string)
    requires IsKey(agent) && IsKey(other) && agent != other && StatusOf(lines, agent, command).Add?
    requires Find(lines, Header(other)) < |lines|
    requires var next := Edit(lines, agent, command); Find(next, Header(other)) < |next|
    ensures var next, d := Edit(lines, agent, command), Shift(lines, agent, other);
            FindWake(next, Find(next, Header(other)) + 1, Place(next, other))
              == FindWake(lines, Find(lines, Header(other)) + 1, Place(lines, other)) + d
  {
    hide StatusOf, Edit, Find, FindWake, Header, BlockEnd;
    OtherBlock(lines, agent, command, other);
    BlockAfterEdit(lines, agent, command, Find(lines, Header(other)) + 1, Shift(lines, agent, other));
  }

  lemma AddIff(lines: seq<string>, agent: string, command: string)
    ensures StatusOf(lines, agent, command).Add? <==>
              Find(lines, Header(agent)) < |lines|
              && FindWake(lines, Find(lines, Header(agent)) + 1, Place(lines, agent)) == Place(lines, agent)
  {
    hide InBlock, SetsWake, WakeLine, Header, Find, BlockEnd, FindWake, Trim;
  }

  lemma OtherStatus(lines: seq<string>, agent: string, command: string, other: string, others: string)
    requires IsKey(agent) && IsKey(other) && agent != other && StatusOf(lines, agent, command).Add?
    requires Find(lines, Header(other)) < |lines|
    ensures StatusOf(Edit(lines, agent, command), other, others).Add? <==> StatusOf(lines, other, others).Add?
  {
    hide StatusOf, Edit, Place, Shift, Find, FindWake, Header;
    OtherBlock(lines, agent, command, other);
    OtherWake(lines, agent, command, other);
    AddIff(lines, other, others);
    AddIff(Edit(lines, agent, command), other, others);
  }

  /** A block before or after an inserted line. */
  lemma BlockAfterInsert(lines: seq<string>, e: nat, w: string, from: nat)
    requires e <= |lines| && from <= |lines|
    requires from <= e ==> BlockEnd(lines, from) < e
    ensures var next, end, d := lines[..e] + [w] + lines[e..], BlockEnd(lines, from), if from <= e then 0 else 1;
            && BlockEnd(next, from + d) == end + d
            && FindWake(next, from + d, end + d) == FindWake(lines, from, end) + d
  {
    hide InBlock, SetsWake, BlockEnd, FindWake;
    var next, end, d := lines[..e] + [w] + lines[e..], BlockEnd(lines, from), if from <= e then 0 else 1;
    InsertMoves(lines, e, w, from, end, d);
    SameBlock(lines, next, from, end, d);
    SameWake(lines, next, from, end, d);
  }

  lemma InsertMoves(lines: seq<string>, e: nat, w: string, from: nat, end: nat, d: nat)
    requires e <= |lines| && from <= end <= |lines| && if d == 0 then end < e else d == 1 && e < from
    ensures var next := lines[..e] + [w] + lines[e..];
            && (forall k :: from <= k < end ==> next[k + d] == lines[k])
            && (if end < |lines| then next[end + d] == lines[end] else end + d == |next|)
  {
  }

  lemma SameBlock(lines: seq<string>, next: seq<string>, from: nat, end: nat, d: nat)
    requires from <= end <= |lines| && end == BlockEnd(lines, from) && end + d <= |next|
    requires forall k :: from <= k < end ==> next[k + d] == lines[k]
    requires if end < |lines| then end + d < |next| && next[end + d] == lines[end] else end + d == |next|
    ensures BlockEnd(next, from + d) == end + d
  {
    hide InBlock;
    forall k | from + d <= k < end + d ensures InBlock(next[k]) {
      assert next[k - d + d] == lines[k - d];
    }
    BlockEndIs(next, from + d, end + d);
  }

  lemma UnknownStays(lines: seq<string>, agent: string, command: string, other: string)
    requires StatusOf(lines, agent, command).Add? && Find(lines, Header(other)) == |lines|
    ensures var next := Edit(lines, agent, command); Find(next, Header(other)) == |next|
  {
    hide WakeLine, Header, Find;
    WakeLineIsSeen(command);
    FindAfterInsert(lines, Place(lines, agent), WakeLine(command), Header(other));
  }

  // -- what the edit for one agent leaves --------------------------------

  /** After the new line, the reader of the edited text has closed at most what is closed anyway. */
  lemma ReadersStayNear(lines: seq<string>, agent: string, command: string, j: nat)
    requires Parse(lines).Config? && EditsWell(lines, agent, command) && StatusOf(lines, agent, command).Add?
    requires Parse(Edit(lines, agent, command)).Config? && Place(lines, agent) <= j <= |lines|
    ensures j + 1 <= |Edit(lines, agent, command)|
    ensures Nearly(StateAt(lines, j).stack, StateAt(Edit(lines, agent, command), j + 1).stack, lines[j..])
  {
    hide Step, Advance, Load, NotDeeper, Pop, StatusOf, LeavesAlone, Find, InAgent, Put, Reaches, WakeLine;
    var e, w, next := Place(lines, agent), WakeLine(command), Edit(lines, agent, command);
    var s, between := StateAt(lines, e), lines[e..j];
    PlaceIsInAgent(lines, agent, command);
    WakeStep(s, Pop(s.stack, 4), agent, command);
    AcceptedPrefix(lines, e);
    AcceptedPrefix(lines, j);
    AcceptedPrefix(next, j + 1);
    PrefixAfterInsert(lines, e, w, j);
    AdvanceSplits(START, lines[..e], between);
    AdvanceSplits(START, lines[..e], [w] + between);
    AdvanceThrough(s, w, between);
    AdvanceNearly(s, Step(s, w).state, between, lines[j..]);
  }

  lemma PrefixAfterInsert(lines: seq<string>, e: nat, w: string, j: nat)
    requires e <= j <= |lines|
    ensures lines[..j] == lines[..e] + lines[e..j] && lines[e..j] + lines[j..] == lines[e..]
    ensures (lines[..e] + [w] + lines[e..])[..j + 1] == lines[..e] + ([w] + lines[e..j])
  {
  }

  lemma SamePrefix(lines: seq<string>, agent: string, command: string, j: nat)
    requires Parse(lines).Config? && Parse(Edit(lines, agent, command)).Config?
    requires StatusOf(lines, agent, command).Add? && j <= Place(lines, agent)
    ensures StateAt(Edit(lines, agent, command), j) == StateAt(lines, j)
  {
    hide Step, Advance, Load, Find, WakeLine;
    assert Edit(lines, agent, command)[..j] == lines[..j];
  }

  /** The agent's line comes first: what is read after it is read by a reader that stays near. */
  lemma LaterStaysWell(lines: seq<string>, agent: string, command: string, other: string, start: nat, end: nat)
    requires Parse(lines).Config? && EditsWell(lines, agent, command) && StatusOf(lines, agent, command).Add?
    requires Parse(Edit(lines, agent, command)).Config? && Place(lines, agent) <= start < end <= |lines|
    requires Owner(StateAt(lines, start).stack, 2) == [AGENTS]
    requires NothingMoves(lines, end) && NotReplaced(lines, end, other)
    ensures var next := Edit(lines, agent, command);
            && end + 1 <= |next| && Owner(StateAt(next, start + 1).stack, 2) == [AGENTS]
            && NothingMoves(next, end + 1) && NotReplaced(next, end + 1, other)
  {
    hide Step, Advance, Load, NotDeeper, StatusOf, LeavesAlone, Find, WakeLine, EditsWell, StateAt;
    var next := Edit(lines, agent, command);
    ReadersStayNear(lines, agent, command, start);
    ReadersStayNear(lines, agent, command, end);
    PopPop(StateAt(lines, start).stack, 4, 2);
    PopPop(StateAt(lines, end).stack, 4, 4);
    assert next[end + 1..] == lines[end..];
    LeavesAloneNearly(StateAt(lines, end), StateAt(next, end + 1), lines[end..], WakePath(other));
  }

  /** The agent's line comes later: it assigns nothing of the other agent. */
  lemma EarlierStaysWell(lines: seq<string>, agent: string, command: string, other: string, end: nat)
    requires Parse(lines).Config? && EditsWell(lines, agent, command) && StatusOf(lines, agent, command).Add?
    requires Parse(Edit(lines, agent, command)).Config? && end < Place(lines, agent) && agent != other
    requires NothingMoves(lines, end) && NotReplaced(lines, end, other)
    ensures var next := Edit(lines, agent, command);
            end <= |next| && NothingMoves(next, end) && NotReplaced(next, end, other)
  {
    hide Step, Advance, Load, NotDeeper, StatusOf, LeavesAlone, Find, WakeLine, Pop, Touches, Live;
    var e, w, next := Place(lines, agent), WakeLine(command), Edit(lines, agent, command);
    var between, rest := lines[end..e], lines[e..];
    SamePrefix(lines, agent, command, end);
    assert next[end..] == between + ([w] + rest) && lines[end..] == between + rest;
    WakeLineReads(command);
    if NotDeeper(lines[end..], 4) {
      NotDeeperInsert(between, w, rest);
    }
    EarlierNotReplaced(lines, agent, command, other, end);
  }

  lemma EarlierNotReplaced(lines: seq<string>, agent: string, command: string, other: string, end: nat)
    requires Parse(lines).Config? && EditsWell(lines, agent, command) && StatusOf(lines, agent, command).Add?
    requires end < Place(lines, agent) && agent != other && NotReplaced(lines, end, other)
    ensures var e := Place(lines, agent);
            LeavesAlone(StateAt(lines, end), lines[end..e] + ([WakeLine(command)] + lines[e..]), WakePath(other))
  {
    hide Step, Advance, Load, NotDeeper, StatusOf, LeavesAlone, Find, WakeLine, Pop, Touches, InAgent, Put, Reaches;
    var e, w, path := Place(lines, agent), WakeLine(command), WakePath(other);
    var before, s, between := StateAt(lines, end), StateAt(lines, e), lines[end..e];
    AcceptedPrefix(lines, end);
    AcceptedPrefix(lines, e);
    assert lines[..e] == lines[..end] + between;
    AdvanceSplits(START, lines[..end], between);
    assert Advance(before, between).Next? && Advance(before, between).state == s;
    assert lines[end..] == between + lines[e..];
    LeavesAloneSplits(before, between, lines[e..], path);
    LeavesAloneSplits(before, between, [w] + lines[e..], path);
    PlaceIsInAgent(lines, agent, command);
    WakeStep(s, Pop(s.stack, 4), agent, command);
    LeavesAloneNearly(s, Step(s, w).state, lines[e..], path);
    NewLineTouchesItsAgent(s, agent, command, other);
    LeavesAloneThrough(s, w, lines[e..], path);
  }

  lemma NewLineTouchesItsAgent(s: State, agent: string, command: string, other: string)
    requires Live(s) && InAgent(s.stack, Pop(s.stack, 4), agent) && Writable(command) && agent != other
    ensures !Touches(s, WakeLine(command), WakePath(other))
  {
    hide Content, Indent, Skipped, ReadPair, Trim, WakeLine;
    WakeLineReads(command);
    assert ([AGENTS, agent] + [WAKE])[1] == agent && WakePath(other)[1] == other;
  }

  lemma LeavesAloneThrough(s: State, w: string, rest: seq<string>, path: seq<string>)
    requires Live(s) && !Touches(s, w, path) && Step(s, w).Next? && LeavesAlone(Step(s, w).state, rest, path)
    ensures LeavesAlone(s, [w] + rest, path)
  {
    hide Step, Touches;
    assert ([w] + rest)[1..] == rest;
  }

  lemma EditIsRead(lines: seq<string>, agent: string, command: string)
    requires Parse(lines).Config? && EditsWell(lines, agent, command)
    ensures Parse(Edit(lines, agent, command)).Config?
    ensures StatusOf(lines, agent, command).Add? ==> AddsCommand(lines, agent, command)
    ensures !StatusOf(lines, agent, command).Add? ==> Edit(lines, agent, command) == lines
  {
    if StatusOf(lines, agent, command).Add? {
      EditKeepsMeaning(lines, agent, command);
    }
  }

  /** What the edit for one agent needs, the edit for another one leaves; and it settles its own agent only. */
  lemma EditKeepsOthersWell(lines: seq<string>, agent: string, command: string, other: string, others: string)
    requires Parse(lines).Config? && EditsWell(lines, agent, command) && EditsWell(lines, other, others)
    ensures Parse(Edit(lines, agent, command)).Config?
    ensures EditsWell(Edit(lines, agent, command), other, others)
    ensures agent != other ==>
              (StatusOf(Edit(lines, agent, command), other, others).Add? <==> StatusOf(lines, other, others).Add?)
  {
    hide Parse, StateAt, LeavesAlone, Find, BlockEnd, FindWake, Writable, IsKey, NothingMoves, NotReplaced, Edit,
         Header, Owner, WakeLine, Trim;
    EditIsRead(lines, agent, command);
    var next := Edit(lines, agent, command);
    if agent == other {
      EditSettles(lines, agent, command);
    } else if StatusOf(lines, agent, command).Add? {
      if Find(lines, Header(other)) < |lines| {
        OtherBlock(lines, agent, command, other);
        OtherStatus(lines, agent, command, other, others);
      } else {
        UnknownStays(lines, agent, command, other);
      }
      if StatusOf(lines, other, others).Add? {
        var start, end := Find(lines, Header(other)), Place(lines, other);
        if start < Place(lines, agent) {
          SamePrefix(lines, agent, command, start);
          EarlierStaysWell(lines, agent, command, other, end);
        } else {
          LaterStaysWell(lines, agent, command, other, start, end);
        }
      }
    }
  }

  // -- all agents --------------------------------------------------------

  /** The settings are the old ones, and for each agent that a line is added for, its command. */
  ghost predicate WithCommands(tree: Entries, lines: seq<string>, agents: seq<string>, commands: map<string, string>,
                               result: Entries)
    requires forall a :: a in agents ==> a in commands
    decreases |agents|
  {
    if agents == [] then result == tree
    else
      var agent := agents[0];
      if StatusOf(lines, agent, commands[agent]).Add? then
        && Reaches(tree, WakePath(agent)[..2])
        && WithCommands(Put(tree, WakePath(agent), Scalar(commands[agent])), Edit(lines, agent, commands[agent]),
                        agents[1..], commands, result)
      else WithCommands(tree, lines, agents[1..], commands, result)
  }

  /**
   * The edit for several agents at once keeps the meaning too, if in the text it starts from every
   * agent meets the conditions of one edit.
   */
  lemma {:induction false} EditAllKeepsMeaning(lines: seq<string>, agents: seq<string>, commands: map<string, string>)
    requires forall a :: a in agents ==> a in commands
    requires Parse(lines).Config? && forall a :: a in agents ==> EditsWell(lines, a, commands[a])
    ensures Parse(EditAll(lines, agents, commands)).Config?
    ensures WithCommands(Parse(lines).tree, lines, agents, commands, Parse(EditAll(lines, agents, commands)).tree)
    decreases |agents|
  {
    hide Parse, EditsWell, Edit, StatusOf, Put, Reaches;
    if agents != [] {
      var agent, rest := agents[0], agents[1..];
      var next := Edit(lines, agent, commands[agent]);
      EditIsRead(lines, agent, commands[agent]);
      forall a | a in rest ensures EditsWell(next, a, commands[a]) {
        EditKeepsOthersWell(lines, agent, commands[agent], a, commands[a]);
      }
      EditAllKeepsMeaning(next, rest, commands);
    }
  }
}
