/** The wake_command edit as a change of text: when what is written back reads as what was meant. */
module WakeText {
  import opened Strings
  import opened ConfigFile
  import opened ConfigReading
  import opened WakeEdit
  import opened WakeMeaning
  import opened WakeOutcome
  import opened WakeAgents

  // -- writing back ------------------------------------------------------

  /**
   * No line that is followed by another one in the text to be written ends with a carriage return: the
   * last line may, unless the new line goes after it.
   */
  predicate SafeToWrite(lines: seq<string>, agent: string, command: string)
    requires lines != []
  {
    && NoStrayReturns(lines)
    && (StatusOf(lines, agent, command).Add? && Place(lines, agent) == |lines| ==> !EndsWith(lines[|lines| - 1], '\r'))
  }

  lemma InsertedLines(lines: seq<string>, e: nat, w: string)
    requires lines != [] && (forall i :: 0 <= i < |lines| ==> OneLine(lines[i]))
    requires e <= |lines| && OneLine(w) && !EndsWith(w, '\r')
    ensures var next := lines[..e] + [w] + lines[e..];
            && (forall i :: 0 <= i < |next| ==> OneLine(next[i]))
            && (NoStrayReturns(next) <==>
              NoStrayReturns(lines) && (e == |lines| ==> !EndsWith(lines[|lines| - 1], '\r')))
  {
    hide OneLine, EndsWith;
    var next := lines[..e] + [w] + lines[e..];
    assert forall i :: 0 <= i < |next| ==> next[i] == if i < e then lines[i] else if i == e then w else lines[i - 1];
    assert forall i :: 0 <= i < |lines| ==> lines[i] == next[if i < e then i else i + 1];
  }

  lemma WakeLineEnds(command: string)
    requires OneLine(command)
    ensures OneLine(WakeLine(command)) && !EndsWith(WakeLine(command), '\r')
  {
  }

  lemma EditedLines(lines: seq<string>, agent: string, command: string)
    requires lines != [] && (forall i :: 0 <= i < |lines| ==> OneLine(lines[i])) && OneLine(command)
    ensures var next := Edit(lines, agent, command);
            && next != [] && (forall i :: 0 <= i < |next| ==> OneLine(next[i])) && |next| >= |lines|
            && (|next| == |lines| ==> next == lines)
            && (NoStrayReturns(next) <==> SafeToWrite(lines, agent, command))
  {
    hide StatusOf, Place, WakeLine, OneLine, EndsWith, NoStrayReturns;
    if StatusOf(lines, agent, command).Add? {
      BlockSetsNoWake(lines, agent, command);
      WakeLineEnds(command);
      InsertedLines(lines, Place(lines, agent), WakeLine(command));
    }
  }

  /** The text that is written back splits into the edited lines exactly if it is safe to write. */
  lemma WrittenTextReadsIff(text: string, agent: string, command: string)
    requires OneLine(command)
    ensures Split(Join(Edit(Split(text), agent, command))) == Edit(Split(text), agent, command)
       <==> SafeToWrite(Split(text), agent, command)
  {
    SplitLines(text);
    EditedLines(Split(text), agent, command);
    SplitJoinIff(Edit(Split(text), agent, command));
  }

  /** The edit of a text keeps its meaning, and adds the one command. */
  lemma EditedTextKeepsMeaning(text: string, agent: string, command: string)
    requires Parse(Split(text)).Config? && IsKey(agent) && Writable(command)
    requires StatusOf(Split(text), agent, command).Add? && IsMember(Split(text), agent)
    requires var at := Place(Split(text), agent);
             NothingMoves(Split(text), at) && NotReplaced(Split(text), at, agent)
    requires SafeToWrite(Split(text), agent, command)
    ensures var tree, edited := Parse(Split(text)).tree, Join(Edit(Split(text), agent, command));
            Reaches(tree, WakePath(agent)[..2])
            && Parse(Split(edited)) == Config(Put(tree, WakePath(agent), Scalar(command)))
  {
    hide Parse, Edit, SafeToWrite, StatusOf;
    assert OneLine(command);
    WrittenTextReadsIff(text, agent, command);
    EditKeepsMeaning(Split(text), agent, command);
  }

  // -- writing twice -----------------------------------------------------

  lemma {:induction false} AllEditedLines(lines: seq<string>, agents: seq<string>, commands: map<string, string>)
    requires forall a :: a in agents ==> a in commands && OneLine(commands[a])
    requires lines != [] && forall i :: 0 <= i < |lines| ==> OneLine(lines[i])
    ensures var next := EditAll(lines, agents, commands);
            && next != [] && (forall i :: 0 <= i < |next| ==> OneLine(next[i])) && |next| >= |lines|
            && (|next| == |lines| ==> next == lines)
    decreases |agents|
  {
    if agents != [] {
      EditedLines(lines, agents[0], commands[agents[0]]);
      AllEditedLines(Edit(lines, agents[0], commands[agents[0]]), agents[1..], commands);
    }
  }

  /** The edit of a text for several agents keeps its meaning, and adds the commands. */
  lemma AllEditedTextKeepsMeaning(text: string, agents: seq<string>, commands: map<string, string>)
    requires forall a :: a in agents ==> a in commands
    requires Parse(Split(text)).Config? && forall a :: a in agents ==> EditsWell(Split(text), a, commands[a])
    requires NoStrayReturns(EditAll(Split(text), agents, commands))
    ensures var edited := Parse(Split(Join(EditAll(Split(text), agents, commands))));
            edited.Config? && WithCommands(Parse(Split(text)).tree, Split(text), agents, commands, edited.tree)
  {
    hide Parse, EditAll, EditsWell, WithCommands, NoStrayReturns;
    forall a | a in agents ensures OneLine(commands[a]) {
      WellIsOneLine(Split(text), a, commands[a]);
    }
    SplitLines(text);
    AllEditedLines(Split(text), agents, commands);
    SplitJoinIff(EditAll(Split(text), agents, commands));
    EditAllKeepsMeaning(Split(text), agents, commands);
  }

  lemma WellIsOneLine(lines: seq<string>, agent: string, command: string)
    requires Parse(lines).Config? && EditsWell(lines, agent, command)
    ensures OneLine(command)
  {
  }

  /**
   * Running the edit on the text it has written, for the same agents, writes the same text again
   * exactly if that text has no stray carriage returns.
   */
  lemma SecondRunChangesNothingIff(text: string, agents: seq<string>, commands: map<string, string>,
                                   others: map<string, string>)
    requires forall a :: a in agents ==> a in commands && OneLine(commands[a])
    requires forall a :: a in agents ==> a in others && OneLine(others[a])
    ensures var lines := EditAll(Split(text), agents, commands);
            (Join(EditAll(Split(Join(lines)), agents, others)) == Join(lines)) <==> NoStrayReturns(lines)
  {
    hide EditAll, Join, Split, NoStrayReturns;
    var lines := EditAll(Split(text), agents, commands);
    SplitLines(text);
    AllEditedLines(Split(text), agents, commands);
    SplitJoinIs(lines);
    ChopIff(lines);
    SplitLines(Join(lines));
    SecondEditChangesNothing(Split(text), agents, commands, others);
    AllEditedLines(Split(Join(lines)), agents, others);
    var again := EditAll(Split(Join(lines)), agents, others);
    if Join(again) == Join(lines) {
      JoinIsInjective(again, lines);
    }
  }

  // -- what a stray carriage return does ---------------------------------

  lemma OneEntry(raw: string, key: string, value: string)
    requires !Skipped(Content(raw)) && Indent(Content(raw)) == 0 && ReadPair(Trim(Content(raw))) == Pair(key, value)
    ensures Parse([raw, ""]).Config? && key in Parse([raw, ""]).tree
    ensures Parse([raw, ""]).tree[key].Section? <==> value == ""
  {
    assert Skipped(Content(""));
    assert !ParseScalar(value).Section?;
    hide Content, Skipped, Indent, ReadPair, Trim, ParseScalar;
    assert [raw, ""][1..] == [""] && [""][1..] == [];
    var next := Step(START, raw).state;
    assert Step(next, "") == Next(next);
    assert Load(START, [raw, ""], 0) == Load(next, [""], 1);
  }

  lemma CommentSigns()
    ensures Content("a:#\r") == "a" + ":" + "" + "#" && Content("a:#") == "a" + ":" + "" + ""
    ensures forall s :: s == "a:#" || s == "a:" ==> Trim(s) == s && Indent(s) == 0 && !Skipped(s)
  {
    var kept, lost := "a:#\r", "a:#";
    assert kept[1..][1..] == "#\r" && "#\r"[1..] == "\r" && lost[1..][1..] == "#";
    assert "#\r"[1] == '\r' && Breaks('\r');
    assert StripComment("\r") == "\r";
    assert StripComment("#\r") == "#\r";
    assert StripComment(kept[1..]) == ":#\r";
    assert StripComment("#") == "";
    assert StripComment(lost[1..]) == ":";
    assert TrimEnd(kept) == TrimEnd(kept[..3]) == lost;
  }

  /** A line that ends with two carriage returns and a line feed loses one of them when the text is written back. */
  lemma StrayReturnIsLost(line: string)
    requires OneLine(line) && !EndsWith(line, '\r')
    ensures Split(line + "\r\r\n") == [line + "\r", ""]
    ensures Split(Join([line + "\r", ""])) == [line, ""]
  {
    assert line + "\r\r\n" == (line + "\r") + ("\r\n" + "");
    SplitFirstReturn(line + "\r", "");
    assert Join([line + "\r", ""]) == line + ("\r\n" + "");
    SplitFirstReturn(line, "");
  }

  /** If such a line has a comment sign, what was a value becomes a comment. */
  lemma StrayReturnChangesMeaning()
    ensures var lines := Split("a:#" + "\r\r\n");
            Parse(Split(Join(lines))) != Parse(lines)
  {
    hide Split, Join, Parse, Content, Trim, Indent, Skipped, ReadPair;
    StrayReturnIsLost("a:#");
    CommentSigns();
    PairIs("a", "", "#");
    PairIs("a", "", "");
    assert "a:#" + "\r" == "a:#\r";
    OneEntry("a:#\r", "a", "#");
    OneEntry("a:#", "a", "");
  }
}
