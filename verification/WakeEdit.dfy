/** Adding a wake_command line to an agent's block of the configuration, and what that does to its meaning. */
module WakeEdit {
  import opened Strings

  const WAKE := "wake_command"

  datatype Status = UnknownAgent | Already(line: string) | Add(line: string)

  datatype PlanItem = PlanItem(agent: string, status: Status)

  // -- the edit ----------------------------------------------------------

  function Header(agent: string): string {
    "  " + agent + ":"
  }

  function WakeLine(command: string): string {
    "    " + WAKE + ": \"" + command + "\""
  }

  /** Index of the first line equal to `line`; the number of lines if there is none. */
  function Find(lines: seq<string>, line: string): (i: nat)
    ensures i <= |lines| && (i < |lines| ==> lines[i] == line)
    ensures forall k :: 0 <= k < i ==> lines[k] != line
  {
    if lines == [] || lines[0] == line then 0 else 1 + Find(lines[1..], line)
  }

  /** Four spaces and something after them. */
  predicate InBlock(line: string) {
    "    " <= line && |line| > 4 && !IsSpace(line[4])
  }

  /** Where the run of block lines that starts at `from` ends. */
  function BlockEnd(lines: seq<string>, from: nat): (end: nat)
    requires from <= |lines|
    ensures from <= end <= |lines|
    ensures forall k :: from <= k < end ==> InBlock(lines[k])
    ensures end < |lines| ==> !InBlock(lines[end])
    decreases |lines| - from
  {
    if from < |lines| && InBlock(lines[from]) then BlockEnd(lines, from + 1) else from
  }

  predicate SetsWake(line: string) {
    |TrimStart(line)| < |line| && WAKE + ":" <= TrimStart(line)
  }

  function FindWake(lines: seq<string>, from: nat, end: nat): (i: nat)
    requires from <= end <= |lines|
    ensures from <= i <= end && (i < end ==> SetsWake(lines[i]))
    ensures forall k :: from <= k < i ==> !SetsWake(lines[k])
    decreases end - from
  {
    if from == end || SetsWake(lines[from]) then from else FindWake(lines, from + 1, end)
  }

  function StatusOf(lines: seq<string>, agent: string, command: string): Status {
    var start := Find(lines, Header(agent));
    if start == |lines| then UnknownAgent
    else
      var end := BlockEnd(lines, start + 1);
      var wake := FindWake(lines, start + 1, end);
      if wake < end then Already(Trim(lines[wake])) else Add(WakeLine(command))
  }

  // -- where a line is added, in the text's own terms --------------------

  /** After n white space characters, and at least one, the key stands at the front of the line. */
  predicate KeyAt(line: string, n: nat) {
    && 1 <= n && n + 13 <= |line| && line[n..n + 13] == "wake_command:"
    && forall i :: 0 <= i < n ==> IsSpace(line[i])
  }

  predicate IsWakeLine(line: string) {
    exists n :: 0 <= n <= |line| && KeyAt(line, n)
  }

  predicate IsBlockLine(line: string) {
    |line| >= 5 && line[0] == line[1] == line[2] == line[3] == ' ' && !IsSpace(line[4])
  }

  /** The lines after `start` up to `end` are the block of the header there. */
  predicate IsBlock(lines: seq<string>, agent: string, start: nat, end: nat) {
    && start < end <= |lines| && lines[start] == "  " + agent + ":"
    && (forall k :: 0 <= k < start ==> lines[k] != "  " + agent + ":")
    && (forall k :: start < k < end ==> IsBlockLine(lines[k]))
    && (end < |lines| ==> !IsBlockLine(lines[end]))
  }

  lemma {:induction false} TrimStartSplits(s: string)
    ensures var t := TrimStart(s);
            && |t| <= |s| && s[|s| - |t|..] == t && (forall i :: 0 <= i < |s| - |t| ==> IsSpace(s[i]))
            && (t != "" ==> !IsSpace(t[0]))
  {
    if s != "" && IsSpace(s[0]) {
      TrimStartSplits(s[1..]);
      assert forall i :: 1 <= i < |s| - |TrimStart(s)| ==> s[i] == s[1..][i - 1];
    }
  }

  lemma LinesAreRead(line: string)
    ensures SetsWake(line) <==> IsWakeLine(line)
    ensures InBlock(line) <==> IsBlockLine(line)
  {
    TrimStartSplits(line);
    var n := |line| - |TrimStart(line)|;
    if SetsWake(line) {
      assert line[n..n + 13] == TrimStart(line)[..13];
      assert KeyAt(line, n);
    }
    if IsWakeLine(line) {
      var m :| 0 <= m <= |line| && KeyAt(line, m);
      assert line[m] == line[m..m + 13][0] == 'w';
      assert m == n;
      assert TrimStart(line)[..13] == line[m..m + 13];
    }
  }

  /**
   * The plan for an agent: unknown if no line is its header; otherwise a line is added at the end of the
   * block of the first such line, unless a line of that block sets a wake_command.
   */
  lemma PlanIs(lines: seq<string>, agent: string, command: string)
    ensures var status := StatusOf(lines, agent, command);
            if status.UnknownAgent? then forall k :: 0 <= k < |lines| ==> lines[k] != "  " + agent + ":"
            else
              var start := Find(lines, Header(agent));
              && start < |lines|
              && var end := Place(lines, agent);
                 && IsBlock(lines, agent, start, end)
                 && (status.Already? <==> exists k :: start + 1 <= k < end && IsWakeLine(lines[k]))
                 && Edit(lines, agent, command) == if status.Already? then lines else
                      lines[..end] + [WakeLine(command)] + lines[end..]
  {
    hide SetsWake, InBlock, IsWakeLine, IsBlockLine, IsBlock, BlockEnd, FindWake, Trim, WakeLine;
    var start := Find(lines, Header(agent));
    if start < |lines| {
      var end := Place(lines, agent);
      BlockIs(lines, agent);
      WakeIsFound(lines, start + 1, end);
    }
  }

  lemma BlockIs(lines: seq<string>, agent: string)
    requires Find(lines, Header(agent)) < |lines|
    ensures IsBlock(lines, agent, Find(lines, Header(agent)), Place(lines, agent))
  {
    hide InBlock, IsBlockLine, Find, BlockEnd;
    var start, end := Find(lines, Header(agent)), Place(lines, agent);
    forall k | start < k < end ensures IsBlockLine(lines[k]) {
      LinesAreRead(lines[k]);
    }
    if end < |lines| {
      LinesAreRead(lines[end]);
    }
  }

  lemma WakeIsFound(lines: seq<string>, from: nat, end: nat)
    requires from <= end <= |lines|
    ensures FindWake(lines, from, end) < end <==> exists k :: from <= k < end && IsWakeLine(lines[k])
  {
    hide SetsWake, IsWakeLine, FindWake;
    forall k | from <= k < end ensures SetsWake(lines[k]) <==> IsWakeLine(lines[k]) {
      LinesAreRead(lines[k]);
    }
    var wake := FindWake(lines, from, end);
    if wake < end {
      assert IsWakeLine(lines[wake]);
    }
  }

  /** Where the new line goes. */
  function Place(lines: seq<string>, agent: string): (end: nat)
    requires Find(lines, Header(agent)) < |lines|
    ensures end <= |lines|
  {
    BlockEnd(lines, Find(lines, Header(agent)) + 1)
  }

  function Edit(lines: seq<string>, agent: string, command: string): seq<string> {
    if StatusOf(lines, agent, command).Add? then
      var end := Place(lines, agent);
      lines[..end] + [WakeLine(command)] + lines[end..]
    else lines
  }

  function EditAll(lines: seq<string>, agents: seq<string>, commands: map<string, string>): seq<string>
    requires forall a :: a in agents ==> a in commands
    decreases |agents|
  {
    if agents == [] then lines else EditAll(Edit(lines, agents[0], commands[agents[0]]), agents[1..], commands)
  }

  function Plan(lines: seq<string>, agents: seq<string>, commands: map<string, string>): seq<PlanItem>
    requires forall a :: a in agents ==> a in commands
    decreases |agents|
  {
    if agents == [] then [] else
      var command := commands[agents[0]];
      [PlanItem(agents[0], StatusOf(lines, agents[0], command))]
        + Plan(Edit(lines, agents[0], command), agents[1..], commands)
  }

  /** Inserts, or reports, the wake_command line of each agent. */
  method PlanWakeConfig(text: string, agents: seq<string>, commands: map<string, string>)
    returns (edited: string, plan: seq<PlanItem>)
    requires forall a :: a in agents ==> a in commands
    ensures edited == Join(EditAll(Split(text), agents, commands))
    ensures plan == Plan(Split(text), agents, commands)
  {
    ghost var lines := Split(text);
    var out := Split(text);
    plan := [];
    for i := 0 to |agents|
      invariant EditAll(out, agents[i..], commands) == EditAll(lines, agents, commands)
      invariant plan + Plan(out, agents[i..], commands) == Plan(lines, agents, commands)
    {
      var agent := agents[i];
      assert agents[i..][0] == agent && agents[i..][1..] == agents[i + 1..];
      ghost var before, item := out, PlanItem(agent, StatusOf(out, agent, commands[agent]));
      var status;
      out, status := PlanOne(out, agent, commands[agent]);
      plan := plan + [PlanItem(agent, status)];
    }
    edited := Join(out);
  }

  method PlanOne(lines: seq<string>, agent: string, command: string) returns (out: seq<string>, status: Status)
    ensures out == Edit(lines, agent, command) && status == StatusOf(lines, agent, command)
  {
    out := lines;
    var start := Find(lines, Header(agent));
    if start == |lines| {
      return out, UnknownAgent;
    }
    var end := start + 1;
    while end < |lines| && InBlock(lines[end])
      invariant start + 1 <= end <= |lines|
      invariant BlockEnd(lines, end) == BlockEnd(lines, start + 1)
    {
      end := end + 1;
    }
    var wake := FindWake(lines, start + 1, end);
    if wake < end {
      return out, Already(Trim(lines[wake]));
    }
    out := lines[..end] + [WakeLine(command)] + lines[end..];
    status := Add(WakeLine(command));
  }
}
