/** The indentation-based configuration format, read line by line with a stack of open sections. */
module ConfigFile {
  import opened Strings

  type Entries = map<string, Value>

  datatype Value = Flag(on: bool) | Amount(n: int) | Scalar(text: string) | Items(items: seq<string>)
    | Section(entries: Entries)

  // -- one line ----------------------------------------------------------

  /** Characters a dot in a pattern does not match. */
  predicate Breaks(c: char) {
    c == '\n' || c == '\r' || c as int == 0x2028 || c as int == 0x2029
  }

  predicate Unbroken(s: string) {
    forall i :: 0 <= i < |s| ==> !Breaks(s[i])
  }

  /** Cuts a comment off: from the first # with no line terminator after it. */
  function StripComment(s: string): string {
    if s == "" || (s[0] == '#' && Unbroken(s)) then "" else [s[0]] + StripComment(s[1..])
  }

  /** What is left of a line: its content without comment and trailing white space. */
  function Content(raw: string): string {
    TrimEnd(StripComment(raw))
  }

  function Indent(line: string): nat {
    TrimStartTrims(line);
    |line| - |TrimStart(line)|
  }

  predicate KeyChar(c: char) {
    'A' <= c <= 'Z' || 'a' <= c <= 'z' || '0' <= c <= '9' || c == '_' || c == '.' || c == '-'
  }

  function KeyLength(s: string): (n: nat)
    ensures n <= |s| && forall i :: 0 <= i < n ==> KeyChar(s[i])
    ensures n < |s| ==> !KeyChar(s[n])
  {
    if s != "" && KeyChar(s[0]) then 1 + KeyLength(s[1..]) else 0
  }

  datatype Pair = Pair(key: string, raw: string) | NoPair

  /** A trimmed line as key and raw value. */
  function ReadPair(s: string): Pair {
    var n := KeyLength(s);
    if n == 0 || n == |s| || s[n] != ':' then NoPair
    else
      var raw := TrimStart(s[n + 1..]);
      if Unbroken(raw) then Pair(s[..n], raw) else NoPair
  }

  // -- scalars -----------------------------------------------------------

  predicate Digits(s: string) {
    s != "" && forall i :: 0 <= i < |s| ==> IsDigit(s[i])
  }

  function DigitValue(c: char): nat
    requires IsDigit(c)
  {
    c as int - '0' as int
  }

  function ReadDigits(s: string): nat
    requires forall i :: 0 <= i < |s| ==> IsDigit(s[i])
  {
    if s == "" then 0 else ReadDigits(s[..|s| - 1]) * 10 + DigitValue(s[|s| - 1])
  }

  predicate Wrapped(s: string, open: char, close: char) {
    s != "" && s[0] == open && s[|s| - 1] == close
  }

  /** `slice(1, -1)`. */
  function Inner(s: string): string {
    if |s| < 2 then "" else s[1..|s| - 1]
  }

  predicate IsQuote(c: char) {
    c == '\'' || c == '"'
  }

  function Unquote(s: string): string {
    var t := if s != "" && IsQuote(s[0]) then s[1..] else s;
    if t != "" && IsQuote(t[|t| - 1]) then t[..|t| - 1] else t
  }

  function SplitCommas(s: string): (parts: seq<string>)
    ensures parts != []
  {
    if s == "" then [""]
    else if s[0] == ',' then [""] + SplitCommas(s[1..])
    else
      var rest := SplitCommas(s[1..]);
      [[s[0]] + rest[0]] + rest[1..]
  }

  function ReadItems(parts: seq<string>): seq<string> {
    if parts == [] then [] else
      var item := Unquote(Trim(parts[0]));
      (if item == "" then [] else [item]) + ReadItems(parts[1..])
  }

  function ParseScalar(raw: string): Value {
    var value := Trim(raw);
    if value == "true" then Flag(true)
    else if value == "false" then Flag(false)
    else if Digits(value) then Amount(ReadDigits(value))
    else if value != "" && value[0] == '-' && Digits(value[1..]) then Amount(0 - ReadDigits(value[1..]) as int)
    else if Wrapped(value, '"', '"') || Wrapped(value, '\'', '\'') then Scalar(Inner(value))
    else if Wrapped(value, '[', ']') then
      var inner := Trim(Inner(value));
      Items(if inner == "" then [] else ReadItems(SplitCommas(inner)))
    else Scalar(value)
  }

  // -- sections ----------------------------------------------------------

  /** The path leads to a section. */
  predicate Reaches(tree: Entries, path: seq<string>)
    decreases path
  {
    path == [] || (path[0] in tree && tree[path[0]].Section? && Reaches(tree[path[0]].entries, path[1..]))
  }

  /** Assigns the last key of the path in the section that the rest of the path leads to. */
  function Put(tree: Entries, path: seq<string>, v: Value): Entries
    requires path != [] && Reaches(tree, path[..|path| - 1])
    decreases path
  {
    if |path| == 1 then tree[path[0] := v]
    else
      assert path[..|path| - 1][1..] == path[1..][..|path| - 2];
      tree[path[0] := Section(Put(tree[path[0]].entries, path[1..], v))]
  }

  /** A section is still there after an assignment that does not replace it or a section around it. */
  lemma {:induction false} ReachesAfterPut(tree: Entries, path: seq<string>, v: Value, other: seq<string>)
    requires path != [] && Reaches(tree, path[..|path| - 1])
    requires Reaches(tree, other) && !(path <= other)
    ensures Reaches(Put(tree, path, v), other)
    decreases path
  {
    if other != [] && |path| > 1 && other[0] == path[0] {
      assert path[..|path| - 1][1..] == path[1..][..|path| - 2];
      assert path[1..] <= other[1..] ==> path <= other;
      ReachesAfterPut(tree[path[0]].entries, path[1..], v, other[1..]);
    }
  }

  lemma {:induction false} NewSectionReached(tree: Entries, path: seq<string>)
    requires path != [] && Reaches(tree, path[..|path| - 1])
    ensures Reaches(Put(tree, path, Section(map[])), path)
    decreases path
  {
    if |path| > 1 {
      assert path[..|path| - 1][1..] == path[1..][..|path| - 2];
      NewSectionReached(tree[path[0]].entries, path[1..]);
    }
  }

  // -- the loader --------------------------------------------------------

  /** An open section: the indentation of its line, and the path to it. */
  datatype Frame = Frame(indent: int, path: seq<string>)

  const ROOT := Frame(-1, [])

  datatype State = State(tree: Entries, stack: seq<Frame>)

  datatype Problem = NotAPair | NestedWithoutSection

  datatype Stepped = Next(state: State) | Stuck(problem: Problem)

  datatype Loaded = Config(tree: Entries) | Rejected(problem: Problem, line: nat)

  /** The open sections nest: the n-th one lies n levels deep, and each is still in the tree. */
  predicate Live(s: State) {
    && s.stack != [] && s.stack[0] == ROOT
    && forall i :: 0 <= i < |s.stack| ==> |s.stack[i].path| == i && Reaches(s.tree, s.stack[i].path)
  }

  function Top(stack: seq<Frame>): Frame
    requires stack != []
  {
    stack[|stack| - 1]
  }

  /** Closes every section that is indented as far as the line, or further. */
  function Pop(stack: seq<Frame>, indent: int): (r: seq<Frame>)
    requires stack != []
    ensures r != [] && r <= stack
  {
    if |stack| > 1 && indent <= Top(stack).indent then Pop(stack[..|stack| - 1], indent) else stack
  }

  function Assign(s: State, key: string, v: Value): (r: State)
    requires Live(s)
    ensures Live(r) && r.stack == s.stack
  {
    var path := Top(s.stack).path + [key];
    assert path[..|path| - 1] == Top(s.stack).path;
    var tree := Put(s.tree, path, v);
    assert forall i :: 0 <= i < |s.stack| ==> Reaches(tree, s.stack[i].path) by {
      forall i | 0 <= i < |s.stack| ensures Reaches(tree, s.stack[i].path) {
        ReachesAfterPut(s.tree, path, v, s.stack[i].path);
      }
    }
    State(tree, s.stack)
  }

  /** Starts an empty section under the innermost open one and opens it. */
  function Open(s: State, key: string, indent: nat): (r: State)
    requires Live(s)
    ensures Live(r) && r.stack == s.stack + [Frame(indent, Top(s.stack).path + [key])]
  {
    var path := Top(s.stack).path + [key];
    assert path[..|path| - 1] == Top(s.stack).path;
    NewSectionReached(s.tree, path);
    var next := Assign(s, key, Section(map[]));
    State(next.tree, s.stack + [Frame(indent, path)])
  }

  /** Enters a key into the innermost open section. */
  function Enter(at: State, indent: nat, key: string, value: string): (r: Stepped)
    requires Live(at)
    ensures r.Next? ==> Live(r.state)
  {
    if indent > 0 && |at.stack| == 1 then Stuck(NestedWithoutSection)
    else if value == "" then Next(Open(at, key, indent))
    else Next(Assign(at, key, ParseScalar(value)))
  }

  /** Nothing is left of the line, or a comment that a stray line terminator kept from being cut off. */
  predicate Skipped(line: string) {
    Trim(line) == "" || Trim(line)[0] == '#'
  }

  /** What one line does. */
  function Step(s: State, raw: string): (r: Stepped)
    requires Live(s)
    ensures r.Next? ==> Live(r.state)
  {
    var line := Content(raw);
    if Skipped(line) then Next(s)
    else match ReadPair(Trim(line))
         case NoPair => Stuck(NotAPair)
         case Pair(key, value) =>
           Enter(State(s.tree, Pop(s.stack, Indent(line))), Indent(line), key, value)
  }

  function Load(s: State, lines: seq<string>, read: nat): Loaded
    requires Live(s)
    decreases |lines|
  {
    if lines == [] then Config(s.tree)
    else match Step(s, lines[0])
         case Stuck(problem) => Rejected(problem, read + 1)
         case Next(next) => Load(next, lines[1..], read + 1)
  }

  const START := State(map[], [ROOT])

  function Parse(lines: seq<string>): Loaded {
    Load(START, lines, 0)
  }

  /** Reads a configuration, keeping the open sections on a stack. */
  method LoadConfig(lines: seq<string>) returns (loaded: Loaded)
    ensures loaded == Parse(lines)
  {
    var root, stack := START.tree, START.stack;
    for i := 0 to |lines|
      invariant Live(State(root, stack))
      invariant Load(State(root, stack), lines[i..], i) == Parse(lines)
    {
      assert lines[i..][1..] == lines[i + 1..];
      var line := Content(lines[i]);
      if Skipped(line) {
        continue;
      }
      var indent := Indent(line);
      var pair := ReadPair(Trim(line));
      if pair.NoPair? {
        return Rejected(NotAPair, i + 1);
      }
      ghost var before := stack;
      while |stack| > 1 && indent <= Top(stack).indent
        invariant stack != [] && stack <= before && Pop(stack, indent) == Pop(before, indent)
      {
        stack := stack[..|stack| - 1];
      }
      if indent > 0 && |stack| == 1 {
        return Rejected(NestedWithoutSection, i + 1);
      }
      if pair.raw == "" {
        var child := Open(State(root, stack), pair.key, indent);
        root, stack := child.tree, child.stack;
      } else {
        root := Assign(State(root, stack), pair.key, ParseScalar(pair.raw)).tree;
      }
    }
    loaded := Config(root);
  }
}
