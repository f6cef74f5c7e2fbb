/** How the configuration reader treats plain lines, sequences of lines, and assignments. */
module ConfigReading {
  import opened Strings
  import opened ConfigFile

  // -- reading lines -----------------------------------------------------

  lemma {:induction false} StripIsPrefix(s: string)
    ensures StripComment(s) <= s
    ensures '#' !in s ==> StripComment(s) == s
  {
    if s != "" {
      StripIsPrefix(s[1..]);
      assert s == [s[0]] + s[1..];
    }
  }

  /** A line of `n` spaces and a body without comment, neither starting nor ending with white space. */
  predicate Simple(line: string, n: nat) {
    && n < |line| && (forall i :: 0 <= i < n ==> line[i] == ' ')
    && !IsSpace(line[n]) && !IsSpace(line[|line| - 1]) && '#' !in line
  }

  lemma {:induction false} TrimStartIs(line: string, n: nat)
    requires n < |line| && (forall i :: 0 <= i < n ==> line[i] == ' ') && !IsSpace(line[n])
    ensures TrimStart(line) == line[n..]
  {
    if n > 0 {
      TrimStartIs(line[1..], n - 1);
    }
  }

  lemma SimpleReads(line: string, n: nat)
    requires Simple(line, n)
    ensures Content(line) == line && Indent(line) == n && Trim(line) == line[n..] && !Skipped(line)
  {
    StripIsPrefix(line);
    TrimStartIs(line, n);
    assert line[n] in line;
  }

  lemma {:induction false} KeyLengthIs(key: string, rest: string)
    requires (forall i :: 0 <= i < |key| ==> KeyChar(key[i])) && rest != "" && !KeyChar(rest[0])
    ensures KeyLength(key + rest) == |key|
  {
    if key == "" {
      assert key + rest == rest;
    } else {
      assert (key + rest)[1..] == key[1..] + rest;
      KeyLengthIs(key[1..], rest);
    }
  }

  /** Letters, digits, underscores, dots and hyphens. */
  predicate IsKey(s: string) {
    s != "" && forall i :: 0 <= i < |s| ==>
      'A' <= s[i] <= 'Z' || 'a' <= s[i] <= 'z' || '0' <= s[i] <= '9' || s[i] in ['_', '.', '-']
  }

  lemma PairIs(key: string, gap: string, raw: string)
    requires IsKey(key) && (gap == "" || gap == " ") && Unbroken(raw) && (raw != "" ==> !IsSpace(raw[0]))
    ensures ReadPair(key + ":" + gap + raw) == Pair(key, raw)
  {
    hide KeyLength, TrimStart, Unbroken, KeyChar, IsSpace;
    var s, n := key + ":" + gap + raw, |key|;
    assert s == key + (":" + gap + raw);
    ColonEndsKey(key, ":" + gap + raw);
    assert s[n + 1..] == gap + raw && s[..n] == key;
    GapIsTrimmed(gap, raw);
  }

  lemma ColonEndsKey(key: string, rest: string)
    requires IsKey(key) && rest != "" && rest[0] == ':'
    ensures KeyLength(key + rest) == |key|
  {
    KeyLengthIs(key, rest);
  }

  lemma GapIsTrimmed(gap: string, raw: string)
    requires (gap == "" || gap == " ") && (raw != "" ==> !IsSpace(raw[0]))
    ensures TrimStart(gap + raw) == raw
  {
    assert TrimStart(raw) == raw;
    if gap == " " {
      assert (gap + raw)[1..] == raw;
    } else {
      assert gap + raw == raw;
    }
  }

  lemma QuotedIs(command: string)
    ensures ParseScalar("\"" + command + "\"") == Scalar(command)
  {
    var s := "\"" + command + "\"";
    assert s[0] == '"' && s[|s| - 1] == '"';
    assert TrimStart(s) == s && TrimEnd(s) == s;
    assert s[1..|s| - 1] == command;
  }

  // -- assignments that do not meet --------------------------------------

  /** What an assignment writes at its own level depends on the entry it passes through alone. */
  lemma PutIsLocal(tree: Entries, other: Entries, p: seq<string>, v: Value) returns (entry: Value)
    requires p != [] && Reaches(tree, p[..|p| - 1]) && Reaches(other, p[..|p| - 1])
    requires p[0] in tree ==> p[0] in other && tree[p[0]] == other[p[0]]
    ensures Put(tree, p, v) == tree[p[0] := entry] && Put(other, p, v) == other[p[0] := entry]
  {
    entry := Put(tree, p, v)[p[0]];
  }

  /** An assignment further down leaves this level alone except for one section. */
  lemma PutInside(tree: Entries, p: seq<string>, v: Value)
    requires |p| > 1 && Reaches(tree, p[..|p| - 1])
    ensures p[0] in tree && tree[p[0]].Section? && Reaches(tree[p[0]].entries, p[1..][..|p| - 2])
    ensures Put(tree, p, v) == tree[p[0] := Section(Put(tree[p[0]].entries, p[1..], v))]
  {
    assert p[..|p| - 1][1..] == p[1..][..|p| - 2];
  }

  /** Two assignments of which neither replaces what the other assigns can be swapped. */
  lemma {:induction false} PutsCommute(tree: Entries, p: seq<string>, a: Value, q: seq<string>, b: Value)
    requires p != [] && q != [] && !(p <= q) && !(q <= p)
    requires Reaches(tree, p[..|p| - 1]) && Reaches(tree, q[..|q| - 1])
    ensures Reaches(Put(tree, p, a), q[..|q| - 1]) && Reaches(Put(tree, q, b), p[..|p| - 1])
    ensures Put(Put(tree, p, a), q, b) == Put(Put(tree, q, b), p, a)
    decreases p
  {
    hide Put, Reaches;
    PutKeepsParent(tree, p, a, q);
    PutKeepsParent(tree, q, b, p);
    if p[0] == q[0] {
      SameHeadTails(p, q);
      PutInside(tree, p, a);
      PutInside(tree, q, b);
      PutInside(Put(tree, p, a), q, b);
      PutInside(Put(tree, q, b), p, a);
      PutsCommute(tree[p[0]].entries, p[1..], a, q[1..], b);
    } else {
      PutsCommuteApart(tree, p, a, q, b);
    }
  }

  lemma PutKeepsParent(tree: Entries, p: seq<string>, a: Value, q: seq<string>)
    requires p != [] && q != [] && !(p <= q)
    requires Reaches(tree, p[..|p| - 1]) && Reaches(tree, q[..|q| - 1])
    ensures Reaches(Put(tree, p, a), q[..|q| - 1])
  {
    hide Put, Reaches;
    ReachesAfterPut(tree, p, a, q[..|q| - 1]);
  }

  lemma SameHeadTails(p: seq<string>, q: seq<string>)
    requires p != [] && q != [] && !(p <= q) && !(q <= p) && p[0] == q[0]
    ensures |p| > 1 && |q| > 1 && !(p[1..] <= q[1..]) && !(q[1..] <= p[1..])
  {
    assert p == [p[0]] + p[1..] && q == [q[0]] + q[1..];
  }

  lemma PutsCommuteApart(tree: Entries, p: seq<string>, a: Value, q: seq<string>, b: Value)
    requires p != [] && q != [] && p[0] != q[0]
    requires Reaches(tree, p[..|p| - 1]) && Reaches(tree, q[..|q| - 1])
    requires Reaches(Put(tree, p, a), q[..|q| - 1]) && Reaches(Put(tree, q, b), p[..|p| - 1])
    ensures Put(Put(tree, p, a), q, b) == Put(Put(tree, q, b), p, a)
  {
    hide Put, Reaches;
    var _ := PutIsLocal(tree, tree, p, a);
    var _ := PutIsLocal(tree, tree, q, b);
    var v := PutIsLocal(tree, Put(tree, q, b), p, a);
    var w := PutIsLocal(tree, Put(tree, p, a), q, b);
    assert tree[p[0] := v][q[0] := w] == tree[q[0] := w][p[0] := v];
  }

  // -- several lines -----------------------------------------------------

  /** The state after the given lines. */
  function Advance(s: State, lines: seq<string>): (r: Stepped)
    requires Live(s)
    ensures r.Next? ==> Live(r.state)
    decreases |lines|
  {
    if lines == [] then Next(s)
    else match Step(s, lines[0])
         case Stuck(problem) => Stuck(problem)
         case Next(next) => Advance(next, lines[1..])
  }

  lemma {:induction false} LoadSplits(s: State, a: seq<string>, b: seq<string>, read: nat)
    requires Live(s)
    ensures Load(s, a + b, read).Config? ==> Advance(s, a).Next?
    ensures Advance(s, a).Next? ==> Load(s, a + b, read) == Load(Advance(s, a).state, b, read + |a|)
    decreases |a|
  {
    if a == [] {
      assert a + b == b;
    } else {
      assert (a + b)[1..] == a[1..] + b;
      if Step(s, a[0]).Next? {
        LoadSplits(Step(s, a[0]).state, a[1..], b, read + 1);
      }
    }
  }

  lemma AdvanceOne(s: State, raw: string)
    requires Live(s)
    ensures Advance(s, [raw]) == Step(s, raw)
  {
    hide Step;
    assert [raw][1..] == [];
  }

  lemma AdvanceThrough(s: State, raw: string, block: seq<string>)
    requires Live(s) && Step(s, raw).Next?
    ensures Advance(s, [raw] + block) == Advance(Step(s, raw).state, block)
  {
    hide Step;
    assert ([raw] + block)[1..] == block;
  }

  // -- lines that are skipped, and lines that are refused -----------------

  lemma {:induction false} StripHash(s: string, n: nat)
    requires n < |s| && s[n] == '#' && forall i :: 0 <= i < n ==> s[i] == ' '
    ensures var kept := StripComment(s);
            kept <= s && (|kept| == n || (|kept| > n && kept[n] == '#'))
    decreases n
  {
    if n > 0 {
      StripHash(s[1..], n - 1);
      assert s == [s[0]] + s[1..];
    } else {
      StripIsPrefix(s);
    }
  }

  /** A line that starts with a number sign, after spaces, is no setting, whatever line terminators it contains. */
  lemma CommentIsSkipped(s: State, raw: string, n: nat)
    requires Live(s) && n < |raw| && raw[n] == '#' && forall i :: 0 <= i < n ==> raw[i] == ' '
    ensures Step(s, raw) == Next(s)
  {
    StripHash(raw, n);
    var kept := StripComment(raw);
    if |kept| == n {
      AllSpaces(kept);
    } else {
      var line := TrimEnd(kept);
      TrimEndTrims(kept);
      HashStays(kept, n);
      TrimStartIs(line, n);
      TrimEndTrims(line[n..]);
      HashStays(line[n..], 0);
    }
  }

  lemma {:induction false} AllSpaces(s: string)
    requires forall i :: 0 <= i < |s| ==> s[i] == ' '
    ensures TrimEnd(s) == "" && Trim("") == ""
  {
    if s != "" {
      AllSpaces(s[..|s| - 1]);
    }
  }

  lemma {:induction false} HashStays(s: string, n: nat)
    requires n < |s| && s[n] == '#'
    ensures n < |TrimEnd(s)| && TrimEnd(s)[n] == '#'
  {
    if IsSpace(s[|s| - 1]) {
      HashStays(s[..|s| - 1], n);
    }
  }

  /**
   * The first line that is no pair, or is indented with no section open, is what the text is refused for,
   * with its number.
   */
  lemma BadLineIsRefused(before: seq<string>, raw: string, n: nat, behind: seq<string>)
    requires Live(START) && Advance(START, before).Next? && Simple(raw, n) && raw[n] != '#'
    requires ReadPair(raw[n..]).NoPair? || (n > 0 && Advance(START, before).state.stack == [ROOT])
    ensures Parse(before + [raw] + behind) ==
              Rejected(if ReadPair(raw[n..]).NoPair? then NotAPair else NestedWithoutSection, |before| + 1)
  {
    hide ReadPair, Content, Indent, Trim, Skipped;
    SimpleReads(raw, n);
    assert before + [raw] + behind == before + ([raw] + behind);
    LoadSplits(START, before, [raw] + behind, 0);
    assert ([raw] + behind)[0] == raw;
  }

  lemma {:induction false} AdvanceSplits(s: State, a: seq<string>, b: seq<string>)
    requires Live(s)
    ensures Advance(s, a + b).Next? ==> Advance(s, a).Next?
    ensures Advance(s, a).Next? ==> Advance(s, a + b) == Advance(Advance(s, a).state, b)
    decreases |a|
  {
    if a == [] {
      assert a + b == b;
    } else {
      assert (a + b)[1..] == a[1..] + b;
      if Step(s, a[0]).Next? {
        AdvanceSplits(Step(s, a[0]).state, a[1..], b);
      }
    }
  }

  lemma {:induction false} PopPop(stack: seq<Frame>, first: int, second: int)
    requires stack != [] && second <= first
    ensures Pop(Pop(stack, first), second) == Pop(stack, second)
  {
    if |stack| > 1 && first <= Top(stack).indent {
      PopPop(stack[..|stack| - 1], first, second);
    }
  }
}
