/** Text operations of the platform that several parts of the relay use. */
module Strings {
  /** White space as String.prototype.trim and \s understand it. */
  predicate IsSpace(c: char) {
    var n := c as int;
    n == 0x20 || 0x09 <= n <= 0x0d || n == 0xa0 || n == 0x1680 || 0x2000 <= n <= 0x200a
    || n == 0x2028 || n == 0x2029 || n == 0x202f || n == 0x205f || n == 0x3000 || n == 0xfeff
  }

  predicate IsDigit(c: char) {
    '0' <= c <= '9'
  }

  function TrimStart(s: string): string {
    if s != "" && IsSpace(s[0]) then TrimStart(s[1..]) else s
  }

  function TrimEnd(s: string): string {
    if s != "" && IsSpace(s[|s| - 1]) then TrimEnd(s[..|s| - 1]) else s
  }

  function Trim(s: string): string {
    TrimEnd(TrimStart(s))
  }

  predicate EndsWith(s: string, c: char) {
    s != "" && s[|s| - 1] == c
  }

  lemma {:induction false} TrimEndTrims(s: string)
    ensures TrimEnd(s) == "" || !IsSpace(TrimEnd(s)[|TrimEnd(s)| - 1])
    ensures TrimEnd(s) <= s
  {
    if s != "" && IsSpace(s[|s| - 1]) {
      TrimEndTrims(s[..|s| - 1]);
    }
  }

  lemma {:induction false} TrimStartTrims(s: string)
    ensures TrimStart(s) == "" || !IsSpace(TrimStart(s)[0])
    ensures |TrimStart(s)| <= |s| && TrimStart(s) == s[|s| - |TrimStart(s)|..]
  {
    if s != "" && IsSpace(s[0]) {
      TrimStartTrims(s[1..]);
    }
  }

  // -- lines -------------------------------------------------------------

  predicate OneLine(s: string) {
    '\n' !in s
  }

  /** Array.prototype.join with a line feed. */
  function Join(parts: seq<string>): string {
    if parts == [] then "" else if |parts| == 1 then parts[0] else parts[0] + "\n" + Join(parts[1..])
  }

  /** The first line of a text, without its line feed. */
  function FirstLine(s: string): string {
    if s == "" || s[0] == '\n' then "" else [s[0]] + FirstLine(s[1..])
  }

  lemma {:induction false} FirstLineOf(part: string, rest: string)
    requires OneLine(part)
    ensures FirstLine(part + ("\n" + rest)) == part && FirstLine(part) == part
  {
    if part != "" {
      assert (part + ("\n" + rest))[1..] == part[1..] + ("\n" + rest);
      FirstLineOf(part[1..], rest);
    } else {
      assert part + ("\n" + rest) == "\n" + rest;
    }
  }

  /** Lines joined by line feeds can be told apart again. */
  lemma {:induction false} JoinIsInjective(a: seq<string>, b: seq<string>)
    requires a != [] && b != []
    requires (forall p :: p in a ==> OneLine(p)) && (forall p :: p in b ==> OneLine(p))
    requires Join(a) == Join(b)
    ensures a == b
  {
    FirstLineOf(a[0], Join(a[1..]));
    FirstLineOf(b[0], Join(b[1..]));
    assert |a| > 1 ==> Join(a) == a[0] + ("\n" + Join(a[1..]));
    assert |b| > 1 ==> Join(b) == b[0] + ("\n" + Join(b[1..]));
    assert a[0] == b[0];
    assert (|a| > 1) == (|b| > 1) by {
      assert |Join(a)| > |a[0]| <==> |a| > 1;
    }
    if |a| > 1 {
      assert Join(a)[|a[0]| + 1..] == Join(a[1..]);
      assert Join(b)[|b[0]| + 1..] == Join(b[1..]);
      JoinIsInjective(a[1..], b[1..]);
    }
    assert a == [a[0]] + a[1..] && b == [b[0]] + b[1..];
  }

  /** String.prototype.split with the pattern \r?\n. */
  function Split(s: string): (lines: seq<string>)
    ensures lines != []
  {
    if s == "" then [""]
    else if s[0] == '\n' then [""] + Split(s[1..])
    else if s[0] == '\r' && |s| > 1 && s[1] == '\n' then [""] + Split(s[2..])
    else
      var rest := Split(s[1..]);
      [[s[0]] + rest[0]] + rest[1..]
  }

  lemma {:induction false} SplitLines(s: string)
    ensures forall i :: 0 <= i < |Split(s)| ==> OneLine(Split(s)[i])
  {
    if s != "" {
      SplitLines(s[1..]);
      if |s| > 1 {
        SplitLines(s[2..]);
      }
    }
  }

  lemma {:induction false} SplitFirst(line: string, rest: string)
    requires OneLine(line) && !EndsWith(line, '\r')
    ensures Split(line + ("\n" + rest)) == [line] + Split(rest)
  {
    if line == "" {
      assert line + ("\n" + rest) == "\n" + rest;
      assert ("\n" + rest)[1..] == rest;
    } else {
      assert (line + ("\n" + rest))[1..] == line[1..] + ("\n" + rest);
      SplitFirst(line[1..], rest);
      assert [line[0]] + line[1..] == line;
    }
  }

  lemma {:induction false} SplitFirstReturn(line: string, rest: string)
    requires OneLine(line)
    ensures Split(line + ("\r\n" + rest)) == [line] + Split(rest)
  {
    if line == "" {
      assert line + ("\r\n" + rest) == "\r\n" + rest;
      assert ("\r\n" + rest)[2..] == rest;
    } else {
      assert (line + ("\r\n" + rest))[1..] == line[1..] + ("\r\n" + rest);
      SplitFirstReturn(line[1..], rest);
      assert [line[0]] + line[1..] == line;
    }
  }

  lemma {:induction false} SplitLast(line: string)
    requires OneLine(line)
    ensures Split(line) == [line]
  {
    if line != "" {
      SplitLast(line[1..]);
      assert [line[0]] + line[1..] == line;
    }
  }

  /** No line but the last ends with a carriage return, which would be taken for part of the line end. */
  predicate NoStrayReturns(lines: seq<string>) {
    forall i :: 0 <= i < |lines| - 1 ==> !EndsWith(lines[i], '\r')
  }

  /** The lines with one carriage return less where a line but the last ends with one. */
  function Chop(lines: seq<string>): (r: seq<string>)
    ensures |r| == |lines|
  {
    if |lines| <= 1 then lines
    else [if EndsWith(lines[0], '\r') then lines[0][..|lines[0]| - 1] else lines[0]] + Chop(lines[1..])
  }

  lemma {:induction false} ChopIff(lines: seq<string>)
    ensures Chop(lines) == lines <==> NoStrayReturns(lines)
  {
    if |lines| > 1 {
      ChopIff(lines[1..]);
      assert lines == [lines[0]] + lines[1..];
      assert Chop(lines)[1..] == Chop(lines[1..]);
      assert NoStrayReturns(lines) <==> !EndsWith(lines[0], '\r') && NoStrayReturns(lines[1..]) by {
        assert forall i :: 0 <= i < |lines| - 2 ==> lines[i + 1] == lines[1..][i];
      }
    }
  }

  /** Lines that are joined and split again lose stray carriage returns and nothing else. */
  lemma {:induction false} SplitJoinIs(lines: seq<string>)
    requires lines != [] && forall i :: 0 <= i < |lines| ==> OneLine(lines[i])
    ensures Split(Join(lines)) == Chop(lines)
  {
    if |lines| == 1 {
      SplitLast(lines[0]);
    } else {
      var line, rest := lines[0], Join(lines[1..]);
      assert Join(lines) == line + ("\n" + rest);
      if EndsWith(line, '\r') {
        var kept := line[..|line| - 1];
        assert line == kept + "\r";
        assert Join(lines) == kept + ("\r\n" + rest);
        SplitFirstReturn(kept, rest);
      } else {
        SplitFirst(line, rest);
      }
      SplitJoinIs(lines[1..]);
    }
  }

  /** Joined lines are split where they were joined exactly if none has a stray carriage return. */
  lemma SplitJoinIff(lines: seq<string>)
    requires lines != [] && forall i :: 0 <= i < |lines| ==> OneLine(lines[i])
    ensures Split(Join(lines)) == lines <==> NoStrayReturns(lines)
  {
    SplitJoinIs(lines);
    ChopIff(lines);
  }
}
