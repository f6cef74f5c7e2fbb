/** No JSON text for a value is shorter than its canonical text: nothing is escaped or spaced out without need. */
module CanonicalShortest {
  import opened KeyOrder
  import opened Strings
  import opened CanonicalJson
  import opened CanonicalText

  /** What a parse has read of a text. */
  function Used<T>(s: string, p: Parsed<T>): int
    requires p.Parsed?
  {
    |s| - |p.rest|
  }

  // -- characters --------------------------------------------------------

  function LowerHex(c: char): char {
    if 'A' <= c <= 'F' then (c as int + 32) as char else c
  }

  /** The text with the hex digits of an escape in lower case. */
  function Folded(s: string): string {
    if |s| != 6 then s else
      s[..2] + [LowerHex(s[2]), LowerHex(s[3]), LowerHex(s[4]), LowerHex(s[5])]
  }

  lemma HexFolds(c: char)
    requires HexValue(c) >= 0
    ensures HexDigit(HexValue(c)) == LowerHex(c)
  {
  }

  /**
   * Of all texts that are read as a character the printed one is the shortest, and of the shortest ones the
   * one with lower-case hex digits.
   */
  lemma CharIsShortest(c: char, s: string)
    requires ParseChar(s).Parsed? && ParseChar(s).value == c
    ensures |QuoteChar(c)| <= Used(s, ParseChar(s))
    ensures |QuoteChar(c)| == Used(s, ParseChar(s)) ==> QuoteChar(c) == Folded(s[..|QuoteChar(c)|])
  {
    if s[0] == '\\' && s[1] == 'u' {
      UnicodeIsLong(c, s);
    }
  }

  lemma UnicodeIsLong(c: char, s: string)
    requires |s| >= 2 && s[0] == '\\' && s[1] == 'u'
    requires ParseUnicode(s[2..]).Parsed? && ParseUnicode(s[2..]).value == c
    ensures |QuoteChar(c)| <= |s| - |ParseUnicode(s[2..]).rest|
    ensures |QuoteChar(c)| == |s| - |ParseUnicode(s[2..]).rest| ==> QuoteChar(c) == Folded(s[..|QuoteChar(c)|])
  {
    var t := s[2..];
    assert |t| >= 4 && t[0] == s[2] && t[1] == s[3] && t[2] == s[4] && t[3] == s[5];
    assert |ParseUnicode(t).rest| <= |t| - 4;
    if |QuoteChar(c)| == 6 {
      var a, b, d, e := HexValue(s[2]), HexValue(s[3]), HexValue(s[4]), HexValue(s[5]);
      UnitIs(t);
      assert c as int < 0x20;
      assert c as int == ((a * 16 + b) * 16 + d) * 16 + e;
      assert a == 0 && b == 0;
      HexFolds(s[2]);
      HexFolds(s[3]);
      HexFolds(s[4]);
      HexFolds(s[5]);
    }
  }

  lemma UnitIs(t: string)
    requires ParseUnicode(t).Parsed?
    ensures |t| >= 4
    ensures HexValue(t[0]) >= 0 && HexValue(t[1]) >= 0 && HexValue(t[2]) >= 0 && HexValue(t[3]) >= 0
    ensures var unit := ((HexValue(t[0]) * 16 + HexValue(t[1])) * 16 + HexValue(t[2])) * 16 + HexValue(t[3]);
            ParseUnicode(t).value as int == unit || ParseUnicode(t).value as int >= 0x10000
  {
  }

  lemma {:induction false} CharsAreShortest(s: string)
    requires ParseChars(s).Parsed?
    ensures |QuoteChars(ParseChars(s).value)| + 1 <= Used(s, ParseChars(s))
    decreases |s|
  {
    if s[0] != '"' {
      var c, rest := ParseChar(s).value, ParseChar(s).rest;
      CharIsShortest(c, s);
      CharsAreShortest(rest);
      var cs := ParseChars(rest).value;
      assert ([c] + cs)[1..] == cs;
    }
  }

  lemma StringIsShortest(s: string)
    requires ParseString(s).Parsed?
    ensures |Quote(ParseString(s).value)| <= Used(s, ParseString(s))
  {
    CharsAreShortest(s[1..]);
  }

  // -- numbers -----------------------------------------------------------

  lemma {:induction false} DigitsGrowSlowly(n: nat, d: nat)
    requires d < 10
    ensures |Digits(n * 10 + d)| <= |Digits(n)| + 1
  {
    assert (n * 10 + d) / 10 == n;
  }

  lemma {:induction false} ReadDigitsIsShortest(s: string, acc: nat)
    ensures |Digits(ReadDigits(s, acc).0)| <= |Digits(acc)| + |s| - |ReadDigits(s, acc).1|
    decreases |s|
  {
    if s != "" && IsDigit(s[0]) {
      var d := s[0] as int - '0' as int;
      DigitsGrowSlowly(acc, d);
      ReadDigitsIsShortest(s[1..], acc * 10 + d);
    }
  }

  lemma NumberIsShortest(s: string)
    requires ParseNumber(s).Parsed?
    ensures ParseNumber(s).value.Number? && |QuoteNumber(ParseNumber(s).value.n)| <= Used(s, ParseNumber(s))
  {
    var t := if s != "" && s[0] == '-' then s[1..] else s;
    if t[0] != '0' {
      ReadDigitsIsShortest(t[1..], t[0] as int - '0' as int);
    }
  }

  // -- values ------------------------------------------------------------

  /** The length of the members printed in the order in which they stand. */
  function MembersLength(ms: seq<Member>): nat {
    if ms == [] then 0 else
      |Quote(ms[0].name)| + 1 + |Print(ms[0].value)| + (if |ms| == 1 then 0 else 1) + MembersLength(ms[1..])
  }

  /** The length of a comma-separated list does not depend on its order. */
  lemma {:induction false} InsertKeepsLength(v: Json, key: string, keys: seq<string>)
    requires v.Object? && key in Names(v.members) && forall k :: k in keys ==> k in Names(v.members)
    ensures forall k :: k in Insert(key, keys) ==> k in Names(v.members)
    ensures |PrintMembers(v, Insert(key, keys))| == |PrintMember(v, key)| + (if keys == [] then 0 else 1)
                                                    + |PrintMembers(v, keys)|
    decreases keys
  {
    hide PrintMember, Names;
    InsertElements(key, keys);
    if keys != [] && KeyLess(keys[0], key) {
      InsertKeepsLength(v, key, keys[1..]);
      InsertLength(key, keys[1..]);
      assert Insert(key, keys) == [keys[0]] + Insert(key, keys[1..]);
      assert Insert(key, keys)[1..] == Insert(key, keys[1..]);
    } else {
      assert Insert(key, keys)[1..] == keys;
    }
  }

  lemma {:induction false} SortKeepsLength(v: Json, keys: seq<string>)
    requires v.Object? && forall k :: k in keys ==> k in Names(v.members)
    ensures forall k :: k in Sort(keys) ==> k in Names(v.members)
    ensures |PrintMembers(v, Sort(keys))| == |PrintMembers(v, keys)|
    decreases keys
  {
    hide PrintMember, Names;
    SortElements(keys);
    if keys != [] {
      SortElements(keys[1..]);
      SortLength(keys[1..]);
      SortKeepsLength(v, keys[1..]);
      InsertKeepsLength(v, keys[0], Sort(keys[1..]));
    }
  }

  lemma {:induction false} IndexIs(ms: seq<Member>, i: nat)
    requires i < |ms| && forall j, k :: 0 <= j < k < |ms| ==> ms[j].name != ms[k].name
    ensures ms[i].name in Names(ms) && Index(ms, ms[i].name) == i
  {
    assert Names(ms)[i] == ms[i].name;
  }

  /** The members from the k-th on, printed in the order in which they stand. */
  lemma {:induction false} TailLength(v: Json, k: nat)
    requires v.Object? && k <= |v.members|
    requires forall i, j :: 0 <= i < j < |v.members| ==> v.members[i].name != v.members[j].name
    ensures forall x :: x in Names(v.members)[k..] ==> x in Names(v.members)
    ensures |PrintMembers(v, Names(v.members)[k..])| == MembersLength(v.members[k..])
    decreases |v.members| - k
  {
    var ms := v.members;
    var keys := Names(ms)[k..];
    if k < |ms| {
      hide Names, Index, Print, Quote;
      IndexIs(ms, k);
      TailLength(v, k + 1);
      assert keys[1..] == Names(ms)[k + 1..] && ms[k..][1..] == ms[k + 1..];
      assert keys[0] == ms[k].name;
    }
  }

  lemma ObjectLength(v: Json)
    requires v.Object? && Unambiguous(v)
    ensures |Print(v)| == 2 + MembersLength(v.members)
  {
    hide Unambiguous;
    UnambiguousNames(v);
    ObjectPrints(v);
    SortKeepsLength(v, Names(v.members));
    TailLength(v, 0);
    assert Names(v.members)[0..] == Names(v.members) && v.members[0..] == v.members;
  }

  lemma UnambiguousNames(v: Json)
    requires v.Object? && Unambiguous(v)
    ensures forall i, j :: 0 <= i < j < |v.members| ==> v.members[i].name != v.members[j].name
    ensures forall i :: 0 <= i < |v.members| ==> Unambiguous(v.members[i].value)
  {
  }

  /** No text that is read as a value is shorter than the text printed for it. */
  lemma {:induction false} ValueIsShortest(s: string)
    requires ParseValue(s).Parsed? && Unambiguous(ParseValue(s).value)
    ensures |Print(ParseValue(s).value)| <= Used(s, ParseValue(s))
    decreases |s|, 1
  {
    hide ParseItems, ParseMembers, ParseNumber, ParseString, Print, Unambiguous;
    if "null" <= s || "true" <= s || "false" <= s {
      LiteralLength();
    } else if s[0] == '"' {
      StringIsShortest(s);
      StringPrints(ParseString(s).value);
    } else if s[0] == '[' {
      ArrayIsShortest(s);
    } else if s[0] == '{' {
      ObjectIsShortest(s);
    } else {
      NumberIsShortest(s);
      NumberPrints(ParseNumber(s).value);
    }
  }

  lemma LiteralLength()
    ensures |Print(Null)| == 4 && |Print(Bool(true))| == 4 && |Print(Bool(false))| == 5
  {
  }

  lemma StringPrints(str: string)
    ensures Print(String(str)) == Quote(str)
  {
  }

  lemma NumberPrints(v: Json)
    requires v.Number?
    ensures Print(v) == QuoteNumber(v.n)
  {
  }

  lemma ArrayPrints(items: seq<Json>)
    ensures |Print(Array(items))| == 2 + |PrintItems(items)|
    ensures Unambiguous(Array(items)) ==> forall i :: 0 <= i < |items| ==> Unambiguous(items[i])
  {
  }

  lemma {:induction false} ArrayIsShortest(s: string)
    requires s != "" && s[0] == '[' && ParseValue(s).Parsed? && Unambiguous(ParseValue(s).value)
    ensures |Print(ParseValue(s).value)| <= Used(s, ParseValue(s))
    decreases |s|, 0
  {
    hide ParseItems, ParseMembers, ParseNumber, ParseString, Print, Unambiguous, SkipSpace;
    var t := SkipSpace(s[1..]);
    if t != "" && t[0] == ']' {
      ArrayPrints([]);
    } else {
      ArrayPrints(ParseItems(t).value);
      ItemsAreShortest(t);
    }
  }

  lemma {:induction false} ObjectIsShortest(s: string)
    requires s != "" && s[0] == '{' && ParseValue(s).Parsed? && Unambiguous(ParseValue(s).value)
    ensures |Print(ParseValue(s).value)| <= Used(s, ParseValue(s))
    decreases |s|, 0
  {
    hide ParseItems, ParseMembers, ParseNumber, ParseString, Print, Unambiguous, SkipSpace;
    var t := SkipSpace(s[1..]);
    ObjectLength(ParseValue(s).value);
    if !(t != "" && t[0] == '}') {
      UnambiguousNames(ParseValue(s).value);
      MembersAreShortest(t);
    }
  }

  lemma {:induction false} ItemsAreShortest(s: string)
    requires ParseItems(s).Parsed?
    requires forall i :: 0 <= i < |ParseItems(s).value| ==> Unambiguous(ParseItems(s).value[i])
    ensures ParseItems(s).value != [] && |PrintItems(ParseItems(s).value)| + 1 <= Used(s, ParseItems(s))
    decreases |s|, 2
  {
    hide ParseValue, Print, Unambiguous, SkipSpace;
    var item, t := ParseValue(s).value, SkipSpace(ParseValue(s).rest);
    assert ParseItems(s).value[0] == item;
    ValueIsShortest(s);
    if t[0] == ',' {
      var rest := SkipSpace(t[1..]);
      var items := ParseItems(rest).value;
      assert forall i :: 0 <= i < |items| ==> items[i] == ParseItems(s).value[i + 1];
      ItemsAreShortest(rest);
      assert ([item] + items)[1..] == items;
    }
  }

  lemma {:induction false} MemberIsShortest(s: string)
    requires ParseMember(s).Parsed? && Unambiguous(ParseMember(s).value.value)
    ensures var m := ParseMember(s).value;
            |Quote(m.name)| + 1 + |Print(m.value)| <= Used(s, ParseMember(s))
    decreases |s|, 2
  {
    hide ParseValue, ParseString, Print, Quote, Unambiguous, SkipSpace;
    var t := SkipSpace(ParseString(s).rest);
    StringIsShortest(s);
    ValueIsShortest(SkipSpace(t[1..]));
  }

  lemma {:induction false} MembersAreShortest(s: string)
    requires ParseMembers(s).Parsed?
    requires forall i :: 0 <= i < |ParseMembers(s).value| ==> Unambiguous(ParseMembers(s).value[i].value)
    ensures ParseMembers(s).value != [] && MembersLength(ParseMembers(s).value) + 1 <= Used(s, ParseMembers(s))
    decreases |s|, 3
  {
    hide ParseMember, Print, Quote, Unambiguous, SkipSpace;
    var m, t := ParseMember(s).value, SkipSpace(ParseMember(s).rest);
    assert ParseMembers(s).value[0] == m;
    MemberIsShortest(s);
    if t[0] == ',' {
      var rest := SkipSpace(t[1..]);
      var ms := ParseMembers(rest).value;
      assert forall i :: 0 <= i < |ms| ==> ms[i] == ParseMembers(s).value[i + 1];
      MembersAreShortest(rest);
      assert ([m] + ms)[1..] == ms;
    }
  }

  /** The canonical text is a shortest text of its value: no text that denotes the same is shorter. */
  lemma CanonicalIsShortest(v: Json, text: string)
    requires Unambiguous(v) && Parse(text).Parsed?
    requires Unambiguous(Parse(text).value) && Denote(Parse(text).value) == Denote(v)
    ensures |Print(v)| <= |text|
  {
    hide ParseValue, Print, Unambiguous, Denote;
    ValueIsShortest(SkipSpace(text));
    SameMeaningSameText(v, Parse(text).value);
  }
}
