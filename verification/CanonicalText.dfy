/** Printing and parsing again gives the value back, and the printed text identifies what it denotes. */
module CanonicalText {
  import opened KeyOrder
  import opened Strings
  import opened CanonicalJson

  // -- strings -----------------------------------------------------------

  lemma HexRoundTrip(n: nat)
    requires n < 16
    ensures HexValue(HexDigit(n)) == n
  {
  }

  /** A printed character reads back as itself. */
  lemma CharRoundTrip(c: char, t: string)
    ensures ParseChar(QuoteChar(c) + t) == Parsed(c, t)
    ensures QuoteChar(c)[0] != '"'
  {
    var q := QuoteChar(c);
    var s := q + t;
    if |q| == 1 {
      assert s[1..] == t;
    } else if |q| == 2 {
      assert s[2..] == t;
    } else {
      var n := c as int;
      HexRoundTrip(n / 16);
      HexRoundTrip(n % 16);
      assert s[2..] == ['0', '0', HexDigit(n / 16), HexDigit(n % 16)] + t;
      assert s[2..][4..] == t;
    }
  }

  lemma {:induction false} CharsRoundTrip(str: string, rest: string)
    ensures ParseChars(QuoteChars(str) + ("\"" + rest)) == Parsed(str, rest)
  {
    var tail := "\"" + rest;
    if str == "" {
      assert QuoteChars(str) + tail == tail && tail[1..] == rest;
    } else {
      var q, more := QuoteChar(str[0]), QuoteChars(str[1..]) + tail;
      assert QuoteChars(str) + tail == q + more;
      CharRoundTrip(str[0], more);
      CharsRoundTrip(str[1..], rest);
      assert (q + more)[0] == q[0];
      assert str == [str[0]] + str[1..];
    }
  }

  lemma StringRoundTrip(str: string, rest: string)
    ensures ParseString(Quote(str) + rest) == Parsed(str, rest)
  {
    var s := Quote(str) + rest;
    assert s[1..] == QuoteChars(str) + ("\"" + rest);
    CharsRoundTrip(str, rest);
  }

  // -- numbers -----------------------------------------------------------

  /** What may follow a number without being read as a part of it. */
  predicate Apart(rest: string) {
    rest != "" ==> !IsDigit(rest[0]) && rest[0] !in ".eE"
  }

  lemma {:induction false} DigitsAreDigits(n: nat)
    ensures forall i :: 0 <= i < |Digits(n)| ==> IsDigit(Digits(n)[i])
    ensures Digits(n)[0] == '0' <==> n == 0
  {
    if n >= 10 {
      DigitsAreDigits(n / 10);
    }
  }

  lemma {:induction false} ReadDigitsBack(n: nat, t: string)
    ensures ReadDigits(Digits(n) + t, 0) == ReadDigits(t, n)
  {
    if n < 10 {
      assert (Digits(n) + t)[1..] == t;
    } else {
      var d := ('0' as int + n % 10) as char;
      assert Digits(n) + t == Digits(n / 10) + ([d] + t);
      ReadDigitsBack(n / 10, [d] + t);
      assert ([d] + t)[1..] == t;
      assert n == n / 10 * 10 + n % 10;
    }
  }

  lemma NaturalRoundTrip(n: nat, rest: string)
    requires Apart(rest)
    ensures ParseNatural(Digits(n) + rest) == Parsed(n, rest)
  {
    var s := Digits(n) + rest;
    DigitsAreDigits(n);
    assert s[0] == Digits(n)[0];
    if n == 0 {
      assert s[1..] == rest;
    } else {
      ReadDigitsBack(n, rest);
      assert ReadDigits(s, 0) == ReadDigits(s[1..], s[0] as int - '0' as int);
    }
  }

  lemma NumberRoundTrip(n: SafeInteger, rest: string)
    requires Apart(rest)
    ensures ParseNumber(QuoteNumber(n) + rest) == Parsed(Number(n), rest)
  {
    hide Digits, ParseNatural;
    var s := QuoteNumber(n) + rest;
    if n < 0 {
      assert s[1..] == Digits(-n) + rest;
      NaturalRoundTrip(-n, rest);
    } else {
      DigitsAreDigits(n);
      NaturalRoundTrip(n, rest);
    }
  }

  // -- values ------------------------------------------------------------

  /** Printed values start with a character that opens a value. */
  predicate Opens(s: string) {
    s != "" && (IsDigit(s[0]) || s[0] in "\"-[{tfn")
  }

  lemma PrintOpens(v: Json)
    ensures Opens(Print(v))
  {
    if v.Number? {
      DigitsAreDigits(if v.n < 0 then -v.n else v.n);
    }
  }

  lemma ItemsOpen(items: seq<Json>)
    requires items != []
    ensures Opens(PrintItems(items))
  {
    PrintOpens(items[0]);
  }

  /** A number is not mistaken for anything else. */
  lemma NumberParses(n: SafeInteger, rest: string)
    requires Apart(rest)
    ensures ParseValue(Print(Number(n)) + rest) == Parsed(Number(n), rest)
  {
    var s := Print(Number(n)) + rest;
    DigitsAreDigits(if n < 0 then -n else n);
    assert s[0] == Print(Number(n))[0];
    NumberRoundTrip(n, rest);
  }

  lemma LiteralParses(v: Json, rest: string)
    requires v.Null? || v.Bool?
    ensures ParseValue(Print(v) + rest) == Parsed(v, rest)
  {
    var s, n := Print(v) + rest, |Print(v)|;
    assert s[..n] == Print(v) && s[n..] == rest;
    assert s[0] == Print(v)[0];
  }

  lemma {:induction false} ValueRoundTrip(v: Json, rest: string)
    requires Apart(rest)
    ensures ParseValue(Print(v) + rest) == Parsed(Canon(v), rest)
    decreases v, 1, 0
  {
    match v
    case Null => LiteralParses(v, rest);
    case Bool(_) => LiteralParses(v, rest);
    case Number(n) => NumberParses(n, rest);
    case String(str) => StringRoundTrip(str, rest);
    case Array(items) => ArrayRoundTrip(v, rest);
    case Object(_) => ObjectRoundTrip(v, rest);
  }

  /** A bracket followed by items is an array, and a brace followed by members an object. */
  lemma BracketsParse(t: string)
    requires Opens(t)
    ensures ParseItems(t).Parsed? ==> ParseValue("[" + t) == Parsed(Array(ParseItems(t).value), ParseItems(t).rest)
    ensures ParseMembers(t).Parsed? ==>
        ParseValue("{" + t) == Parsed(Object(ParseMembers(t).value), ParseMembers(t).rest)
  {
    hide ParseItems, ParseMembers;
    assert ("[" + t)[1..] == t && ("{" + t)[1..] == t;
  }

  lemma EmptyBracketsParse(rest: string)
    ensures ParseValue("[]" + rest) == Parsed(Array([]), rest)
    ensures ParseValue("{}" + rest) == Parsed(Object([]), rest)
  {
    hide ParseItems, ParseMembers;
    var s, t := "[]" + rest, "{}" + rest;
    assert s[1..][1..] == rest && t[1..][1..] == rest;
  }

  lemma {:induction false} ArrayRoundTrip(v: Json, rest: string)
    requires v.Array?
    ensures ParseValue(Print(v) + rest) == Parsed(Canon(v), rest)
    decreases v, 0, 0
  {
    hide ParseValue, ParseItems;
    if v.items == [] {
      EmptyBracketsParse(rest);
      assert Print(v) == "[]";
    } else {
      var t := PrintItems(v.items) + ("]" + rest);
      ItemsOpen(v.items);
      assert t[0] == PrintItems(v.items)[0];
      BracketsParse(t);
      ItemsRoundTrip(v.items, rest);
      assert Print(v) + rest == "[" + t;
    }
  }

  lemma ObjectPrints(v: Json)
    requires v.Object?
    ensures var keys := Sort(Names(v.members));
            && |keys| == |v.members| && (forall k :: k in keys ==> k in Names(v.members))
            && Print(v) == "{" + PrintMembers(v, keys) + "}" && Canon(v) == Object(CanonMembers(v, keys))
            && (keys == [] ==> Print(v) == "{}" && Canon(v) == Object([]))
  {
    SortElements(Names(v.members));
    SortLength(Names(v.members));
  }

  lemma {:induction false} ObjectRoundTrip(v: Json, rest: string)
    requires v.Object?
    ensures ParseValue(Print(v) + rest) == Parsed(Canon(v), rest)
    decreases v, 0, |v.members| + 1
  {
    hide ParseValue, ParseMembers, Print, Canon, PrintMembers, CanonMembers, Sort, Names;
    var keys := Sort(Names(v.members));
    ObjectPrints(v);
    if keys == [] {
      EmptyBracketsParse(rest);
    } else {
      var t := PrintMembers(v, keys) + ("}" + rest);
      MembersOpen(v, keys);
      assert t[0] == PrintMembers(v, keys)[0];
      BracketsParse(t);
      MembersRoundTrip(v, keys, rest);
      assert Print(v) + rest == "{" + t;
    }
  }

  lemma {:induction false} InsertLength(key: string, keys: seq<string>)
    ensures |Insert(key, keys)| == |keys| + 1
  {
    if keys != [] {
      InsertLength(key, keys[1..]);
    }
  }

  lemma {:induction false} SortLength(keys: seq<string>)
    ensures |Sort(keys)| == |keys|
  {
    if keys != [] {
      SortLength(keys[1..]);
      InsertLength(keys[0], Sort(keys[1..]));
    }
  }

  lemma {:induction false} ItemsRoundTrip(items: seq<Json>, rest: string)
    requires items != []
    ensures ParseItems(PrintItems(items) + ("]" + rest)) == Parsed(CanonItems(items), rest)
    decreases items, 0, 0
  {
    hide Print, Canon, ParseValue;
    var tail := "]" + rest;
    assert tail[1..] == rest;
    if |items| == 1 {
      ValueRoundTrip(items[0], tail);
      assert CanonItems(items) == [Canon(items[0])];
    } else {
      var more := PrintItems(items[1..]) + tail;
      assert PrintItems(items) + tail == Print(items[0]) + ("," + more);
      ValueRoundTrip(items[0], "," + more);
      assert ("," + more)[1..] == more;
      ItemsOpen(items[1..]);
      ItemsRoundTrip(items[1..], rest);
    }
  }

  lemma ColonParses(key: string, more: string)
    requires ParseString(Quote(key) + (":" + more)) == Parsed(key, ":" + more) && Opens(more)
    ensures ParseValue(more).Parsed? ==>
              ParseMember(Quote(key) + (":" + more)) ==
                Parsed(Member(key, ParseValue(more).value), ParseValue(more).rest)
  {
    hide ParseValue, ParseString, Quote;
    assert (":" + more)[1..] == more;
  }

  lemma {:induction false} MemberRoundTrip(v: Json, key: string, rest: string)
    requires v.Object? && key in Names(v.members) && Apart(rest)
    ensures var value := v.members[Index(v.members, key)].value;
            ParseMember(PrintMember(v, key) + rest) == Parsed(Member(key, Canon(value)), rest)
    decreases v, 0, 0
  {
    hide Print, Canon, Quote, Index, ParseMember, ParseString, ParseValue;
    var value := v.members[Index(v.members, key)].value;
    var more := Print(value) + rest;
    PrintOpens(value);
    assert more[0] == Print(value)[0];
    ValueRoundTrip(value, rest);
    assert PrintMember(v, key) + rest == Quote(key) + (":" + more);
    StringRoundTrip(key, ":" + more);
    ColonParses(key, more);
  }

  lemma MembersOpen(v: Json, keys: seq<string>)
    requires v.Object? && keys != [] && forall k :: k in keys ==> k in Names(v.members)
    ensures PrintMembers(v, keys) != [] && PrintMembers(v, keys)[0] == '"'
  {
    assert PrintMember(v, keys[0])[0] == '"';
  }

  lemma {:induction false} MembersRoundTrip(v: Json, keys: seq<string>, rest: string)
    requires v.Object? && keys != [] && forall k :: k in keys ==> k in Names(v.members)
    ensures ParseMembers(PrintMembers(v, keys) + ("}" + rest)) == Parsed(CanonMembers(v, keys), rest)
    decreases v, 0, |keys|
  {
    hide Print, Canon, PrintMember, ParseMember, Index;
    var tail := "}" + rest;
    assert tail[1..] == rest;
    if |keys| == 1 {
      MemberRoundTrip(v, keys[0], tail);
      assert CanonMembers(v, keys) == [Member(keys[0], Canon(v.members[Index(v.members, keys[0])].value))];
    } else {
      var more := PrintMembers(v, keys[1..]) + tail;
      assert PrintMembers(v, keys) + tail == PrintMember(v, keys[0]) + ("," + more);
      MemberRoundTrip(v, keys[0], "," + more);
      assert ("," + more)[1..] == more;
      MembersOpen(v, keys[1..]);
      MembersRoundTrip(v, keys[1..], rest);
    }
  }

  // -- what the text denotes ---------------------------------------------

  /** The parser gives back what was printed, with members in printing order. */
  lemma RoundTrip(v: Json)
    ensures Parse(Print(v)) == Parsed(Canon(v), "")
    ensures Denote(Canon(v)) == Denote(v)
  {
    assert Print(v) + "" == Print(v);
    PrintOpens(v);
    ValueRoundTrip(v, "");
    CanonDenotes(v);
  }

  lemma {:induction false} CanonItemsAre(items: seq<Json>)
    ensures |CanonItems(items)| == |items|
    ensures forall i :: 0 <= i < |items| ==> CanonItems(items)[i] == Canon(items[i])
  {
    if items != [] {
      CanonItemsAre(items[1..]);
    }
  }

  lemma {:induction false} CanonMembersAre(v: Json, keys: seq<string>)
    requires v.Object? && forall k :: k in keys ==> k in Names(v.members)
    ensures |CanonMembers(v, keys)| == |keys|
    ensures forall i :: 0 <= i < |keys| ==>
              CanonMembers(v, keys)[i] == Member(keys[i], Canon(v.members[Index(v.members, keys[i])].value))
  {
    if keys != [] {
      CanonMembersAre(v, keys[1..]);
    }
  }

  /** Putting members in order does not change what a value denotes. */
  lemma {:induction false} CanonDenotes(v: Json)
    ensures Denote(Canon(v)) == Denote(v)
    decreases v
  {
    match v
    case Array(items) =>
      CanonItemsAre(items);
      forall i | 0 <= i < |items| ensures Denote(Canon(items[i])) == Denote(items[i]) {
        CanonDenotes(items[i]);
      }
    case Object(ms) =>
      forall i | 0 <= i < |ms| ensures Denote(Canon(ms[i].value)) == Denote(ms[i].value) {
        CanonDenotes(ms[i].value);
      }
      CanonObjectDenotes(v);
    case _ =>
  }

  lemma CanonObjectDenotes(v: Json)
    requires v.Object? && forall i :: 0 <= i < |v.members| ==>
        Denote(Canon(v.members[i].value)) == Denote(v.members[i].value)
    ensures Denote(Canon(v)) == Denote(v)
  {
    var keys := Sort(Names(v.members));
    SortElements(Names(v.members));
    CanonMembersAre(v, keys);
    var cs := CanonMembers(v, keys);
    assert Names(cs) == keys;
    SameRecords(cs, v.members);
  }

  lemma SameRecords(cs: seq<Member>, ms: seq<Member>)
    requires forall name :: name in Names(cs) <==> name in Names(ms)
    requires forall name :: name in Names(ms) ==> Denote(cs[Index(cs, name)].value) == Denote(ms[Index(ms, name)].value)
    ensures Denote(Object(cs)) == Denote(Object(ms))
  {
    hide Index, Names;
  }

  // -- one text for one meaning ------------------------------------------

  predicate Sorted(keys: seq<string>) {
    forall i, j :: 0 <= i < j < |keys| ==> KeyLess(keys[i], keys[j])
  }

  lemma {:induction false} InsertSorts(key: string, keys: seq<string>)
    requires Sorted(keys) && key !in keys
    ensures Sorted(Insert(key, keys))
  {
    if keys != [] {
      KeyLessIsTotal(keys[0], key);
      if KeyLess(keys[0], key) {
        InsertSorts(key, keys[1..]);
        InsertElements(key, keys[1..]);
        var rest := Insert(key, keys[1..]);
        forall j | 0 <= j < |rest| ensures KeyLess(keys[0], rest[j]) {
          assert rest[j] == key || rest[j] in keys[1..];
        }
      } else {
        forall j | 0 <= j < |keys| ensures KeyLess(key, keys[j]) {
          if j > 0 {
            KeyLessIsTransitive(key, keys[0], keys[j]);
          }
        }
      }
    }
  }

  /** Sorting different keys puts each strictly before the next. */
  lemma {:induction false} SortSorts(keys: seq<string>)
    requires forall i, j :: 0 <= i < j < |keys| ==> keys[i] != keys[j]
    ensures Sorted(Sort(keys))
  {
    if keys != [] {
      SortSorts(keys[1..]);
      SortElements(keys[1..]);
      InsertSorts(keys[0], Sort(keys[1..]));
    }
  }

  /** There is one way to sort a set of keys. */
  lemma {:induction false} SortedIsUnique(a: seq<string>, b: seq<string>)
    requires Sorted(a) && Sorted(b) && forall k :: k in a <==> k in b
    ensures a == b
  {
    if a == [] || b == [] {
      EmptyElements(a);
      EmptyElements(b);
    } else {
      HeadIsLeast(a, b[0]);
      HeadIsLeast(b, a[0]);
      KeyLessIsTotal(a[0], b[0]);
      TailElements(a);
      TailElements(b);
      SortedIsUnique(a[1..], b[1..]);
      assert a == [a[0]] + a[1..] && b == [b[0]] + b[1..];
    }
  }

  lemma EmptyElements(a: seq<string>)
    ensures a == [] <==> forall k :: k !in a
  {
    assert a != [] ==> a[0] in a;
  }

  lemma HeadIsLeast(a: seq<string>, k: string)
    requires Sorted(a) && a != [] && k in a
    ensures k == a[0] || KeyLess(a[0], k)
  {
  }

  lemma TailElements(a: seq<string>)
    requires Sorted(a) && a != []
    ensures forall k :: k in a[1..] <==> k in a && k != a[0]
  {
    forall k | k in a[1..] ensures k != a[0] {
      KeyLessIsTotal(k, k);
    }
  }

  lemma DenoteItems(v: Json)
    requires v.Array?
    ensures Denote(v).List? && |Denote(v).items| == |v.items|
    ensures forall i :: 0 <= i < |v.items| ==> Denote(v).items[i] == Denote(v.items[i])
  {
  }

  /** Values that denote the same print the same, in whatever order their members were inserted. */
  lemma {:induction false} SameMeaningSameText(v: Json, w: Json)
    requires Unambiguous(v) && Unambiguous(w) && Denote(v) == Denote(w)
    ensures Print(v) == Print(w)
    decreases v, 1, 0
  {
    match v
    case Array(items) =>
      DenoteItems(v);
      DenoteItems(w);
      SameItems(items, w.items);
    case Object(ms) =>
      assert Denote(v).members == Denote(w).members;
      SortElements(Names(ms));
      SortElements(Names(w.members));
      assert forall k :: k in Denote(v).members <==> k in Names(ms);
      assert forall k :: k in Denote(w).members <==> k in Names(w.members);
      SortSorts(Names(ms));
      SortSorts(Names(w.members));
      SortedIsUnique(Sort(Names(ms)), Sort(Names(w.members)));
      SameMembers(v, w, Sort(Names(ms)));
    case _ =>
  }

  lemma {:induction false} SameItems(a: seq<Json>, b: seq<Json>)
    requires |a| == |b| && forall i :: 0 <= i < |a| ==>
        Unambiguous(a[i]) && Unambiguous(b[i]) && Denote(a[i]) == Denote(b[i])
    ensures PrintItems(a) == PrintItems(b)
    decreases a, 0, 0
  {
    if a != [] {
      SameMeaningSameText(a[0], b[0]);
      SameItems(a[1..], b[1..]);
    }
  }

  lemma {:induction false} SameMembers(v: Json, w: Json, keys: seq<string>)
    requires v.Object? && w.Object? && Unambiguous(v) && Unambiguous(w) && Denote(v) == Denote(w)
    requires forall k :: k in keys ==> k in Names(v.members) && k in Names(w.members)
    ensures PrintMembers(v, keys) == PrintMembers(w, keys)
    decreases v, 0, |keys|
  {
    if keys != [] {
      var key := keys[0];
      assert Denote(v).members[key] == Denote(w).members[key];
      SameMeaningSameText(v.members[Index(v.members, key)].value, w.members[Index(w.members, key)].value);
      SameMembers(v, w, keys[1..]);
    }
  }

  /** Two values have the same canonical text exactly when they denote the same. */
  lemma SameTextIff(v: Json, w: Json)
    requires Unambiguous(v) && Unambiguous(w)
    ensures Print(v) == Print(w) <==> Denote(v) == Denote(w)
  {
    if Print(v) == Print(w) {
      RoundTrip(v);
      RoundTrip(w);
    }
    if Denote(v) == Denote(w) {
      SameMeaningSameText(v, w);
    }
  }
}
