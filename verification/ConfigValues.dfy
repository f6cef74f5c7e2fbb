/** Flags, numbers, quoted strings and inline lists are read back as they were written. */
module ConfigValues {
  import opened Strings
  import opened ConfigFile
  import Json = CanonicalJson

  // -- flags and numbers -------------------------------------------------

  lemma FlagReadsBack(on: bool)
    ensures ParseScalar(if on then "true" else "false") == Flag(on)
  {
    var s := if on then "true" else "false";
    assert TrimStart(s) == s && TrimEnd(s) == s;
  }

  lemma {:induction false} DigitsReadBack(n: nat)
    ensures Digits(Json.Digits(n)) && ReadDigits(Json.Digits(n)) == n
  {
    var s := Json.Digits(n);
    if n < 10 {
      assert s[..|s| - 1] == "";
    } else {
      DigitsReadBack(n / 10);
      assert s[..|s| - 1] == Json.Digits(n / 10);
      assert n == n / 10 * 10 + n % 10;
    }
  }

  lemma DigitsAreTrimmed(s: string)
    requires Digits(s)
    ensures Trim(s) == s && s != "true" && s != "false" && Trim("-" + s) == "-" + s && ("-" + s)[1..] == s
  {
    assert IsDigit(s[0]) && IsDigit(s[|s| - 1]);
    assert TrimStart("-" + s) == "-" + s && TrimEnd("-" + s) == "-" + s;
  }

  /** A number is read back from its decimal digits, with or without a sign. */
  lemma NumberReadsBack(n: nat)
    ensures ParseScalar(Json.Digits(n)) == Amount(n)
    ensures ParseScalar("-" + Json.Digits(n)) == Amount(0 - n as int)
  {
    DigitsReadBack(n);
    DigitsAreTrimmed(Json.Digits(n));
    assert ("-" + Json.Digits(n))[0] == '-' && !IsDigit('-');
  }

  // -- strings -----------------------------------------------------------

  /** What is quoted with either quote is read back word for word. */
  lemma QuotedReadsBack(text: string)
    ensures ParseScalar("\"" + text + "\"") == Scalar(text) && ParseScalar("'" + text + "'") == Scalar(text)
  {
    QuoteReadsBack(text, '"');
    QuoteReadsBack(text, '\'');
    assert "\"" + text + "\"" == ['"'] + text + ['"'] && "'" + text + "'" == ['\''] + text + ['\''];
  }

  lemma QuoteReadsBack(text: string, q: char)
    requires IsQuote(q)
    ensures ParseScalar([q] + text + [q]) == Scalar(text)
  {
    var s := [q] + text + [q];
    assert s[0] == q && s[|s| - 1] == q && s[1..|s| - 1] == text;
    EndsAreTrimmed(s);
    assert !IsDigit(q);
  }

  /** A word that starts with a letter needs no quotes, unless it is a flag. */
  lemma WordReadsBack(word: string)
    requires word != "" && ('a' <= word[0] <= 'z' || 'A' <= word[0] <= 'Z') && !IsSpace(word[|word| - 1])
    requires word != "true" && word != "false"
    ensures ParseScalar(word) == Scalar(word)
  {
    EndsAreTrimmed(word);
  }

  // -- inline lists ------------------------------------------------------

  /** An item that needs no quotes. */
  predicate Bare(item: string) {
    && item != "" && ',' !in item
    && !IsSpace(item[0]) && !IsSpace(item[|item| - 1]) && !IsQuote(item[0]) && !IsQuote(item[|item| - 1])
  }

  /** An item is written bare or in quotes of either kind. */
  predicate Writes(written: string, item: string) {
    item != "" && ',' !in item &&
    ((Bare(item) && written == item) || written == "\"" + item + "\"" || written == "'" + item + "'")
  }

  function JoinItems(items: seq<string>): string {
    if items == [] then "" else if |items| == 1 then items[0] else items[0] + (", " + JoinItems(items[1..]))
  }

  lemma {:induction false} SplitAtComma(part: string, rest: string)
    requires ',' !in part
    ensures SplitCommas(part + ("," + rest)) == [part] + SplitCommas(rest)
    ensures SplitCommas(part) == [part]
  {
    if part == "" {
      assert part + ("," + rest) == "," + rest;
      assert ("," + rest)[1..] == rest;
    } else {
      assert (part + ("," + rest))[1..] == part[1..] + ("," + rest);
      SplitAtComma(part[1..], rest);
      assert [part[0]] + part[1..] == part;
    }
  }

  lemma WrittenReads(written: string, item: string)
    requires Writes(written, item)
    ensures written != "" && ',' !in written && item != ""
    ensures !IsSpace(written[0]) && !IsSpace(written[|written| - 1])
    ensures Unquote(Trim(written)) == item && Unquote(Trim(" " + written)) == item
  {
    EndsAreTrimmed(written);
    assert (" " + written)[1..] == written;
    assert TrimStart(" " + written) == TrimStart(written);
    if written != item {
      assert written[1..] == item + [written[0]];
      assert (item + [written[0]])[..|item|] == item;
    }
  }

  lemma SpacedSplit(s: string)
    requires s != "" && s[0] != ','
    ensures SplitCommas(" " + s) == [" " + SplitCommas(s)[0]] + SplitCommas(s)[1..]
  {
    assert (" " + s)[1..] == s;
  }

  predicate WritesAll(written: seq<string>, items: seq<string>) {
    |written| == |items| && forall i :: 0 <= i < |items| ==> Writes(written[i], items[i])
  }

  lemma JoinedStarts(written: seq<string>, items: seq<string>)
    requires items != [] && WritesAll(written, items)
    ensures JoinItems(written) != "" && written[0] != "" && JoinItems(written)[0] == written[0][0] != ','
    ensures !IsSpace(JoinItems(written)[0])
  {
    WrittenReads(written[0], items[0]);
  }

  /** White space before the first item makes no difference. */
  lemma FirstItemIsTrimmed(first: string, item: string, parts: seq<string>)
    requires Unquote(Trim(first)) == item && item != ""
    ensures ReadItems([first] + parts) == [item] + ReadItems(parts)
  {
    assert ([first] + parts)[1..] == parts;
  }

  lemma {:induction false} JoinedSplits(written: seq<string>, items: seq<string>)
    requires items != [] && WritesAll(written, items)
    ensures SplitCommas(JoinItems(written))[0] == written[0]
    ensures ReadItems(SplitCommas(JoinItems(written))) == items
  {
    hide Writes, Trim, Unquote, SplitCommas, ReadItems;
    WrittenReads(written[0], items[0]);
    if |items| == 1 {
      SplitAtComma(written[0], "");
      FirstItemIsTrimmed(written[0], items[0], []);
      assert [written[0]] + [] == [written[0]];
      NoItems();
    } else {
      var rest := JoinItems(written[1..]);
      SplitAtComma(written[0], " " + rest);
      assert JoinItems(written) == written[0] + ("," + (" " + rest));
      FirstItemIsTrimmed(written[0], items[0], SplitCommas(" " + rest));
      JoinedSplits(written[1..], items[1..]);
      JoinedStarts(written[1..], items[1..]);
      SpacedSplit(rest);
      WrittenReads(written[1], items[1]);
      var parts := SplitCommas(rest);
      assert parts == [parts[0]] + parts[1..];
      FirstItemIsTrimmed(" " + parts[0], items[1], parts[1..]);
      FirstItemIsTrimmed(parts[0], items[1], parts[1..]);
      assert items == [items[0]] + items[1..];
    }
  }

  lemma NoItems()
    ensures ReadItems([]) == []
  {
  }

  lemma {:induction false} JoinedEnds(written: seq<string>, items: seq<string>)
    requires items != [] && WritesAll(written, items)
    ensures JoinItems(written) != "" && !IsSpace(JoinItems(written)[0]) &&
        !IsSpace(JoinItems(written)[|JoinItems(written)| - 1])
  {
    hide Writes;
    JoinedStarts(written, items);
    WrittenReads(written[0], items[0]);
    if |items| > 1 {
      JoinedEnds(written[1..], items[1..]);
    }
  }

  /** An inline list of items, bare or quoted, is read back item by item; the empty list as well. */
  lemma ListReadsBack(written: seq<string>, items: seq<string>)
    requires WritesAll(written, items)
    ensures ParseScalar("[" + JoinItems(written) + "]") == Items(items)
  {
    hide WritesAll, Trim, SplitCommas, ReadItems, ParseScalar;
    var inner := JoinItems(written);
    BracketsHoldItems(inner);
    SameNumber(written, items);
    if items == [] {
      NothingIsTrimmed();
    } else {
      JoinedEnds(written, items);
      EndsAreTrimmed(inner);
      JoinedSplits(written, items);
    }
  }

  lemma SameNumber(written: seq<string>, items: seq<string>)
    requires WritesAll(written, items)
    ensures |written| == |items|
  {
  }

  lemma NothingIsTrimmed()
    ensures Trim("") == ""
  {
  }

  lemma EndsAreTrimmed(s: string)
    requires s != "" && !IsSpace(s[0]) && !IsSpace(s[|s| - 1])
    ensures Trim(s) == s
  {
    assert TrimStart(s) == s && TrimEnd(s) == s;
  }

  lemma BracketsHoldItems(inner: string)
    ensures ParseScalar("[" + inner + "]") ==
        Items(if Trim(inner) == "" then [] else ReadItems(SplitCommas(Trim(inner))))
  {
    hide SplitCommas, ReadItems;
    var s := "[" + inner + "]";
    assert s[0] == '[' && s[|s| - 1] == ']' && Inner(s) == inner;
    EndsAreTrimmed(s);
    assert !IsDigit(s[0]);
  }
}
