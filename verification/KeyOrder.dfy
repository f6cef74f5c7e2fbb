/** The order in which the canonical printer sorts object keys: UTF-16 code units. */
module KeyOrder {
  /** The UTF-16 code units of a code point. */
  function Units(c: char): seq<int> {
    var n := c as int;
    if n < 0x10000 then [n] else [0xD800 + (n - 0x10000) / 0x400, 0xDC00 + (n - 0x10000) % 0x400]
  }

  function Encode(s: string): seq<int> {
    if s == "" then [] else Units(s[0]) + Encode(s[1..])
  }

  /** Strict lexicographic order. */
  predicate Less(a: seq<int>, b: seq<int>) {
    b != [] && (a == [] || a[0] < b[0] || (a[0] == b[0] && Less(a[1..], b[1..])))
  }

  lemma {:induction false} LessIsTotal(a: seq<int>, b: seq<int>)
    ensures Less(a, b) || Less(b, a) || a == b
    ensures !(Less(a, b) && Less(b, a)) && !Less(a, a)
  {
    if a != [] && b != [] && a[0] == b[0] {
      LessIsTotal(a[1..], b[1..]);
      assert a == [a[0]] + a[1..] && b == [b[0]] + b[1..];
    }
    if a != [] {
      LessIsTotal(a[1..], a[1..]);
    }
  }

  lemma {:induction false} LessIsTransitive(a: seq<int>, b: seq<int>, c: seq<int>)
    requires Less(a, b) && Less(b, c)
    ensures Less(a, c)
  {
    if a != [] && a[0] == b[0] && b[0] == c[0] {
      LessIsTransitive(a[1..], b[1..], c[1..]);
    }
  }

  lemma UnitsDetermineChar(c: char, d: char)
    requires Units(c) == Units(d)
    ensures c == d
  {
  }

  lemma EmptyEncoding(s: string)
    ensures Encode(s) == [] <==> s == ""
  {
    assert s != "" ==> |Encode(s)| >= |Units(s[0])|;
  }

  /** The first code unit of a well-formed text tells how many units the first code point takes. */
  lemma {:induction false} EncodeIsInjective(s: string, t: string)
    requires Encode(s) == Encode(t)
    ensures s == t
  {
    EmptyEncoding(s);
    EmptyEncoding(t);
    if s != "" {
      var c, d := s[0], t[0];
      var us, ut := Encode(s), Encode(t);
      assert us[0] == Units(c)[0] && ut[0] == Units(d)[0];
      assert |Units(c)| == |Units(d)|;
      assert us[..|Units(c)|] == Units(c) && ut[..|Units(d)|] == Units(d);
      UnitsDetermineChar(c, d);
      assert us[|Units(c)|..] == Encode(s[1..]) && ut[|Units(d)|..] == Encode(t[1..]);
      EncodeIsInjective(s[1..], t[1..]);
      assert s == [c] + s[1..] && t == [d] + t[1..];
    }
  }

  /** Array.prototype.sort on strings. */
  predicate KeyLess(a: string, b: string) {
    Less(Encode(a), Encode(b))
  }

  lemma KeyLessIsTotal(a: string, b: string)
    ensures KeyLess(a, b) || KeyLess(b, a) || a == b
    ensures !(KeyLess(a, b) && KeyLess(b, a)) && !KeyLess(a, a)
  {
    LessIsTotal(Encode(a), Encode(b));
    LessIsTotal(Encode(a), Encode(a));
    if Encode(a) == Encode(b) {
      EncodeIsInjective(a, b);
    }
  }

  lemma KeyLessIsTransitive(a: string, b: string, c: string)
    requires KeyLess(a, b) && KeyLess(b, c)
    ensures KeyLess(a, c)
  {
    LessIsTransitive(Encode(a), Encode(b), Encode(c));
  }

  // -- against the documented order --------------------------------------

  /** The UTF-8 bytes of a code point (section 3 of RFC 3629). */
  function Utf8(c: char): (bytes: seq<int>)
    ensures |bytes| > 0
  {
    var n := c as int;
    if n < 0x80 then [n]
    else if n < 0x800 then [0xC0 + n / 0x40, 0x80 + n % 0x40]
    else if n < 0x10000 then [0xE0 + n / 0x1000, 0x80 + n / 0x40 % 0x40, 0x80 + n % 0x40]
    else [0xF0 + n / 0x40000, 0x80 + n / 0x1000 % 0x40, 0x80 + n / 0x40 % 0x40, 0x80 + n % 0x40]
  }

  function Bytes(s: string): seq<int> {
    if s == "" then [] else Utf8(s[0]) + Bytes(s[1..])
  }

  /** The order the documentation asks for. */
  predicate ByteLess(a: string, b: string) {
    Less(Bytes(a), Bytes(b))
  }

  predicate CodePointLess(a: string, b: string) {
    b != "" && (a == "" || a[0] < b[0] || (a[0] == b[0] && CodePointLess(a[1..], b[1..])))
  }

  /** Where two texts first differ decides their order. */
  lemma {:induction false} FirstDifferenceDecides(a: seq<int>, b: seq<int>, k: nat)
    requires k < |a| && k < |b| && a[..k] == b[..k] && a[k] < b[k]
    ensures Less(a, b) && !Less(b, a)
  {
    if k > 0 {
      assert a[0] == a[..k][0] == b[..k][0] == b[0];
      assert a[1..][..k - 1] == a[..k][1..] && b[1..][..k - 1] == b[..k][1..];
      FirstDifferenceDecides(a[1..], b[1..], k - 1);
    }
  }

  /** Numbers compare by their base-64 digits, the highest that differs deciding. */
  lemma HighestDigitDecides(m: nat, n: nat)
    requires m <= n
    ensures m / 0x40 < n / 0x40 || (m / 0x40 == n / 0x40 && m % 0x40 < n % 0x40) || m == n
  {
  }

  lemma DigitsOfQuotients(n: nat)
    ensures n / 0x40 / 0x40 == n / 0x1000 && n / 0x1000 / 0x40 == n / 0x40000
  {
  }

  /** The bytes of a smaller code point come first: at the first byte that differs, they are smaller. */
  lemma SmallerCharSmallerByte(c: char, d: char) returns (k: nat)
    requires c < d
    ensures k < |Utf8(c)| && k < |Utf8(d)| && Utf8(c)[..k] == Utf8(d)[..k] && Utf8(c)[k] < Utf8(d)[k]
  {
    if Utf8(c)[0] < Utf8(d)[0] {
      k := 0;
    } else {
      k := SameLeadSmallerByte(c, d);
    }
  }

  lemma SameLeadSmallerByte(c: char, d: char) returns (k: nat)
    requires c < d && Utf8(c)[0] >= Utf8(d)[0]
    ensures k < |Utf8(c)| && k < |Utf8(d)| && Utf8(c)[..k] == Utf8(d)[..k] && Utf8(c)[k] < Utf8(d)[k]
  {
    var m, n := c as int, d as int;
    DigitsOfQuotients(m);
    DigitsOfQuotients(n);
    HighestDigitDecides(m, n);
    SameLengthAndLead(c, d);
    if n < 0x800 {
      k := 1;
    } else if n < 0x10000 {
      HighestDigitDecides(m / 0x40, n / 0x40);
      k := if m / 0x40 % 0x40 < n / 0x40 % 0x40 then 1 else 2;
    } else {
      HighestDigitDecides(m / 0x40, n / 0x40);
      HighestDigitDecides(m / 0x1000, n / 0x1000);
      k := if m / 0x1000 % 0x40 < n / 0x1000 % 0x40 then 1 else if m / 0x40 % 0x40 < n / 0x40 % 0x40 then 2 else 3;
    }
  }

  /** The leading byte tells how many bytes there are, and grows with the code point. */
  lemma SameLengthAndLead(c: char, d: char)
    requires c < d && Utf8(c)[0] >= Utf8(d)[0]
    ensures Utf8(c)[0] == Utf8(d)[0] && |Utf8(c)| == |Utf8(d)| > 1
  {
  }

  lemma SmallerCharFirst(c: char, s: seq<int>, d: char, t: seq<int>)
    requires c < d
    ensures Less(Utf8(c) + s, Utf8(d) + t) && !Less(Utf8(d) + t, Utf8(c) + s)
  {
    var k := SmallerCharSmallerByte(c, d);
    var a, b := Utf8(c) + s, Utf8(d) + t;
    assert a[..k] == Utf8(c)[..k] && b[..k] == Utf8(d)[..k];
    FirstDifferenceDecides(a, b, k);
  }

  /** The order of UTF-8 bytes is the order of code points. */
  lemma {:induction false} BytesAreCodePoints(a: string, b: string)
    ensures ByteLess(a, b) <==> CodePointLess(a, b)
  {
    if a == "" || b == "" {
      assert a != "" ==> |Bytes(a)| >= |Utf8(a[0])|;
      assert b != "" ==> |Bytes(b)| >= |Utf8(b[0])|;
    } else if a[0] == b[0] {
      LessAfterCommon(Utf8(a[0]), Bytes(a[1..]), Bytes(b[1..]));
      BytesAreCodePoints(a[1..], b[1..]);
    } else if a[0] < b[0] {
      SmallerCharFirst(a[0], Bytes(a[1..]), b[0], Bytes(b[1..]));
    } else {
      SmallerCharFirst(b[0], Bytes(b[1..]), a[0], Bytes(a[1..]));
    }
  }

  predicate High(c: char) {
    0xE000 <= c as int < 0x10000
  }

  predicate Astral(c: char) {
    c as int >= 0x10000
  }

  /** Where two keys first differ, one has an astral character and the other one from the top of the BMP. */
  predicate Clash(a: string, b: string) {
    a != "" && b != "" &&
    if a[0] == b[0] then Clash(a[1..], b[1..]) else (High(a[0]) && Astral(b[0])) || (Astral(a[0]) && High(b[0]))
  }

  lemma {:induction false} LessAfterCommon(p: seq<int>, a: seq<int>, b: seq<int>)
    ensures Less(p + a, p + b) <==> Less(a, b)
  {
    if p == [] {
      assert p + a == a && p + b == b;
    } else {
      LessAfterCommon(p[1..], a, b);
      assert (p + a)[1..] == p[1..] + a && (p + b)[1..] == p[1..] + b;
    }
  }

  /** Different first characters decide the order of two keys. */
  lemma FirstCharDecides(c: char, s: seq<int>, d: char, t: seq<int>)
    requires c != d
    ensures Less(Units(c) + s, Units(d) + t) <==>
              if (High(c) && Astral(d)) || (Astral(c) && High(d)) then d < c else c < d
  {
    var m, n := c as int, d as int;
    var a, b := Units(c) + s, Units(d) + t;
    assert a[0] == Units(c)[0] && b[0] == Units(d)[0];
    if Astral(c) && Astral(d) {
      assert a[1..][0] == Units(c)[1] && b[1..][0] == Units(d)[1];
      assert m - 0x10000 == ((m - 0x10000) / 0x400) * 0x400 + (m - 0x10000) % 0x400;
      assert n - 0x10000 == ((n - 0x10000) / 0x400) * 0x400 + (n - 0x10000) % 0x400;
    }
  }

  lemma {:induction false} SortsByCodePointsIff(a: string, b: string)
    requires a != b
    ensures (KeyLess(a, b) <==> CodePointLess(a, b)) <==> !Clash(a, b)
  {
    if a == "" || b == "" {
      assert a != "" ==> Encode(a) != [];
      assert b != "" ==> Encode(b) != [];
    } else if a[0] == b[0] {
      LessAfterCommon(Units(a[0]), Encode(a[1..]), Encode(b[1..]));
      assert a == [a[0]] + a[1..] && b == [b[0]] + b[1..];
      SortsByCodePointsIff(a[1..], b[1..]);
    } else {
      FirstCharDecides(a[0], Encode(a[1..]), b[0], Encode(b[1..]));
    }
  }

  /**
   * The printer sorts two different keys as the documentation says, by UTF-8 bytes, exactly when they
   * do not clash; a clashing pair comes out the other way round.
   */
  lemma SortsByBytesIff(a: string, b: string)
    requires a != b
    ensures (KeyLess(a, b) <==> ByteLess(a, b)) <==> !Clash(a, b)
  {
    SortsByCodePointsIff(a, b);
    BytesAreCodePoints(a, b);
  }

  /** U+E000 comes before U+10000 in UTF-8 and after it in the printer's order. */
  lemma KeysOutOfByteOrder()
    ensures ByteLess("\U{E000}", "\U{10000}") && KeyLess("\U{10000}", "\U{E000}")
  {
    SortsByBytesIff("\U{E000}", "\U{10000}");
    BytesAreCodePoints("\U{E000}", "\U{10000}");
    KeyLessIsTotal("\U{E000}", "\U{10000}");
  }
}
