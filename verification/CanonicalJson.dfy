/**
 * The canonical JSON printer whose output is signed, and a parser for the grammar of RFC 8259. Strings
 * are sequences of code points, so they are well-formed; numbers are the integers both ends agree on.
 */
module CanonicalJson {
  import opened KeyOrder
  import opened Strings

  const MAX_SAFE_INTEGER := 9007199254740991

  type SafeInteger = n: int | -MAX_SAFE_INTEGER <= n <= MAX_SAFE_INTEGER

  datatype Member = Member(name: string, value: Json)

  /** A value in memory; the members of an object stand in the order in which they were inserted. */
  datatype Json =
    | Null
    | Bool(b: bool)
    | Number(n: SafeInteger)
    | String(s: string)
    | Array(items: seq<Json>)
    | Object(members: seq<Member>)

  // -- looking up members ------------------------------------------------

  function Names(ms: seq<Member>): (names: seq<string>)
    ensures |names| == |ms| && forall i :: 0 <= i < |ms| ==> names[i] == ms[i].name
  {
    seq(|ms|, i requires 0 <= i < |ms| => ms[i].name)
  }

  function Index(ms: seq<Member>, name: string): (i: nat)
    requires name in Names(ms)
    ensures i < |ms| && ms[i].name == name
  {
    if ms[0].name == name then 0 else
      assert Names(ms)[1..] == Names(ms[1..]);
      1 + Index(ms[1..], name)
  }

  /** No object has two members of the same name. */
  predicate Unambiguous(v: Json) {
    match v
    case Array(items) => forall i :: 0 <= i < |items| ==> Unambiguous(items[i])
    case Object(ms) =>
      && (forall i, j :: 0 <= i < j < |ms| ==> ms[i].name != ms[j].name)
      && (forall i :: 0 <= i < |ms| ==> Unambiguous(ms[i].value))
    case _ => true
  }

  /** What a value denotes: objects are unordered collections of named values. */
  datatype Meaning =
    | Nothing
    | Truth(b: bool)
    | Amount(n: int)
    | Text(s: string)
    | List(items: seq<Meaning>)
    | Record(members: map<string, Meaning>)

  function Denote(v: Json): Meaning {
    match v
    case Null => Nothing
    case Bool(b) => Truth(b)
    case Number(n) => Amount(n)
    case String(s) => Text(s)
    case Array(items) => List(seq(|items|, i requires 0 <= i < |items| => Denote(items[i])))
    case Object(ms) => Record(map name | name in Names(ms) :: Denote(ms[Index(ms, name)].value))
  }

  // -- the printer -------------------------------------------------------

  function HexDigit(n: nat): char
    requires n < 16
  {
    if n < 10 then ('0' as int + n) as char else ('a' as int + n - 10) as char
  }

  function QuoteChar(c: char): (q: string)
    ensures |q| > 0
  {
    var code := c as int;
    if code == 0x22 then "\\\""
    else if code == 0x5c then "\\\\"
    else if code == 0x08 then "\\b"
    else if code == 0x09 then "\\t"
    else if code == 0x0a then "\\n"
    else if code == 0x0c then "\\f"
    else if code == 0x0d then "\\r"
    else if code < 0x20 then "\\u00" + [HexDigit(code / 16), HexDigit(code % 16)]
    else [c]
  }

  function QuoteChars(s: string): string {
    if s == "" then "" else QuoteChar(s[0]) + QuoteChars(s[1..])
  }

  function Quote(s: string): string {
    "\"" + QuoteChars(s) + "\""
  }

  /** Quotes a string one code point after the other. */
  method QuoteString(str: string) returns (out: string)
    ensures out == Quote(str)
  {
    out := "\"";
    for i := 0 to |str|
      invariant out + QuoteChars(str[i..]) == "\"" + QuoteChars(str)
    {
      assert str[i..][1..] == str[i + 1..];
      out := out + QuoteChar(str[i]);
    }
    out := out + "\"";
  }

  function Digits(n: nat): (s: string)
    ensures |s| > 0
  {
    if n < 10 then [('0' as int + n) as char] else Digits(n / 10) + [('0' as int + n % 10) as char]
  }

  function QuoteNumber(n: SafeInteger): string {
    if n < 0 then "-" + Digits(-n) else Digits(n)
  }

  function Insert(key: string, keys: seq<string>): seq<string> {
    if keys == [] || !KeyLess(keys[0], key) then [key] + keys else [keys[0]] + Insert(key, keys[1..])
  }

  function Sort(keys: seq<string>): seq<string> {
    if keys == [] then [] else Insert(keys[0], Sort(keys[1..]))
  }

  lemma {:induction false} InsertElements(key: string, keys: seq<string>)
    ensures forall k :: k in Insert(key, keys) <==> k == key || k in keys
  {
    if keys != [] && KeyLess(keys[0], key) {
      InsertElements(key, keys[1..]);
    }
  }

  lemma {:induction false} SortElements(keys: seq<string>)
    ensures forall k :: k in Sort(keys) <==> k in keys
  {
    if keys != [] {
      SortElements(keys[1..]);
      InsertElements(keys[0], Sort(keys[1..]));
    }
  }

  function Print(v: Json): string
    decreases v, 1, 0
  {
    match v
    case Null => "null"
    case Bool(b) => if b then "true" else "false"
    case Number(n) => QuoteNumber(n)
    case String(s) => Quote(s)
    case Array(items) => "[" + PrintItems(items) + "]"
    case Object(ms) =>
      SortElements(Names(ms));
      "{" + PrintMembers(v, Sort(Names(ms))) + "}"
  }

  function PrintItems(items: seq<Json>): string
    decreases items, 0, 0
  {
    if items == [] then "" else if |items| == 1 then Print(items[0]) else Print(items[0]) + "," + PrintItems(items[1..])
  }

  function PrintMember(v: Json, key: string): string
    requires v.Object? && key in Names(v.members)
    decreases v, 0, 0
  {
    Quote(key) + ":" + Print(v.members[Index(v.members, key)].value)
  }

  function PrintMembers(v: Json, keys: seq<string>): string
    requires v.Object? && forall k :: k in keys ==> k in Names(v.members)
    decreases v, 0, |keys|
  {
    if keys == [] then "" else if |keys| == 1 then PrintMember(v, keys[0])
    else PrintMember(v, keys[0]) + "," + PrintMembers(v, keys[1..])
  }

  /** The same value with the members of every object in printing order. */
  function Canon(v: Json): Json
    decreases v, 1, 0
  {
    match v
    case Array(items) => Array(CanonItems(items))
    case Object(ms) =>
      SortElements(Names(ms));
      Object(CanonMembers(v, Sort(Names(ms))))
    case _ => v
  }

  function CanonItems(items: seq<Json>): seq<Json>
    decreases items, 0, 0
  {
    if items == [] then [] else [Canon(items[0])] + CanonItems(items[1..])
  }

  function CanonMembers(v: Json, keys: seq<string>): seq<Member>
    requires v.Object? && forall k :: k in keys ==> k in Names(v.members)
    decreases v, 0, |keys|
  {
    if keys == [] then [] else
      [Member(keys[0], Canon(v.members[Index(v.members, keys[0])].value))] + CanonMembers(v, keys[1..])
  }

  // -- a parser for RFC 8259 ---------------------------------------------

  datatype Parsed<+T> = Parsed(value: T, rest: string) | Failed

  predicate IsSpace(c: char) {
    c == ' ' || c == '\t' || c == '\n' || c == '\r'
  }

  function SkipSpace(s: string): (t: string)
    ensures |t| <= |s|
  {
    if s != "" && IsSpace(s[0]) then SkipSpace(s[1..]) else s
  }

  /** The digits at the front of a text, read after `acc`. */
  function ReadDigits(s: string, acc: nat): (p: (nat, string))
    ensures |p.1| <= |s|
  {
    if s != "" && IsDigit(s[0]) then ReadDigits(s[1..], acc * 10 + (s[0] as int - '0' as int)) else (acc, s)
  }

  /** Section 6, integers only: no leading zeros, no fraction, no exponent. */
  function ParseNatural(s: string): (p: Parsed<nat>)
    ensures p.Parsed? ==> |p.rest| < |s|
  {
    if s == "" || !IsDigit(s[0]) then Failed
    else
      var (n, rest) := if s[0] == '0' then (0, s[1..]) else ReadDigits(s[1..], s[0] as int - '0' as int);
      if rest != "" && rest[0] in ".eE" then Failed else Parsed(n, rest)
  }

  function ParseNumber(s: string): (p: Parsed<Json>)
    ensures p.Parsed? ==> |p.rest| < |s|
  {
    var negative := s != "" && s[0] == '-';
    match ParseNatural(if negative then s[1..] else s)
    case Failed => Failed
    case Parsed(n, rest) =>
      var value: int := if negative then -(n as int) else n as int;
      if n > MAX_SAFE_INTEGER then Failed else Parsed(Number(value), rest)
  }

  function HexValue(c: char): (n: int)
    ensures -1 <= n < 16
  {
    if '0' <= c <= '9' then c as int - '0' as int
    else if 'a' <= c <= 'f' then c as int - 'a' as int + 10
    else if 'A' <= c <= 'F' then c as int - 'A' as int + 10
    else -1
  }

  /** The code unit of a \u escape, from the first hex digit on. */
  function ParseUnit(s: string): (p: Parsed<nat>)
    ensures p.Parsed? ==> |p.rest| < |s| && p.value < 0x10000
  {
    if |s| < 4 then Failed else
      var a, b, c, d := HexValue(s[0]), HexValue(s[1]), HexValue(s[2]), HexValue(s[3]);
      if a < 0 || b < 0 || c < 0 || d < 0 then Failed else Parsed(((a * 16 + b) * 16 + c) * 16 + d, s[4..])
  }

  /** A \u escape, or two that make up a surrogate pair. */
  function ParseUnicode(s: string): (p: Parsed<char>)
    ensures p.Parsed? ==> |p.rest| < |s|
  {
    match ParseUnit(s)
    case Failed => Failed
    case Parsed(high, rest) =>
      if high < 0xD800 || high >= 0xE000 then Parsed(high as char, rest)
      else if high >= 0xDC00 || !("\\u" <= rest) then Failed
      else match ParseUnit(rest[2..])
           case Failed => Failed
           case Parsed(low, after) =>
             if 0xDC00 <= low < 0xE000 then Parsed((0x10000 + (high - 0xD800) * 0x400 + (low - 0xDC00)) as char, after)
               else Failed
  }

  /** Section 7: one character of a string. */
  function ParseChar(s: string): (p: Parsed<char>)
    ensures p.Parsed? ==> |p.rest| < |s|
  {
    if s == "" || s[0] == '"' || s[0] < ' ' then Failed
    else if s[0] != '\\' then Parsed(s[0], s[1..])
    else if |s| == 1 then Failed
    else match s[1]
         case '"' => Parsed('"', s[2..])
         case '\\' => Parsed('\\', s[2..])
         case '/' => Parsed('/', s[2..])
         case 'b' => Parsed(8 as char, s[2..])
         case 'f' => Parsed(12 as char, s[2..])
         case 'n' => Parsed('\n', s[2..])
         case 'r' => Parsed('\r', s[2..])
         case 't' => Parsed('\t', s[2..])
         case 'u' => ParseUnicode(s[2..])
         case _ => Failed
  }

  /** The characters of a string up to its closing quotation mark. */
  function ParseChars(s: string): (p: Parsed<string>)
    ensures p.Parsed? ==> |p.rest| < |s|
    decreases |s|
  {
    if s != "" && s[0] == '"' then Parsed("", s[1..])
    else match ParseChar(s)
         case Failed => Failed
         case Parsed(c, rest) =>
           match ParseChars(rest)
           case Failed => Failed
           case Parsed(cs, after) => Parsed([c] + cs, after)
  }

  function ParseString(s: string): (p: Parsed<string>)
    ensures p.Parsed? ==> |p.rest| < |s|
  {
    if s != "" && s[0] == '"' then ParseChars(s[1..]) else Failed
  }

  function ParseValue(s: string): (p: Parsed<Json>)
    ensures p.Parsed? ==> |p.rest| < |s|
    decreases |s|, 1
  {
    if s == "" then Failed
    else if "null" <= s then Parsed(Null, s[4..])
    else if "true" <= s then Parsed(Bool(true), s[4..])
    else if "false" <= s then Parsed(Bool(false), s[5..])
    else if s[0] == '"' then
      match ParseString(s)
      case Failed => Failed
      case Parsed(str, rest) => Parsed(String(str), rest)
    else if s[0] == '[' then
      var t := SkipSpace(s[1..]);
      if t != "" && t[0] == ']' then Parsed(Array([]), t[1..]) else
        match ParseItems(t)
        case Failed => Failed
        case Parsed(items, rest) => Parsed(Array(items), rest)
    else if s[0] == '{' then
      var t := SkipSpace(s[1..]);
      if t != "" && t[0] == '}' then Parsed(Object([]), t[1..]) else
        match ParseMembers(t)
        case Failed => Failed
        case Parsed(ms, rest) => Parsed(Object(ms), rest)
    else ParseNumber(s)
  }

  /** One or more items, up to the closing bracket. */
  function ParseItems(s: string): (p: Parsed<seq<Json>>)
    ensures p.Parsed? ==> |p.rest| < |s|
    decreases |s|, 2
  {
    match ParseValue(s)
    case Failed => Failed
    case Parsed(item, rest) =>
      var t := SkipSpace(rest);
      if t == "" then Failed
      else if t[0] == ']' then Parsed([item], t[1..])
      else if t[0] != ',' then Failed
      else match ParseItems(SkipSpace(t[1..]))
           case Failed => Failed
           case Parsed(items, after) => Parsed([item] + items, after)
  }

  function ParseMember(s: string): (p: Parsed<Member>)
    ensures p.Parsed? ==> |p.rest| < |s|
    decreases |s|, 2
  {
    match ParseString(s)
    case Failed => Failed
    case Parsed(name, rest) =>
      var t := SkipSpace(rest);
      if t == "" || t[0] != ':' then Failed
      else match ParseValue(SkipSpace(t[1..]))
           case Failed => Failed
           case Parsed(value, after) => Parsed(Member(name, value), after)
  }

  /** One or more members, up to the closing brace. */
  function ParseMembers(s: string): (p: Parsed<seq<Member>>)
    ensures p.Parsed? ==> |p.rest| < |s|
    decreases |s|, 3
  {
    match ParseMember(s)
    case Failed => Failed
    case Parsed(m, rest) =>
      var t := SkipSpace(rest);
      if t == "" then Failed
      else if t[0] == '}' then Parsed([m], t[1..])
      else if t[0] != ',' then Failed
      else match ParseMembers(SkipSpace(t[1..]))
           case Failed => Failed
           case Parsed(ms, after) => Parsed([m] + ms, after)
  }

  /** A JSON text: one value between optional white space. */
  function Parse(s: string): Parsed<Json> {
    match ParseValue(SkipSpace(s))
    case Failed => Failed
    case Parsed(v, rest) => if SkipSpace(rest) == "" then Parsed(v, "") else Failed
  }
}
