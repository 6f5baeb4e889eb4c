/**
 The text of a path through a JSON document: `$`, then `.key` for an object's member and `[*]` for an array's
 elements, a key in Go quotes when it is not a plain word. Which characters count as printable is a parameter.
 */
module JsonPath {

  datatype Part = Key(key: string) | Element

  type Printable = char -> bool

  predicate WordStart(c: char) {
    ('A' <= c <= 'Z') || ('a' <= c <= 'z') || c == '_'
  }

  predicate WordChar(c: char) {
    WordStart(c) || ('0' <= c <= '9')
  }

  predicate AllWord(s: string) {
    forall i :: 0 <= i < |s| ==> WordChar(s[i])
  }

  /** A key that needs no quoting. */
  predicate Plain(key: string) {
    key != [] && WordStart(key[0]) && AllWord(key)
  }

  // Go's quoting.

  function HexDigit(n: nat): char
    requires n < 16
  {
    "0123456789abcdef"[n]
  }

  function Hex(n: nat, width: nat): (s: string)
    ensures |s| == width
  {
    if width == 0 then [] else Hex(n / 16, width - 1) + [HexDigit(n % 16)]
  }

  const BACK: char := '\\'

  /** The letter of a control character's short escape, or none. */
  function Short(c: char): (r: string)
    ensures |r| <= 1
  {
    if c as int == 7 then "a" else if c as int == 8 then "b" else if c as int == 12 then "f"
    else if c as int == 10 then "n" else if c as int == 13 then "r" else if c as int == 9 then "t"
    else if c as int == 11 then "v" else ""
  }

  function Escape(printable: Printable, c: char): string {
    if c == '"' || c == BACK then [BACK, c]
    else if printable(c) then [c]
    else if Short(c) != "" then [BACK] + Short(c)
    else if (c as int) < 32 || c as int == 127 then [BACK, 'x'] + Hex(c as int, 2)
    else if (c as int) < 0x10000 then [BACK, 'u'] + Hex(c as int, 4)
    else [BACK, 'U'] + Hex(c as int, 8)
  }

  function Body(printable: Printable, key: string): string {
    if key == [] then [] else Escape(printable, key[0]) + Body(printable, key[1..])
  }

  function Quote(printable: Printable, key: string): string {
    ['"'] + Body(printable, key) + ['"']
  }

  /** By code point: the fifty-two letters and the underscore, and the ten digits. */
  predicate Letter(n: int) {
    65 <= n <= 90 || n == 95 || 97 <= n <= 122
  }

  predicate Numeral(n: int) {
    48 <= n <= 57
  }

  /** A key is written without quotes exactly when it is letters, underscores and digits, and starts with none of the last. */
  lemma PlainIff(key: string)
    ensures Plain(key) <==>
      key != "" && Letter(key[0] as int) && forall i :: 0 <= i < |key| ==> Letter(key[i] as int) || Numeral(key[i] as int)
  {
    assert forall c: char :: WordChar(c) <==> Letter(c as int) || Numeral(c as int);
  }

  /** What stands for a control character that has a letter, a quote, a backslash and any other character. */
  lemma EscapesAre(printable: Printable, c: char)
    ensures c == '"' || c == BACK ==> Escape(printable, c) == [BACK, c]
    ensures c != '"' && c != BACK && printable(c) ==> Escape(printable, c) == [c]
    ensures !printable(c) ==>
      && (c == 7 as char ==> Escape(printable, c) == "\\a") && (c == 8 as char ==> Escape(printable, c) == "\\b")
      && (c == '\t' ==> Escape(printable, c) == "\\t") && (c == '\n' ==> Escape(printable, c) == "\\n")
      && (c == 11 as char ==> Escape(printable, c) == "\\v") && (c == 12 as char ==> Escape(printable, c) == "\\f")
      && (c == '\r' ==> Escape(printable, c) == "\\r") && (c == 0 as char ==> Escape(printable, c) == "\\x00")
      && (c == 127 as char ==> Escape(printable, c) == "\\x7f") && (c == 128 as char ==> Escape(printable, c) == "\\u0080")
  {
    if c == 0 as char {
      HexTwo(0, '0', '0');
    } else if c == 127 as char {
      HexTwo(127, '7', 'f');
    } else if c == 128 as char {
      HexTwo(0, '0', '0');
      HexTwo(128, '8', '0');
      assert Hex(128, 4) == Hex(8, 3) + ['0'] && Hex(8, 3) == Hex(0, 2) + ['8'];
    }
  }

  lemma HexTwo(n: nat, a: char, b: char)
    requires n < 256 && HexDigit(n / 16) == a && HexDigit(n % 16) == b
    ensures Hex(n, 2) == [a, b]
  {
    assert Hex(n / 16 / 16, 0) == [];
    assert Hex(n / 16, 1) == [HexDigit(n / 16 % 16)];
  }

  // Paths.

  function ChildPath(printable: Printable, parent: string, key: string): string {
    if Plain(key) then parent + "." + key else parent + "." + Quote(printable, key)
  }

  /** A path as the walk builds it, step by step. */
  function Render(printable: Printable, parts: seq<Part>): string {
    if parts == [] then "$"
    else
      var parent := Render(printable, parts[..|parts| - 1]);
      match parts[|parts| - 1]
      case Key(key) => ChildPath(printable, parent, key)
      case Element => parent + "[*]"
  }

  /** The text of one step. */
  function Text(printable: Printable, p: Part): string {
    match p
    case Key(key) => if Plain(key) then "." + key else "." + Quote(printable, key)
    case Element => "[*]"
  }

  function Texts(printable: Printable, parts: seq<Part>): string {
    if parts == [] then [] else Text(printable, parts[0]) + Texts(printable, parts[1..])
  }

  lemma {:induction false} TextsSnoc(printable: Printable, parts: seq<Part>, p: Part)
    ensures Texts(printable, parts + [p]) == Texts(printable, parts) + Text(printable, p)
  {
    hide Text;
    if parts == [] {
      assert parts + [p] == [p] && [p][1..] == [];
    } else {
      assert (parts + [p])[1..] == parts[1..] + [p];
      TextsSnoc(printable, parts[1..], p);
    }
  }

  lemma {:induction false} RenderIsTexts(printable: Printable, parts: seq<Part>)
    ensures Render(printable, parts) == "$" + Texts(printable, parts)
  {
    if parts != [] {
      var front, last := parts[..|parts| - 1], parts[|parts| - 1];
      RenderIsTexts(printable, front);
      TextsSnoc(printable, front, last);
      assert front + [last] == parts;
      hide Quote, Plain;
    }
  }

  // Reading a path back. Keys come back as code points.

  function HexValue(c: char): nat {
    if '0' <= c <= '9' then c as int - '0' as int
    else if 'a' <= c <= 'f' then c as int - 'a' as int + 10
    else 0
  }

  function ReadHex(s: string): nat {
    if s == [] then 0 else 16 * ReadHex(s[..|s| - 1]) + HexValue(s[|s| - 1])
  }

  function Span(s: string, n: nat): string {
    if n <= |s| then s[..n] else s
  }

  /** The first character of a quoted text, as a code point, and how much of the text it takes. */
  function ReadChar(s: string): (r: (int, nat))
    requires s != []
    ensures 0 < r.1 <= |s|
  {
    if s[0] != BACK || |s| < 2 then (s[0] as int, 1)
    else
      var c := s[1];
      if c == '"' || c == BACK then (c as int, 2)
      else if c == 'a' then (7, 2) else if c == 'b' then (8, 2) else if c == 'f' then (12, 2)
      else if c == 'n' then (10, 2) else if c == 'r' then (13, 2) else if c == 't' then (9, 2)
      else if c == 'v' then (11, 2)
      else
        var width := if c == 'x' then 2 else if c == 'u' then 4 else 8;
        var digits := Span(s[2..], width);
        (ReadHex(digits), 2 + |digits|)
  }

  /** A quoted text up to its closing quote, and what comes after. */
  function ReadQuoted(s: string): (r: (seq<int>, string))
    ensures |r.1| <= |s|
  {
    if s == [] then ([], [])
    else if s[0] == '"' then ([], s[1..])
    else
      var (c, n) := ReadChar(s);
      var (cs, rest) := ReadQuoted(s[n..]);
      ([c] + cs, rest)
  }

  function ReadWord(s: string): (r: (seq<int>, string))
    ensures |r.1| <= |s|
  {
    if s == [] || !WordChar(s[0]) then ([], s)
    else
      var (cs, rest) := ReadWord(s[1..]);
      ([s[0] as int] + cs, rest)
  }

  datatype Step = Member(codes: seq<int>) | Each

  function ReadSteps(s: string): seq<Step>
    decreases |s|
  {
    if s == [] then []
    else if s[0] != '.' then [Each] + ReadSteps(if |s| >= 3 then s[3..] else [])
    else if |s| > 1 && s[1] == '"' then
      var (cs, rest) := ReadQuoted(s[2..]);
      [Member(cs)] + ReadSteps(rest)
    else
      var (cs, rest) := ReadWord(s[1..]);
      [Member(cs)] + ReadSteps(rest)
  }

  function Codes(key: string): seq<int> {
    if key == [] then [] else [key[0] as int] + Codes(key[1..])
  }

  function StepOf(p: Part): Step {
    match p
    case Key(key) => Member(Codes(key))
    case Element => Each
  }

  function StepsOf(parts: seq<Part>): seq<Step> {
    if parts == [] then [] else [StepOf(parts[0])] + StepsOf(parts[1..])
  }

  lemma {:induction false} CodesInjective(a: string, b: string)
    requires Codes(a) == Codes(b)
    ensures a == b
  {
    if a != [] && b != [] {
      assert Codes(a)[0] == Codes(b)[0] && Codes(a)[1..] == Codes(b)[1..];
      CodesInjective(a[1..], b[1..]);
      assert a == [a[0]] + a[1..] && b == [b[0]] + b[1..];
    }
  }

  lemma {:induction false} StepsInjective(p: seq<Part>, q: seq<Part>)
    requires StepsOf(p) == StepsOf(q)
    ensures p == q
  {
    if p != [] && q != [] {
      assert StepsOf(p)[0] == StepsOf(q)[0] && StepsOf(p)[1..] == StepsOf(q)[1..];
      if p[0].Key? && q[0].Key? {
        CodesInjective(p[0].key, q[0].key);
      }
      StepsInjective(p[1..], q[1..]);
      assert p == [p[0]] + p[1..] && q == [q[0]] + q[1..];
    }
  }

  function Power(width: nat): nat {
    if width == 0 then 1 else 16 * Power(width - 1)
  }

  lemma HexDigitReads(n: nat)
    requires n < 16
    ensures HexValue(HexDigit(n)) == n
  {
  }

  lemma {:induction false} HexReads(n: nat, width: nat)
    requires n < Power(width)
    ensures ReadHex(Hex(n, width)) == n
  {
    if width > 0 {
      HexDigitReads(n % 16);
      hide HexDigit, HexValue;
      assert n / 16 < Power(width - 1);
      HexReads(n / 16, width - 1);
      assert Hex(n, width)[..width - 1] == Hex(n / 16, width - 1);
    }
  }

  lemma Powers()
    ensures Power(2) == 0x100 && Power(4) == 0x10000 && Power(8) == 0x100000000
  {
    assert Power(1) == 16 && Power(2) == 256 && Power(3) == 4096 && Power(4) == 65536;
    assert Power(5) == 0x100000 && Power(6) == 0x1000000 && Power(7) == 0x10000000;
  }

  lemma ReadsHexEscape(letter: char, width: nat, n: nat, rest: string)
    requires (letter == 'x' && width == 2) || (letter == 'u' && width == 4) || (letter == 'U' && width == 8)
    requires n < Power(width)
    ensures ReadChar([BACK, letter] + Hex(n, width) + rest) == (n, 2 + width)
  {
    var s := [BACK, letter] + Hex(n, width) + rest;
    assert s[2..] == Hex(n, width) + rest;
    assert Span(s[2..], width) == Hex(n, width);
    HexReads(n, width);
    hide Hex, ReadHex;
  }

  /** What was written for a character reads back as that character. */
  lemma EscapeReads(printable: Printable, c: char, rest: string)
    ensures Escape(printable, c) != [] && Escape(printable, c)[0] != '"'
    ensures ReadChar(Escape(printable, c) + rest) == (c as int, |Escape(printable, c)|)
  {
    hide Hex;
    Powers();
    var n := c as int;
    if c != '"' && c != BACK && !printable(c) && Short(c) == "" {
      if n < 32 || n == 127 {
        ReadsHexEscape('x', 2, n, rest);
      } else if n < 0x10000 {
        ReadsHexEscape('u', 4, n, rest);
      } else {
        ReadsHexEscape('U', 8, n, rest);
      }
    }
  }

  lemma {:induction false} QuotedReads(printable: Printable, key: string, rest: string)
    ensures ReadQuoted(Body(printable, key) + ['"'] + rest) == (Codes(key), rest)
  {
    var s := Body(printable, key) + ['"'] + rest;
    if key == [] {
      assert s == ['"'] + rest && s[1..] == rest;
    } else {
      var e := Escape(printable, key[0]);
      var tail := Body(printable, key[1..]) + ['"'] + rest;
      assert s == e + tail;
      EscapeReads(printable, key[0], tail);
      hide Escape, ReadChar;
      assert s[|e|..] == tail && s[0] == e[0];
      QuotedReads(printable, key[1..], rest);
    }
  }

  lemma {:induction false} WordReads(key: string, rest: string)
    requires AllWord(key) && (rest == [] || !WordChar(rest[0]))
    ensures ReadWord(key + rest) == (Codes(key), rest)
  {
    if key == [] {
      assert key + rest == rest;
    } else {
      assert (key + rest)[1..] == key[1..] + rest;
      WordReads(key[1..], rest);
    }
  }

  /** No step's text starts with a word's character, so a plain key ends where the next step starts. */
  lemma StepBreaks(printable: Printable, parts: seq<Part>)
    ensures Texts(printable, parts) == [] || !WordChar(Texts(printable, parts)[0])
  {
    hide Quote, Plain;
  }

  lemma {:induction false} PathReads(printable: Printable, parts: seq<Part>)
    ensures ReadSteps(Texts(printable, parts)) == StepsOf(parts)
  {
    if parts != [] {
      var rest := Texts(printable, parts[1..]);
      PathReads(printable, parts[1..]);
      StepBreaks(printable, parts[1..]);
      var s := Texts(printable, parts);
      hide Texts;
      OneStepReads(printable, parts[0], rest);
    }
  }

  lemma OneStepReads(printable: Printable, p: Part, rest: string)
    requires rest == [] || !WordChar(rest[0])
    ensures ReadSteps(Text(printable, p) + rest) == [StepOf(p)] + ReadSteps(rest)
  {
    hide ReadSteps, Codes, Plain, Quote;
    match p
    case Element => EachReads(rest);
    case Key(key) =>
      if Plain(key) {
        assert Text(printable, p) + rest == "." + (key + rest);
        PlainReads(key, rest);
      } else {
        assert Text(printable, p) + rest == "." + (Quote(printable, key) + rest);
        QuoteReads(printable, key, rest);
      }
  }

  lemma PlainReads(key: string, rest: string)
    requires Plain(key) && (rest == [] || !WordChar(rest[0]))
    ensures ReadSteps("." + (key + rest)) == [Member(Codes(key))] + ReadSteps(rest)
  {
    hide ReadSteps, ReadWord, Codes;
    WordReads(key, rest);
    MemberReads("." + (key + rest), Codes(key), rest);
  }

  lemma QuoteReads(printable: Printable, key: string, rest: string)
    ensures ReadSteps("." + (Quote(printable, key) + rest)) == [Member(Codes(key))] + ReadSteps(rest)
  {
    hide ReadSteps, ReadQuoted, Codes, Body;
    var s := "." + (Quote(printable, key) + rest);
    assert s[2..] == Body(printable, key) + ['"'] + rest;
    QuotedReads(printable, key, rest);
    MemberReads(s, Codes(key), rest);
  }

  lemma EachReads(rest: string)
    ensures ReadSteps("[*]" + rest) == [Each] + ReadSteps(rest)
  {
    assert ("[*]" + rest)[3..] == rest;
  }

  lemma MemberReads(s: string, cs: seq<int>, rest: string)
    requires |s| > 1 && s[0] == '.'
    requires if s[1] == '"' then ReadQuoted(s[2..]) == (cs, rest) else ReadWord(s[1..]) == (cs, rest)
    ensures ReadSteps(s) == [Member(cs)] + ReadSteps(rest)
  {
    hide ReadQuoted, ReadWord;
  }

  /** The text of a path says which path it is: for all keys, quoted or plain, and whatever counts as printable. */
  lemma RenderInjective(printable: Printable, p: seq<Part>, q: seq<Part>)
    requires Render(printable, p) == Render(printable, q)
    ensures p == q
  {
    RenderIsTexts(printable, p);
    RenderIsTexts(printable, q);
    assert Render(printable, p)[1..] == Texts(printable, p) && Render(printable, q)[1..] == Texts(printable, q);
    hide Render, Texts, ReadSteps;
    PathReads(printable, p);
    PathReads(printable, q);
    StepsInjective(p, q);
  }
}
