/** `JSON.stringify` of an array of strings (the debug log buffer), and a reader for
    the compact text it produces, with the round trip between them. */
module JsonStrings {
  import opened Wrappers

  function HexDigit(d: nat): char
    requires d < 16
  {
    if d < 10 then ('0' as int + d) as char else ('a' as int + d - 10) as char
  }

  function HexValue(c: char): (r: Option<nat>)
    ensures r.Some? ==> r.value < 16
  {
    if '0' <= c <= '9' then Some(c as int - '0' as int)
    else if 'a' <= c <= 'f' then Some(c as int - 'a' as int + 10)
    else if 'A' <= c <= 'F' then Some(c as int - 'A' as int + 10)
    else None
  }

  /** How `JSON.stringify` writes one character inside a string literal: the quote, the
      backslash and the control characters are escaped (the five short forms, `\u00xx`
      with lower-case hex for the others); every other character stands for itself. */
  function EscapeChar(c: char): string {
    if c == '"' then "\\\""
    else if c == '\\' then "\\\\"
    else if c as int == 0x08 then "\\b"
    else if c as int == 0x0C then "\\f"
    else if c == '\n' then "\\n"
    else if c == '\r' then "\\r"
    else if c == '\t' then "\\t"
    else if c as int < 0x20 then "\\u00" + [HexDigit(c as int / 16), HexDigit(c as int % 16)]
    else [c]
  }

  function Escape(s: string): string {
    if s == [] then [] else EscapeChar(s[0]) + Escape(s[1..])
  }

  /** `JSON.stringify(s)` for a string. */
  function Quote(s: string): string { "\"" + Escape(s) + "\"" }

  function Members(lines: seq<string>): string
    requires |lines| >= 1
  {
    if |lines| == 1 then Quote(lines[0]) else Quote(lines[0]) + "," + Members(lines[1..])
  }

  /** `JSON.stringify(lines)` for an array of strings: `[` quoted members joined by `,` `]`. */
  function Stringify(lines: seq<string>): string {
    if |lines| == 0 then "[]" else "[" + Members(lines) + "]"
  }

  // ---------------------------------------------------------------------------
  // Reading the compact form back

  /** The value of four hexadecimal digits, most significant first. */
  function Hex4(h: string): (r: Option<nat>)
    requires |h| == 4
    ensures r.Some? ==> r.value < 0x10000
  {
    match (HexValue(h[0]), HexValue(h[1]), HexValue(h[2]), HexValue(h[3]))
    case (Some(a), Some(b), Some(c), Some(d)) => Some(((a * 16 + b) * 16 + c) * 16 + d)
    case _ => None
  }

  /** Reads the escape sequence after a backslash: the character it stands for and
      how many characters (after the backslash) it used. */
  function ReadEscape(s: string): Option<(char, nat)> {
    if |s| == 0 then None
    else if s[0] == '"' then Some(('"', 1))
    else if s[0] == '\\' then Some(('\\', 1))
    else if s[0] == '/' then Some(('/', 1))
    else if s[0] == 'b' then Some((0x08 as char, 1))
    else if s[0] == 'f' then Some((0x0C as char, 1))
    else if s[0] == 'n' then Some(('\n', 1))
    else if s[0] == 'r' then Some(('\r', 1))
    else if s[0] == 't' then Some(('\t', 1))
    else if s[0] == 'u' && |s| >= 5 then
      match Hex4(s[1..5])
      case None => None
      case Some(code) => if code < 0xD800 || 0xDFFF < code then Some((code as char, 5)) else None
    else None
  }

  /** Reads the body of a string literal up to its closing quote; gives the string and
      the text after the quote. */
  function ReadBody(s: string): (r: Option<(string, string)>)
    ensures r.Some? ==> |r.value.1| < |s|
    decreases |s|
  {
    if |s| == 0 then None
    else if s[0] == '"' then Some(("", s[1..]))
    else if s[0] == '\\' then
      match ReadEscape(s[1..])
      case None => None
      case Some((c, used)) =>
        if 1 + used <= |s| then
          match ReadBody(s[1 + used..])
          case None => None
          case Some((t, rest)) => Some(([c] + t, rest))
        else None
    else if s[0] as int < 0x20 then None
    else
      match ReadBody(s[1..])
      case None => None
      case Some((t, rest)) => Some(([s[0]] + t, rest))
  }

  function ReadMembers(s: string): Option<seq<string>>
    decreases |s|, 1
  {
    if |s| == 0 || s[0] != '"' then None
    else
      match ReadBody(s[1..])
      case None => None
      case Some((line, rest)) => AfterMember(line, rest)
  }

  /** What follows a member: the closing `]`, or a `,` and further members. */
  function AfterMember(line: string, rest: string): Option<seq<string>>
    decreases |rest|, 0
  {
    if rest == "]" then Some([line])
    else if |rest| > 0 && rest[0] == ',' then
      match ReadMembers(rest[1..])
      case None => None
      case Some(more) => Some([line] + more)
    else None
  }

  /** Reads an array of strings in the compact form `JSON.stringify` writes. */
  function Parse(s: string): Option<seq<string>> {
    if s == "[]" then Some([])
    else if |s| >= 1 && s[0] == '[' then ReadMembers(s[1..])
    else None
  }

  // ---------------------------------------------------------------------------
  // Round trip

  lemma HexRoundTrip(d: nat)
    requires d < 16
    ensures HexValue(HexDigit(d)) == Some(d)
  {
  }

  /** Reading the escaped form of one character, followed by text whose body reads as
      `t` then `rest`, gives `c` followed by `t`. */
  lemma ReadEscapedChar(c: char, tail: string, t: string, rest: string)
    requires ReadBody(tail) == Some((t, rest))
    ensures ReadBody(EscapeChar(c) + tail) == Some(([c] + t, rest))
  {
    if c as int < 0x20 && c != '\n' && c != '\r' && c != '\t' && c as int != 0x08 && c as int != 0x0C {
      ReadUnicodeEscape(c, tail, t, rest);
    } else if c == '"' || c == '\\' || c as int < 0x20 {
      var s := EscapeChar(c) + tail;
      assert s[0] == '\\' && |EscapeChar(c)| == 2;
      assert ReadEscape(s[1..]) == Some((c, 1));
      assert s[2..] == tail;
    } else {
      var s := EscapeChar(c) + tail;
      assert s[0] == c && s[1..] == tail;
    }
  }

  /** The `\u00xx` form of a control character reads back as that character. */
  lemma ReadUnicodeEscape(c: char, tail: string, t: string, rest: string)
    requires c as int < 0x20 && c != '\n' && c != '\r' && c != '\t' && c as int != 0x08 && c as int != 0x0C
    requires ReadBody(tail) == Some((t, rest))
    ensures ReadBody(EscapeChar(c) + tail) == Some(([c] + t, rest))
  {
    var hi, lo := c as int / 16, c as int % 16;
    var e := "\\u00" + [HexDigit(hi), HexDigit(lo)];
    assert EscapeChar(c) == e;
    var s := e + tail;
    HexRoundTrip(hi);
    HexRoundTrip(lo);
    var u := s[1..];
    assert |e| == 6 && s[..6] == e;
    assert e[2..6] == ['0', '0', HexDigit(hi), HexDigit(lo)];
    assert u[0] == 'u' && |u| >= 5;
    assert u[1..5] == s[2..6] == e[2..6];
    assert HexValue('0') == Some(0);
    assert hi * 16 + lo == c as int;
    assert Hex4(u[1..5]) == Some(((0 * 16 + 0) * 16 + hi) * 16 + lo);
    assert ReadEscape(u) == Some((c, 5));
    assert s[6..] == tail;
  }

  /** Reading an escaped string followed by its closing quote gives the string back. */
  lemma {:induction false} ReadBodyEscape(x: string, rest: string)
    ensures ReadBody(Escape(x) + "\"" + rest) == Some((x, rest))
    decreases |x|
  {
    if x == [] {
      assert Escape(x) + "\"" + rest == "\"" + rest;
    } else {
      ReadBodyEscape(x[1..], rest);
      ReadBodyEscapeCons(x[0], x[1..], rest);
      assert [x[0]] + x[1..] == x;
    }
  }

  /** One more character in front of an escaped string that reads back. */
  lemma ReadBodyEscapeCons(c: char, x: string, rest: string)
    requires ReadBody(Escape(x) + "\"" + rest) == Some((x, rest))
    ensures ReadBody(Escape([c] + x) + "\"" + rest) == Some(([c] + x, rest))
  {
    EscapeCons(c, x, rest);
    ReadEscapedChar(c, Escape(x) + "\"" + rest, x, rest);
  }

  /** The escaped text of one more character in front. */
  lemma EscapeCons(c: char, x: string, rest: string)
    ensures Escape([c] + x) + "\"" + rest == EscapeChar(c) + (Escape(x) + "\"" + rest)
  {
    assert ([c] + x)[0] == c && ([c] + x)[1..] == x;
    ConcatAssoc(EscapeChar(c), Escape(x), "\"", rest);
  }

  /** Reading one quoted member, then whatever follows it. */
  lemma ReadMembersStep(line: string, after: string)
    ensures ReadMembers(Quote(line) + after) == AfterMember(line, after)
  {
    var e := Escape(line);
    var body := e + "\"" + after;
    var s := Quote(line) + after;
    assert s == ['"'] + body;
    assert s[1..] == body;
    ReadBodyEscape(line, after);
  }

  lemma {:induction false} ReadMembersRoundTrip(lines: seq<string>)
    requires |lines| >= 1
    ensures ReadMembers(Members(lines) + "]") == Some(lines)
    decreases |lines|
  {
    if |lines| == 1 {
      ReadMembersOne(lines[0]);
      assert lines == [lines[0]];
    } else {
      ReadMembersRoundTrip(lines[1..]);
      ReadMembersCons(lines[0], lines[1..]);
      assert [lines[0]] + lines[1..] == lines;
    }
  }

  /** A single member followed by the closing bracket. */
  lemma ReadMembersOne(head: string)
    ensures ReadMembers(Members([head]) + "]") == Some([head])
  {
    assert Members([head]) == Quote(head);
    ReadMembersStep(head, "]");
  }

  /** One more member in front of members that read back. */
  lemma ReadMembersCons(head: string, tail: seq<string>)
    requires |tail| >= 1 && ReadMembers(Members(tail) + "]") == Some(tail)
    ensures ReadMembers(Members([head] + tail) + "]") == Some([head] + tail)
  {
    var rest := Members(tail) + "]";
    MembersCons(head, tail);
    ReadMembersStep(head, "," + rest);
    AfterComma(head, rest);
  }

  /** The text of one more member in front. */
  lemma MembersCons(head: string, tail: seq<string>)
    requires |tail| >= 1
    ensures Members([head] + tail) + "]" == Quote(head) + ("," + (Members(tail) + "]"))
  {
    var lines := [head] + tail;
    assert lines[0] == head && lines[1..] == tail;
    ConcatAssoc(Quote(head), ",", Members(tail), "]");
  }

  /** After a member, a comma leads to the members that follow it. */
  lemma AfterComma(line: string, rest: string)
    ensures AfterMember(line, "," + rest) ==
      match ReadMembers(rest)
      case None => None
      case Some(more) => Some([line] + more)
  {
    var s := "," + rest;
    assert s[0] == ',' && s[1..] == rest;
    assert s != "]" by { assert "]"[0] == ']'; }
  }

  lemma ConcatAssoc(a: string, b: string, c: string, d: string)
    ensures a + b + c + d == a + (b + (c + d))
  {
  }

  /** Parsing the serialised buffer gives back the same lines in the same order. */
  lemma StringifyRoundTrip(lines: seq<string>)
    ensures Parse(Stringify(lines)) == Some(lines)
  {
    if |lines| > 0 {
      ReadMembersRoundTrip(lines);
      var s := Stringify(lines);
      assert s[1..] == Members(lines) + "]";
      assert s != "[]" by { assert s[1] == '"'; }
    }
  }

  /** Different buffers serialise to different text. */
  lemma StringifyInjective(a: seq<string>, b: seq<string>)
    requires Stringify(a) == Stringify(b)
    ensures a == b
  {
    StringifyRoundTrip(a);
    StringifyRoundTrip(b);
  }
}
