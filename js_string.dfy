/** The JavaScript string operations the core relies on: `Number.prototype.toString`
    for integers, ASCII `toUpperCase`, `includes`/`indexOf`, `split` on a non-empty
    separator, `join`, and lodash's `padStart` with a one-character pad. */
module JsString {
  import opened Wrappers

  // ---------------------------------------------------------------------------
  // Decimal rendering of integers (what `Number(n).toString()` gives for an integer)

  predicate IsDigit(c: char) { '0' <= c <= '9' }

  predicate AllDigits(s: string) { forall i :: 0 <= i < |s| ==> IsDigit(s[i]) }

  function DigitChar(d: nat): (c: char)
    requires d < 10
    ensures IsDigit(c) && c as int - '0' as int == d
  {
    ('0' as int + d) as char
  }

  function DigitValue(c: char): nat
    requires IsDigit(c)
  {
    c as int - '0' as int
  }

  function NatToString(n: nat): string
    decreases n
  {
    if n < 10 then [DigitChar(n)] else NatToString(n / 10) + [DigitChar(n % 10)]
  }

  /** `Number(n).toString()` for an integer n: an optional minus sign and decimal digits. */
  function NumberToString(n: int): string {
    if n < 0 then "-" + NatToString(-n) else NatToString(n)
  }

  /** Reads a non-empty run of decimal digits, most significant first. */
  function ParseNat(s: string): nat
    requires |s| > 0 && AllDigits(s)
  {
    if |s| == 1 then DigitValue(s[0])
    else ParseNat(s[..|s| - 1]) * 10 + DigitValue(s[|s| - 1])
  }

  /** The inverse of NumberToString: an optional '-' and at least one digit. */
  function ParseInt(s: string): Option<int> {
    if |s| > 1 && s[0] == '-' && AllDigits(s[1..]) then
      var magnitude: int := ParseNat(s[1..]);
      Some(-magnitude)
    else if |s| > 0 && AllDigits(s) then Some(ParseNat(s))
    else None
  }

  lemma {:induction false} NatToStringDigits(n: nat)
    ensures |NatToString(n)| > 0 && AllDigits(NatToString(n))
    ensures ParseNat(NatToString(n)) == n
    ensures NatToString(n)[0] == '0' ==> n == 0
    decreases n
  {
    if n >= 10 {
      NatToStringDigits(n / 10);
      var s := NatToString(n);
      assert s[..|s| - 1] == NatToString(n / 10);
    }
  }

  /** Rendering an integer and reading it back gives the integer. */
  lemma NumberToStringRoundTrip(n: int)
    ensures ParseInt(NumberToString(n)) == Some(n)
  {
    if n < 0 {
      NegativeRoundTrip(n);
    } else {
      NatToStringDigits(n);
    }
  }

  lemma NegativeRoundTrip(n: int)
    requires n < 0
    ensures ParseInt(NumberToString(n)) == Some(n)
  {
    var digits := NatToString(-n);
    NatToStringDigits(-n);
    var s := "-" + digits;
    assert NumberToString(n) == s;
    assert |s| > 1 && s[0] == '-' && s[1..] == digits;
  }

  /** Different integers are rendered differently. */
  lemma NumberToStringInjective(a: int, b: int)
    requires NumberToString(a) == NumberToString(b)
    ensures a == b
  {
    NumberToStringRoundTrip(a);
    NumberToStringRoundTrip(b);
  }

  // ---------------------------------------------------------------------------
  // toUpperCase (ASCII letters only)

  function UpperChar(c: char): char {
    if 'a' <= c <= 'z' then (c as int - 32) as char else c
  }

  /** `s.toUpperCase()` restricted to ASCII: each lower-case letter becomes its capital. */
  function ToUpperAscii(s: string): (r: string)
    ensures |r| == |s|
    ensures forall i :: 0 <= i < |s| ==> r[i] == UpperChar(s[i])
  {
    seq(|s|, i requires 0 <= i < |s| => UpperChar(s[i]))
  }

  lemma ToUpperIdempotent(s: string)
    ensures ToUpperAscii(ToUpperAscii(s)) == ToUpperAscii(s)
  {
  }

  // ---------------------------------------------------------------------------
  // includes / indexOf / split / join

  predicate OccursAt(s: string, sep: string, i: nat) {
    i + |sep| <= |s| && s[i..i + |sep|] == sep
  }

  /** `s.indexOf(sep)`: the first position where sep occurs, or None for -1. */
  function IndexOf(s: string, sep: string): (r: Option<nat>)
    ensures r.Some? ==> OccursAt(s, sep, r.value)
    ensures r.Some? ==> forall j :: 0 <= j < r.value ==> !OccursAt(s, sep, j)
    ensures r.None? ==> forall j :: 0 <= j <= |s| ==> !OccursAt(s, sep, j)
    decreases |s|
  {
    if |s| < |sep| then None
    else if s[..|sep|] == sep then Some(0)
    else
      var rest := IndexOf(s[1..], sep);
      assert !OccursAt(s, sep, 0);
      assert forall j :: 1 <= j <= |s| ==> (OccursAt(s, sep, j) <==> OccursAt(s[1..], sep, j - 1)) by {
        forall j | 1 <= j <= |s| ensures OccursAt(s, sep, j) <==> OccursAt(s[1..], sep, j - 1) {
          if j + |sep| <= |s| {
            assert s[1..][j - 1..j - 1 + |sep|] == s[j..j + |sep|];
          }
        }
      }
      match rest
      case None => None
      case Some(k) => Some(k + 1)
  }

  /** `s.includes(sub)`. */
  predicate Includes(s: string, sub: string) { IndexOf(s, sub).Some? }

  /** `s.split(sep)` for a non-empty separator: the pieces between occurrences of sep. */
  function Split(s: string, sep: string): (r: seq<string>)
    requires |sep| > 0
    ensures |r| >= 1
    decreases |s|
  {
    match IndexOf(s, sep)
    case None => [s]
    case Some(i) => [s[..i]] + Split(s[i + |sep|..], sep)
  }

  /** `parts.join(sep)`. */
  function Join(parts: seq<string>, sep: string): string
    decreases |parts|
  {
    if |parts| == 0 then ""
    else if |parts| == 1 then parts[0]
    else parts[0] + sep + Join(parts[1..], sep)
  }

  lemma JoinCons(head: string, rest: seq<string>, sep: string)
    requires |rest| >= 1
    ensures Join([head] + rest, sep) == head + sep + Join(rest, sep)
  {
    assert ([head] + rest)[1..] == rest;
  }

  /** Joining the pieces of a split with the same separator restores the string. */
  lemma {:induction false} SplitJoin(s: string, sep: string)
    requires |sep| > 0
    ensures Join(Split(s, sep), sep) == s
    decreases |s|
  {
    match IndexOf(s, sep)
    case None =>
    case Some(i) =>
      var tail := s[i + |sep|..];
      var pieces := Split(tail, sep);
      SplitJoin(tail, sep);
      assert Split(s, sep) == [s[..i]] + pieces;
      JoinCons(s[..i], pieces, sep);
      assert s[i..i + |sep|] == sep;
      assert s == s[..i] + s[i..i + |sep|] + tail;
  }

  /** No piece of a split contains the separator. */
  lemma {:induction false} SplitPiecesFree(s: string, sep: string)
    requires |sep| > 0
    ensures forall k :: 0 <= k < |Split(s, sep)| ==> !Includes(Split(s, sep)[k], sep)
    decreases |s|
  {
    match IndexOf(s, sep)
    case None =>
    case Some(i) =>
      var tail := s[i + |sep|..];
      SplitPiecesFree(tail, sep);
      PrefixBeforeFirstFree(s, sep, i);
      var pieces := Split(s, sep);
      assert pieces == [s[..i]] + Split(tail, sep);
      forall k | 0 <= k < |pieces| ensures !Includes(pieces[k], sep) {
        if k > 0 { assert pieces[k] == Split(tail, sep)[k - 1]; }
      }
  }

  /** The text before the first occurrence does not contain the separator. */
  lemma PrefixBeforeFirstFree(s: string, sep: string, i: nat)
    requires |sep| > 0 && IndexOf(s, sep) == Some(i)
    ensures !Includes(s[..i], sep)
  {
    var head := s[..i];
    forall j | 0 <= j <= |head| ensures !OccursAt(head, sep, j) {
      if j + |sep| <= |head| {
        assert head[j..j + |sep|] == s[j..j + |sep|];
        assert !OccursAt(s, sep, j);
      }
    }
  }

  /** A split yields more than one piece exactly when the separator occurs. */
  lemma SplitManyIffIncludes(s: string, sep: string)
    requires |sep| > 0
    ensures |Split(s, sep)| >= 2 <==> Includes(s, sep)
  {
  }

  /** The first piece ends where the first occurrence begins. */
  lemma SplitFirstPiece(s: string, sep: string)
    requires |sep| > 0 && Includes(s, sep)
    ensures Split(s, sep)[0] == s[..IndexOf(s, sep).value]
    ensures Split(s, sep)[1..] == Split(s[IndexOf(s, sep).value + |sep|..], sep)
  {
  }

  /** When the separator occurs, the second piece is the first piece of what follows the
      first occurrence. */
  lemma SplitSecondPiece(s: string, sep: string)
    requires |sep| > 0 && Includes(s, sep)
    ensures |Split(s, sep)| >= 2
    ensures Split(s, sep)[1] == Split(s[IndexOf(s, sep).value + |sep|..], sep)[0]
  {
    SplitFirstPiece(s, sep);
    var pieces := Split(s, sep);
    assert pieces[1] == pieces[1..][0];
  }

  // ---------------------------------------------------------------------------
  // lodash padStart with a one-character pad

  function Repeat(c: char, n: nat): (r: string)
    ensures |r| == n && forall i :: 0 <= i < n ==> r[i] == c
  {
    seq(n, _ => c)
  }

  /** `padStart(s, width, c)`: s, preceded by copies of c up to the given width. */
  function PadStart(s: string, width: nat, c: char): (r: string)
    ensures |r| == if |s| >= width then |s| else width
    ensures r[|r| - |s|..] == s
    ensures forall i :: 0 <= i < |r| - |s| ==> r[i] == c
  {
    if |s| >= width then s else Repeat(c, width - |s|) + s
  }
}
