/** JavaScript values as the runtime handles them (JSON-like data returned by a
    cloud function), with the two coercions the handlers depend on: truthiness
    (`if (x)`) and loose equality with `false` (`x == false`). Numbers are integers. */
module Js {
  import opened JsString

  datatype Value =
    | Undefined
    | Null
    | Bool(b: bool)
    | Num(n: int)
    | Str(s: string)
    | Arr(items: seq<Value>)
    | Obj(fields: map<string, Value>)

  /** `if (v)`: false only for undefined, null, false, 0 and the empty string. */
  predicate Truthy(v: Value) {
    match v
    case Undefined => false
    case Null => false
    case Bool(b) => b
    case Num(n) => n != 0
    case Str(s) => s != ""
    case Arr(_) => true
    case Obj(_) => true
  }

  /** `isObject(v)`: `typeof v === 'object' && v !== null` (arrays included). */
  predicate IsObject(v: Value) { v.Arr? || v.Obj? }

  /** `v[key]` on a plain object; undefined when the key is absent or v is not an object. */
  function Prop(v: Value, key: string): Value {
    if v.Obj? && key in v.fields then v.fields[key] else Undefined
  }

  // ---------------------------------------------------------------------------
  // ToNumber on strings, as far as deciding whether the result is zero

  /** ECMAScript WhiteSpace and LineTerminator code points (what `trim` removes). */
  predicate IsWhiteSpace(c: char) {
    c == ' ' || c == '\t' || c == '\n' || c == '\r' || c as int == 0x0B || c as int == 0x0C
    || c as int == 0xA0 || c as int == 0x1680 || 0x2000 <= c as int <= 0x200A
    || c as int == 0x2028 || c as int == 0x2029 || c as int == 0x202F || c as int == 0x205F
    || c as int == 0x3000 || c as int == 0xFEFF
  }

  function TrimStart(s: string): (r: string)
    ensures |r| <= |s| && r == s[|s| - |r|..]
    ensures |r| > 0 ==> !IsWhiteSpace(r[0])
    ensures forall i :: 0 <= i < |s| - |r| ==> IsWhiteSpace(s[i])
  {
    if |s| > 0 && IsWhiteSpace(s[0]) then TrimStart(s[1..]) else s
  }

  function TrimEnd(s: string): (r: string)
    ensures |r| <= |s| && r == s[..|r|]
    ensures |r| > 0 ==> !IsWhiteSpace(r[|r| - 1])
    ensures forall i :: |r| <= i < |s| ==> IsWhiteSpace(s[i])
  {
    if |s| > 0 && IsWhiteSpace(s[|s| - 1]) then TrimEnd(s[..|s| - 1]) else s
  }

  /** `s.trim()`. */
  function Trim(s: string): string { TrimEnd(TrimStart(s)) }

  predicate AllZeros(s: string) { |s| > 0 && forall i :: 0 <= i < |s| ==> s[i] == '0' }

  /** Digits and at most one '.', with at least one digit, every digit being '0'. */
  predicate ZeroMantissa(m: string) {
    && (forall i :: 0 <= i < |m| ==> m[i] == '0' || m[i] == '.')
    && (exists i :: 0 <= i < |m| && m[i] == '0')
    && (forall i, j :: 0 <= i < |m| && 0 <= j < |m| && m[i] == '.' && m[j] == '.' ==> i == j)
  }

  /** An empty exponent, or `e`/`E`, an optional sign and at least one digit. */
  predicate ExponentPart(e: string) {
    || e == ""
    || (|e| >= 2 && (e[0] == 'e' || e[0] == 'E') && AllDigits(e[1..]))
    || (|e| >= 3 && (e[0] == 'e' || e[0] == 'E') && (e[1] == '+' || e[1] == '-') && AllDigits(e[2..]))
  }

  /** Where the exponent starts: the first `e` or `E`, or the end of the string. */
  function ExponentStart(u: string): (k: nat)
    ensures k <= |u|
    ensures forall i :: 0 <= i < k ==> u[i] != 'e' && u[i] != 'E'
  {
    if |u| == 0 || u[0] == 'e' || u[0] == 'E' then 0 else 1 + ExponentStart(u[1..])
  }

  /** An unsigned decimal literal whose value is zero (`0`, `00`, `.0`, `0.`, `0e7`). */
  predicate ZeroDecimal(u: string) {
    var k := ExponentStart(u);
    ZeroMantissa(u[..k]) && ExponentPart(u[k..])
  }

  /** A (trimmed, non-empty) numeric literal whose value is zero: signed decimal, or 0x/0o/0b. */
  predicate ZeroLiteral(t: string) {
    || ZeroDecimal(t)
    || (|t| >= 1 && (t[0] == '+' || t[0] == '-') && ZeroDecimal(t[1..]))
    || (|t| >= 3 && t[0] == '0' && t[1] in "xXoObB" && AllZeros(t[2..]))
  }

  /** `Number(s) === 0`: blank strings convert to 0, as do the zero literals. */
  predicate StringIsZero(s: string) {
    var t := Trim(s);
    t == "" || ZeroLiteral(t)
  }

  /** `String(e)` for an array element, as `join` builds it, converts to 0. Empty arrays
      and arrays of one element joined to a zero string convert to 0; longer arrays
      contain a ',' and convert to NaN. */
  predicate ElementStringIsZero(e: Value) {
    match e
    case Undefined => true     // joined as ""
    case Null => true          // joined as ""
    case Bool(_) => false      // "true" / "false"
    case Num(n) => n == 0
    case Str(s) => StringIsZero(s)
    case Arr(items) => |items| == 0 || (|items| == 1 && ElementStringIsZero(items[0]))
    case Obj(_) => false       // "[object Object]"
  }

  /** The abstract equality `v == false`: false is converted to 0 and compared numerically,
      objects by their primitive (string) form; null and undefined equal only each other. */
  predicate LooselyEqualsFalse(v: Value) {
    match v
    case Undefined => false
    case Null => false
    case Bool(b) => !b
    case Num(n) => n == 0
    case Str(s) => StringIsZero(s)
    case Arr(_) => ElementStringIsZero(v)
    case Obj(_) => false
  }

  /** On booleans `== false` is plain negation. */
  lemma BoolLooselyEqualsFalse(b: bool)
    ensures LooselyEqualsFalse(Bool(b)) <==> !b
  {
  }

  /** The string "0" converts to zero. */
  lemma ZeroStringIsZero()
    ensures StringIsZero("0")
  {
    TrimZero();
    ZeroDecimalZero();
  }

  lemma TrimZero()
    ensures Trim("0") == "0"
  {
    var z := "0";
    assert !IsWhiteSpace(z[0]);
    assert TrimStart(z) == z;
    assert !IsWhiteSpace(z[|z| - 1]);
    assert TrimEnd(z) == z;
  }

  lemma ZeroDecimalZero()
    ensures ZeroDecimal("0")
  {
    var z := "0";
    assert z[1..] == "";
    assert ExponentStart(z[1..]) == 0;
    assert ExponentStart(z) == 1;
    assert z[..1] == z;
    assert ZeroMantissa(z) by { assert z[0] == '0'; }
    assert ExponentPart(z[1..]);
  }

  /** Loose equality with false is not falsiness: "0" and [] are truthy yet equal false,
      null and undefined are falsy yet do not. */
  lemma LooseFalseDiffersFromFalsy()
    ensures Truthy(Str("0")) && LooselyEqualsFalse(Str("0"))
    ensures Truthy(Arr([])) && LooselyEqualsFalse(Arr([]))
    ensures !Truthy(Null) && !LooselyEqualsFalse(Null)
    ensures !Truthy(Undefined) && !LooselyEqualsFalse(Undefined)
  {
    ZeroStringIsZero();
  }

  /** A falsy value other than null and undefined always equals false. */
  lemma FalsyPrimitiveEqualsFalse(v: Value)
    requires !Truthy(v) && !v.Null? && !v.Undefined?
    ensures LooselyEqualsFalse(v)
  {
    if v.Str? {
      assert v.s == "";
      assert Trim(v.s) == "";
    }
  }
}
