/**
 * The slice of Python's built-in behaviour that the run harness relies on:
 * the values a configuration can hold, exceptions, truthiness, `str()`, and
 * the `str` methods and numeric literal syntax used by the fallback parser.
 */
module Py {

  datatype Option<+T> = None | Some(value: T)

  /** A raised exception: its class name (`e.__class__.__name__`) and `str(e)`. */
  datatype Error = Error(name: string, msg: string)

  datatype Result<+T> = Ok(value: T) | Err(error: Error)

  /**
   * A value read from a configuration document (YAML or JSON). Floats are
   * kept as the decimal literal that denotes them; `VNone` is Python's None.
   */
  datatype Value =
    | VNone
    | VBool(b: bool)
    | VInt(i: int)
    | VFloat(lexeme: string)
    | VStr(s: string)
    | VList(items: seq<Value>)
    | VMap(m: map<string, Value>)

  type Dict = map<string, Value>

  // ---------------------------------------------------------------------------
  // Characters and str methods

  /** The characters `str.isspace()` holds of, which `str.strip()` removes when called without arguments. */
  predicate IsWhitespace(c: char) {
    || c == ' '
    || '\t' <= c <= '\r'
    || '\U{1C}' <= c <= '\U{1F}'
    || c == '\U{85}' || c == '\U{A0}' || c == '\U{1680}'
    || '\U{2000}' <= c <= '\U{200A}'
    || c == '\U{2028}' || c == '\U{2029}' || c == '\U{202F}' || c == '\U{205F}' || c == '\U{3000}'
  }

  const Whitespace: set<char> := set c: char | IsWhitespace(c)

  predicate IsDigit(c: char) { '0' <= c <= '9' }

  /** `s.lstrip(chars)`: drops every leading character that is in `cs`. */
  function LStrip(s: string, cs: set<char>): (r: string)
    ensures |r| <= |s|
    ensures r == [] || r[0] !in cs
  {
    if s == [] || s[0] !in cs then s else LStrip(s[1..], cs)
  }

  /** `s.rstrip(chars)`: drops every trailing character that is in `cs`. */
  function RStrip(s: string, cs: set<char>): (r: string)
    ensures |r| <= |s|
    ensures r == [] || (r[0] == s[0] && r[|r| - 1] !in cs)
  {
    if s == [] || s[|s| - 1] !in cs then s else RStrip(s[..|s| - 1], cs)
  }

  /** `s.strip(chars)`: both ends. */
  function StripSet(s: string, cs: set<char>): (r: string)
    ensures r == [] || (r[0] !in cs && r[|r| - 1] !in cs)
    ensures |r| <= |s|
  {
    RStrip(LStrip(s, cs), cs)
  }

  /** `s.strip()` with no arguments. */
  function Strip(s: string): string {
    StripSet(s, Whitespace)
  }

  /** `len(line) - len(line.lstrip(" "))`: the number of leading spaces. */
  function LeadingSpaces(line: string): (n: nat)
  {
    |line| - |LStrip(line, {' '})|
  }

  function AsciiLowerChar(c: char): char {
    if 'A' <= c <= 'Z' then (c as int + 32) as char else c
  }

  /**
   * `s.lower()` restricted to ASCII letters. Only equality with "true" and
   * "false" is ever asked of it, and no non-ASCII character lower-cases to
   * one of their letters.
   */
  function AsciiLower(s: string): (r: string)
    ensures |r| == |s|
    ensures forall i :: 0 <= i < |s| ==> r[i] == AsciiLowerChar(s[i])
  {
    seq(|s|, i requires 0 <= i < |s| => AsciiLowerChar(s[i]))
  }

  /** `s.split(sep, 1)` where `s` holds a character of `seps`: split at the first one. */
  function SplitOnce(s: string, seps: set<char>): (r: (string, string))
    requires exists i :: 0 <= i < |s| && s[i] in seps
    ensures |r.0| < |s| && s[|r.0|] in seps
    ensures r.0 + [s[|r.0|]] + r.1 == s
    ensures forall i :: 0 <= i < |r.0| ==> r.0[i] !in seps
  {
    if s[0] in seps then ([], s[1..])
    else
      var rest := SplitOnce(s[1..], seps);
      ([s[0]] + rest.0, rest.1)
  }

  predicate EndsWith(s: string, suffix: string) {
    |suffix| <= |s| && s[|s| - |suffix|..] == suffix
  }

  /** `" " * n`. */
  function Spaces(n: nat): (r: string)
    ensures |r| == n && forall i :: 0 <= i < n ==> r[i] == ' '
  {
    seq(n, _ => ' ')
  }

  /** Stripping passes over a prefix made only of stripped characters. */
  lemma {:induction false} LStripSkipsPrefix(p: string, s: string, cs: set<char>)
    requires forall i :: 0 <= i < |p| ==> p[i] in cs
    ensures LStrip(p + s, cs) == LStrip(s, cs)
  {
    if p != [] {
      var ps := p + s;
      assert ps[0] == p[0] && ps[0] in cs;
      assert ps[1..] == p[1..] + s;
      assert LStrip(ps, cs) == LStrip(ps[1..], cs);
      LStripSkipsPrefix(p[1..], s, cs);
    } else {
      assert p + s == s;
    }
  }

  /** `n` spaces before a text that does not start with a space: `LeadingSpaces` counts exactly them. */
  lemma LeadingSpacesOfPadded(n: nat, s: string)
    requires s == [] || s[0] != ' '
    ensures LeadingSpaces(Spaces(n) + s) == n
  {
    LStripSkipsPrefix(Spaces(n), s, {' '});
    assert LStrip(s, {' '}) == s;
  }

  /** Stripping from the right passes over a suffix made only of stripped characters. */
  lemma {:induction false} RStripSkipsSuffix(s: string, q: string, cs: set<char>)
    requires forall i :: 0 <= i < |q| ==> q[i] in cs
    ensures RStrip(s + q, cs) == RStrip(s, cs)
  {
    if q != [] {
      var sq := s + q;
      assert sq[|sq| - 1] == q[|q| - 1] && sq[|sq| - 1] in cs;
      assert sq[..|sq| - 1] == s + q[..|q| - 1];
      assert RStrip(sq, cs) == RStrip(sq[..|sq| - 1], cs);
      RStripSkipsSuffix(s, q[..|q| - 1], cs);
    } else {
      assert s + q == s;
    }
  }

  /** Characters of `cs` around a text whose ends are not in `cs` are exactly what `strip(cs)` removes. */
  lemma StripSetUnwraps(p: string, x: string, q: string, cs: set<char>)
    requires forall i :: 0 <= i < |p| ==> p[i] in cs
    requires forall i :: 0 <= i < |q| ==> q[i] in cs
    requires x != [] && x[0] !in cs && x[|x| - 1] !in cs
    ensures StripSet(p + x + q, cs) == x
  {
    assert p + x + q == p + (x + q);
    LStripSkipsPrefix(p, x + q, cs);
    assert (x + q)[0] == x[0];
    assert LStrip(x + q, cs) == x + q;
    RStripSkipsSuffix(x, q, cs);
    assert RStrip(x, cs) == x;
  }

  /** A string whose ends are not whitespace is its own `strip()`. */
  lemma StripKeepsTrimmed(s: string)
    requires s == [] || (!IsWhitespace(s[0]) && !IsWhitespace(s[|s| - 1]))
    ensures Strip(s) == s
  {
    assert LStrip(s, Whitespace) == s;
  }

  /** Leading whitespace does not change `strip()`. */
  lemma StripSkipsPadding(p: string, s: string)
    requires forall i :: 0 <= i < |p| ==> IsWhitespace(p[i])
    ensures Strip(p + s) == Strip(s)
  {
    LStripSkipsPrefix(p, s, Whitespace);
  }

  /** `split` stops at the first separator: one preceded by separator-free text. */
  lemma {:induction false} SplitOnceAt(a: string, c: char, b: string, seps: set<char>)
    requires c in seps
    requires forall i :: 0 <= i < |a| ==> a[i] !in seps
    ensures (a + [c] + b)[|a|] in seps
    ensures SplitOnce(a + [c] + b, seps) == (a, b)
  {
    var s := a + [c] + b;
    assert s[|a|] == c;
    if a != [] {
      assert s[0] == a[0] && s[0] !in seps;
      assert s[1..] == a[1..] + [c] + b;
      SplitOnceAt(a[1..], c, b, seps);
      assert SplitOnce(s, seps) == ([s[0]] + a[1..], b);
      assert [s[0]] + a[1..] == a;
    }
  }

  // ---------------------------------------------------------------------------
  // Numeric literal syntax accepted by int() and float() on a str

  /** `digit (["_"] digit)*`: digits, single underscores only between digits. */
  predicate IsDigitPart(s: string)
    decreases |s|
  {
    && |s| > 0
    && IsDigit(s[0])
    && (|s| == 1 || if s[1] == '_' then IsDigitPart(s[2..]) else IsDigitPart(s[1..]))
  }

  /** A non-empty run of plain digits is a digit part. */
  lemma {:induction false} DigitsAreDigitPart(s: string)
    requires |s| > 0 && forall i :: 0 <= i < |s| ==> IsDigit(s[i])
    ensures IsDigitPart(s)
  {
    if |s| > 1 {
      DigitsAreDigitPart(s[1..]);
    }
  }

  /** The number written by a string of digits and underscores. */
  function DigitsValue(s: string): (n: nat)
    decreases |s|
  {
    if s == [] then 0
    else if IsDigit(s[|s| - 1]) then DigitsValue(s[..|s| - 1]) * 10 + (s[|s| - 1] as int - '0' as int)
    else DigitsValue(s[..|s| - 1])
  }

  predicate HasSign(s: string) { |s| > 0 && (s[0] == '+' || s[0] == '-') }

  /** What `int(s)` accepts once `s` has been stripped: `[sign] digitpart`. */
  predicate IsIntLiteral(s: string) {
    if HasSign(s) then IsDigitPart(s[1..]) else IsDigitPart(s)
  }

  function IntLiteralValue(s: string): int
    requires IsIntLiteral(s)
  {
    if HasSign(s) then
      (if s[0] == '-' then -(DigitsValue(s[1..]) as int) else DigitsValue(s[1..]))
    else DigitsValue(s)
  }

  /** `number ::= [digitpart] "." digitpart | digitpart ["."]` */
  predicate IsDecimalNumber(s: string) {
    if '.' in s then
      var parts := SplitOnce(s, {'.'});
      || ((parts.0 == [] || IsDigitPart(parts.0)) && IsDigitPart(parts.1))
      || (IsDigitPart(parts.0) && parts.1 == [])
    else IsDigitPart(s)
  }

  /** `floatnumber ::= number [("e" | "E") [sign] digitpart]` */
  predicate IsFloatNumber(s: string) {
    if 'e' in s || 'E' in s then
      var parts := SplitOnce(s, {'e', 'E'});
      IsDecimalNumber(parts.0) && IsIntLiteral(parts.1)
    else IsDecimalNumber(s)
  }

  predicate IsInfOrNan(s: string) {
    AsciiLower(s) in {"inf", "infinity", "nan"}
  }

  /** What `float(s)` accepts once `s` has been stripped. */
  predicate IsFloatLiteral(s: string) {
    var body := if HasSign(s) then s[1..] else s;
    IsFloatNumber(body) || IsInfOrNan(body)
  }

  // ---------------------------------------------------------------------------
  // str() and truthiness

  function DigitChar(d: nat): char
    requires d < 10
  {
    ('0' as int + d) as char
  }

  /** Decimal digits of a natural number, most significant first. */
  function NatToDecimal(n: nat): (r: string)
    ensures |r| > 0 && (forall i :: 0 <= i < |r| ==> IsDigit(r[i]))
  {
    if n < 10 then [DigitChar(n)] else NatToDecimal(n / 10) + [DigitChar(n % 10)]
  }

  /** `str(i)` for an int. */
  function IntToDecimal(i: int): string {
    if i < 0 then "-" + NatToDecimal(-i) else NatToDecimal(i)
  }

  /**
   * `str(v)`. Floats print as their lexeme; lists and mappings print as a
   * fixed marker instead of Python's repr.
   */
  function PyStr(v: Value): string {
    match v
    case VNone => "None"
    case VBool(b) => if b then "True" else "False"
    case VInt(i) => IntToDecimal(i)
    case VFloat(lexeme) => lexeme
    case VStr(s) => s
    case VList(_) => "[...]"
    case VMap(_) => "{...}"
  }

  /**
   * `n == v` for an int `n`: an int or a bool compares by number; a float's
   * numeric value is not modelled and it compares unequal; any other type
   * is never equal to an int.
   */
  predicate IntEquals(n: int, v: Value) {
    match v
    case VInt(i) => n == i
    case VBool(b) => n == if b then 1 else 0
    case _ => false
  }

  /** The class name `type(v).__name__`. */
  function TypeName(v: Value): string {
    match v
    case VNone => "NoneType"
    case VBool(_) => "bool"
    case VInt(_) => "int"
    case VFloat(_) => "float"
    case VStr(_) => "str"
    case VList(_) => "list"
    case VMap(_) => "dict"
  }

  /** A float literal denotes a non-zero value when its mantissa has a non-zero digit. */
  predicate FloatLexemeNonZero(lexeme: string) {
    var body := if HasSign(lexeme) then lexeme[1..] else lexeme;
    || IsInfOrNan(body)
    || (var mantissa := if 'e' in body || 'E' in body then SplitOnce(body, {'e', 'E'}).0 else body;
        exists i :: 0 <= i < |mantissa| && '1' <= mantissa[i] <= '9')
  }

  /** `bool(v)`. */
  predicate Truthy(v: Value) {
    match v
    case VNone => false
    case VBool(b) => b
    case VInt(i) => i != 0
    case VFloat(lexeme) => FloatLexemeNonZero(lexeme)
    case VStr(s) => s != []
    case VList(items) => items != []
    case VMap(m) => m != map[]
  }

  /** `d.get(key, default)`. */
  function Get(d: Dict, key: string, default: Value): Value {
    if key in d then d[key] else default
  }

  /** `NatToDecimal` writes a digit string that reads back as the same number. */
  lemma {:induction false} NatToDecimalReadsBack(n: nat)
    ensures IsDigitPart(NatToDecimal(n))
    ensures DigitsValue(NatToDecimal(n)) == n
  {
    var r := NatToDecimal(n);
    DigitsAreDigitPart(r);
    if n >= 10 {
      NatToDecimalReadsBack(n / 10);
      var prefix := NatToDecimal(n / 10);
      assert r == prefix + [DigitChar(n % 10)];
      assert r[..|r| - 1] == prefix;
    }
  }
}
