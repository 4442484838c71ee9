/**
 * The string builtins the ingest code relies on: `str.strip`, `str.split`
 * (first piece only), `str.lower`, `str.endswith`, and the conversions
 * `int()`, `float()` and `str()` applied to decoded JSON values.
 */
module PyText {
  import opened PyValues

  /** `c.isspace()`: the characters Python's `strip()` and `int()` skip. */
  predicate IsSpace(c: char) {
    var n := c as int;
    (9 <= n <= 13) || (28 <= n <= 32) || n == 0x85 || n == 0xA0 || n == 0x1680
    || (0x2000 <= n <= 0x200A) || n == 0x2028 || n == 0x2029 || n == 0x202F
    || n == 0x205F || n == 0x3000
  }

  function TrimStart(s: string): (r: string)
    ensures |r| <= |s| && r == s[|s| - |r|..]
    ensures r != [] ==> !IsSpace(r[0])
  {
    if s != [] && IsSpace(s[0]) then TrimStart(s[1..]) else s
  }

  function TrimEnd(s: string): (r: string)
    ensures |r| <= |s| && r == s[..|r|]
    ensures r != [] ==> !IsSpace(r[|r| - 1])
  {
    if s != [] && IsSpace(s[|s| - 1]) then TrimEnd(s[..|s| - 1]) else s
  }

  /** `s.strip()` */
  function Strip(s: string): string {
    TrimEnd(TrimStart(s))
  }

  /** `s.split(sep)[0]`, which is also `s.split(sep, 1)[0]`. */
  function BeforeFirst(s: string, sep: char): (r: string)
    ensures sep !in r
    ensures |r| <= |s| && r == s[..|r|]
    ensures |r| < |s| ==> s[|r|] == sep
  {
    if s == [] then []
    else if s[0] == sep then []
    else [s[0]] + BeforeFirst(s[1..], sep)
  }

  /** The index of the last `c` in `s`, or -1 (`s.rfind(c)`). */
  function LastIndexOf(s: string, c: char): (k: int)
    ensures -1 <= k < |s|
    ensures k >= 0 ==> s[k] == c
    ensures forall j :: k < j < |s| ==> s[j] != c
  {
    if s == [] then -1
    else if s[|s| - 1] == c then |s| - 1
    else LastIndexOf(s[..|s| - 1], c)
  }

  /** `s.endswith(suffix)` */
  predicate EndsWith(s: string, suffix: string) {
    |suffix| <= |s| && s[|s| - |suffix|..] == suffix
  }

  /**
   * `c.lower()` for ASCII letters. No other character lowers to a letter
   * of the media extensions, so the decisions built on it agree with
   * Python's full Unicode lowering.
   */
  function LowerChar(c: char): char {
    if 'A' <= c <= 'Z' then (c as int + 32) as char else c
  }

  function Lower(s: string): (r: string)
    ensures |r| == |s|
    ensures forall i :: 0 <= i < |s| ==> r[i] == LowerChar(s[i])
  {
    seq(|s|, i requires 0 <= i < |s| => LowerChar(s[i]))
  }

  function UpperChar(c: char): char {
    if 'a' <= c <= 'z' then (c as int - 32) as char else c
  }

  function Upper(s: string): (r: string)
    ensures |r| == |s|
    ensures forall i :: 0 <= i < |s| ==> r[i] == UpperChar(s[i])
  {
    seq(|s|, i requires 0 <= i < |s| => UpperChar(s[i]))
  }

  // ---------------------------------------------------------------------
  // Decimal digits

  predicate IsDigit(c: char) {
    '0' <= c <= '9'
  }

  predicate AllDigits(s: string) {
    forall i :: 0 <= i < |s| ==> IsDigit(s[i])
  }

  /** The value of a string of decimal digits. */
  function DigitsValue(s: string): nat
    requires AllDigits(s)
  {
    if s == [] then 0
    else DigitsValue(s[..|s| - 1]) * 10 + ((s[|s| - 1] as int) - ('0' as int))
  }

  /** The decimal text of a natural number, as `str(n)` writes it. */
  function NatText(n: nat): (r: string)
    ensures r != [] && AllDigits(r)
  {
    var d := ((n % 10) + ('0' as int)) as char;
    if n < 10 then [d] else NatText(n / 10) + [d]
  }

  /** `str(i)` for an int. */
  function IntText(i: int): string {
    if i < 0 then "-" + NatText(-i) else NatText(i)
  }

  lemma {:induction false} NatTextValue(n: nat)
    ensures DigitsValue(NatText(n)) == n
  {
    var t := NatText(n);
    if n >= 10 {
      NatTextValue(n / 10);
      assert t[..|t| - 1] == NatText(n / 10);
    }
  }

  // ---------------------------------------------------------------------
  // int()

  /** `s` has two underscores in a row at `i`. */
  predicate UnderscorePairAt(s: string, i: int) {
    0 <= i < |s| - 1 && s[i] == '_' && s[i + 1] == '_'
  }

  /** Digits with single underscores between them, as `int()` accepts. */
  predicate IsDigitGroups(s: string) {
    && s != []
    && IsDigit(s[0]) && IsDigit(s[|s| - 1])
    && (forall i :: 0 <= i < |s| ==> IsDigit(s[i]) || s[i] == '_')
    && (forall i | 0 <= i < |s| :: !UnderscorePairAt(s, i))
  }

  function DropUnderscores(s: string): (r: string)
    requires forall i :: 0 <= i < |s| ==> IsDigit(s[i]) || s[i] == '_'
    ensures AllDigits(r)
    ensures AllDigits(s) ==> r == s
  {
    if s == [] then []
    else if s[0] == '_' then DropUnderscores(s[1..])
    else [s[0]] + DropUnderscores(s[1..])
  }

  /** `int(s)` for a string: the number, or None where Python raises ValueError. */
  function IntOfText(s: string): Option<int> {
    var t := Strip(s);
    var neg := t != [] && t[0] == '-';
    var body := if t != [] && (t[0] == '-' || t[0] == '+') then t[1..] else t;
    if IsDigitGroups(body) then
      var mag: int := DigitsValue(DropUnderscores(body));
      Some(if neg then -mag else mag)
    else None
  }

  lemma StripOfUnpadded(t: string)
    requires t != [] && !IsSpace(t[0]) && !IsSpace(t[|t| - 1])
    ensures Strip(t) == t
  {
    assert TrimStart(t) == t;
  }

  lemma DigitsAreGroups(d: string)
    requires d != [] && AllDigits(d)
    ensures IsDigitGroups(d) && DropUnderscores(d) == d
  {
    assert IsDigit(d[0]) && IsDigit(d[|d| - 1]);
  }

  /** `int(str(n)) == n` */
  lemma IntOfTextRoundTrip(n: int)
    ensures IntOfText(IntText(n)) == Some(n)
  {
    var m: nat := if n < 0 then -n else n;
    var digits := NatText(m);
    var t := IntText(n);
    assert IsDigit(digits[0]) && IsDigit(digits[|digits| - 1]);
    assert t[|t| - 1] == digits[|digits| - 1];
    assert t[0] == '-' || IsDigit(t[0]);
    StripOfUnpadded(t);
    var body := if t[0] == '-' || t[0] == '+' then t[1..] else t;
    assert body == digits;
    DigitsAreGroups(digits);
    NatTextValue(m);
  }

  // ---------------------------------------------------------------------
  // float()

  function Pow10(e: nat): (r: nat)
    ensures r >= 1
  {
    if e == 0 then 1 else 10 * Pow10(e - 1)
  }

  function Scale(x: real, e: int): real {
    if e >= 0 then x * (Pow10(e) as real) else x / (Pow10(-e) as real)
  }

  /** The index of the first 'e' or 'E' in `s`, or `|s|`. */
  function ExponentMark(s: string): (k: nat)
    ensures k <= |s|
    ensures k < |s| ==> s[k] == 'e' || s[k] == 'E'
  {
    if s == [] then 0
    else if s[0] == 'e' || s[0] == 'E' then 0
    else 1 + ExponentMark(s[1..])
  }

  /** `digits`, `digits.`, `digits.digits` or `.digits`. */
  function MantissaValue(m: string): Option<real> {
    var d := BeforeFirst(m, '.');
    if |d| == |m| then
      if m != [] && AllDigits(m) then Some(DigitsValue(m) as real) else None
    else
      var frac := m[|d| + 1..];
      if AllDigits(d) && AllDigits(frac) && (d != [] || frac != []) then
        Some(DigitsValue(d) as real + (DigitsValue(frac) as real) / (Pow10(|frac|) as real))
      else None
  }

  function ExponentValue(s: string): Option<int> {
    var neg := s != [] && s[0] == '-';
    var body := if s != [] && (s[0] == '-' || s[0] == '+') then s[1..] else s;
    if body != [] && AllDigits(body) then
      var mag: int := DigitsValue(body);
      Some(if neg then -mag else mag)
    else None
  }

  /**
   * `float(s)` for a string, as an exact real: sign, mantissa and optional
   * exponent. None where Python raises ValueError.
   */
  function DecimalOfText(s: string): Option<real> {
    var t := Strip(s);
    var neg := t != [] && t[0] == '-';
    var body := if t != [] && (t[0] == '-' || t[0] == '+') then t[1..] else t;
    var k := ExponentMark(body);
    match MantissaValue(body[..k])
    case None => None
    case Some(mag) =>
      var signed := if neg then -mag else mag;
      if k == |body| then Some(signed)
      else match ExponentValue(body[k + 1..])
        case None => None
        case Some(e) => Some(Scale(signed, e))
  }

  /** `float(str(n)) == n` for a natural number n. */
  lemma DecimalOfNatText(n: nat)
    ensures DecimalOfText(NatText(n)) == Some(n as real)
  {
    NatTextValue(n);
    DecimalOfDigits(NatText(n));
  }

  /** A plain run of digits reads as its decimal value. */
  lemma DecimalOfDigits(t: string)
    requires t != [] && AllDigits(t)
    ensures DecimalOfText(t) == Some(DigitsValue(t) as real)
  {
    assert IsDigit(t[0]) && IsDigit(t[|t| - 1]);
    StripOfUnpadded(t);
    ExponentMarkOfDigits(t);
    assert t[..|t|] == t;
    MantissaOfDigits(t);
  }

  lemma MantissaOfDigits(t: string)
    requires t != [] && AllDigits(t)
    ensures MantissaValue(t) == Some(DigitsValue(t) as real)
  {
    NoDotInDigits(t);
  }

  lemma NoDotInDigits(s: string)
    requires AllDigits(s)
    ensures |BeforeFirst(s, '.')| == |s|
  {
    var d := BeforeFirst(s, '.');
    assert |d| < |s| ==> IsDigit(s[|d|]);
  }

  lemma {:induction false} ExponentMarkOfDigits(s: string)
    requires AllDigits(s)
    ensures ExponentMark(s) == |s|
  {
    if s != [] {
      assert IsDigit(s[0]);
      ExponentMarkOfDigits(s[1..]);
    }
  }

  // ---------------------------------------------------------------------
  // Conversions of decoded JSON values

  /** `int(v)`: bool counts as int; None and containers raise TypeError. */
  function PyInt(v: Json): Outcome<int> {
    match v
    case JBool(b) => Value(if b then 1 else 0)
    case JInt(i) => Value(i)
    case JStr(s) =>
      (match IntOfText(s) case Some(i) => Value(i) case None => Raised(ValueError))
    case _ => Raised(TypeError)
  }

  /** `float(v)` */
  function PyFloat(v: Json): Outcome<real> {
    match v
    case JBool(b) => Value(if b then 1.0 else 0.0)
    case JInt(i) => Value(i as real)
    case JStr(s) =>
      (match DecimalOfText(s) case Some(x) => Value(x) case None => Raised(ValueError))
    case _ => Raised(TypeError)
  }

  /**
   * `str(v)`. Exact for None, booleans, integers and strings; the text of
   * an array or object is not modelled and is the empty string here.
   */
  function PyStr(v: Json): string {
    match v
    case JNull => "None"
    case JBool(b) => if b then "True" else "False"
    case JInt(i) => IntText(i)
    case JStr(s) => s
    case _ => ""
  }
}
