/**
 * The JavaScript comparison `v > 0` for a value decoded by `JSON.parse`, as the
 * ECMAScript language specification defines it (section 7.2.13, IsLessThan, with
 * ToPrimitive and ToNumber, and section 7.1.4.1.1, StringToNumber): the value is
 * converted to a primitive, then to a Number, and NaN compares false.
 *
 * A JSON number is held exactly; the Number it denotes is positive unless it is
 * so small that it rounds to zero, which happens exactly when it is at most
 * 2^-1075, half the smallest positive double (the tie goes to the even zero).
 */
module JsNumber {
  import opened Wrappers
  import opened PyJson
  import opened PyInt

  function Pow(b: nat, k: nat): (r: nat)
    ensures b >= 1 ==> r >= 1
    ensures b >= 2 && k >= 1 ==> r >= 2
  {
    if k == 0 then 1 else b * Pow(b, k - 1)
  }

  /** A Number read from exact value `n` is greater than zero. */
  predicate DoublePositive(n: real) {
    n > 0.0 && n * Pow(2, 1075) as real > 1.0
  }

  /** The Number read from `m` × 10^`e` (with `m` >= 0) is greater than zero. */
  predicate ScaledPositive(m: nat, e: int) {
    m > 0 && (e >= 0 || m * Pow(2, 1075) > Pow(10, -e))
  }

  /** WhiteSpace and LineTerminator, which StringToNumber ignores around the literal. */
  predicate IsJsSpace(c: char) {
    c == '\t' || c == '\n' || c == '\U{0B}' || c == '\U{0C}' || c == '\r' || c == ' ' ||
    c == '\U{A0}' || c == '\U{1680}' || ('\U{2000}' <= c <= '\U{200A}') ||
    c == '\U{2028}' || c == '\U{2029}' || c == '\U{202F}' || c == '\U{205F}' ||
    c == '\U{3000}' || c == '\U{FEFF}'
  }

  /** The text without leading and trailing JavaScript whitespace. */
  function Trim(s: string): (r: string)
    ensures |r| <= |s|
    ensures (s == [] || (!IsJsSpace(s[0]) && !IsJsSpace(s[|s| - 1]))) ==> r == s
    decreases |s|
  {
    if s == [] then s
    else if IsJsSpace(s[0]) then Trim(s[1..])
    else if IsJsSpace(s[|s| - 1]) then Trim(s[..|s| - 1])
    else s
  }

  predicate AllDigits(s: string) {
    forall i | 0 <= i < |s| :: IsDigit(s[i])
  }

  /** The position of the first character of `s` in `cs`, or `|s|` when there is none. */
  function IndexOfAny(s: string, cs: set<char>): (k: nat)
    ensures k <= |s|
    ensures forall i | 0 <= i < k :: s[i] !in cs
    ensures k < |s| ==> s[k] in cs
  {
    if s == [] then 0
    else if s[0] in cs then 0
    else 1 + IndexOfAny(s[1..], cs)
  }

  /** ExponentPart after its `e`: an optional sign and at least one digit. */
  function Exponent(t: string): Option<int> {
    var negative := t != [] && t[0] == '-';
    var digits := if t != [] && (t[0] == '+' || t[0] == '-') then t[1..] else t;
    if digits != [] && AllDigits(digits) then
      Some(if negative then -(DigitsValue(digits) as int) else DigitsValue(digits))
    else None
  }

  /**
   * StrUnsignedDecimalLiteral denoting a positive Number: `Infinity`, or digits with
   * at most one `.` (at least one digit on either side of it) and an optional exponent.
   */
  predicate UnsignedDecimalPositive(s: string) {
    s == "Infinity" ||
    var k := IndexOfAny(s, {'e', 'E'});
    var mantissa := s[..k];
    var d := IndexOfAny(mantissa, {'.'});
    var whole := mantissa[..d];
    var fraction := if d < |mantissa| then mantissa[d + 1..] else [];
    var exponent := if k < |s| then Exponent(s[k + 1..]) else Some(0);
    && AllDigits(whole) && AllDigits(fraction) && |whole| + |fraction| >= 1
    && exponent.Some?
    && ScaledPositive(DigitsValue(whole + fraction), exponent.value - |fraction|)
  }

  /** StrDecimalLiteral denoting a positive Number: a `-` sign never does. */
  predicate DecimalPositive(s: string) {
    if s != [] && s[0] == '+' then UnsignedDecimalPositive(s[1..])
    else if s != [] && s[0] == '-' then false
    else UnsignedDecimalPositive(s)
  }

  predicate IsHexDigit(c: char) {
    IsDigit(c) || ('a' <= c <= 'f') || ('A' <= c <= 'F')
  }

  /** NonDecimalIntegerLiteral (`0x`, `0o`, `0b`, unsigned) with a non-zero digit. */
  predicate NonDecimalPositive(s: string) {
    && |s| >= 3 && s[0] == '0'
    && var digits := s[2..];
    && (|| (s[1] in {'x', 'X'} && forall i | 0 <= i < |digits| :: IsHexDigit(digits[i]))
        || (s[1] in {'o', 'O'} && forall i | 0 <= i < |digits| :: '0' <= digits[i] <= '7')
        || (s[1] in {'b', 'B'} && forall i | 0 <= i < |digits| :: digits[i] in {'0', '1'}))
    && exists i | 0 <= i < |digits| :: digits[i] != '0'
  }

  /** StringToNumber(`s`) > 0; the empty (or all-blank) text is 0 and any other text is NaN. */
  predicate StringPositive(s: string) {
    var t := Trim(s);
    DecimalPositive(t) || NonDecimalPositive(t)
  }

  /**
   * `v > 0` for a decoded value: null is 0, a boolean 0 or 1; an array becomes the
   * text its elements joined by commas make (a lone element's own text, null giving
   * the empty text), which is NaN as soon as a comma appears; an object becomes
   * "[object Object]", which is NaN.
   */
  predicate GreaterThanZero(v: Json) {
    match v
    case JNull => false
    case JBool(b) => b
    case JNum(n) => DoublePositive(n)
    case JStr(s) => StringPositive(s)
    case JArr(items) => |items| == 1 && !items[0].JBool? && GreaterThanZero(items[0])
    case JObj(_) => false
  }

  /** A count written in decimal compares with zero as the count does. */
  lemma ShownCountPositive(n: nat)
    ensures StringPositive(ShowNat(n)) <==> n > 0
  {
    var s := ShowNat(n);
    ShowNatValue(n);
    DigitsPositive(s);
  }

  /** A plain run of digits is positive iff its value is. */
  lemma DigitsPositive(s: string)
    requires s != [] && AllDigits(s)
    ensures StringPositive(s) <==> DigitsValue(s) > 0
  {
    assert IsDigit(s[0]) && IsDigit(s[|s| - 1]);
    assert Trim(s) == s;
    assert !NonDecimalPositive(s) by {
      if |s| >= 3 {
        assert IsDigit(s[1]);
      }
    }
    assert s != "Infinity" by {
      assert s[0] != 'I';
    }
    assert DecimalPositive(s) == UnsignedDecimalPositive(s) by {
      assert s[0] != '+' && s[0] != '-';
    }
    assert IndexOfAny(s, {'e', 'E'}) == |s| by { IndexNone(s, {'e', 'E'}); }
    assert IndexOfAny(s, {'.'}) == |s| by { IndexNone(s, {'.'}); }
    assert s[..|s|] == s && s + [] == s;
    assert UnsignedDecimalPositive(s) <==> ScaledPositive(DigitsValue(s), 0);
  }

  lemma {:induction false} IndexNone(s: string, cs: set<char>)
    requires forall i | 0 <= i < |s| :: IsDigit(s[i])
    requires forall c | c in cs :: !IsDigit(c)
    ensures IndexOfAny(s, cs) == |s|
  {
    if s != [] {
      assert IsDigit(s[0]);
      IndexNone(s[1..], cs);
    }
  }

  /** A number, a numeral text, `true` and a one-element array of them count as positive. */
  lemma PositiveForms()
    ensures GreaterThanZero(JNum(1.0)) && GreaterThanZero(JStr("1")) && GreaterThanZero(JBool(true))
    ensures GreaterThanZero(JArr([JNum(1.0)])) && GreaterThanZero(JArr([JStr("1")]))
  {
    ShownCountPositive(1);
    assert ShowNat(1) == "1";
  }

  /** Surrounding whitespace, a `+` sign, a fraction and an exponent are all read. */
  lemma DecimalForm()
    ensures GreaterThanZero(JStr(" +2.5e1\n"))
  {
    var t := " +2.5e1\n";
    assert Trim(t) == "+2.5e1" by {
      assert t[1..] == "+2.5e1\n";
      assert t[1..][..|t[1..]| - 1] == "+2.5e1";
    }
    assert "+2.5e1"[1..] == "2.5e1";
    FractionWithExponent();
    assert DecimalPositive("+2.5e1");
    assert StringPositive(t);
  }

  /** `2.5e1` is 25 × 10^0. */
  lemma FractionWithExponent()
    ensures UnsignedDecimalPositive("2.5e1")
  {
    var u := "2.5e1";
    assert IndexOfAny(u, {'e', 'E'}) == 3 by {
      assert u[1..][1..][1..] == "e1";
    }
    var mantissa := u[..3];
    assert mantissa == "2.5";
    assert IndexOfAny(mantissa, {'.'}) == 1 by {
      assert mantissa[1..] == ".5";
    }
    assert mantissa[..1] == "2" && mantissa[2..] == "5";
    assert u[4..] == "1";
    assert Exponent("1") == Some(1) by {
      assert DigitsValue("1") == 1 by { assert "1"[..0] == []; }
    }
    assert "2" + "5" == "25";
    assert DigitsValue("25") == 25 by {
      assert "25"[..1] == "2";
      assert "2"[..0] == [];
    }
  }

  /** Hexadecimal text is positive. */
  lemma HexForm()
    ensures GreaterThanZero(JStr("0x1F"))
  {
    var t := "0x1F";
    assert !IsJsSpace(t[0]) && !IsJsSpace(t[3]);
    assert Trim(t) == t;
    var digits := t[2..];
    assert digits == "1F";
    assert forall i | 0 <= i < |digits| :: IsHexDigit(digits[i]);
    assert digits[0] != '0';
    assert NonDecimalPositive(t);
  }

  /** `Infinity` is positive. */
  lemma InfinityForm()
    ensures GreaterThanZero(JStr("Infinity"))
  {
    var t := "Infinity";
    assert !IsJsSpace(t[0]) && !IsJsSpace(t[7]);
    assert Trim(t) == t;
    assert t[0] != '+' && t[0] != '-';
    assert UnsignedDecimalPositive(t);
  }

  /** Words, negative numerals, the empty text, several elements and objects are not. */
  lemma NotPositiveForms()
    ensures !GreaterThanZero(JStr("abc")) && !GreaterThanZero(JStr("-1")) && !GreaterThanZero(JStr(""))
    ensures !GreaterThanZero(JArr([JNum(1.0), JNum(2.0)])) && !GreaterThanZero(JArr([JBool(true)]))
    ensures !GreaterThanZero(JObj([])) && !GreaterThanZero(JNull)
  {
    assert IndexOfAny("abc", {'e', 'E'}) == 3;
    assert "abc"[..3] == "abc";
    assert IndexOfAny("abc", {'.'}) == 3;
    assert "abc"[..3][0] == 'a';
  }
}
