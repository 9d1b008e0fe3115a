/**
 * Python's `int(...)` as the search route applies it to the `max_results` value
 * of a decoded request: a bool gives 0 or 1, a number is truncated toward zero,
 * a string is parsed as a signed decimal, anything else raises (`None` here).
 */
module PyInt {
  import opened Wrappers
  import opened PyJson

  predicate IsDigit(c: char) {
    '0' <= c <= '9'
  }

  /** The whitespace `int()` ignores around its text (ASCII only). */
  predicate IsSpace(c: char) {
    c == ' ' || c == '\t' || c == '\n' || c == '\r' || c == '\U{0B}' || c == '\U{0C}'
  }

  function DigitValue(c: char): nat
    requires IsDigit(c)
  {
    c as int - '0' as int
  }

  /** The value of a run of decimal digits, most significant first. */
  function DigitsValue(ds: string): nat
    requires forall i | 0 <= i < |ds| :: IsDigit(ds[i])
  {
    if ds == [] then 0
    else DigitsValue(ds[..|ds| - 1]) * 10 + DigitValue(ds[|ds| - 1])
  }

  /** `s.strip()` for ASCII whitespace. */
  function Strip(s: string): (r: string)
    ensures |r| <= |s|
    ensures r != [] ==> !IsSpace(r[0]) && !IsSpace(r[|r| - 1])
    ensures (s == [] || (!IsSpace(s[0]) && !IsSpace(s[|s| - 1]))) ==> r == s
    decreases |s|
  {
    if s == [] then s
    else if IsSpace(s[0]) then Strip(s[1..])
    else if IsSpace(s[|s| - 1]) then Strip(s[..|s| - 1])
    else s
  }

  /** `int(s)` for a string: optional sign, at least one digit, surrounding whitespace ignored. */
  function ParseInt(s: string): (r: Option<int>)
    ensures r.Some? ==> exists i | 0 <= i < |s| :: IsDigit(s[i])
  {
    var t := Strip(s);
    var negative := t != [] && t[0] == '-';
    var body := if t != [] && (t[0] == '-' || t[0] == '+') then t[1..] else t;
    if body != [] && forall i | 0 <= i < |body| :: IsDigit(body[i]) then
      StripWithin(s);
      assert body[0] in t && IsDigit(body[0]);
      Some(if negative then -(DigitsValue(body) as int) else DigitsValue(body))
    else None
  }

  /** Every character of the stripped text occurs in the original. */
  lemma StripWithin(s: string)
    ensures forall c | c in Strip(s) :: c in s
    decreases |s|
  {
    if s != [] {
      if IsSpace(s[0]) {
        StripWithin(s[1..]);
      } else if IsSpace(s[|s| - 1]) {
        StripWithin(s[..|s| - 1]);
      }
    }
  }

  /** `int(x)` for a decoded JSON value. */
  function IntOf(j: Json): (r: Option<int>)
    ensures j.JBool? ==> r == Some(if j.b then 1 else 0)
    ensures j.JNum? && j.n >= 0.0 ==> r.Some? && r.value as real <= j.n < r.value as real + 1.0
    ensures j.JNum? && j.n < 0.0 ==> r.Some? && r.value as real - 1.0 < j.n <= r.value as real
    ensures j.JNull? || j.JArr? || j.JObj? ==> r == None
  {
    match j
    case JBool(b) => Some(if b then 1 else 0)
    case JNum(n) => Some(if n >= 0.0 then n.Floor else -((-n).Floor))
    case JStr(s) => ParseInt(s)
    case _ => None
  }

  /** The decimal text of a natural number. */
  function ShowNat(n: nat): (s: string)
    ensures s != [] && forall i | 0 <= i < |s| :: IsDigit(s[i])
  {
    var d := ['0' + (n % 10) as char];
    if n < 10 then d else ShowNat(n / 10) + d
  }

  /** The decimal text of an integer, as `str(n)` writes it. */
  function Show(n: int): string {
    if n < 0 then "-" + ShowNat(-n) else ShowNat(n)
  }

  lemma {:induction false} ShowNatValue(n: nat)
    ensures DigitsValue(ShowNat(n)) == n
  {
    var d := ['0' + (n % 10) as char];
    if n >= 10 {
      ShowNatValue(n / 10);
      var s := ShowNat(n / 10) + d;
      assert s[..|s| - 1] == ShowNat(n / 10);
    }
  }

  /** `int(str(n)) == n`: the number a page writes into a form field reads back unchanged. */
  lemma ParseShow(n: int)
    ensures ParseInt(Show(n)) == Some(n)
  {
    var s := Show(n);
    var digits := ShowNat(if n < 0 then -n else n);
    ShowNatValue(if n < 0 then -n else n);
    assert !IsSpace(s[0]) && !IsSpace(s[|s| - 1]);
    if n < 0 {
      assert s[1..] == digits;
    } else {
      assert !(s[0] == '-' || s[0] == '+');
    }
  }
}
