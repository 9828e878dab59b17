/**
 * The Python built-ins the decoders apply to wire fields: `int(...)`,
 * `str(...)`, `decimal.Decimal(...)` and `str.lower()`.
 */
module Builtins {
  import opened Wrappers
  import opened Wire

  predicate IsDigit(c: char) {
    '0' <= c <= '9'
  }

  function DigitChar(d: nat): (c: char)
    requires d < 10
    ensures IsDigit(c) && DigitValue(c) == d
  {
    ('0' as int + d) as char
  }

  function DigitValue(c: char): nat
    requires IsDigit(c)
  {
    c as int - '0' as int
  }

  /** `str(n)` for a non-negative int: decimal digits, most significant first, no leading zeros. */
  function NatToString(n: nat): (r: string)
    ensures |r| > 0 && forall k :: 0 <= k < |r| ==> IsDigit(r[k])
    ensures |r| > 1 ==> r[0] != '0'
  {
    if n < 10 then [DigitChar(n)] else NatToString(n / 10) + [DigitChar(n % 10)]
  }

  /** `str(i)` for an int: a minus sign exactly for negative values, then the canonical digits of the magnitude. */
  function IntToString(i: int): (r: string)
    ensures |r| > 0 && (r[0] == '-' <==> i < 0)
    ensures var digits := if i < 0 then r[1..] else r;
      && |digits| > 0
      && (forall k :: 0 <= k < |digits| ==> IsDigit(digits[k]))
      && (|digits| > 1 ==> digits[0] != '0')
  {
    if i < 0 then "-" + NatToString(-i) else NatToString(i)
  }

  /**
   * The whitespace `int()` strips from both ends of its argument: the ASCII
   * characters U+0009..U+000D and space, and the non-ASCII characters
   * `str.isspace()` recognises (U+0085, U+00A0, U+1680, U+2000..U+200A,
   * U+2028, U+2029, U+202F, U+205F, U+3000). The separators U+001C..U+001F
   * are not stripped, although `str.isspace()` holds for them.
   */
  predicate IsSpace(c: char) {
    var n := c as int;
    || 9 <= n <= 13 || n == 32 || n == 0x85 || n == 0xA0 || n == 0x1680
    || 0x2000 <= n <= 0x200A || n == 0x2028 || n == 0x2029 || n == 0x202F || n == 0x205F || n == 0x3000
  }

  function TrimLeft(s: string): string
  {
    if |s| > 0 && IsSpace(s[0]) then TrimLeft(s[1..]) else s
  }

  function TrimRight(s: string): string
  {
    if |s| > 0 && IsSpace(s[|s| - 1]) then TrimRight(s[..|s| - 1]) else s
  }

  function Trim(s: string): string
  {
    TrimRight(TrimLeft(s))
  }

  /** A run of decimal digits in which single underscores may separate digits, as `int()` accepts. */
  predicate ValidDigits(s: string) {
    && |s| > 0
    && DigitsOrUnderscores(s)
    && forall k {:trigger s[k]} :: 0 <= k < |s| ==>
         IsDigit(s[k]) || (s[k] == '_' && 0 < k < |s| - 1 && IsDigit(s[k - 1]) && IsDigit(s[k + 1]))
  }

  predicate DigitsOrUnderscores(s: string) {
    forall k :: 0 <= k < |s| ==> IsDigit(s[k]) || s[k] == '_'
  }

  /** The value of a digit run, skipping underscores. */
  function DigitsValue(s: string): nat
    requires DigitsOrUnderscores(s)
  {
    if |s| == 0 then 0
    else if s[|s| - 1] == '_' then DigitsValue(s[..|s| - 1])
    else 10 * DigitsValue(s[..|s| - 1]) + DigitValue(s[|s| - 1])
  }

  /** An optional sign followed by a digit run: the numerals `int()` accepts once whitespace is stripped. */
  predicate IsNumeral(t: string) {
    if |t| > 0 && (t[0] == '-' || t[0] == '+') then ValidDigits(t[1..]) else ValidDigits(t)
  }

  /**
   * `int(s)` for a string: optional surrounding whitespace, an optional sign,
   * then digits. Anything else raises ValueError; a negative result needs a
   * minus sign.
   */
  function ParseInt(s: string): (r: Result<int, Error>)
    ensures r.Ok? <==> IsNumeral(Trim(s))
    ensures r.Err? ==> r.error == ValueError
    ensures r.Ok? && r.value < 0 ==> Trim(s)[0] == '-'
    ensures r.Ok? ==> IntToString(r.value) == Canonical(Trim(s))
  {
    var t := Trim(s);
    if |t| > 0 && (t[0] == '-' || t[0] == '+') then
      if ValidDigits(t[1..]) then
        CanonicalDigits(t[1..]);
        var n: int := DigitsValue(t[1..]);
        Ok(if t[0] == '-' then -n else n)
      else Err(ValueError)
    else if ValidDigits(t) then
      CanonicalDigits(t);
      Ok(DigitsValue(t))
    else Err(ValueError)
  }

  /** The digits of a run, underscores dropped. */
  function RemoveUnderscores(s: string): string
  {
    if |s| == 0 then ""
    else RemoveUnderscores(s[..|s| - 1]) + (if s[|s| - 1] == '_' then "" else [s[|s| - 1]])
  }

  /** Leading zeros dropped, keeping at least one digit. */
  function StripLeadingZeros(d: string): string
  {
    if |d| > 1 && d[0] == '0' then StripLeadingZeros(d[1..]) else d
  }

  /**
   * The canonical spelling of a numeral: no `+`, no underscores, no leading
   * zeros, and no minus sign on zero. `str(int(t))` spells it so.
   */
  function Canonical(t: string): string
  {
    var signed := |t| > 0 && (t[0] == '-' || t[0] == '+');
    var magnitude := StripLeadingZeros(RemoveUnderscores(if signed then t[1..] else t));
    if signed && t[0] == '-' && magnitude != "0" then "-" + magnitude else magnitude
  }

  predicate AllZeros(d: string) {
    forall k :: 0 <= k < |d| ==> d[k] == '0'
  }

  predicate AllDigits(d: string) {
    forall k :: 0 <= k < |d| ==> IsDigit(d[k])
  }

  lemma {:induction false} RemoveUnderscoresKeepsValue(s: string)
    requires DigitsOrUnderscores(s)
    ensures AllDigits(RemoveUnderscores(s))
    ensures DigitsValue(RemoveUnderscores(s)) == DigitsValue(s)
    ensures |s| > 0 && IsDigit(s[0]) ==> |RemoveUnderscores(s)| > 0
  {
    if |s| > 0 {
      var p := s[..|s| - 1];
      RemoveUnderscoresKeepsValue(p);
      var rp := RemoveUnderscores(p);
      if s[|s| - 1] != '_' {
        var r := rp + [s[|s| - 1]];
        assert r[..|r| - 1] == rp;
      } else {
        assert RemoveUnderscores(s) == rp;
      }
      if |p| > 0 {
        assert p[0] == s[0];
      }
    }
  }

  lemma {:induction false} ZeroValue(d: string)
    requires AllDigits(d)
    ensures DigitsValue(d) == 0 <==> AllZeros(d)
  {
    if |d| > 0 {
      var p := d[..|d| - 1];
      ZeroValue(p);
      if AllZeros(p) && d[|d| - 1] == '0' {
        assert AllZeros(d);
      }
      if AllZeros(d) {
        assert AllZeros(p);
      }
    }
  }

  lemma {:induction false} StripSnoc(p: string, c: char)
    requires AllDigits(p) && IsDigit(c)
    ensures StripLeadingZeros(p + [c]) == if AllZeros(p) then [c] else StripLeadingZeros(p) + [c]
  {
    if |p| > 0 {
      if p[0] == '0' {
        assert (p + [c])[1..] == p[1..] + [c];
        StripSnoc(p[1..], c);
        assert AllZeros(p) <==> AllZeros(p[1..]) by {
          if AllZeros(p[1..]) {
            forall k | 0 <= k < |p| ensures p[k] == '0' {
              if k > 0 { assert p[k] == p[1..][k - 1]; }
            }
          }
        }
      } else {
        assert !AllZeros(p);
      }
    } else {
      assert p + [c] == [c];
    }
  }

  /** `str(n)` of a digit run's value is the run without its leading zeros. */
  lemma {:induction false} NatToStringOfDigits(d: string)
    requires |d| > 0 && AllDigits(d)
    ensures NatToString(DigitsValue(d)) == StripLeadingZeros(d)
  {
    var p, c := d[..|d| - 1], d[|d| - 1];
    assert d == p + [c];
    assert DigitsValue(d) == 10 * DigitsValue(p) + DigitValue(c);
    assert DigitChar(DigitValue(c)) == c;
    StripSnoc(p, c);
    ZeroValue(p);
    if |p| > 0 && !AllZeros(p) {
      NatToStringOfDigits(p);
      var x := DigitsValue(p);
      var n := 10 * x + DigitValue(c);
      assert n / 10 == x && n % 10 == DigitValue(c);
    }
  }

  /** The value of a valid digit run is spelled canonically as the run without underscores and leading zeros. */
  lemma CanonicalDigits(s: string)
    requires ValidDigits(s)
    ensures NatToString(DigitsValue(s)) == StripLeadingZeros(RemoveUnderscores(s))
    ensures DigitsValue(s) == 0 <==> StripLeadingZeros(RemoveUnderscores(s)) == "0"
  {
    assert IsDigit(s[0]);
    RemoveUnderscoresKeepsValue(s);
    NatToStringOfDigits(RemoveUnderscores(s));
    DigitsValueOfNatToString(DigitsValue(s));
    assert DigitsValue("0") == 0;
  }

  lemma {:induction false} DigitsValueOfNatToString(n: nat)
    ensures DigitsValue(NatToString(n)) == n
  {
    if n >= 10 {
      var prefix := NatToString(n / 10);
      var s := prefix + [DigitChar(n % 10)];
      assert s[..|s| - 1] == prefix;
      DigitsValueOfNatToString(n / 10);
    }
  }

  /** `int(str(i)) == i`: the decimal form of an int reads back as that int. */
  lemma ParseIntOfIntToString(i: int)
    ensures ParseInt(IntToString(i)) == Ok(i)
  {
    var s := IntToString(i);
    var digits := NatToString(if i < 0 then -i else i);
    assert !IsSpace(s[0]) && !IsSpace(s[|s| - 1]);
    assert TrimLeft(s) == s;
    assert Trim(s) == s;
    DigitsValueOfNatToString(if i < 0 then -i else i);
    if i < 0 {
      assert s[1..] == digits;
    }
  }

  /**
   * Before the text of any int, a character `int()` treats as whitespace is
   * stripped, while an information separator U+001C..U+001F makes it fail.
   */
  lemma LeadingCharacter(c: char, i: int)
    ensures 28 <= c as int <= 31 ==> ParseInt([c] + IntToString(i)) == Err(ValueError)
    ensures IsSpace(c) ==> ParseInt([c] + IntToString(i)) == Ok(i)
  {
    var x := IntToString(i);
    var s := [c] + x;
    assert s[1..] == x;
    assert !IsSpace(x[0]);
    assert IsDigit(x[|x| - 1]) by {
      if i < 0 { assert x[|x| - 1] == x[1..][|x| - 2]; }
    }
    assert TrimLeft(x) == x;
    assert TrimRight(x) == x;
    if IsSpace(c) {
      assert TrimLeft(s) == x;
      ParseIntOfIntToString(i);
    }
    if 28 <= c as int <= 31 {
      assert TrimLeft(s) == s;
      assert s[|s| - 1] == x[|x| - 1];
      assert Trim(s) == s;
      assert !ValidDigits(s) by { assert !IsDigit(s[0]); }
    }
  }

  /** A leading information separator makes `int()` fail; a leading no-break space or tab is stripped. */
  lemma SeparatorsAreNotWhitespace()
    ensures ParseInt([28 as char, '5']) == Err(ValueError)
    ensures ParseInt([31 as char, '5']) == Err(ValueError)
    ensures ParseInt([0xA0 as char, '5']) == Ok(5)
    ensures ParseInt(['\t', '5']) == Ok(5)
  {
    assert IntToString(5) == ['5'] by { assert DigitChar(5) == '5'; }
    LeadingCharacter(28 as char, 5);
    LeadingCharacter(31 as char, 5);
    LeadingCharacter(0xA0 as char, 5);
    LeadingCharacter('\t', 5);
  }

  /** `int(v)`: ints pass through, bools are 0 and 1, strings are parsed; anything else is a TypeError. */
  function ToInt(v: Json): (r: Result<int, Error>)
    ensures v.JInt? ==> r == Ok(v.i)
    ensures v.JBool? ==> r == Ok(if v.b then 1 else 0)
    ensures v.JStr? ==> (r.Ok? <==> IsNumeral(Trim(v.s)))
    ensures v.JStr? ==> r == ParseInt(v.s)
    ensures r == Err(TypeError) <==> !(v.JInt? || v.JBool? || v.JStr?)
    ensures r.Err? ==> r.error == TypeError || r.error == ValueError
  {
    match v
    case JInt(i) => Ok(i)
    case JBool(b) => Ok(if b then 1 else 0)
    case JStr(s) => ParseInt(s)
    case _ => Err(TypeError)
  }

  /** `str(v)` for scalar wire values: strings are kept, and the text of an int reads back under `int()` as that int. */
  function ToStr(v: Json): (r: Result<string, Error>)
    ensures v.JStr? ==> r == Ok(v.s)
    ensures v.JInt? ==> r == Ok(IntToString(v.i))
    ensures v.JInt? ==> r.Ok? && ParseInt(r.value) == Ok(v.i)
    ensures v.JBool? ==> r == Ok(if v.b then "True" else "False")
    ensures v.JNull? ==> r == Ok("None")
    ensures r.Err? <==> v.JArray? || v.JObject?
  {
    match v
    case JStr(s) => Ok(s)
    case JInt(i) => ParseIntOfIntToString(i); Ok(IntToString(i))
    case JBool(b) => Ok(if b then "True" else "False")
    case JNull => Ok("None")
    case _ => Err(NotModelled)
  }

  /**
   * The value `decimal.Decimal(text)`, kept as the text that produced it.
   * Decimal arithmetic is not modelled, and two different texts are two
   * different values even where Python's decimals compare equal (" 1" and
   * "1", "1.0" and "1.00").
   */
  datatype Decimal = DecimalOf(text: string)

  /** `Decimal(v)`: strings are parsed, ints and bools convert through their decimal form. */
  function ToDecimal(v: Json): (r: Result<Decimal, Error>)
    ensures r.Ok? <==> v.JStr? || v.JInt? || v.JBool?
    ensures v.JStr? ==> r == Ok(DecimalOf(v.s))
    ensures v.JInt? ==> r == Ok(DecimalOf(IntToString(v.i)))
    ensures v.JInt? ==> r.Ok? && ParseInt(r.value.text) == Ok(v.i)
    ensures v.JBool? ==> r == Ok(DecimalOf(if v.b then "1" else "0"))
    ensures r.Err? ==> r.error == (if v.JArray? then NotModelled else TypeError)
  {
    match v
    case JStr(s) => Ok(DecimalOf(s))
    case JInt(i) => ParseIntOfIntToString(i); Ok(DecimalOf(IntToString(i)))
    case JBool(b) => Ok(DecimalOf(if b then "1" else "0"))
    case JArray(_) => Err(NotModelled)
    case _ => Err(TypeError)
  }

  predicate IsUpper(c: char) {
    'A' <= c <= 'Z'
  }

  function LowerChar(c: char): char
  {
    if IsUpper(c) then (c as int + 32) as char else c
  }

  /** `s.lower()` on ASCII letters: same length, upper-case letters mapped to lower case, everything else kept. */
  function Lower(s: string): (r: string)
    ensures |r| == |s|
    ensures forall k :: 0 <= k < |s| ==> r[k] == LowerChar(s[k])
  {
    seq(|s|, k requires 0 <= k < |s| => LowerChar(s[k]))
  }

  /** A lowered string has no upper-case letter, is its own lowering, and keeps exactly the non-letter characters of its input. */
  lemma LowerIsLowercase(s: string)
    ensures forall k :: 0 <= k < |Lower(s)| ==> !IsUpper(Lower(s)[k])
    ensures Lower(Lower(s)) == Lower(s)
    ensures forall c :: !IsUpper(c) && c !in s && !('a' <= c <= 'z') ==> c !in Lower(s)
  {
  }
}
