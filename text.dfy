/**
 * The Python string operations the payment and OTP code relies on:
 * `str.strip()`, `str.lower()`, slicing `[:n]`, `str(int)` and `float(str)`.
 */
module Text {
  import opened Wrappers

  /** Python's `str.isspace()` for one character (the characters `str.strip()` removes). */
  predicate IsSpace(c: char)
  {
    || ('\t' <= c <= '\r')
    || ('\U{1C}' <= c <= ' ')
    || c == '\U{85}' || c == '\U{A0}' || c == '\U{1680}'
    || ('\U{2000}' <= c <= '\U{200A}')
    || c == '\U{2028}' || c == '\U{2029}' || c == '\U{202F}' || c == '\U{205F}' || c == '\U{3000}'
  }

  /** `s.lstrip()`: a suffix of `s` that starts with a non-space, all cut characters are spaces. */
  function TrimStart(s: string): (r: string)
    ensures |r| <= |s| && r == s[|s| - |r|..]
    ensures forall k :: 0 <= k < |s| - |r| ==> IsSpace(s[k])
    ensures r != [] ==> !IsSpace(r[0])
    decreases |s|
  {
    if s != [] && IsSpace(s[0]) then TrimStart(s[1..]) else s
  }

  /** `s.rstrip()`: a prefix of `s` that ends with a non-space, all cut characters are spaces. */
  function TrimEnd(s: string): (r: string)
    ensures |r| <= |s| && r == s[..|r|]
    ensures forall k :: |r| <= k < |s| ==> IsSpace(s[k])
    ensures r != [] ==> !IsSpace(r[|r| - 1])
    decreases |s|
  {
    if s != [] && IsSpace(s[|s| - 1]) then TrimEnd(s[..|s| - 1]) else s
  }

  /** `s.strip()`. */
  function Strip(s: string): (r: string)
    ensures |r| <= |s|
    ensures r != [] ==> !IsSpace(r[0]) && !IsSpace(r[|r| - 1])
  {
    TrimEnd(TrimStart(s))
  }

  /** `str.lower()` on one character, for ASCII letters only (see README). */
  function LowerChar(c: char): (r: char)
    ensures !('A' <= r <= 'Z')
    ensures r != c ==> 'A' <= c <= 'Z' && 'a' <= r <= 'z'
  {
    if 'A' <= c <= 'Z' then (c as int + 32) as char else c
  }

  /** `s.lower()`: same length, every character lowered, no upper-case ASCII letter left. */
  function Lower(s: string): (r: string)
    ensures |r| == |s|
    ensures forall k :: 0 <= k < |s| ==> r[k] == LowerChar(s[k])
    ensures forall k :: 0 <= k < |r| ==> !('A' <= r[k] <= 'Z')
  {
    seq(|s|, k requires 0 <= k < |s| => LowerChar(s[k]))
  }

  /** Python's slice `s[:n]` for `n >= 0`. */
  function Take(s: string, n: nat): (r: string)
    ensures |r| <= n && r <= s
    ensures |s| <= n ==> r == s
  {
    if |s| <= n then s else s[..n]
  }

  /** A stripped string has no surrounding whitespace, and keeps every
      character of `s` that is not whitespace. */
  lemma StripKeepsNonSpace(s: string, c: char)
    requires c in s && !IsSpace(c)
    ensures c in Strip(s)
    ensures Strip(s) != [] ==> !IsSpace(Strip(s)[0]) && !IsSpace(Strip(s)[|Strip(s)| - 1])
  {
    var i :| 0 <= i < |s| && s[i] == c;
    TrimStartKeeps(s, i);
    var t := TrimStart(s);
    var j := i - (|s| - |t|);
    TrimEndKeeps(t, j);
    assert Strip(s)[j] == c;
    StripEnds(s);
  }

  /** `lstrip` keeps a non-space character, shifted by the cut. */
  lemma TrimStartKeeps(s: string, i: nat)
    requires i < |s| && !IsSpace(s[i])
    ensures var t := TrimStart(s); var j := i - (|s| - |t|); 0 <= j < |t| && t[j] == s[i]
  {
    var t := TrimStart(s);
    assert i >= |s| - |t|;
    assert t == s[|s| - |t|..];
  }

  /** `rstrip` keeps a non-space character in place. */
  lemma TrimEndKeeps(t: string, j: nat)
    requires j < |t| && !IsSpace(t[j])
    ensures j < |TrimEnd(t)| && TrimEnd(t)[j] == t[j]
  {
    assert TrimEnd(t) == t[..|TrimEnd(t)|];
  }

  /** `strip` leaves no white space at either end. */
  lemma StripEnds(s: string)
    ensures Strip(s) != [] ==> !IsSpace(Strip(s)[0]) && !IsSpace(Strip(s)[|Strip(s)| - 1])
  {
    var t := TrimStart(s);
    var u := TrimEnd(t);
    if u != [] {
      assert u[0] == t[0];
    }
  }

  /** A string of white space strips to the empty string. */
  lemma {:induction false} BlankStripsToEmpty(s: string)
    requires forall k :: 0 <= k < |s| ==> IsSpace(s[k])
    ensures TrimStart(s) == [] && Strip(s) == []
  {
    if s != [] {
      assert IsSpace(s[0]);
      BlankStripsToEmpty(s[1..]);
    }
  }

  /** Lower-casing keeps a string's first and last characters non-space. */
  lemma LowerKeepsEnds(t: string)
    requires t != [] && !IsSpace(t[0]) && !IsSpace(t[|t| - 1])
    ensures !IsSpace(Lower(t)[0]) && !IsSpace(Lower(t)[|t| - 1])
  {
    assert Lower(t)[0] == LowerChar(t[0]);
    assert Lower(t)[|t| - 1] == LowerChar(t[|t| - 1]);
    LowerCharKeepsSpace(t[0]);
    LowerCharKeepsSpace(t[|t| - 1]);
  }

  /** Lower-casing a character neither creates nor removes white space. */
  lemma LowerCharKeepsSpace(c: char)
    ensures IsSpace(LowerChar(c)) <==> IsSpace(c)
  {
  }

  /** `'@' in email` still holds after `email.strip().lower()`. */
  lemma AtSignSurvivesNormalising(s: string)
    requires '@' in s
    ensures '@' in Lower(Strip(s))
  {
    StripKeepsNonSpace(s, '@');
    var t := Strip(s);
    var i :| 0 <= i < |t| && t[i] == '@';
    assert Lower(t)[i] == '@';
  }

  predicate IsDigit(c: char)
  {
    '0' <= c <= '9'
  }

  predicate AllDigits(s: string)
  {
    forall k :: 0 <= k < |s| ==> IsDigit(s[k])
  }

  function DigitChar(d: nat): (c: char)
    requires d < 10
    ensures IsDigit(c) && (c as int) - ('0' as int) == d
  {
    ('0' as int + d) as char
  }

  function Pow10(k: nat): (p: nat)
    ensures p >= 1
  {
    if k == 0 then 1 else 10 * Pow10(k - 1)
  }

  /** `str(n)` for a non-negative integer. */
  function DecimalString(n: nat): (r: string)
    ensures r != [] && AllDigits(r)
  {
    if n < 10 then [DigitChar(n)] else DecimalString(n / 10) + [DigitChar(n % 10)]
  }

  /** The value of a string of decimal digits (the core of `int(s)` and `float(s)`). */
  function DigitsValue(s: string): nat
    requires AllDigits(s)
  {
    if s == [] then 0 else 10 * DigitsValue(s[..|s| - 1]) + ((s[|s| - 1] as int) - ('0' as int))
  }

  /** Reading back `str(n)` gives `n`. */
  lemma {:induction false} DigitsValueOfDecimalString(n: nat)
    ensures DigitsValue(DecimalString(n)) == n
  {
    var s := DecimalString(n);
    if n >= 10 {
      DigitsValueOfDecimalString(n / 10);
      assert s[..|s| - 1] == DecimalString(n / 10);
    }
  }

  /** `str(n)` has exactly `k` characters when `10^(k-1) <= n < 10^k`. */
  lemma {:induction false} DecimalStringLength(n: nat, k: nat)
    requires k >= 1 && Pow10(k - 1) <= n < Pow10(k)
    ensures |DecimalString(n)| == k
  {
    if k > 1 {
      assert n >= 10;
      assert Pow10(k - 2) <= n / 10 < Pow10(k - 1);
      DecimalStringLength(n / 10, k - 1);
    } else {
      assert n < 10;
    }
  }

  /** Index of the first '.' in `s`, if any. */
  function DotIndex(s: string): (r: Option<nat>)
    ensures r.Some? ==> r.value < |s| && s[r.value] == '.' && '.' !in s[..r.value]
    ensures r.None? ==> '.' !in s
  {
    if s == [] then None
    else if s[0] == '.' then Some(0)
    else match DotIndex(s[1..])
      case None => None
      case Some(i) => Some(i + 1)
  }

  /** Python's `digitpart`: ASCII digits, with single underscores allowed
      between two digits. */
  function DigitPart(s: string): (r: bool)
    ensures r ==> s != [] && DigitsOrUnderscores(s)
    decreases |s|
  {
    if s == [] || !IsDigit(s[0]) then false
    else if |s| == 1 then true
    else if s[1] == '_' then DigitPart(s[2..])
    else DigitPart(s[1..])
  }

  predicate DigitsOrUnderscores(s: string)
  {
    forall k :: 0 <= k < |s| ==> IsDigit(s[k]) || s[k] == '_'
  }

  /** The digits of a digit part, its underscores dropped. */
  function Ungrouped(s: string): (r: string)
    ensures DigitsOrUnderscores(s) ==> AllDigits(r)
    ensures AllDigits(s) ==> r == s
    ensures |r| <= |s|
  {
    if s == [] then [] else (if s[0] == '_' then [] else [s[0]]) + Ungrouped(s[1..])
  }

  /** The value of an optional digit part (zero when it is empty). */
  function PartValue(s: string): nat
    requires DigitsOrUnderscores(s)
  {
    DigitsValue(Ungrouped(s))
  }

  /** Python's `number`: `[digitpart] "." digitpart` or `digitpart ["."]`,
      that is `ddd`, `ddd.ddd`, `.ddd` or `ddd.`, without sign or exponent. */
  function ParseUnsigned(b: string): (r: Option<real>)
    ensures r.Some? ==> r.value >= 0.0
  {
    match DotIndex(b)
    case None =>
      if DigitPart(b) then Some(PartValue(b) as real) else None
    case Some(i) =>
      var whole, frac := b[..i], b[i + 1..];
      if (whole != [] || frac != []) && (whole == [] || DigitPart(whole)) && (frac == [] || DigitPart(frac))
      then Some(PartValue(whole) as real + PartValue(frac) as real / Pow10(|Ungrouped(frac)|) as real)
      else None
  }

  /** Index of the first 'e' or 'E' in `s`, if any. */
  function ExponentIndex(s: string): (r: Option<nat>)
    ensures r.Some? ==> r.value < |s| && (s[r.value] == 'e' || s[r.value] == 'E')
    ensures r.None? ==> forall k :: 0 <= k < |s| ==> s[k] != 'e' && s[k] != 'E'
  {
    if s == [] then None
    else if s[0] == 'e' || s[0] == 'E' then Some(0)
    else match ExponentIndex(s[1..])
      case None => None
      case Some(i) => Some(i + 1)
  }

  /** The exponent after 'e': an optional sign and a digit part. */
  function ParseExponent(s: string): Option<int>
  {
    if s != [] && (s[0] == '+' || s[0] == '-') then
      if DigitPart(s[1..]) then Some(if s[0] == '-' then -(PartValue(s[1..]) as int) else PartValue(s[1..]))
      else None
    else if DigitPart(s) then Some(PartValue(s))
    else None
  }

  /** `m * 10**e`, exactly. */
  function Scaled(m: real, e: int): (r: real)
    ensures m >= 0.0 ==> r >= 0.0
  {
    if e >= 0 then m * Pow10(e) as real else m / Pow10(-e) as real
  }

  /** Python's `floatnumber`: a number with an optional exponent. */
  function ParseNumber(b: string): (r: Option<real>)
    ensures r.Some? ==> r.value >= 0.0
  {
    match ExponentIndex(b)
    case None => ParseUnsigned(b)
    case Some(i) =>
      match ParseUnsigned(b[..i])
      case None => None
      case Some(m) =>
        match ParseExponent(b[i + 1..])
        case None => None
        case Some(e) => Some(Scaled(m, e))
  }

  /** A Python float as `float(str)` produces it: a finite value (kept
      exact), an infinity with its sign, or NaN. */
  datatype PyFloat = Finite(value: real) | Infinite(negative: bool) | NaN

  /** Unary minus; the minus of NaN is NaN. */
  function Negated(f: PyFloat): PyFloat
  {
    match f
    case Finite(v) => Finite(-v)
    case Infinite(n) => Infinite(!n)
    case NaN => NaN
  }

  /** Python's `absfloatvalue`: "inf", "infinity" or "nan" in any mix of
      case, or a number. */
  function ParseAbsFloat(b: string): (r: Option<PyFloat>)
    ensures r.Some? && r.value.Finite? ==> r.value.value >= 0.0
    ensures r.Some? && r.value.Infinite? ==> !r.value.negative
  {
    var folded := Lower(b);
    if folded == "inf" || folded == "infinity" then Some(Infinite(false))
    else if folded == "nan" then Some(NaN)
    else match ParseNumber(b)
      case None => None
      case Some(v) => Some(Finite(v))
  }

  /** Python's `float(s)` on a string: surrounding white space, an optional
      sign, then a number (digit groups, a point, an exponent), an infinity
      or NaN; every other string raises ValueError (None). */
  function ParseFloat(s: string): (r: Option<PyFloat>)
    ensures Strip(s) == [] ==> r.None?
    ensures r.Some? && ((r.value.Finite? && r.value.value < 0.0) || (r.value.Infinite? && r.value.negative))
            ==> Strip(s)[0] == '-'
  {
    var t := Strip(s);
    if t == [] then None
    else if t[0] == '-' then
      match ParseAbsFloat(t[1..])
      case None => None
      case Some(f) => Some(Negated(f))
    else if t[0] == '+' then ParseAbsFloat(t[1..])
    else ParseAbsFloat(t)
  }

  /** `float` of a string with a leading minus is NaN, minus infinity or at
      most zero, and never a positive number. */
  lemma ParseFloatOfMinus(rest: string)
    ensures var f := ParseFloat("-" + rest);
            f.Some? ==> f.value.NaN? || (f.value.Infinite? && f.value.negative) || (f.value.Finite? && f.value.value <= 0.0)
  {
    var s := "-" + rest;
    assert !IsSpace(s[0]);
    assert TrimStart(s) == s;
    var t := Strip(s);
    assert t != [] && t[0] == '-';
  }

  /** The forms `float` reads besides plain decimals: digit groups,
      exponents, infinities and NaN, with or without a sign. */
  lemma ParseFloatForms()
    ensures ParseFloat("nan") == Some(NaN)
    ensures ParseFloat("-nan") == Some(NaN)
    ensures ParseFloat("-Infinity") == Some(Infinite(true))
    ensures ParseFloat("1e3") == Some(Finite(1000.0))
    ensures ParseFloat("1_0") == Some(Finite(10.0))
  {
    NanRead();
    MinusNanRead();
    MinusInfinityRead();
    ExponentRead();
    GroupRead();
  }

  /** `float` of a string with no surrounding white space and no sign is
      `absfloatvalue` of the whole string. */
  lemma ParseFloatOfUnsigned(s: string)
    requires s != [] && !IsSpace(s[0]) && !IsSpace(s[|s| - 1]) && s[0] != '-' && s[0] != '+'
    ensures ParseFloat(s) == ParseAbsFloat(s)
  {
    StripOfUnspaced(s);
  }

  /** `float` of `-b`, with no surrounding white space, is the negation of `float(b)`. */
  lemma ParseFloatOfNegative(s: string)
    requires |s| >= 2 && s[0] == '-' && !IsSpace(s[|s| - 1])
    ensures ParseAbsFloat(s[1..]).Some? ==> ParseFloat(s) == Some(Negated(ParseAbsFloat(s[1..]).value))
  {
    StripOfUnspaced(s);
  }

  lemma NanRead()
    ensures ParseFloat("nan") == Some(NaN)
  {
    ParseFloatOfUnsigned("nan");
    NanBodyRead();
  }

  lemma NanBodyRead()
    ensures ParseAbsFloat("nan") == Some(NaN)
  {
    assert Lower("nan") == "nan";
  }

  lemma MinusNanRead()
    ensures ParseFloat("-nan") == Some(NaN)
  {
    ParseFloatOfNegative("-nan");
    assert "-nan"[1..] == "nan";
    NanBodyRead();
  }

  lemma MinusInfinityRead()
    ensures ParseFloat("-Infinity") == Some(Infinite(true))
  {
    ParseFloatOfNegative("-Infinity");
    assert "-Infinity"[1..] == "Infinity";
    InfinityBodyRead();
  }

  lemma InfinityBodyRead()
    ensures ParseAbsFloat("Infinity") == Some(Infinite(false))
  {
    assert Lower("Infinity") == "infinity";
  }

  lemma ExponentRead()
    ensures ParseFloat("1e3") == Some(Finite(1000.0))
  {
    ParseFloatOfUnsigned("1e3");
    ExponentBodyRead();
  }

  lemma ExponentBodyRead()
    ensures ParseAbsFloat("1e3") == Some(Finite(1000.0))
  {
    assert Lower("1e3")[0] == '1';
    ExponentNumber();
  }

  lemma ExponentNumber()
    ensures ParseNumber("1e3") == Some(1000.0)
  {
    var s := "1e3";
    assert ExponentIndex(s) == Some(1);
    assert s[..1] == "1" && s[2..] == "3";
    SingleDigit('1');
    SingleDigit('3');
    assert ParseExponent("3") == Some(3);
    assert Pow10(3) == 1000;
  }

  /** A one-digit string reads as that digit. */
  lemma SingleDigit(c: char)
    requires IsDigit(c)
    ensures DigitPart([c]) && Ungrouped([c]) == [c] && PartValue([c]) == (c as int) - ('0' as int)
    ensures ParseUnsigned([c]) == Some(((c as int) - ('0' as int)) as real)
  {
    assert AllDigits([c]);
    assert [c][..|[c]| - 1] == [];
    assert DigitsValue([c]) == 10 * DigitsValue([]) + ((c as int) - ('0' as int));
    assert DotIndex([c]) == None;
  }

  lemma GroupRead()
    ensures ParseFloat("1_0") == Some(Finite(10.0))
  {
    ParseFloatOfUnsigned("1_0");
    GroupBodyRead();
  }

  lemma GroupBodyRead()
    ensures ParseAbsFloat("1_0") == Some(Finite(10.0))
  {
    assert Lower("1_0")[0] == '1';
    GroupNumber("1_0");
  }

  /** "1_0" read as a number, its characters named one by one. */
  lemma GroupNumber(s: string)
    requires |s| == 3 && s[0] == '1' && s[1] == '_' && s[2] == '0'
    ensures ParseNumber(s) == Some(10.0)
  {
    assert ExponentIndex(s[2..]) == None;
    assert ExponentIndex(s[1..]) == None;
    assert DotIndex(s[2..]) == None;
    assert DotIndex(s[1..]) == None;
    GroupDigits(s);
    NumberWithoutPoint(s);
    assert DigitsValue("10") == 10 by {
      assert "10"[..1] == "1";
    }
  }

  lemma GroupDigits(s: string)
    requires |s| == 3 && s[0] == '1' && s[1] == '_' && s[2] == '0'
    ensures DigitPart(s) && Ungrouped(s) == "10"
  {
    assert DigitPart(s[2..]);
    assert Ungrouped(s[2..]) == "0";
    assert Ungrouped(s[1..]) == "0";
  }

  /** A digit part with no exponent and no point reads as its value. */
  lemma NumberWithoutPoint(b: string)
    requires ExponentIndex(b) == None && DotIndex(b) == None && DigitPart(b)
    ensures ParseNumber(b) == Some(PartValue(b) as real)
  {
  }

  /** A non-empty digit string is its own strip, has no sign, no dot and no
      exponent, so `float` reads it as its digits' value. */
  lemma ParseFloatOfDigits(s: string)
    requires s != [] && AllDigits(s)
    ensures ParseFloat(s) == Some(Finite(DigitsValue(s) as real))
  {
    assert IsDigit(s[0]) && IsDigit(s[|s| - 1]);
    ParseFloatOfUnsigned(s);
    assert Lower(s)[0] == s[0];
    DigitsNumber(s);
  }

  /** A digit string is a number without point or exponent. */
  lemma DigitsNumber(s: string)
    requires s != [] && AllDigits(s)
    ensures ParseNumber(s) == Some(DigitsValue(s) as real)
  {
    assert forall k :: 0 <= k < |s| ==> s[k] != '.' && s[k] != 'e' && s[k] != 'E';
    assert ExponentIndex(s).None?;
    assert DotIndex(s).None?;
    DigitsArePart(s);
    NumberWithoutPoint(s);
  }

  /** A non-empty digit string is a digit part. */
  lemma {:induction false} DigitsArePart(s: string)
    requires s != [] && AllDigits(s)
    ensures DigitPart(s)
    decreases |s|
  {
    if |s| > 1 {
      assert s[1] != '_';
      DigitsArePart(s[1..]);
    }
  }

  /** A string with no white space at its ends is its own strip. */
  lemma StripOfUnspaced(s: string)
    requires s != [] && !IsSpace(s[0]) && !IsSpace(s[|s| - 1])
    ensures Strip(s) == s
  {
    assert TrimStart(s) == s;
  }

  /** `float(str(n)) == n`. */
  lemma ParseFloatOfDecimalString(n: nat)
    ensures ParseFloat(DecimalString(n)) == Some(Finite(n as real))
  {
    ParseFloatOfDigits(DecimalString(n));
    DigitsValueOfDecimalString(n);
  }
}
