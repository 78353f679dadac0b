/** The numeric inputs of the parcel-creation form read their text as
    `Number.parseInt(text) || 0` and `Number.parseFloat(text) || 0` do:
    leading white space, an optional sign, decimal digits (and for
    `parseFloat` a point, a fraction and an exponent), and 0 when no number
    is there. */
module NumberInput {
  import opened Common

  /** Whether text starts with a minus sign. */
  predicate IsNegative(t: string) {
    t != [] && t[0] == '-'
  }

  /** `t` without its optional leading sign. */
  function Unsigned(t: string): (r: string)
    ensures |r| <= |t| && r == t[|t| - |r|..]
  {
    if t != [] && (t[0] == '-' || t[0] == '+') then t[1..] else t
  }

  /** The value of decimal integer text, 0 when it holds no number. */
  function ParseIntOrZero(text: string): int {
    ReadInt(SkipSpace(text))
  }

  /** `parseInt` after the leading white space. */
  function ReadInt(t: string): int {
    var ds := LeadingDigits(Unsigned(t));
    if ds == [] then 0
    else if IsNegative(t) then -(DigitsValue(ds) as int)
    else DigitsValue(ds)
  }

  function Pow10(n: nat): (p: real)
    ensures p >= 1.0
  {
    if n == 0 then 1.0 else 10.0 * Pow10(n - 1)
  }

  /** The value of the digits after a decimal point. */
  function FractionValue(ds: string): (f: real)
    requires forall i :: 0 <= i < |ds| ==> IsDigit(ds[i])
    ensures 0.0 <= f
  {
    DigitsValue(ds) as real / Pow10(|ds|)
  }

  /** The power of ten an exponent part (`e` or `E`, an optional sign,
      digits) gives; 0 when the text does not start with a complete
      exponent. The part after the letter is read as `parseInt` reads. */
  function Exponent(s: string): int {
    if s != [] && (s[0] == 'e' || s[0] == 'E') then ReadInt(s[1..]) else 0
  }

  /** `m` times ten to the power `e`. */
  function Scale(m: real, e: int): (r: real)
    ensures m >= 0.0 ==> r >= 0.0
    ensures e == 0 ==> r == m
  {
    if e == 0 then m
    else if e > 0 then
      assert m >= 0.0 ==> m * Pow10(e) >= 0.0 by {
        if m >= 0.0 { ScaledNonNegative(m, Pow10(e)); }
      }
      m * Pow10(e)
    else m / Pow10(-e)
  }

  /** The value of decimal floating-point text, 0 when it holds no number. */
  function ParseFloatOrZero(text: string): real {
    ReadFloat(SkipSpace(text))
  }

  /** `parseFloat` after the leading white space. */
  function ReadFloat(t: string): real {
    var m := ReadMagnitude(Unsigned(t));
    if IsNegative(t) then -m else m
  }

  /** The unsigned number at the start of `u`: digits, an optional point
      and digits (at least one digit in all), an optional exponent. */
  function ReadMagnitude(u: string): (m: real)
    ensures m >= 0.0
  {
    var whole := LeadingDigits(u);
    ReadAfterWhole(whole, u[|whole|..])
  }

  /** The number whose integer digits `whole` are followed by `rest`. */
  function ReadAfterWhole(whole: string, rest: string): (m: real)
    requires forall i :: 0 <= i < |whole| ==> IsDigit(whole[i])
    ensures m >= 0.0
  {
    if rest != [] && rest[0] == '.' then
      var frac := LeadingDigits(rest[1..]);
      if whole == [] && frac == [] then 0.0
      else
        Scale(DigitsValue(whole) as real + FractionValue(frac), Exponent(rest[1 + |frac|..]))
    else if whole == [] then 0.0
    else Scale(DigitsValue(whole) as real, Exponent(rest))
  }

  lemma ScaledNonNegative(m: real, scale: real)
    requires m >= 0.0 && scale > 0.0
    ensures m * scale >= 0.0
  {
  }

  /** Text that does not start with white space is read as it stands. */
  lemma SkipNothing(t: string)
    requires t != [] && (IsDigit(t[0]) || t[0] == '-')
    ensures SkipSpace(t) == t
  {
  }

  /** Text that starts with a digit is read by the unsigned reader alone. */
  lemma ReadUnsignedDigits(t: string)
    requires t != [] && IsDigit(t[0])
    ensures ParseFloatOrZero(t) == ReadMagnitude(t)
  {
    SkipNothing(t);
  }

  /** After the white space and the sign, digit-free text stays digit-free. */
  lemma NoDigitsAfterSign(text: string)
    requires forall i :: 0 <= i < |text| ==> !IsDigit(text[i])
    ensures var u := Unsigned(SkipSpace(text));
      forall i :: 0 <= i < |u| ==> !IsDigit(u[i])
  {
    var t := SkipSpace(text);
    SuffixWithoutDigits(text, t);
    SuffixWithoutDigits(t, Unsigned(t));
  }

  /** A tail of digit-free text is digit-free. */
  lemma SuffixWithoutDigits(s: string, r: string)
    requires |r| <= |s| && r == s[|s| - |r|..]
    requires forall i :: 0 <= i < |s| ==> !IsDigit(s[i])
    ensures forall i :: 0 <= i < |r| ==> !IsDigit(r[i])
  {
    forall i | 0 <= i < |r|
      ensures !IsDigit(r[i])
    {
      assert r[i] == s[|s| - |r| + i];
    }
  }

  /** Text that does not start with a digit has an empty leading run. */
  lemma NoLeadingDigits(u: string)
    requires u == [] || !IsDigit(u[0])
    ensures LeadingDigits(u) == []
  {
  }

  /** Text with no digit at all reads as 0 through `parseInt`. */
  lemma NoDigitsReadsZeroInt(text: string)
    requires forall i :: 0 <= i < |text| ==> !IsDigit(text[i])
    ensures ParseIntOrZero(text) == 0
  {
    var u := Unsigned(SkipSpace(text));
    NoDigitsAfterSign(text);
    NoLeadingDigits(u);
  }

  /** Text with no digit at all reads as 0 through `parseFloat`. */
  lemma NoDigitsReadsZeroFloat(text: string)
    requires forall i :: 0 <= i < |text| ==> !IsDigit(text[i])
    ensures ParseFloatOrZero(text) == 0.0
  {
    var t := SkipSpace(text);
    var u := Unsigned(t);
    NoDigitsAfterSign(text);
    NoDigitsMagnitudeZero(u);
    assert ParseFloatOrZero(text) == ReadFloat(t);
  }

  /** Digit-free text has no magnitude. */
  lemma NoDigitsMagnitudeZero(u: string)
    requires forall i :: 0 <= i < |u| ==> !IsDigit(u[i])
    ensures ReadMagnitude(u) == 0.0
  {
    NoLeadingDigits(u);
    assert u[0..] == u;
    PointWithoutDigits(u);
  }

  /** A point not followed by a digit is not a number. */
  lemma PointWithoutDigits(u: string)
    requires forall i :: 0 <= i < |u| ==> !IsDigit(u[i])
    ensures ReadAfterWhole([], u) == 0.0
  {
    if u != [] && u[0] == '.' {
      assert u[1..] == [] || !IsDigit(u[1..][0]);
    }
  }

  /** `parseInt` of text that starts with its digits, or with a sign and
      then its digits. */
  lemma ReadIntOfRun(t: string, ds: string)
    requires SkipSpace(t) == t
    requires LeadingDigits(Unsigned(t)) == ds && ds != []
    ensures ParseIntOrZero(t) == if IsNegative(t) then -(DigitsValue(ds) as int) else DigitsValue(ds)
  {
  }

  /** Text that starts with a digit has no white space to skip. */
  lemma DigitsNotSkipped(ds: string, rest: string)
    requires |ds| >= 1 && forall i :: 0 <= i < |ds| ==> IsDigit(ds[i])
    ensures SkipSpace(ds + rest) == ds + rest
  {
    var t := ds + rest;
    assert t[0] == ds[0];
    SkipNothing(t);
  }

  /** Text that starts with digits and then a non-digit has no sign, and
      its leading run is those digits. */
  lemma DigitsLead(ds: string, rest: string)
    requires |ds| >= 1 && forall i :: 0 <= i < |ds| ==> IsDigit(ds[i])
    requires rest == [] || !IsDigit(rest[0])
    ensures Unsigned(ds + rest) == ds + rest && LeadingDigits(ds + rest) == ds
    ensures !IsNegative(ds + rest)
  {
    var t := ds + rest;
    assert t[0] == ds[0];
    LeadingDigitsPrefix(ds, rest);
  }

  /** Digits followed by a non-digit, without a sign, read as their value. */
  lemma ReadIntOfDigits(ds: string, rest: string)
    requires |ds| >= 1 && forall i :: 0 <= i < |ds| ==> IsDigit(ds[i])
    requires rest == [] || !IsDigit(rest[0])
    ensures ParseIntOrZero(ds + rest) == DigitsValue(ds)
  {
    DigitsNotSkipped(ds, rest);
    DigitsLead(ds, rest);
    ReadIntOfRun(ds + rest, ds);
  }

  /** A minus sign is not white space and is dropped before the digits. */
  lemma MinusNotSkipped(u: string)
    ensures SkipSpace("-" + u) == "-" + u && Unsigned("-" + u) == u && IsNegative("-" + u)
  {
    var t := "-" + u;
    assert t[0] == '-' && t[1..] == u;
    SkipNothing(t);
  }

  /** The same digits after a minus sign read as the negated value. */
  lemma ReadIntOfNegatedDigits(ds: string, rest: string)
    requires |ds| >= 1 && forall i :: 0 <= i < |ds| ==> IsDigit(ds[i])
    requires rest == [] || !IsDigit(rest[0])
    ensures ParseIntOrZero("-" + (ds + rest)) == -(DigitsValue(ds) as int)
  {
    var v := ds + rest;
    MinusNotSkipped(v);
    DigitsLead(ds, rest);
    ReadIntOfRun("-" + v, ds);
  }

  /** A whole number followed by anything but a digit reads as that number
      through `parseInt`, with or without a minus sign: "12.7" gives 12. */
  lemma ParseIntReadsLeadingNumber(n: nat, rest: string)
    requires rest == [] || !IsDigit(rest[0])
    ensures ParseIntOrZero(ShowNat(n) + rest) == n
    ensures ParseIntOrZero("-" + (ShowNat(n) + rest)) == -(n as int)
  {
    ShowNatValue(n);
    ReadIntOfDigits(ShowNat(n), rest);
    ReadIntOfNegatedDigits(ShowNat(n), rest);
  }

  /** A rendered whole number reads back as itself through `parseFloat`. */
  lemma ParseFloatReadsWhole(n: nat)
    ensures ParseFloatOrZero(ShowNat(n)) == n as real
  {
    ShowNatValue(n);
    ParseFloatReadsDigits(ShowNat(n));
  }

  /** Text made only of digits reads as their value through `parseFloat`. */
  lemma ParseFloatReadsDigits(ds: string)
    requires |ds| >= 1 && forall i :: 0 <= i < |ds| ==> IsDigit(ds[i])
    ensures ParseFloatOrZero(ds) == DigitsValue(ds) as real
  {
    ReadUnsignedDigits(ds);
    LeadingDigitsAll(ds);
    assert ds[|ds|..] == [];
    assert ReadAfterWhole(ds, []) == Scale(DigitsValue(ds) as real, 0);
  }

  /** Digits, a point and digits read as the whole part plus the fraction. */
  lemma ParseFloatReadsDecimal(whole: string, frac: string)
    requires |whole| >= 1
    requires forall i :: 0 <= i < |whole| ==> IsDigit(whole[i])
    requires forall i :: 0 <= i < |frac| ==> IsDigit(frac[i])
    ensures ParseFloatOrZero(whole + "." + frac) == DigitsValue(whole) as real + FractionValue(frac)
  {
    var rest := "." + frac;
    var t := whole + rest;
    assert t == whole + "." + frac;
    assert t[0] == whole[0];
    ReadUnsignedDigits(t);
    LeadingDigitsPrefix(whole, rest);
    assert t[|whole|..] == rest;
    assert ReadMagnitude(t) == ReadAfterWhole(whole, rest);
    ReadPointFraction(whole, frac);
  }

  lemma ReadPointFraction(whole: string, frac: string)
    requires |whole| >= 1
    requires forall i :: 0 <= i < |whole| ==> IsDigit(whole[i])
    requires forall i :: 0 <= i < |frac| ==> IsDigit(frac[i])
    ensures ReadAfterWhole(whole, "." + frac) == DigitsValue(whole) as real + FractionValue(frac)
  {
    PointFractionParts(frac);
  }

  /** After a point, the fraction digits are read in full and no exponent
      follows them. */
  lemma PointFractionParts(frac: string)
    requires forall i :: 0 <= i < |frac| ==> IsDigit(frac[i])
    ensures var rest := "." + frac;
      && rest != [] && rest[0] == '.'
      && LeadingDigits(rest[1..]) == frac
      && Exponent(rest[1 + |frac|..]) == 0
  {
    var rest := "." + frac;
    assert rest[1..] == frac;
    LeadingDigitsAll(frac);
    assert rest[1 + |frac|..] == [];
  }
}
