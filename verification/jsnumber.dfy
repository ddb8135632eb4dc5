/** JavaScript `Number(text)` for the decimal notation a number input field
    produces: optional surrounding spaces, an optional sign, digits with an
    optional fractional part. */
module JsNumber {
  import opened Wrappers
  import opened Text

  predicate IsDigit(c: char) {
    '0' <= c <= '9'
  }

  predicate AllDigits(s: string) {
    forall i :: 0 <= i < |s| ==> IsDigit(s[i])
  }

  /** The value of a string of decimal digits. */
  function DigitsValue(ds: string): nat
    requires AllDigits(ds)
  {
    if ds == [] then 0
    else DigitsValue(ds[..|ds| - 1]) * 10 + (ds[|ds| - 1] as int - '0' as int)
  }

  function Pow10(n: nat): (r: nat)
    ensures r >= 1
  {
    if n == 0 then 1 else 10 * Pow10(n - 1)
  }

  /** The position of the first '.', or |s| when there is none. */
  function DotIndex(s: string): (k: nat)
    ensures k <= |s|
    ensures k < |s| ==> s[k] == '.'
    ensures forall i :: 0 <= i < k ==> s[i] != '.'
  {
    if s == [] then 0
    else if s[0] == '.' then 0
    else 1 + DotIndex(s[1..])
  }

  /** An unsigned decimal such as "12", "12.5", "12." or ".5"; None stands
      for NaN. */
  function Unsigned(s: string): (r: Option<real>)
    ensures r.Some? ==> r.value >= 0.0
  {
    var k := DotIndex(s);
    Parts(s[..k], if k < |s| then s[k + 1..] else "")
  }

  /** The digits before and after the dot: at least one digit, and nothing
      else. */
  function Parts(whole: string, frac: string): (r: Option<real>)
    ensures r.Some? ==> r.value >= 0.0
  {
    if |whole| + |frac| == 0 || !AllDigits(whole) || !AllDigits(frac) then None
    else Some(DigitsValue(whole) as real + Fraction(frac))
  }

  /** The value of the digits after the dot. */
  function Fraction(ds: string): (f: real)
    requires AllDigits(ds)
    ensures 0.0 <= f
  {
    DigitsValue(ds) as real / Pow10(|ds|) as real
  }

  /** `Number(s)`: a blank string is 0; anything outside the decimal
      notation above is NaN (None). */
  function ToNumber(s: string): (r: Option<real>)
    ensures IsBlank(s) ==> r == Some(0.0)
    ensures r.Some? && r.value < 0.0 ==> Trim(s) != [] && Trim(s)[0] == '-'
  {
    var t := Trim(s);
    if t == [] then Some(0.0)
    else if t[0] == '-' then
      match Unsigned(t[1..])
      case Some(v) => Some(-v)
      case None => None
    else if t[0] == '+' then Unsigned(t[1..])
    else Unsigned(t)
  }

  /** Only a leading minus sign makes the number negative. */
  lemma NegativeNeedsSign(s: string)
    requires ToNumber(s).Some? && ToNumber(s).value < 0.0
    ensures Trim(s) != [] && Trim(s)[0] == '-'
  {
  }

  /** A string of digits reads as the whole number it writes. */
  lemma WholeNumber(ds: string)
    requires ds != [] && AllDigits(ds)
    ensures ToNumber(ds) == Some(DigitsValue(ds) as real)
  {
    assert IsDigit(ds[0]) && IsDigit(ds[|ds| - 1]);
    Signless(ds);
    NoDot(ds);
    assert ds[..DotIndex(ds)] == ds;
    assert Unsigned(ds) == Parts(ds, "");
    PartsOfDigits(ds, "");
    assert Fraction("") == 0.0;
  }

  lemma {:induction false} NoDot(ds: string)
    requires AllDigits(ds)
    ensures DotIndex(ds) == |ds|
  {
    if ds != [] {
      NoDot(ds[1..]);
    }
  }

  /** A blank field reads as 0, which every amount check refuses. */
  lemma BlankIsZero(s: string)
    requires IsBlank(s)
    ensures ToNumber(s) == Some(0.0)
  {
  }

  /** Digits, a dot and digits read as the whole part plus the fraction. */
  lemma Decimal(w: string, f: string)
    requires w != [] && f != [] && AllDigits(w) && AllDigits(f)
    ensures ToNumber(w + "." + f) == Some(DigitsValue(w) as real + Fraction(f))
  {
    var s := w + "." + f;
    assert s[0] == w[0] && s[|s| - 1] == f[|f| - 1];
    Signless(s);
    UnsignedDecimal(w, f);
  }

  /** A string that starts and ends with a digit has no sign and no
      surrounding space: it reads as an unsigned decimal. */
  lemma Signless(s: string)
    requires s != [] && IsDigit(s[0]) && IsDigit(s[|s| - 1])
    ensures ToNumber(s) == Unsigned(s)
  {
    assert !IsSpace(s[0]) && !IsSpace(s[|s| - 1]);
    TrimOfTrimmed(s);
  }

  lemma UnsignedDecimal(w: string, f: string)
    requires w != [] && f != [] && AllDigits(w) && AllDigits(f)
    ensures Unsigned(w + "." + f) == Some(DigitsValue(w) as real + Fraction(f))
  {
    var s := w + "." + f;
    assert s == w + ("." + f);
    DotAfterDigits(w, "." + f);
    assert DotIndex("." + f) == 0;
    var k := DotIndex(s);
    assert k == |w| < |s|;
    assert s[..k] == w && s[k + 1..] == f;
    assert Unsigned(s) == Parts(w, f);
    PartsOfDigits(w, f);
  }

  lemma PartsOfDigits(w: string, f: string)
    requires |w| + |f| != 0 && AllDigits(w) && AllDigits(f)
    ensures Parts(w, f) == Some(DigitsValue(w) as real + Fraction(f))
  {
  }

  /** The first dot after a run of digits is found past the run. */
  lemma {:induction false} DotAfterDigits(ds: string, rest: string)
    requires AllDigits(ds)
    ensures DotIndex(ds + rest) == |ds| + DotIndex(rest)
  {
    if ds == [] {
      assert ds + rest == rest;
    } else {
      assert (ds + rest)[1..] == ds[1..] + rest;
      DotAfterDigits(ds[1..], rest);
    }
  }
}
