/** Price coercion shared by the checkout handler (`toPrice`) and the cart
    (`priceNum`): a number passes through; anything else is reduced to its digits
    and dots and read with `parseFloat`, and what cannot be read is 0. Prices are
    exact reals here, not binary floating point. */
module Prices {
  import opened Js
  import opened Text

  /** A `price` field as JavaScript sees it: a number, a string, or missing. */
  datatype PriceInput = PriceNumber(n: real) | PriceText(s: string) | PriceMissing

  predicate IsPriceChar(c: char) {
    IsDigit(c) || c == '.'
  }

  predicate AllPriceChars(s: string) {
    forall i :: 0 <= i < |s| ==> IsPriceChar(s[i])
  }

  /** `s.replace(/[^0-9.]/g, "")`. */
  function PriceChars(s: string): (r: string)
    ensures AllPriceChars(r)
    ensures AllPriceChars(s) ==> r == s
    ensures (forall i :: 0 <= i < |s| ==> !IsPriceChar(s[i])) ==> r == []
  {
    if s == [] then []
    else (if IsPriceChar(s[0]) then [s[0]] else []) + PriceChars(s[1..])
  }

  lemma {:induction false} PriceCharsAppend(a: string, b: string)
    ensures PriceChars(a + b) == PriceChars(a) + PriceChars(b)
  {
    if a != [] {
      assert (a + b)[1..] == a[1..] + b;
      PriceCharsAppend(a[1..], b);
    } else {
      assert a + b == b;
    }
  }

  /** The longest prefix of `s` made of digits. */
  function LeadingDigits(s: string): (r: string)
    ensures r <= s && AllDigits(r)
    ensures |r| < |s| ==> !IsDigit(s[|r|])
    ensures AllDigits(s) ==> r == s
  {
    if s != [] && IsDigit(s[0]) then [s[0]] + LeadingDigits(s[1..]) else []
  }

  lemma {:induction false} LeadingDigitsAppend(d: string, t: string)
    requires AllDigits(d)
    ensures LeadingDigits(d + t) == d + LeadingDigits(t)
  {
    if d != [] {
      var dt := d + t;
      assert dt[0] == d[0] && IsDigit(dt[0]);
      assert dt[1..] == d[1..] + t;
      assert LeadingDigits(dt) == [d[0]] + LeadingDigits(d[1..] + t);
      LeadingDigitsAppend(d[1..], t);
      assert [d[0]] + (d[1..] + LeadingDigits(t)) == d + LeadingDigits(t);
    } else {
      assert d + t == t;
    }
  }

  function Pow10(k: nat): (p: nat)
    ensures p >= 1
  {
    if k == 0 then 1 else 10 * Pow10(k - 1)
  }

  /** The value of the decimal numeral `whole.frac`. */
  function DecimalValue(whole: string, frac: string): (v: real)
    requires AllDigits(whole) && AllDigits(frac)
    ensures v >= 0.0
  {
    DigitsValue(whole) as real + DigitsValue(frac) as real / Pow10(|frac|) as real
  }

  /** `parseFloat` of a string of digits and dots: it reads the longest prefix of
      the form `digits[.digits]` or `.digits`, and gives NaN (here `None`) exactly
      when no digit starts the number. */
  function ParseFloat(t: string): (r: Option<real>)
    requires AllPriceChars(t)
    ensures r.None? <==> (t == [] || (t[0] == '.' && (|t| == 1 || t[1] == '.')))
    ensures r.Some? ==> r.value >= 0.0
  {
    var whole := LeadingDigits(t);
    var rest := t[|whole|..];
    var frac := if rest != [] && rest[0] == '.' then LeadingDigits(rest[1..]) else [];
    if whole == [] && frac == [] then None
    else Some(DecimalValue(whole, frac))
  }

  /** `toPrice`: a number is kept as it is; every other input gives a price that
      is never negative, since no minus sign survives the stripping. */
  function ToPrice(v: PriceInput): (p: real)
    ensures v.PriceNumber? ==> p == v.n
    ensures !v.PriceNumber? ==> p >= 0.0
    ensures v.PriceMissing? ==> p == 0.0
    ensures v.PriceText? ==>
      var t := ParseFloat(PriceChars(v.s));
      (t.None? ==> p == 0.0) && (t.Some? ==> p == t.value)
  {
    match v
    case PriceNumber(n) => n
    case PriceText(s) =>
      var t := ParseFloat(PriceChars(s));
      if t.Some? then t.value else 0.0
    case PriceMissing => 0.0
  }

  /** Text without a single digit is priced 0: what survives the stripping is
      dots only, which `parseFloat` cannot read. */
  lemma ToPriceWithoutDigits(s: string)
    requires forall i :: 0 <= i < |s| ==> !IsDigit(s[i])
    ensures ToPrice(PriceText(s)) == 0.0
  {
    OnlyDotsSurvive(s);
  }

  lemma {:induction false} OnlyDotsSurvive(s: string)
    requires forall i :: 0 <= i < |s| ==> !IsDigit(s[i])
    ensures forall i :: 0 <= i < |PriceChars(s)| ==> PriceChars(s)[i] == '.'
  {
    if s != [] {
      OnlyDotsSurvive(s[1..]);
    }
  }

  /** A whole number written in decimal is read back as that number. */
  lemma ToPriceReadsWholeNumber(n: nat)
    ensures ToPrice(PriceText(DecimalString(n))) == n as real
  {
    var d := DecimalString(n);
    assert PriceChars(d) == d;
    DecimalStringValue(n);
    assert LeadingDigits(d) == d;
  }

  lemma ParseFloatOfDecimal(w: string, f: string)
    requires AllDigits(w) && AllDigits(f) && w != []
    ensures AllPriceChars(w + "." + f)
    ensures ParseFloat(w + "." + f) == Some(DecimalValue(w, f))
  {
    var s := w + "." + f;
    assert AllPriceChars(s) by {
      forall i | 0 <= i < |s| ensures IsPriceChar(s[i]) {
        if i < |w| { assert s[i] == w[i]; } else if i > |w| { assert s[i] == f[i - |w| - 1]; }
      }
    }
    LeadingDigitsAppend(w, "." + f);
    assert s == w + ("." + f);
    assert LeadingDigits("." + f) == [];
    assert LeadingDigits(s) == w;
    var rest := s[|w|..];
    assert rest == "." + f;
    assert rest[1..] == f;
    assert LeadingDigits(rest[1..]) == f;
  }

  /** `whole.frac` is read as whole + frac / 10^(digits of frac). */
  lemma ToPriceReadsFraction(whole: nat, frac: nat)
    ensures ToPrice(PriceText(DecimalString(whole) + "." + DecimalString(frac)))
         == whole as real + frac as real / Pow10(|DecimalString(frac)|) as real
  {
    var w := DecimalString(whole);
    var f := DecimalString(frac);
    ParseFloatOfDecimal(w, f);
    assert PriceChars(w + "." + f) == w + "." + f;
    DecimalStringValue(whole);
    DecimalStringValue(frac);
  }

  /** Currency symbols and other text around the number do not change the price. */
  lemma ToPriceSkipsSymbols(symbols: string, s: string)
    requires forall i :: 0 <= i < |symbols| ==> !IsPriceChar(symbols[i])
    ensures ToPrice(PriceText(symbols + s)) == ToPrice(PriceText(s))
  {
    PriceCharsAppend(symbols, s);
    assert PriceChars(symbols) == [];
    assert PriceChars(symbols + s) == PriceChars(s);
  }
}
