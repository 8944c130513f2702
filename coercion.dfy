/**
 * Numeric coercion (`num`, src/App.tsx line 48): every free-text amount becomes a finite number,
 * and whatever does not convert to one becomes 0.
 *
 * JavaScript's `Number(text)` is not re-implemented: it is a parameter of type `NumberParser`,
 * and `FollowsJsNumber` collects the facts about it that the worked examples rely on.
 */
module Coercion {
  import opened JsText

  /** What `Number(x)` yields: a finite value, NaN or an infinity (rounding to doubles is not modelled). */
  datatype JsNumber = Finite(value: real) | NaN | Infinity(negative: bool)

  /** `Number(text)` for the text fields of a scenario. */
  type NumberParser = string -> JsNumber

  /** `num`: `isFinite(Number(n)) ? Number(n) : 0`. */
  function Num(parse: NumberParser, s: string): real {
    if parse(s).Finite? then parse(s).value else 0.0
  }

  /**
   * `num` never fails and never invents a value: a finite conversion is returned as it is, and
   * NaN or an infinity becomes 0.
   */
  lemma NumIsParsedOrZero(parse: NumberParser, s: string)
    ensures parse(s).Finite? ==> Num(parse, s) == parse(s).value
    ensures !parse(s).Finite? ==> Num(parse, s) == 0.0
    ensures Num(parse, s) == 0.0 || parse(s) == Finite(Num(parse, s))
  {
  }

  // ---------------------------------------------------------------------------------------------
  // Plain decimal literals ("120", "7.5"): the inputs whose conversion the model states exactly.

  predicate AllDigits(s: string) {
    forall i :: 0 <= i < |s| ==> IsDigit(s[i])
  }

  function DigitValue(c: char): nat
    requires IsDigit(c)
  {
    c as int - '0' as int
  }

  /** The value of a string of decimal digits, most significant first. */
  function DigitsValue(s: string): nat
    requires AllDigits(s)
  {
    if s == [] then 0 else DigitValue(s[0]) * Pow10(|s| - 1) + DigitsValue(s[1..])
  }

  function Pow10(n: nat): (r: nat)
    ensures r > 0
  {
    if n == 0 then 1 else 10 * Pow10(n - 1)
  }

  /** The index of the first '.', or |s| when there is none. */
  function DotIndex(s: string): (k: nat)
    ensures k <= |s|
    ensures k < |s| ==> s[k] == '.'
    ensures forall i :: 0 <= i < k ==> s[i] != '.'
  {
    if s == [] then 0 else if s[0] == '.' then 0 else 1 + DotIndex(s[1..])
  }

  /** Digits, optionally followed by a '.' and more digits: "900", "1.8". */
  predicate IsPlainDecimal(s: string) {
    var k := DotIndex(s);
    0 < k && AllDigits(s[..k]) && (k == |s| || (k + 1 < |s| && AllDigits(s[k + 1..])))
  }

  /** The exact rational value of a plain decimal literal. */
  function DecimalValue(s: string): (r: real)
    requires IsPlainDecimal(s)
    ensures r >= 0.0
  {
    var k := DotIndex(s);
    if k == |s| then DigitsValue(s) as real
    else DigitsValue(s[..k]) as real + DigitsValue(s[k + 1..]) as real / Pow10(|s| - k - 1) as real
  }

  /**
   * Text that no JavaScript numeric literal can start with (after leading white space, a numeric
   * literal starts with a digit, '.', a sign, or the 'I' of "Infinity"), such as "abc".
   */
  predicate StartsNonNumeric(s: string) {
    |s| > 0 && !IsJsWhitespace(s[0]) && !IsDigit(s[0]) && s[0] != '.' && s[0] != '+' && s[0] != '-' && s[0] != 'I'
  }

  /** Facts of ECMAScript's `Number(text)` that the model relies on. */
  ghost predicate FollowsJsNumber(parse: NumberParser) {
    && parse("") == Finite(0.0)
    && (forall s {:trigger IsPlainDecimal(s)} :: IsPlainDecimal(s) ==> parse(s) == Finite(DecimalValue(s)))
    && (forall s {:trigger StartsNonNumeric(s)} :: StartsNonNumeric(s) ==> parse(s) == NaN)
  }

  /** `num` of a plain decimal literal is exactly its value. */
  lemma NumOfDecimal(parse: NumberParser, s: string)
    requires FollowsJsNumber(parse)
    requires IsPlainDecimal(s)
    ensures Num(parse, s) == DecimalValue(s)
  {
  }

  /** `num` of a string of digits is the number they spell: "900" reads as 900. */
  lemma NumOfDigits(parse: NumberParser, s: string)
    requires FollowsJsNumber(parse)
    requires |s| > 0 && AllDigits(s)
    ensures Num(parse, s) == DigitsValue(s) as real
  {
    assert DotIndex(s) == |s|;
    assert s[..|s|] == s;
    assert IsPlainDecimal(s);
  }

  /** `num` of empty or non-numeric text is 0: a typo degrades an amount to zero. */
  lemma NumOfNonNumeric(parse: NumberParser, s: string)
    requires FollowsJsNumber(parse)
    requires s == "" || StartsNonNumeric(s)
    ensures Num(parse, s) == 0.0
  {
  }

  /** A decimal literal with a fraction reads as integer part plus the scaled fraction digits. */
  lemma DecimalWithFraction(i: string, f: string)
    requires |i| > 0 && |f| > 0 && AllDigits(i) && AllDigits(f)
    ensures IsPlainDecimal(i + "." + f)
    ensures DecimalValue(i + "." + f) == DigitsValue(i) as real + DigitsValue(f) as real / Pow10(|f|) as real
  {
    var s := i + "." + f;
    DotIndexAt(s, |i|);
    assert s[..|i|] == i;
    assert s[|i| + 1..] == f;
  }

  /** A '.' at position k with none before it is what `DotIndex` finds. */
  lemma {:induction false} DotIndexAt(s: string, k: nat)
    requires k < |s| && s[k] == '.'
    requires forall j :: 0 <= j < k ==> s[j] != '.'
    ensures DotIndex(s) == k
  {
    if k > 0 {
      DotIndexAt(s[1..], k - 1);
    }
  }
}
