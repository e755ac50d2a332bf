/**
 * The check-digit functions `validateEAN13`, `validateEAN8` and `validateUPC`, and
 * the GS1 modulo-10 check digit they implement (GS1 General Specifications,
 * section 7.9).
 */
module Checksum {
  import opened Text

  /** The three check-digit schemes; each fixes a length and the weights from the left. */
  datatype Scheme = Ean13 | Ean8 | UpcA {
    /** The length the function demands before it looks at any digit. */
    function Length(): nat {
      match this
      case Ean13 => 13
      case Ean8 => 8
      case UpcA => 12
    }

    /** The weight of the digit at 0-based position `i` from the left:
        1, 3, 1, ... for EAN-13 and 3, 1, 3, ... for EAN-8 and UPC-A. */
    function Weight(i: nat): nat {
      match this
      case Ean13 => if i % 2 == 0 then 1 else 3
      case _ => if i % 2 == 0 then 3 else 1
    }
  }

  /** `Number(c)` of a one-character string is a number for a digit and 0 for
      whitespace; any other character gives NaN. */
  predicate IsNumeric(c: char) {
    IsDigit(c) || IsWhitespace(c)
  }

  predicate AllNumeric(s: string) {
    forall k :: 0 <= k < |s| ==> IsNumeric(s[k])
  }

  /** The value of `Number(c)` where it is a number. */
  function NumberValue(c: char): (v: nat)
    ensures v < 10
  {
    if IsDigit(c) then DigitValue(c) else 0
  }

  /** `sum` after the loop has visited every character of `p`. */
  function WeightedSum(scheme: Scheme, p: string): nat {
    if |p| == 0 then 0
    else WeightedSum(scheme, p[..|p| - 1]) + NumberValue(p[|p| - 1]) * scheme.Weight(|p| - 1)
  }

  /** `(10 - (sum % 10)) % 10`: the one digit that brings the sum to a multiple of ten. */
  function CheckDigitOf(sum: nat): (d: nat)
    ensures d < 10 && (sum + d) % 10 == 0
  {
    (10 - sum % 10) % 10
  }

  /** What the source's check-digit function returns for `data`: the length is exact,
      no character is NaN, and the last character equals the computed check digit. */
  predicate HasValidCheckDigit(scheme: Scheme, data: string) {
    |data| == scheme.Length() && AllNumeric(data) &&
    CheckDigitOf(WeightedSum(scheme, data[..|data| - 1])) == NumberValue(data[|data| - 1])
  }

  /** `validateEAN13` / `validateEAN8` / `validateUPC`: the length test, then the
      weighted-sum loop over the payload, then the comparison with the last digit. */
  method ValidateCheckDigit(scheme: Scheme, data: string) returns (ok: bool)
    ensures ok == HasValidCheckDigit(scheme, data)
  {
    var n := scheme.Length();
    if |data| != n {
      return false;
    }
    var sum := 0;
    var isNaN := false;
    for i := 0 to n - 1
      invariant isNaN == !AllNumeric(data[..i])
      invariant sum == WeightedSum(scheme, data[..i])
    {
      assert data[..i + 1][..i] == data[..i];
      if !IsNumeric(data[i]) {
        isNaN := true;
      }
      sum := sum + NumberValue(data[i]) * scheme.Weight(i);
    }
    ok := !isNaN && IsNumeric(data[n - 1]) && CheckDigitOf(sum) == NumberValue(data[n - 1]);
    assert AllNumeric(data) <==> AllNumeric(data[..n - 1]) && IsNumeric(data[n - 1]);
  }

  /** The GS1 weight of the digit at position `p` counted from the right, the check digit being
      position 1: odd positions weigh 1, even positions weigh 3. */
  function Gs1Weight(p: nat): nat {
    if p % 2 == 1 then 1 else 3
  }

  /** The sum of the first `m` digits of `s`, each weighted by its position from the right. */
  function Gs1Prefix(s: string, m: nat): nat
    requires m <= |s|
  {
    if m == 0 then 0 else Gs1Prefix(s, m - 1) + NumberValue(s[m - 1]) * Gs1Weight(|s| - (m - 1))
  }

  /** The GS1 check: the weighted sum of all digits, check digit included, is a multiple of ten. */
  predicate Gs1Valid(s: string) {
    Gs1Prefix(s, |s|) % 10 == 0
  }

  /** At the scheme's own length, the weights from the left are the GS1 weights from the right. */
  lemma WeightIsGs1Weight(scheme: Scheme, i: nat)
    requires i < scheme.Length()
    ensures scheme.Weight(i) == Gs1Weight(scheme.Length() - i)
  {
  }

  lemma {:induction false} WeightedSumIsGs1Prefix(scheme: Scheme, s: string, m: nat)
    requires |s| == scheme.Length() && m <= |s|
    ensures WeightedSum(scheme, s[..m]) == Gs1Prefix(s, m)
  {
    if m > 0 {
      WeightedSumIsGs1Prefix(scheme, s, m - 1);
      assert s[..m][..m - 1] == s[..m - 1];
      WeightIsGs1Weight(scheme, m - 1);
    }
  }

  /** For digit strings the source's check agrees with the GS1 definition, and rejects every
      length other than the scheme's. */
  lemma {:induction false} CheckDigitIsGs1(scheme: Scheme, s: string)
    requires AllDigits(s)
    ensures HasValidCheckDigit(scheme, s) <==> |s| == scheme.Length() && Gs1Valid(s)
  {
    if |s| == scheme.Length() {
      var n := |s|;
      WeightedSumIsGs1Prefix(scheme, s, n - 1);
      var sum := WeightedSum(scheme, s[..n - 1]);
      assert Gs1Prefix(s, n) == sum + NumberValue(s[n - 1]);
      CheckDigitMatches(sum, NumberValue(s[n - 1]));
      assert AllNumeric(s);
    }
  }

  /** A digit is the check digit of a sum exactly when adding it gives a multiple of ten. */
  lemma CheckDigitMatches(sum: nat, v: nat)
    requires v < 10
    ensures CheckDigitOf(sum) == v <==> (sum + v) % 10 == 0
  {
    var d := CheckDigitOf(sum);
    if (sum + v) % 10 == 0 {
      assert (v - d) % 10 == 0;
    }
  }

  /** For every payload of digits exactly one final digit passes: the check digit. */
  lemma ExactlyOneCheckDigit(scheme: Scheme, payload: string, d: nat)
    requires |payload| == scheme.Length() - 1 && AllDigits(payload) && d < 10
    ensures HasValidCheckDigit(scheme, payload + [DigitChar(d)]) <==> d == CheckDigitOf(WeightedSum(scheme, payload))
  {
    var s := payload + [DigitChar(d)];
    assert s[..|s| - 1] == payload;
    assert AllNumeric(s);
  }

  lemma {:induction false} Gs1PrefixOneChange(s: string, t: string, k: nat, m: nat)
    requires |s| == |t| && k < |s| && m <= |s|
    requires forall j :: 0 <= j < |s| && j != k ==> s[j] == t[j]
    ensures Gs1Prefix(t, m) == Gs1Prefix(s, m) + (if k < m then NumberValue(t[k]) * Gs1Weight(|s| - k) - NumberValue(s[k]) * Gs1Weight(|s| - k) else 0)
  {
    if m > 0 {
      Gs1PrefixOneChange(s, t, k, m - 1);
    }
  }

  /** A single mistyped digit is always detected: changing one digit of a code that passes
      makes it fail. */
  lemma SingleDigitErrorDetected(scheme: Scheme, s: string, t: string, k: nat)
    requires AllDigits(s) && AllDigits(t) && |s| == |t| && k < |s|
    requires forall j :: 0 <= j < |s| && j != k ==> s[j] == t[j]
    requires s[k] != t[k]
    requires HasValidCheckDigit(scheme, s)
    ensures !HasValidCheckDigit(scheme, t)
  {
    CheckDigitIsGs1(scheme, s);
    CheckDigitIsGs1(scheme, t);
    Gs1PrefixOneChange(s, t, k, |s|);
    var w := Gs1Weight(|s| - k);
    var delta := NumberValue(t[k]) - NumberValue(s[k]);
    assert delta != 0;
    var a := Gs1Prefix(s, |s|);
    assert Gs1Prefix(t, |s|) == a + delta * w;
    ShiftBreaksMultipleOfTen(a, delta, w);
  }

  /** Adding one or three times a non-zero digit difference to a multiple of ten never gives a
      multiple of ten. */
  lemma ShiftBreaksMultipleOfTen(a: int, delta: int, w: nat)
    requires a % 10 == 0 && delta != 0 && -10 < delta < 10 && (w == 1 || w == 3)
    ensures (a + delta * w) % 10 != 0
  {
    if w == 3 {
      assert delta * w == 3 * delta;
    }
  }

}
