/** The modulo-11 check digit family that Bs2 and Efi each implement in their own
    `modulo11` method. The two methods differ only in how the weight moves on after
    each digit, so that rule is a parameter here; the methods are proved equal to
    `Modulo11` for their rule. */
module CheckDigit {
  import opened Php

  /** How the weight moves on after each digit. */
  datatype WeightRule =
    | ResetOnEqual    // Bs2: a weight equal to base becomes 1, then every weight is incremented
    | ResetAtOrAbove  // Efi: a weight at or above base becomes 2, any other is incremented
  {
    function Next(f: int, base: int): int {
      match this
      case ResetOnEqual => if f == base then 2 else f + 1
      case ResetAtOrAbove => if f >= base then 2 else f + 1
    }
  }

  /** The weight given to the k-th digit counted from the right (k = 0 is the last digit). */
  function Weight(rule: WeightRule, factor: int, base: int, k: nat): int {
    if k == 0 then factor else rule.Next(Weight(rule, factor, base, k - 1), base)
  }

  /** Sum of the digits of `n` times their weights, the last digit of `n` taking
      weight number `k`; a character that is not a digit counts as 0. */
  function WeightedSum(rule: WeightRule, n: string, factor: int, base: int, k: nat): int
    decreases |n|
  {
    if n == [] then 0
    else CastDigit(n[|n| - 1]) * Weight(rule, factor, base, k)
         + WeightedSum(rule, n[..|n| - 1], factor, base, k + 1)
  }

  /** The default-mode remainder-to-digit rule: d = (10 * sum) mod 11; a 10 becomes
      `resto10`; then a 0 or anything above 9 becomes 1. */
  function DigitOf(sum: int, resto10: int): (d: int)
    ensures sum >= 0 && resto10 >= 0 ==> 1 <= d <= 9
    ensures 1 <= Rem(sum * 10, 11) <= 9 ==> d == Rem(sum * 10, 11)
    ensures Rem(sum * 10, 11) == 0 ==> d == 1
    ensures Rem(sum * 10, 11) == 10 ==> d == (if resto10 == 0 || resto10 > 9 then 1 else resto10)
    ensures Rem(sum * 10, 11) < 0 ==> d == Rem(sum * 10, 11)
  {
    var d := Rem(sum * 10, 11);
    var d' := if d == 10 then resto10 else d;
    if d' == 0 || d' > 9 then 1 else d'
  }

  /** modulo11($n, $factor, $base, $x10, $resto10): the mapped check digit when
      x10 is 0, otherwise the raw weighted sum modulo 11. */
  function Modulo11(rule: WeightRule, n: string, factor: int, base: int, x10: int, resto10: int): int {
    var sum := WeightedSum(rule, n, factor, base, 0);
    if x10 == 0 then DigitOf(sum, resto10) else Rem(sum, 11)
  }

  /** With the standard parameters (factor 2, base 9) both rules weigh the digits
      2, 3, ..., 9, 2, 3, ... from the rightmost one. */
  lemma {:induction false} StandardWeights(rule: WeightRule, k: nat)
    ensures Weight(rule, 2, 9, k) == 2 + k % 8
  {
    if k > 0 {
      StandardWeights(rule, k - 1);
      if (k - 1) % 8 == 7 {
        assert k % 8 == 0;
      } else {
        assert k % 8 == (k - 1) % 8 + 1;
      }
    }
  }

  /** From a non-negative start, every later weight is at least 1 under both rules. */
  lemma {:induction false} WeightsPositive(rule: WeightRule, factor: int, base: int, k: nat)
    requires factor >= 0
    ensures Weight(rule, factor, base, k) >= 0
    ensures k >= 1 ==> Weight(rule, factor, base, k) >= 1
  {
    if k > 0 {
      WeightsPositive(rule, factor, base, k - 1);
    }
  }

  /** From a non-negative start factor the weighted sum is never negative. */
  lemma {:induction false} SumNonNegative(rule: WeightRule, n: string, factor: int, base: int, k: nat)
    requires factor >= 0
    ensures WeightedSum(rule, n, factor, base, k) >= 0
    decreases |n|
  {
    if n != [] {
      WeightsPositive(rule, factor, base, k);
      SumNonNegative(rule, n[..|n| - 1], factor, base, k + 1);
    }
  }

  /** The default mode (x10 == 0) always yields a single digit 1..9 when the start
      factor and the substitute for 10 are not negative. */
  lemma DefaultModeIsDigit(rule: WeightRule, n: string, factor: int, base: int, resto10: int)
    requires factor >= 0 && resto10 >= 0
    ensures 1 <= Modulo11(rule, n, factor, base, 0, resto10) <= 9
  {
    SumNonNegative(rule, n, factor, base, 0);
  }

  /** Any other x10 returns the raw weighted sum modulo 11, a value in 0..10 when
      the start factor is not negative. */
  lemma RawModeRange(rule: WeightRule, n: string, factor: int, base: int, x10: int, resto10: int)
    requires factor >= 0 && x10 != 0
    ensures Modulo11(rule, n, factor, base, x10, resto10) == WeightedSum(rule, n, factor, base, 0) % 11
    ensures 0 <= Modulo11(rule, n, factor, base, x10, resto10) <= 10
  {
    SumNonNegative(rule, n, factor, base, 0);
  }

  /** A string of zeros has weighted sum 0. */
  lemma {:induction false} ZeroDigitsSum(rule: WeightRule, n: string, factor: int, base: int, k: nat)
    requires forall i :: 0 <= i < |n| ==> CastDigit(n[i]) == 0
    ensures WeightedSum(rule, n, factor, base, k) == 0
    decreases |n|
  {
    if n != [] {
      ZeroDigitsSum(rule, n[..|n| - 1], factor, base, k + 1);
    }
  }

  /** An all-zero digit string gets check digit 1 in the default mode, whatever the
      weights and the substitute for 10: the remainder 0 is forced to 1. */
  lemma AllZerosGiveOne(rule: WeightRule, n: string, factor: int, base: int, resto10: int)
    requires forall i :: 0 <= i < |n| ==> n[i] == '0'
    ensures Modulo11(rule, n, factor, base, 0, resto10) == 1
  {
    ZeroDigitsSum(rule, n, factor, base, 0);
  }

  /** When the start factor is at most base (and base is at least 2) the two rules
      produce the same weights, and none exceeds base. */
  lemma {:induction false} WeightsAgree(factor: int, base: int, k: nat)
    requires 2 <= base && factor <= base
    ensures Weight(ResetOnEqual, factor, base, k) == Weight(ResetAtOrAbove, factor, base, k)
    ensures Weight(ResetOnEqual, factor, base, k) <= base
  {
    if k > 0 {
      WeightsAgree(factor, base, k - 1);
    }
  }

  /** Once the start factor exceeds base the Bs2 weight never resets and keeps
      growing, while the Efi weight is back to 2 after the first digit. */
  lemma {:induction false} WeightsDivergeAboveBase(factor: int, base: int, k: nat)
    requires factor > base
    ensures Weight(ResetOnEqual, factor, base, k) == factor + k
    ensures k == 1 ==> Weight(ResetAtOrAbove, factor, base, k) == 2
  {
    if k > 0 {
      WeightsDivergeAboveBase(factor, base, k - 1);
    }
  }

  /** After the first digit the Efi weight always lies in 2..base, for a start factor
      of at least 1 and a base of at least 2. */
  lemma {:induction false} EfiWeightInRange(factor: int, base: int, k: nat)
    requires 1 <= factor && 2 <= base && k >= 1
    ensures 2 <= Weight(ResetAtOrAbove, factor, base, k) <= base
  {
    if k > 1 {
      EfiWeightInRange(factor, base, k - 1);
    }
  }

  lemma {:induction false} SumsAgree(n: string, factor: int, base: int, k: nat)
    requires 2 <= base && factor <= base
    ensures WeightedSum(ResetOnEqual, n, factor, base, k) == WeightedSum(ResetAtOrAbove, n, factor, base, k)
    decreases |n|
  {
    if n != [] {
      WeightsAgree(factor, base, k);
      SumsAgree(n[..|n| - 1], factor, base, k + 1);
    }
  }

  /** The Bs2 and Efi check digits coincide whenever the start factor is at most base
      and base is at least 2. */
  lemma RulesAgree(n: string, factor: int, base: int, x10: int, resto10: int)
    requires 2 <= base && factor <= base
    ensures Modulo11(ResetOnEqual, n, factor, base, x10, resto10)
         == Modulo11(ResetAtOrAbove, n, factor, base, x10, resto10)
  {
    SumsAgree(n, factor, base, 0);
  }

  /** Worked case: for "0000000123" with the standard parameters the weighted sum is
      3*2 + 2*3 + 1*4 = 16, and (16 * 10) mod 11 = 6. */
  lemma StandardExample(rule: WeightRule)
    ensures Modulo11(rule, "0000000123", 2, 9, 0, 0) == 6
  {
    var n := "0000000123";
    assert n[..9] == "000000012";
    assert n[..9][..8] == "00000001";
    assert n[..9][..8][..7] == "0000000";
    StandardWeights(rule, 0);
    StandardWeights(rule, 1);
    StandardWeights(rule, 2);
    ZeroDigitsSum(rule, "0000000", 2, 9, 3);
    assert WeightedSum(rule, n, 2, 9, 0) == 16;
  }
}
