/**
 * Final-state visibility rules of the analysis step and the name of the flux
 * histogram chosen for a (flavor, current) pair.
 */
module Visibility {

  function Pow10(k: nat): (p: nat)
    ensures p >= 1
  {
    if k == 0 then 1 else 10 * Pow10(k - 1)
  }

  function DigitChar(d: nat): char
    requires d < 10
  {
    ('0' as int + d) as char
  }

  /** Decimal digits of a natural number, most significant first, without leading zeros. */
  function Digits(n: nat): (s: string)
    ensures |s| >= 1
  {
    if n < 10 then [DigitChar(n)] else Digits(n / 10) + [DigitChar(n % 10)]
  }

  /** `std::to_string` of an integer: a minus sign before the digits of a negative number. */
  function DecimalString(n: int): string {
    if n < 0 then "-" + Digits(-n) else Digits(n)
  }

  /** A number has at most k >= 1 decimal digits exactly when it is below 10^k. */
  lemma {:induction false} DigitsLength(n: nat, k: nat)
    requires k >= 1
    ensures |Digits(n)| <= k <==> n < Pow10(k)
  {
    if n >= 10 {
      if k == 1 {
        assert Pow10(1) == 10;
      } else {
        DigitsLength(n / 10, k - 1);
        assert Pow10(k) == 10 * Pow10(k - 1);
      }
    } else {
      PowAtLeastTen(k);
    }
  }

  lemma {:induction false} PowAtLeastTen(k: nat)
    requires k >= 1
    ensures Pow10(k) >= 10
  {
    if k > 1 {
      PowAtLeastTen(k - 1);
    }
  }

  /** `isNuclearCode`: the decimal string of the code, sign included, has ten characters. */
  predicate IsNuclearCode(pdg: int) {
    |DecimalString(pdg)| == 10
  }

  /**
   * The ten-character rule in numbers: positive codes with ten digits, and
   * negative codes with nine (the minus sign is the tenth character).
   */
  lemma NuclearCodeRange(pdg: int)
    ensures IsNuclearCode(pdg) <==>
      (1_000_000_000 <= pdg < 10_000_000_000) || (-999_999_999 <= pdg <= -100_000_000)
  {
    var n := if pdg < 0 then -pdg else pdg;
    assert Pow10(8) == 100_000_000;
    assert Pow10(9) == 1_000_000_000;
    assert Pow10(10) == 10_000_000_000;
    DigitsLength(n, 8);
    DigitsLength(n, 9);
    DigitsLength(n, 10);
  }

  /** Within 32-bit `int`, every positive code from 10^9 up is nuclear. */
  lemma NuclearCodeRangeInt32(pdg: int)
    requires -0x8000_0000 <= pdg < 0x8000_0000
    ensures IsNuclearCode(pdg) <==> pdg >= 1_000_000_000 || (-999_999_999 <= pdg <= -100_000_000)
  {
    NuclearCodeRange(pdg);
  }

  /** `isFinalState`: generator status 1 (stable final state) or 15. */
  predicate IsFinalState(status: int) {
    status == 1 || status == 15
  }

  predicate IsNeutrinoCode(pdg: int) {
    pdg == -12 || pdg == -14 || pdg == -16 || pdg == 12 || pdg == 14 || pdg == 16
  }

  /**
   * `isVisibleAndSufficientEnergy`: a final-state particle that is not a
   * neutrino, a neutron or a nuclear fragment, and whose energy passes the
   * threshold of its species.
   */
  function IsVisibleAndSufficientEnergy(pdg: int, status: int, energy: real): (visible: bool)
    ensures visible ==> IsFinalState(status)
    ensures visible ==> !IsNeutrinoCode(pdg) && pdg != 2112 && !IsNuclearCode(pdg)
  {
    if status != 1 && status != 15 then false
    else if IsNeutrinoCode(pdg) || pdg == 2112 || IsNuclearCode(pdg) then false
    else if pdg == 211 || pdg == -211 then energy > 0.1
    else if pdg == 2212 then energy > 0.05
    else if pdg == 22 || pdg == 11 || pdg == -11 || pdg == 13 || pdg == -13 then energy > 0.03
    else true
  }

  /** Outside status 1 and 15 nothing is visible, whatever the code and energy. */
  lemma NotFinalStateInvisible(pdg: int, status: int, energy: real)
    requires status != 1 && status != 15
    ensures !IsVisibleAndSufficientEnergy(pdg, status, energy)
  {
  }

  /** Neutrinos, neutrons and nuclear fragments are invisible at any energy. */
  lemma ExcludedSpeciesInvisible(pdg: int, status: int, energy: real)
    requires IsNeutrinoCode(pdg) || pdg == 2112
      || pdg >= 1_000_000_000 || (-999_999_999 <= pdg <= -100_000_000)
    requires -0x8000_0000 <= pdg < 0x8000_0000
    ensures !IsVisibleAndSufficientEnergy(pdg, status, energy)
  {
    NuclearCodeRange(pdg);
  }

  /** The per-species energy thresholds applied to final-state particles. */
  lemma EnergyThresholds(pdg: int, status: int, energy: real)
    requires IsFinalState(status)
    ensures (pdg == 211 || pdg == -211) ==> (IsVisibleAndSufficientEnergy(pdg, status, energy) <==> energy > 0.1)
    ensures pdg == 2212 ==> (IsVisibleAndSufficientEnergy(pdg, status, energy) <==> energy > 0.05)
    ensures (pdg == 22 || pdg == 11 || pdg == -11 || pdg == 13 || pdg == -13) ==>
      (IsVisibleAndSufficientEnergy(pdg, status, energy) <==> energy > 0.03)
  {
    if pdg == 211 || pdg == -211 || pdg == 2212 || pdg == 22
      || pdg == 11 || pdg == -11 || pdg == 13 || pdg == -13
    {
      NuclearCodeRange(pdg);
    }
  }

  /** Any other code that escapes the exclusions is visible at every energy. */
  lemma OtherSpeciesAlwaysVisible(pdg: int, status: int, energy: real)
    requires IsFinalState(status)
    requires !IsNeutrinoCode(pdg) && pdg != 2112
    requires !(1_000_000_000 <= pdg < 10_000_000_000) && !(-999_999_999 <= pdg <= -100_000_000)
    requires pdg != 211 && pdg != -211 && pdg != 2212
    requires pdg != 22 && pdg != 11 && pdg != -11 && pdg != 13 && pdg != -13
    ensures IsVisibleAndSufficientEnergy(pdg, status, energy)
  {
    NuclearCodeRange(pdg);
  }

  /** The flavor part of the histogram key; `operator[]` yields "" for other flavors. */
  const FlavorNames: map<int, string> := map[12 := "nue", 14 := "numu", 16 := "nutau"]

  function FlavorName(flavor: int): string {
    if flavor in FlavorNames then FlavorNames[flavor] else ""
  }

  /** `getHistogramName`: flavor name followed by "_cc" when cc is non-zero, "_nc" otherwise. */
  function HistogramName(flavor: int, cc: int): (name: string)
    ensures |name| >= 3
    ensures name[|name| - 3..] == (if cc != 0 then "_cc" else "_nc")
  {
    FlavorName(flavor) + (if cc != 0 then "_cc" else "_nc")
  }

  lemma HistogramNames(flavor: int, cc: int)
    ensures flavor == 12 ==> HistogramName(flavor, cc) == (if cc != 0 then "nue_cc" else "nue_nc")
    ensures flavor == 14 ==> HistogramName(flavor, cc) == (if cc != 0 then "numu_cc" else "numu_nc")
    ensures flavor == 16 ==> HistogramName(flavor, cc) == (if cc != 0 then "nutau_cc" else "nutau_nc")
    ensures flavor != 12 && flavor != 14 && flavor != 16 ==>
      HistogramName(flavor, cc) == (if cc != 0 then "_cc" else "_nc")
  {
  }

  /**
   * For the three neutrino flavors, distinct (flavor, current) pairs select
   * distinct histograms.
   */
  lemma HistogramNameInjective(f1: int, c1: int, f2: int, c2: int)
    requires f1 in FlavorNames && f2 in FlavorNames
    requires HistogramName(f1, c1) == HistogramName(f2, c2)
    ensures f1 == f2 && (c1 != 0 <==> c2 != 0)
  {
    var n := HistogramName(f1, c1);
    assert |n| == |FlavorName(f1)| + 3 == |FlavorName(f2)| + 3;
    assert n[|n| - 3..] == (if c1 != 0 then "_cc" else "_nc");
    assert n[|n| - 3..] == (if c2 != 0 then "_cc" else "_nc");
  }
}
