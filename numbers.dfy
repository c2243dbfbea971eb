/**
 * `formatNumber`, which the YouTube and GitHub fetchers share: counts of a
 * million or more in millions with one decimal and `M`, of a thousand or
 * more in thousands with `K`, smaller ones in full. `toFixed(1)` works on a
 * floating-point number; its rendering is the parameter `fixed1`, applied to
 * the exact quotient.
 */
module Numbers {
  import opened Strings

  function FormatNumber(num: nat, fixed1: real -> string): string {
    if num >= 1000000 then fixed1(num as real / 1000000.0) + "M"
    else if num >= 1000 then fixed1(num as real / 1000.0) + "K"
    else NatToString(num)
  }

  /**
   * A count below a thousand is written out digit for digit; a larger one is
   * scaled into [1, 1000) thousands, or into millions from 1 up, and carries
   * the matching suffix.
   */
  lemma FormatNumberMeaning(num: nat, fixed1: real -> string)
    ensures var r := FormatNumber(num, fixed1);
      && (num < 1000 ==> 1 <= |r| <= 3 && (forall k :: 0 <= k < |r| ==> IsDigit(r[k])) && DigitsValue(r) == num)
      && (1000 <= num < 1000000 ==> exists x: real :: 1.0 <= x < 1000.0 && x * 1000.0 == num as real && r == fixed1(x) + "K")
      && (1000000 <= num ==> exists x: real :: 1.0 <= x && x * 1000000.0 == num as real && r == fixed1(x) + "M")
  {
    var r := FormatNumber(num, fixed1);
    if num < 1000 {
      NatToStringShort(num);
    } else if num < 1000000 {
      var x := num as real / 1000.0;
      assert 1.0 <= x < 1000.0 && x * 1000.0 == num as real && r == fixed1(x) + "K";
    } else {
      var x := num as real / 1000000.0;
      assert 1.0 <= x && x * 1000000.0 == num as real && r == fixed1(x) + "M";
    }
  }

  /** Below a thousand, at most three digits. */
  lemma NatToStringShort(n: nat)
    requires n < 1000
    ensures |NatToString(n)| <= 3
  {
    if n >= 10 {
      NatToStringShort(n / 10);
    }
  }
}
