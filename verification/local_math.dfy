/**
 * The chatbot's local arithmetic: `sum(int(n) for n in re.findall(r"\d+", prompt))`,
 * the total of every maximal run of decimal digits in the prompt.
 */
module LocalMath {
  import Text

  /** Length of the run of digits at the start of `s`. */
  function DigitRunLength(s: string): (k: nat)
    ensures k <= |s|
    ensures Text.AllDigits(s[..k])
    ensures k == |s| || !Text.IsDigit(s[k])
  {
    if |s| == 0 || !Text.IsDigit(s[0]) then 0
    else
      var k := 1 + DigitRunLength(s[1..]);
      assert s[..k] == [s[0]] + s[1..][..k - 1];
      k
  }

  /** The sum of the numbers `\d+` finds in `s`, scanning left to right. */
  function SumOfNumbers(s: string): nat
    decreases |s|
  {
    if |s| == 0 then 0
    else if !Text.IsDigit(s[0]) then SumOfNumbers(s[1..])
    else
      var k := DigitRunLength(s);
      Text.DecimalValue(s[..k]) + SumOfNumbers(s[k..])
  }

  lemma {:induction false} DigitRunLengthUnique(s: string, k: nat)
    requires k <= |s| && Text.AllDigits(s[..k])
    requires k == |s| || !Text.IsDigit(s[k])
    ensures DigitRunLength(s) == k
  {
    if k > 0 {
      assert s[1..][..k - 1] == s[1..k];
      DigitRunLengthUnique(s[1..], k - 1);
    }
  }

  /** Text without digits adds nothing. */
  lemma {:induction false} SumOfNumbersNoDigits(s: string)
    requires forall i :: 0 <= i < |s| ==> !Text.IsDigit(s[i])
    ensures SumOfNumbers(s) == 0
    decreases |s|
  {
    if |s| > 0 {
      SumOfNumbersNoDigits(s[1..]);
    }
  }

  /** A single run of digits counts as its decimal value. */
  lemma SumOfNumbersOneRun(s: string)
    requires |s| > 0 && Text.AllDigits(s)
    ensures SumOfNumbers(s) == Text.DecimalValue(s)
  {
    assert s[..|s|] == s;
    DigitRunLengthUnique(s, |s|);
    assert s[|s|..] == [];
  }

  /**
   * A non-digit separates the text into two parts whose numbers are summed
   * independently: no run of digits crosses it.
   */
  lemma {:induction false} SumOfNumbersSplit(a: string, c: char, b: string)
    requires !Text.IsDigit(c)
    ensures SumOfNumbers(a + [c] + b) == SumOfNumbers(a) + SumOfNumbers(b)
    decreases |a|
  {
    var s := a + [c] + b;
    if |a| == 0 {
      assert s == [c] + b;
      assert s[1..] == b;
    } else if !Text.IsDigit(a[0]) {
      assert s[1..] == a[1..] + [c] + b;
      SumOfNumbersSplit(a[1..], c, b);
    } else {
      var k := DigitRunLength(a);
      assert s[..k] == a[..k];
      DigitRunLengthUnique(s, k);
      assert s[k..] == a[k..] + [c] + b;
      SumOfNumbersSplit(a[k..], c, b);
    }
  }
}
