/**
 * The two computing helpers of src/utils/formatters.ts: percentage change
 * against a baseline and ellipsis truncation. JavaScript numbers are
 * modelled as exact reals. String lengths are counted in characters (Unicode
 * scalar values), where JavaScript counts UTF-16 code units.
 */
module Formatters {

  /**
   * `calculatePercentChange`: the change from `previous` to `current` in
   * percent of `previous`; a zero baseline gives 100 for a positive current
   * value and 0 otherwise.
   */
  function CalculatePercentChange(current: real, previous: real): (r: real)
    ensures previous == 0.0 ==> r == (if current > 0.0 then 100.0 else 0.0)
    ensures previous != 0.0 ==> previous + previous * r / 100.0 == current
  {
    if previous == 0.0 then (if current > 0.0 then 100.0 else 0.0)
    else (current - previous) / previous * 100.0
  }

  /** No change is 0 percent; growth from a positive baseline is positive, a fall negative. */
  lemma PercentChangeSign(current: real, previous: real)
    ensures previous != 0.0 && current == previous ==> CalculatePercentChange(current, previous) == 0.0
    ensures previous > 0.0 ==> (CalculatePercentChange(current, previous) > 0.0 <==> current > previous)
    ensures previous > 0.0 ==> (CalculatePercentChange(current, previous) < 0.0 <==> current < previous)
  {
    var r := CalculatePercentChange(current, previous);
    if previous > 0.0 {
      assert previous * r / 100.0 == current - previous;
      assert r > 0.0 ==> previous * r > 0.0;
      assert r < 0.0 ==> previous * r < 0.0;
      assert r == 0.0 ==> previous * r == 0.0;
    }
  }

  /** JavaScript's `substring(0, n)` for `n` at most the length: a negative end counts as 0. */
  function Prefix(text: string, n: int): string
    requires n <= |text|
  {
    if n < 0 then [] else text[..n]
  }

  /**
   * `truncateText`: the text itself when it fits in `maxLength` characters,
   * otherwise its first `maxLength` characters followed by "...".
   */
  function TruncateText(text: string, maxLength: int): (r: string)
    ensures |text| <= maxLength ==> r == text
    ensures |text| > maxLength >= 0 ==>
              |r| == maxLength + 3 && r[..maxLength] == text[..maxLength] && r[maxLength..] == "..."
    ensures maxLength < 0 ==> r == "..."
  {
    if |text| <= maxLength then text else Prefix(text, maxLength) + "..."
  }

  /**
   * The result is never longer than the text or `maxLength + 3`, whichever is
   * larger, and truncating it again to `maxLength + 3` leaves it alone.
   */
  lemma TruncateTextBounded(text: string, maxLength: nat)
    ensures |TruncateText(text, maxLength)| <= if |text| <= maxLength then |text| else maxLength + 3
    ensures TruncateText(TruncateText(text, maxLength), maxLength + 3) == TruncateText(text, maxLength)
  {
  }
}
