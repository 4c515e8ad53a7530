/** `truncate(text, max)`: shortening a product title for display. */
module Truncation {
  const Ellipsis := "..."

  /** `text.substring(0, max)` when `max < |text|`: a negative bound counts as 0. */
  function Truncate(text: string, max: int): (r: string)
    ensures |text| <= max ==> r == text
    ensures |text| > max ==>
      var k := if max < 0 then 0 else max;
      |r| == k + |Ellipsis| && r[..k] == text[..k] && r[k..] == Ellipsis
  {
    if |text| > max then text[..if max < 0 then 0 else max] + Ellipsis else text
  }

  /**
   * A cut result is `max + 3` long when `max` is not negative, and every
   * result starts with as much of the text as fits under `max`.
   */
  lemma TruncateShape(text: string, max: int)
    ensures max >= 0 && |text| > max ==> |Truncate(text, max)| == max + 3
    ensures max >= 0 ==>
      var k := if |text| < max then |text| else max;
      k <= |Truncate(text, max)| && Truncate(text, max)[..k] == text[..k]
    ensures |Truncate(text, max)| <= |text| || |text| > max
  {
  }

  lemma TruncateExamples()
    ensures Truncate("Classic Tee", 7) == "Classic..."
    ensures Truncate("Tee", 7) == "Tee"
    ensures Truncate("Tee", -2) == "..."
  {
    assert "Classic Tee"[..7] == "Classic";
    assert "Tee"[..0] == "";
  }
}
