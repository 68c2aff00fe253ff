/** Case folding, over ASCII. */
module CaseFold {

  function LowerChar(c: char): char {
    if 'A' <= c <= 'Z' then (c as int + 32) as char else c
  }

  /** strings.ToLower. Two texts are equal up to case (strings.EqualFold) when their folds are equal. */
  function Lower(text: string): (r: string)
    ensures |r| == |text| && forall k :: 0 <= k < |r| ==> r[k] == LowerChar(text[k])
  {
    seq(|text|, k requires 0 <= k < |text| => LowerChar(text[k]))
  }

  lemma LowerConcat(left: string, right: string)
    ensures Lower(left + right) == Lower(left) + Lower(right)
  {
  }
}
