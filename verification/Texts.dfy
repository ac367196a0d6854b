/** Runs of one character. */
module Texts {

  function Repeat(c: char, k: int): (s: string)
    ensures |s| == (if k <= 0 then 0 else k) && forall i :: 0 <= i < |s| ==> s[i] == c
  {
    if k <= 0 then "" else seq(k, i => c)
  }
}
