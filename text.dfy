/** Text helpers shared by the console and the logger. */
module Text {
  /** A run of `n` spaces, as padding loops write them. */
  function Spaces(n: nat): (s: string)
    ensures |s| == n && forall i :: 0 <= i < n ==> s[i] == ' '
  {
    if n == 0 then [] else Spaces(n - 1) + [' ']
  }
}
