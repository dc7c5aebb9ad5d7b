/**
 * strings.Repeat, which names the command, and a character count used to
 * state how much `fp` (strings.ReplaceAll, modelled as Cd.Fp) lengthens a path.
 */
module Strs {

  /** strings.Repeat for a single character: `n` copies of `c` and nothing else. */
  function Repeat(c: char, n: nat): (r: string)
    ensures |r| == n
    ensures forall i :: 0 <= i < |r| ==> r[i] == c
  {
    if n == 0 then [] else [c] + Repeat(c, n - 1)
  }

  /** The number of occurrences of `c` in `s`. */
  function Count(s: string, c: char): (k: nat)
    ensures k <= |s|
    ensures k == 0 <==> c !in s
  {
    if s == [] then 0 else (if s[0] == c then 1 else 0) + Count(s[1..], c)
  }
}
