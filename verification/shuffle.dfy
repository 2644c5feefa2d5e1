/** The in-place shuffle of a Python list by numpy's global generator, with the
    generator itself abstracted to a stream of draws. */
module Shuffle {

  /** The generator's output stream: the draw at each position. */
  type Draws = nat -> nat

  /** `x[i], x[j] = x[j], x[i]` */
  function Swap<T>(s: seq<T>, i: nat, j: nat): (r: seq<T>)
    requires i < |s| && j < |s|
    ensures |r| == |s| && r[i] == s[j] && r[j] == s[i]
    ensures forall k :: 0 <= k < |s| && k != i && k != j ==> r[k] == s[k]
    ensures multiset(r) == multiset(s)
  {
    s[i := s[j]][j := s[i]]
  }

  /** The Fisher-Yates steps for positions `i` down to 1: position `i` is swapped
      with a position `j` in [0, i] chosen by the draw at `pos`. */
  function FisherYates<T>(s: seq<T>, i: nat, draws: Draws, pos: nat): (r: seq<T>)
    requires i < |s|
    ensures |r| == |s|
    ensures multiset(r) == multiset(s)
    decreases i
  {
    if i == 0 then s
    else
      var j := draws(pos) % (i + 1);
      FisherYates(Swap(s, i, j), i - 1, draws, pos + 1)
  }

  /** Shuffling `s` with draws from position `pos` on: the shuffled list and the
      stream position after the draws it consumed (one per swap). */
  function ShuffleFrom<T>(s: seq<T>, draws: Draws, pos: nat): (r: (seq<T>, nat))
    ensures |r.0| == |s|
    ensures multiset(r.0) == multiset(s)
    ensures r.1 == pos + (if |s| <= 1 then 0 else |s| - 1)
  {
    if |s| <= 1 then (s, pos)
    else (FisherYates(s, |s| - 1, draws, pos), pos + |s| - 1)
  }
}
