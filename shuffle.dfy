// The in-place Fisher–Yates shuffle the player and the liked-songs screen run
// on a copied array: for i from the last index down to 1, swap entry i with
// an entry j drawn uniformly from [0, i]. The random draws are a parameter:
// the t-th swap uses `rolls[t]`.

module Shuffle {

  /** The swap partner of step `t` for position `i`: `Math.floor(Math.random() * (i + 1))`. */
  function Roll(rolls: seq<nat>, t: nat, i: nat): (j: nat)
    ensures j <= i
  {
    if t < |rolls| then rolls[t] % (i + 1) else 0
  }

  function Swap<T>(s: seq<T>, i: nat, j: nat): (r: seq<T>)
    requires i < |s| && j < |s|
    ensures |r| == |s|
  {
    s[i := s[j]][j := s[i]]
  }

  /** The swaps for positions i, i-1, …, 1, the first of them using draw `t`. */
  function ShuffleFrom<T>(s: seq<T>, rolls: seq<nat>, i: nat, t: nat): (r: seq<T>)
    requires i < |s|
    ensures |r| == |s|
    decreases i
  {
    if i == 0 then s else ShuffleFrom(Swap(s, i, Roll(rolls, t, i)), rolls, i - 1, t + 1)
  }

  /** The whole shuffle of a list. */
  function FisherYates<T>(s: seq<T>, rolls: seq<nat>): (r: seq<T>)
    ensures |r| == |s|
  {
    if |s| == 0 then s else ShuffleFrom(s, rolls, |s| - 1, 0)
  }

  lemma SwapPermutes<T>(s: seq<T>, i: nat, j: nat)
    requires i < |s| && j < |s|
    ensures multiset(Swap(s, i, j)) == multiset(s)
  {
  }

  lemma {:induction false} ShuffleFromPermutes<T>(s: seq<T>, rolls: seq<nat>, i: nat, t: nat)
    requires i < |s|
    ensures multiset(ShuffleFrom(s, rolls, i, t)) == multiset(s)
    decreases i
  {
    if i > 0 {
      var j := Roll(rolls, t, i);
      SwapPermutes(s, i, j);
      ShuffleFromPermutes(Swap(s, i, j), rolls, i - 1, t + 1);
    }
  }

  /** Whatever the draws, the shuffle is a permutation of its input. */
  lemma FisherYatesPermutes<T>(s: seq<T>, rolls: seq<nat>)
    ensures multiset(FisherYates(s, rolls)) == multiset(s)
  {
    if |s| > 0 {
      ShuffleFromPermutes(s, rolls, |s| - 1, 0);
    }
  }

  /** The loop `for (let i = a.length - 1; i > 0; i--) { j = …; [a[i], a[j]] = [a[j], a[i]]; }`. */
  method ShuffleInPlace<T>(a: array<T>, rolls: seq<nat>)
    modifies a
    ensures a[..] == FisherYates(old(a[..]), rolls)
  {
    if a.Length == 0 {
      return;
    }
    var i := a.Length - 1;
    var t := 0;
    while i > 0
      invariant 0 <= i < a.Length
      invariant ShuffleFrom(a[..], rolls, i, t) == FisherYates(old(a[..]), rolls)
      decreases i
    {
      var j := Roll(rolls, t, i);
      a[i], a[j] := a[j], a[i];
      i := i - 1;
      t := t + 1;
    }
  }

  /** `[...s]` shuffled in a fresh array and read back. */
  method ShuffledCopy<T>(s: seq<T>, rolls: seq<nat>) returns (r: seq<T>)
    ensures r == FisherYates(s, rolls)
    ensures multiset(r) == multiset(s)
  {
    var a := new T[|s|](k requires 0 <= k < |s| => s[k]);
    assert a[..] == s;
    ShuffleInPlace(a, rolls);
    r := a[..];
    FisherYatesPermutes(s, rolls);
  }
}
