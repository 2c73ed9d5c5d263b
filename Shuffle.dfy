/** `shuffleArray` (api/index.tsx): a Fisher-Yates shuffle over a copy of its argument.
    The random index of each step is supplied by the caller as `draws`. */
module Shuffle {

  /** `draws[i]` is the index the loop swaps with position `i`. The source draws it as
      `Math.floor(Math.random() * (i + 1))`, so it lies in [0, i]; `draws[0]` is never
      used by the loop and is 0 by that bound. */
  predicate ValidDraws(draws: seq<nat>, n: nat) {
    |draws| == n && forall i :: 0 <= i < n ==> draws[i] <= i
  }

  /** One random index, `Math.floor(r * (i + 1))` for `r = Math.random()` in [0, 1),
      computed on exact reals. */
  function Draw(r: real, i: nat): (j: nat)
    requires 0.0 <= r < 1.0
    ensures j <= i
  {
    var k := (i + 1) as real;
    assert r * k < k by {
      assert (1.0 - r) * k > 0.0;
    }
    (r * k).Floor
  }

  /** The indices the loop draws from a sequence of `Math.random()` values. */
  function DrawsFrom(randoms: seq<real>): (draws: seq<nat>)
    requires forall i :: 0 <= i < |randoms| ==> 0.0 <= randoms[i] < 1.0
    ensures ValidDraws(draws, |randoms|)
  {
    seq(|randoms|, i requires 0 <= i < |randoms| => Draw(randoms[i], i))
  }

  /** Exchange of the elements at positions `i` and `j`. */
  function Swap<T>(s: seq<T>, i: nat, j: nat): (r: seq<T>)
    requires i < |s| && j < |s|
    ensures |r| == |s| && r[i] == s[j] && r[j] == s[i]
    ensures forall k :: 0 <= k < |s| && k != i && k != j ==> r[k] == s[k]
  {
    s[i := s[j]][j := s[i]]
  }

  /** The swaps the loop performs at positions `i`, `i - 1`, ..., 1; none once `i <= 0`. */
  function SwapsDown<T>(s: seq<T>, draws: seq<nat>, i: int): (r: seq<T>)
    requires ValidDraws(draws, |s|) && i < |s|
    ensures |r| == |s|
    decreases i
  {
    if i <= 0 then s else SwapsDown(Swap(s, i, draws[i]), draws, i - 1)
  }

  /** What `shuffleArray` returns for `s` when its random indices are `draws`. */
  function Shuffled<T>(s: seq<T>, draws: seq<nat>): (r: seq<T>)
    requires ValidDraws(draws, |s|)
    ensures |r| == |s|
  {
    SwapsDown(s, draws, |s| - 1)
  }

  /** An exchange keeps the multiset of elements. */
  lemma SwapPermutes<T>(s: seq<T>, i: nat, j: nat)
    requires i < |s| && j < |s|
    ensures multiset(Swap(s, i, j)) == multiset(s)
  {
  }

  lemma {:induction false} SwapsDownPermutes<T>(s: seq<T>, draws: seq<nat>, i: int)
    requires ValidDraws(draws, |s|) && i < |s|
    ensures |SwapsDown(s, draws, i)| == |s|
    ensures multiset(SwapsDown(s, draws, i)) == multiset(s)
    decreases i
  {
    if i > 0 {
      SwapPermutes(s, i, draws[i]);
      SwapsDownPermutes(Swap(s, i, draws[i]), draws, i - 1);
    }
  }

  /** A swap at position `i` never touches a position above `i`: once the loop has
      passed a position, its element is final. */
  lemma {:induction false} SwapsDownKeepsAbove<T>(s: seq<T>, draws: seq<nat>, i: int, k: nat)
    requires ValidDraws(draws, |s|) && i < k < |s|
    ensures |SwapsDown(s, draws, i)| == |s| && SwapsDown(s, draws, i)[k] == s[k]
    decreases i
  {
    SwapsDownPermutes(s, draws, i);
    if i > 0 {
      SwapsDownKeepsAbove(Swap(s, i, draws[i]), draws, i - 1, k);
    }
  }

  /** The shuffle is a permutation: same length, same multiset of elements. */
  lemma ShuffledIsPermutation<T>(s: seq<T>, draws: seq<nat>)
    requires ValidDraws(draws, |s|)
    ensures |Shuffled(s, draws)| == |s|
    ensures multiset(Shuffled(s, draws)) == multiset(s)
  {
    SwapsDownPermutes(s, draws, |s| - 1);
  }

  /** The last slot receives the element at the first draw and keeps it. */
  lemma ShuffledLast<T>(s: seq<T>, draws: seq<nat>)
    requires ValidDraws(draws, |s|) && |s| > 0
    ensures |Shuffled(s, draws)| == |s|
    ensures Shuffled(s, draws)[|s| - 1] == s[draws[|s| - 1]]
  {
    var n := |s|;
    ShuffledIsPermutation(s, draws);
    if n > 1 {
      SwapsDownKeepsAbove(Swap(s, n - 1, draws[n - 1]), draws, n - 2, n - 1);
    }
  }

  /** `shuffleArray`: copies `input` (`array.slice()`), then walks `i` from the last
      position down to 1 and swaps positions `i` and `draws[i]` of the copy. */
  method ShuffleArray<T>(input: array<T>, draws: seq<nat>) returns (shuffled: array<T>)
    requires ValidDraws(draws, input.Length)
    ensures fresh(shuffled)
    ensures input[..] == old(input[..])
    ensures shuffled[..] == Shuffled(input[..], draws)
    ensures multiset(shuffled[..]) == multiset(input[..])
  {
    shuffled := new T[input.Length](k requires 0 <= k < input.Length reads input => input[k]);
    ghost var original := shuffled[..];
    assert original == input[..];
    var i := shuffled.Length - 1;
    while i > 0
      invariant -1 <= i < shuffled.Length
      invariant |shuffled[..]| == |original|
      invariant SwapsDown(shuffled[..], draws, i) == Shuffled(original, draws)
      decreases i
    {
      var j := draws[i];
      ghost var before := shuffled[..];
      shuffled[i], shuffled[j] := shuffled[j], shuffled[i];
      assert shuffled[..] == Swap(before, i, j);
      i := i - 1;
    }
    ShuffledIsPermutation(original, draws);
  }
}
