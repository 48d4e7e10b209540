// The Fisher-Yates shuffle both shuffle helpers perform (shuffleArray in
// services/exportService.ts and shuffle in services/geminiService.ts), stated as
// a function of the list and of the random source.
//
// The random source is a sequence of draws: the step that fills position i uses
// draw rand[i] and swaps position i with position rand[i] % (i + 1), which is
// what `Math.floor(Math.random() * (i + 1))` yields for some random number. A
// missing draw counts as 0, itself a possible outcome of Math.random.

module Shuffling {

  /** The index in 0..i that the step at position i swaps with. */
  function Pick(rand: seq<nat>, i: nat): (j: nat)
    ensures j <= i
  {
    if i < |rand| then rand[i] % (i + 1) else 0
  }

  /** Exchanging two elements keeps the multiset of the list. */
  lemma SwapKeepsMultiset<T>(s: seq<T>, i: nat, j: nat)
    requires i < |s| && j < |s|
    ensures multiset(s[i := s[j]][j := s[i]]) == multiset(s)
  {
    if i == j {
      assert s[i := s[j]][j := s[i]] == s;
    } else {
      var t := s[i := s[j]];
      assert multiset(t) == multiset(s) - multiset{s[i]} + multiset{s[j]};
      assert multiset(t[j := s[i]]) == multiset(t) - multiset{s[j]} + multiset{s[i]};
    }
  }

  /** Exchanges the elements at positions i and j. */
  function SwapAt<T>(s: seq<T>, i: nat, j: nat): (r: seq<T>)
    requires i < |s| && j < |s|
    ensures |r| == |s| && multiset(r) == multiset(s)
    ensures r[i] == s[j] && r[j] == s[i]
    ensures forall k :: 0 <= k < |s| && k != i && k != j ==> r[k] == s[k]
  {
    SwapKeepsMultiset(s, i, j);
    s[i := s[j]][j := s[i]]
  }

  /** Runs the shuffle steps for positions hi - 1 down to 1. */
  function Shuffled<T>(s: seq<T>, rand: seq<nat>, hi: nat): seq<T>
    requires hi <= |s|
    decreases hi
  {
    if hi <= 1 then s else Shuffled(SwapAt(s, hi - 1, Pick(rand, hi - 1)), rand, hi - 1)
  }

  /** One step of the shuffle: the step at position k, then the steps below it. */
  lemma ShuffledStep<T>(s: seq<T>, rand: seq<nat>, k: nat)
    requires k < |s|
    ensures Shuffled(s, rand, k + 1) == Shuffled(SwapAt(s, k, Pick(rand, k)), rand, k)
  {
    if k == 0 {
      assert SwapAt(s, 0, 0) == s;
    }
  }

  /** Exchanges two elements of an array in place, through a temporary. */
  method Swap<T>(a: array<T>, i: nat, j: nat)
    requires i < a.Length && j < a.Length
    modifies a
    ensures a[..] == SwapAt(old(a[..]), i, j)
  {
    var t := a[i];
    a[i] := a[j];
    a[j] := t;
  }

  /** The whole shuffle of `s` under the draws `rand`. */
  function Shuffle<T>(s: seq<T>, rand: seq<nat>): seq<T> {
    Shuffled(s, rand, |s|)
  }

  /** Every partial run of the shuffle is a permutation and leaves the positions from hi on alone. */
  lemma {:induction false} ShuffledIsPermutation<T>(s: seq<T>, rand: seq<nat>, hi: nat)
    requires hi <= |s|
    ensures |Shuffled(s, rand, hi)| == |s|
    ensures multiset(Shuffled(s, rand, hi)) == multiset(s)
    ensures forall k :: hi <= k < |s| ==> Shuffled(s, rand, hi)[k] == s[k]
    decreases hi
  {
    if hi > 1 {
      var t := SwapAt(s, hi - 1, Pick(rand, hi - 1));
      ShuffledIsPermutation(t, rand, hi - 1);
    }
  }

  /** The shuffle returns a permutation of its input: same length, same multiset. */
  lemma ShuffleIsPermutation<T>(s: seq<T>, rand: seq<nat>)
    ensures |Shuffle(s, rand)| == |s| && multiset(Shuffle(s, rand)) == multiset(s)
  {
    ShuffledIsPermutation(s, rand, |s|);
  }
}
