/** The Fisher-Yates shuffle of AttendanceService.shuffleArray, as a function
    of the list and of the Math.random() draws: step i (from the last index
    down to 1) swaps position i with position floor(draw(i) * (i + 1)). */
module Shuffle {
  import opened Common

  /** The list with positions i and j exchanged. */
  function Swap<T>(s: seq<T>, i: nat, j: nat): (r: seq<T>)
    requires i < |s| && j < |s|
    ensures |r| == |s|
    ensures r[i] == s[j] && r[j] == s[i]
    ensures forall k :: 0 <= k < |s| && k != i && k != j ==> r[k] == s[k]
  {
    s[i := s[j]][j := s[i]]
  }

  /** Exchanging two positions keeps the multiset of elements. */
  lemma SwapPermutes<T>(s: seq<T>, i: nat, j: nat)
    requires i < |s| && j < |s|
    ensures multiset(Swap(s, i, j)) == multiset(s)
  {
    assert Swap(s, i, j) == s[i := s[j]][j := s[i]];
    assert multiset(s[i := s[j]]) == multiset(s) - multiset{s[i]} + multiset{s[j]};
  }

  /** The index step i swaps with: Math.floor(Math.random() * (i + 1)). */
  function SwapIndex(draw: nat -> Random, i: nat): (j: nat)
    ensures j <= i
  {
    FloorTimes(draw(i), i + 1)
  }

  /** Steps i, i - 1, ..., 1 of the shuffle applied to `s`. */
  function SwapDown<T>(s: seq<T>, draw: nat -> Random, i: int): seq<T>
    requires i < |s|
    decreases i
  {
    if i <= 0 then s else SwapDown(Swap(s, i, SwapIndex(draw, i)), draw, i - 1)
  }

  /** The whole shuffle, starting from the last index. */
  function Shuffled<T>(s: seq<T>, draw: nat -> Random): seq<T>
  {
    SwapDown(s, draw, |s| - 1)
  }

  /** One step of the shuffle on an array: if `after` is `before` with
      positions i and j = SwapIndex(draw, i) exchanged, the remaining steps
      from i - 1 on `after` finish what steps from i on `before` would. */
  lemma SwapStep<T>(before: seq<T>, after: seq<T>, draw: nat -> Random, i: nat, j: nat)
    requires 0 < i < |before| && j == SwapIndex(draw, i) && |after| == |before|
    requires after[i] == before[j] && after[j] == before[i]
    requires forall k :: 0 <= k < |before| && k != i && k != j ==> after[k] == before[k]
    ensures SwapDown(after, draw, i - 1) == SwapDown(before, draw, i)
  {
    assert after == Swap(before, i, j);
  }

  lemma {:induction false} SwapDownPermutes<T>(s: seq<T>, draw: nat -> Random, i: int)
    requires i < |s|
    ensures |SwapDown(s, draw, i)| == |s|
    ensures multiset(SwapDown(s, draw, i)) == multiset(s)
    decreases i
  {
    if i > 0 {
      SwapPermutes(s, i, SwapIndex(draw, i));
      SwapDownPermutes(Swap(s, i, SwapIndex(draw, i)), draw, i - 1);
    }
  }

  /** Whatever the draws, the shuffle returns a permutation of its input. */
  lemma ShuffledIsPermutation<T>(s: seq<T>, draw: nat -> Random)
    ensures |Shuffled(s, draw)| == |s|
    ensures multiset(Shuffled(s, draw)) == multiset(s)
  {
    SwapDownPermutes(s, draw, |s| - 1);
  }

  /** For two entries the one draw decides the order: they keep it when the
      draw is at least one half and are exchanged otherwise, so both orders
      occur. */
  lemma ShuffleOfTwo<T>(x: T, y: T, draw: nat -> Random)
    ensures Shuffled([x, y], draw) == if draw(1) >= 0.5 then [x, y] else [y, x]
  {
    var j := SwapIndex(draw, 1);
    FloorTimesIsFloor(draw(1), 2);
    assert j == (draw(1) * 2.0).Floor;
    assert draw(1) >= 0.5 <==> j == 1;
  }
}
