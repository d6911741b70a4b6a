/**
 * `Collections.shuffle` on a random-access list: for `i` from the size down to 2,
 * swap the element at `i - 1` with the one at `nextInt(i)`. The random draws are an
 * input: `draw(i) % i` stands for `nextInt(i)`.
 */
module Shuffling {

  function Swap<T>(s: seq<T>, i: nat, j: nat): (r: seq<T>)
    requires i < |s| && j < |s|
    ensures |r| == |s| && r[i] == s[j] && r[j] == s[i]
    ensures forall k :: 0 <= k < |s| && k != i && k != j ==> r[k] == s[k]
  {
    s[i := s[j]][j := s[i]]
  }

  /** The list after the swaps for `i`, `i - 1`, …, 2 are still to be done on `s`. */
  function ShuffledFrom<T>(s: seq<T>, draw: nat -> nat, i: nat): seq<T>
    requires i <= |s|
    decreases i
  {
    if i <= 1 then s else ShuffledFrom(Swap(s, i - 1, draw(i) % i), draw, i - 1)
  }

  function Shuffled<T>(s: seq<T>, draw: nat -> nat): seq<T> {
    ShuffledFrom(s, draw, |s|)
  }

  lemma SwapPermutes<T>(s: seq<T>, i: nat, j: nat)
    requires i < |s| && j < |s|
    ensures multiset(Swap(s, i, j)) == multiset(s)
  {
    var t := s[i := s[j]];
    assert multiset(t) == multiset(s) - multiset{s[i]} + multiset{s[j]};
    assert multiset(t[j := s[i]]) == multiset(t) - multiset{t[j]} + multiset{s[i]};
  }

  /** Shuffling keeps the length and every element's number of occurrences: the result is a permutation. */
  lemma {:induction false} ShuffledFromPermutes<T>(s: seq<T>, draw: nat -> nat, i: nat)
    requires i <= |s|
    ensures |ShuffledFrom(s, draw, i)| == |s| && multiset(ShuffledFrom(s, draw, i)) == multiset(s)
    decreases i
  {
    if i > 1 {
      SwapPermutes(s, i - 1, draw(i) % i);
      ShuffledFromPermutes(Swap(s, i - 1, draw(i) % i), draw, i - 1);
    }
  }

  lemma ShuffledPermutes<T>(s: seq<T>, draw: nat -> nat)
    ensures |Shuffled(s, draw)| == |s| && multiset(Shuffled(s, draw)) == multiset(s)
  {
    ShuffledFromPermutes(s, draw, |s|);
  }

  /** The shuffle itself, in place on the list's backing array. */
  method Shuffle<T>(a: array<T>, draw: nat -> nat)
    modifies a
    ensures a[..] == Shuffled(old(a[..]), draw)
  {
    var i := a.Length;
    while i > 1
      invariant 0 <= i <= a.Length
      invariant ShuffledFrom(a[..], draw, i) == Shuffled(old(a[..]), draw)
    {
      var j := draw(i) % i;
      assert a[..][i - 1 := a[j]][j := a[i - 1]] == Swap(a[..], i - 1, j);
      a[i - 1], a[j] := a[j], a[i - 1];
      i := i - 1;
    }
  }

  /** Shuffles a list held as a sequence, through an array, as `Collections.shuffle` does. */
  method ShuffleList<T>(s: seq<T>, draw: nat -> nat) returns (r: seq<T>)
    ensures r == Shuffled(s, draw)
    ensures multiset(r) == multiset(s)
  {
    var a := new T[|s|](k requires 0 <= k < |s| => s[k]);
    assert a[..] == s;
    Shuffle(a, draw);
    r := a[..];
    ShuffledPermutes(s, draw);
  }
}
