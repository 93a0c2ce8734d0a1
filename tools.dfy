/** The small helpers of the player: `clamp`, the identity order the queue is
    built from, and the Fisher–Yates `shuffleArray`. */
module Tools {

  /** `clamp(n, lo, hi)`, that is `Math.min(hi, Math.max(lo, n))`. */
  function Clamp(n: real, lo: real, hi: real): (r: real)
    ensures r <= hi
    ensures lo <= hi ==> lo <= r
    ensures lo <= n <= hi ==> r == n
    ensures r == n || r == lo || r == hi
    ensures n < lo <= hi ==> r == lo
    ensures lo <= hi < n ==> r == hi
    ensures hi < lo ==> r == hi
  {
    var atLeastLo := if lo < n then n else lo;
    if atLeastLo < hi then atLeastLo else hi
  }

  /** `tracks.map((_, i) => i)`: the indices 0, 1, ..., n - 1 in order. */
  function Identity(n: nat): (r: seq<int>)
    ensures |r| == n
    ensures forall k :: 0 <= k < n ==> r[k] == k
  {
    seq(n, k => k)
  }

  /** `q` holds every track index in [0, n) exactly once and nothing else. */
  ghost predicate IsQueueOf(q: seq<int>, n: nat)
  {
    multiset(q) == multiset(Identity(n))
  }

  lemma {:induction false} IdentityCount(n: nat, x: int)
    ensures multiset(Identity(n))[x] == if 0 <= x < n then 1 else 0
  {
    if n > 0 {
      assert Identity(n) == Identity(n - 1) + [n - 1];
      IdentityCount(n - 1, x);
    }
  }

  /** A queue of n tracks has length n and names each track exactly once. */
  lemma QueueOfExactlyOnce(q: seq<int>, n: nat)
    requires IsQueueOf(q, n)
    ensures |q| == n
    ensures forall x :: x in q <==> 0 <= x < n
    ensures forall x :: 0 <= x < n ==> multiset(q)[x] == 1
  {
    assert |q| == |multiset(q)| == |multiset(Identity(n))| == n;
    forall x
      ensures x in q <==> 0 <= x < n
    {
      IdentityCount(n, x);
      assert x in q <==> x in multiset(q);
    }
    forall x | 0 <= x < n
      ensures multiset(q)[x] == 1
    {
      IdentityCount(n, x);
    }
  }

  /** The destructuring swap `[a[i], a[j]] = [a[j], a[i]]` on a value. */
  function Swap(s: seq<int>, i: nat, j: nat): (r: seq<int>)
    requires i < |s| && j < |s|
    ensures |r| == |s| && r[i] == s[j] && r[j] == s[i]
    ensures forall k :: 0 <= k < |s| && k != i && k != j ==> r[k] == s[k]
    ensures multiset(r) == multiset(s)
  {
    s[i := s[j]][j := s[i]]
  }

  /** The `Math.random()` draws of one shuffle of n elements: the loop step
      for position i uses `choices[i]`, which `Math.floor(Math.random()*(i+1))`
      always puts in [0, i]. */
  predicate ValidChoices(choices: seq<int>, n: nat)
  {
    |choices| == n && forall i :: 0 <= i < n ==> 0 <= choices[i] <= i
  }

  /** The array after the loop steps i, i - 1, ..., 1 have run on `s`. */
  function ShuffleSteps(s: seq<int>, choices: seq<int>, i: int): (r: seq<int>)
    requires ValidChoices(choices, |s|) && i < |s|
    ensures |r| == |s| && multiset(r) == multiset(s)
    decreases i
  {
    if i <= 0 then s else ShuffleSteps(Swap(s, i, choices[i]), choices, i - 1)
  }

  /** What `shuffleArray(s)` returns for the given draws. */
  function Shuffled(s: seq<int>, choices: seq<int>): (r: seq<int>)
    requires ValidChoices(choices, |s|)
  {
    ShuffleSteps(s, choices, |s| - 1)
  }

  /** `shuffleArray`: Fisher–Yates over a copy of `arr` (`arr.slice()`), so the
      caller's array is left as it was; the result is a permutation of it. */
  method ShuffleArray(arr: seq<int>, choices: seq<int>) returns (r: seq<int>)
    requires ValidChoices(choices, |arr|)
    ensures r == Shuffled(arr, choices)
    ensures |r| == |arr| && multiset(r) == multiset(arr)
  {
    var a := new int[|arr|](k requires 0 <= k < |arr| => arr[k]);
    assert a[..] == arr;
    var i := a.Length - 1;
    while i > 0
      invariant -1 <= i < a.Length
      invariant ShuffleSteps(a[..], choices, i) == Shuffled(arr, choices)
    {
      var j := choices[i];
      ghost var before := a[..];
      var t := a[i];
      a[i] := a[j];
      a[j] := t;
      assert a[..] == Swap(before, i, j);
      i := i - 1;
    }
    r := a[..];
  }

  /** The queue built at startup: the identity order, shuffled when the shuffle
      setting is on. It is always a queue of the n tracks. */
  function StartupQueue(n: nat, shuffle: bool, choices: seq<int>): (q: seq<int>)
    requires ValidChoices(choices, n)
    ensures IsQueueOf(q, n)
    ensures !shuffle ==> q == Identity(n)
  {
    if shuffle then Shuffled(Identity(n), choices) else Identity(n)
  }
}
