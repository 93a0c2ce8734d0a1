/** The play queue and its cursor: `indexOf`, the rotation done by
    `rebuildQueueKeepingCurrent`, the wrap-around of `next`/`prev` and the
    `getNextIndex` peek. */
module Queue {
  import opened Wrappers
  import opened Tools

  /** `q.indexOf(x)`: the first position holding x, or -1. */
  function IndexOf(q: seq<int>, x: int): (r: int)
    ensures -1 <= r < |q|
    ensures r == -1 <==> x !in q
    ensures 0 <= r ==> q[r] == x
    ensures forall k :: 0 <= k < r ==> q[k] != x
  {
    if q == [] then -1
    else if q[0] == x then 0
    else
      var p := IndexOf(q[1..], x);
      if p == -1 then
        assert q == [q[0]] + q[1..];
        -1
      else p + 1
  }

  /** `q.slice(pos).concat(q.slice(0, pos))`. */
  function Rotate(q: seq<int>, pos: nat): (r: seq<int>)
    requires pos <= |q|
    ensures |r| == |q| && multiset(r) == multiset(q)
  {
    assert q == q[..pos] + q[pos..];
    q[pos..] + q[..pos]
  }

  /** The rotation starting at `pos` reads the queue cyclically from `pos`. */
  lemma RotateAt(q: seq<int>, pos: nat, k: nat)
    requires pos < |q| && k < |q|
    ensures Rotate(q, pos)[k] == q[(pos + k) % |q|]
  {
    if k < |q| - pos {
      assert (pos + k) % |q| == pos + k;
    } else {
      assert (pos + k) % |q| == pos + k - |q|;
    }
  }

  /** The queue `rebuildQueueKeepingCurrent` installs (with cursor 0): the
      fresh queue rotated so that the previously current track `cur` comes
      first, or the fresh queue itself when `cur` is absent from it. */
  function Rebuilt(order: seq<int>, cur: Option<int>): (r: seq<int>)
    ensures |r| == |order| && multiset(r) == multiset(order)
    ensures cur.Some? && cur.value in order ==> r[0] == cur.value
    ensures cur.None? || cur.value !in order ==> r == order
  {
    var pos := if cur.Some? then IndexOf(order, cur.value) else -1;
    if pos != -1 then Rotate(order, pos) else order
  }

  /** The rebuilt queue is a rotation of the fresh one. */
  lemma RebuiltIsRotation(order: seq<int>, cur: Option<int>)
    ensures exists pos :: 0 <= pos <= |order| && Rebuilt(order, cur) == Rotate(order, pos)
  {
    if cur.Some? && IndexOf(order, cur.value) != -1 {
      var pos := IndexOf(order, cur.value);
      assert Rebuilt(order, cur) == Rotate(order, pos);
    } else {
      assert Rebuilt(order, cur) == Rotate(order, 0) by {
        assert order[0..] + order[..0] == order;
      }
    }
  }

  /** Rebuilding over a queue of the n tracks keeps the previously current
      track current: it is at the new cursor 0. */
  lemma RebuiltKeepsCurrent(order: seq<int>, n: nat, cur: int)
    requires IsQueueOf(order, n) && 0 <= cur < n
    ensures IsQueueOf(Rebuilt(order, Some(cur)), n)
    ensures Rebuilt(order, Some(cur))[0] == cur
  {
    QueueOfExactlyOnce(order, n);
  }

  /** The cursor after `next()`: unchanged on an empty queue, else one step on
      with wrap-around. */
  function NextCursor(qIndex: nat, len: nat): (r: nat)
    ensures len == 0 ==> r == qIndex
    ensures len > 0 ==> r < len
    ensures qIndex + 1 < len ==> r == qIndex + 1
    ensures qIndex + 1 == len ==> r == 0
  {
    if len == 0 then qIndex else (qIndex + 1) % len
  }

  /** The cursor after `prev()`: unchanged on an empty queue, else one step
      back with wrap-around. */
  function PrevCursor(qIndex: nat, len: nat): (r: nat)
    ensures len == 0 ==> r == qIndex
    ensures len > 0 && qIndex < len ==> r < len
    ensures 0 < qIndex <= len ==> r == qIndex - 1
    ensures len > 0 && qIndex == 0 ==> r == len - 1
  {
    if len == 0 then qIndex else (qIndex - 1 + len) % len
  }

  /** `prev` undoes `next` and `next` undoes `prev` on a valid cursor. */
  lemma NextPrevInverse(qIndex: nat, len: nat)
    requires qIndex < len
    ensures PrevCursor(NextCursor(qIndex, len), len) == qIndex
    ensures NextCursor(PrevCursor(qIndex, len), len) == qIndex
  {
  }

  /** The cursor after k successive `next()` calls. */
  function Advance(qIndex: nat, len: nat, k: nat): (r: nat)
  {
    if k == 0 then qIndex else NextCursor(Advance(qIndex, len, k - 1), len)
  }

  lemma {:induction false} AdvanceSplit(qIndex: nat, len: nat, a: nat, b: nat)
    ensures Advance(qIndex, len, a + b) == Advance(Advance(qIndex, len, a), len, b)
  {
    if b > 0 {
      AdvanceSplit(qIndex, len, a, b - 1);
    }
  }

  /** From cursor c, k `next()` calls that stay short of the end step k on. */
  lemma {:induction false} AdvanceWithin(c: nat, len: nat, k: nat)
    requires c + k < len
    ensures Advance(c, len, k) == c + k
  {
    if k > 0 {
      AdvanceWithin(c, len, k - 1);
    }
  }

  /** L successive `next()` calls on a queue of length L return to the start:
      the cursor runs up to L - 1, wraps to 0 and climbs back to c. */
  lemma FullCycle(c: nat, len: nat)
    requires c < len
    ensures Advance(c, len, len) == c
  {
    AdvanceSplit(c, len, len - 1 - c, c + 1);
    AdvanceWithin(c, len, len - 1 - c);
    AdvanceSplit(len - 1, len, 1, c);
    assert Advance(len - 1, len, 1) == 0;
    AdvanceWithin(0, len, c);
  }

  /** `getNextIndex(cur)`: the track to play after `cur` without moving the
      cursor: `cur` itself under repeat-one, otherwise the queue entry after
      the cursor (wrapping), and `undefined` on an empty queue. */
  function PeekNext(queue: seq<int>, qIndex: nat, repeatOne: bool, cur: Option<int>): (r: Option<int>)
    ensures repeatOne ==> r == cur
    ensures !repeatOne ==> (r.Some? <==> queue != [])
    ensures !repeatOne && r.Some? ==> r.value in queue
    ensures !repeatOne && queue != [] ==> r == Some(queue[NextCursor(qIndex, |queue|)])
  {
    if repeatOne then cur
    else if |queue| == 0 then None
    else Some(queue[(qIndex + 1) % |queue|])
  }
}
