/** The pool of event loops, from which connections are served in turn. */
module EventLoopThreadPools {
  import opened Arithmetic

  type Loop = nat

  /** How many of the first k calls went to position i of n. */
  function Served(k: nat, n: nat, i: nat): nat
    requires n > 0
  {
    if k == 0 then 0 else Served(k - 1, n, i) + if (k - 1) % n == i then 1 else 0
  }

  /** Each position has been served k / n times, and the first k mod n of them once more. */
  lemma {:induction false} RoundRobinCounts(k: nat, n: nat, i: nat)
    requires n > 0 && i < n
    ensures Served(k, n, i) == k / n + if i < k % n then 1 else 0
  {
    if k == 0 {
      DivModUnique(0, 0, 0, n);
    } else {
      RoundRobinCounts(k - 1, n, i);
      NextDivMod(k - 1, n);
      NextShare((k - 1) / n, (k - 1) % n, n, i);
    }
  }

  /** What position i has after q full rounds and r calls more. */
  function Share(q: int, r: int, i: nat): int {
    q + if i < r then 1 else 0
  }

  lemma NextShare(q: int, r: int, n: nat, i: nat)
    requires 0 <= r < n && i < n
    ensures Share(q, r, i) + (if r == i then 1 else 0) == if r + 1 < n then Share(q, r + 1, i) else Share(q + 1, 0, i)
  {
  }

  /** So after any number of calls no position is ahead of another by more than one. */
  lemma RoundRobinIsBalanced(k: nat, n: nat, i: nat, j: nat)
    requires n > 0 && i < n && j < n
    ensures k / n <= Served(k, n, i) <= k / n + 1
    ensures Served(k, n, i) <= Served(k, n, j) + 1
    ensures k % n == 0 ==> Served(k, n, i) == Served(k, n, j) == k / n
  {
    RoundRobinCounts(k, n, i);
    RoundRobinCounts(k, n, j);
  }

  lemma NextIsAPosition(k: nat, n: nat)
    requires n > 0
    ensures 0 <= k % n < n
  {
  }

  class EventLoopThreadPool {
    const baseLoop: Loop
    var started: bool
    var numThreads: nat
    var next: nat
    var loops: seq<Loop>
    /** How often a pooled loop has been asked for since the pool was last started, which goes on counting from
        the position reached by then. */
    ghost var calls: nat

    ghost predicate Valid()
      reads this
    {
      if loops == [] then next == 0 && calls == 0 else next == calls % |loops|
    }

    constructor (baseLoop: Loop)
      ensures Valid() && loops == [] && this.baseLoop == baseLoop && !started && numThreads == 0
    {
      this.baseLoop := baseLoop;
      started, numThreads, next, loops, calls := false, 0, 0, [], 0;
    }

    method SetThreadNumber(n: nat)
      requires Valid()
      modifies this`numThreads
      ensures Valid() && numThreads == n
    {
      numThreads := n;
    }

    /** Every thread that is started contributes its loop; those of an earlier start stay in front. */
    method Start(newLoops: seq<Loop>)
      requires Valid() && |newLoops| == numThreads
      modifies this`started, this`loops, this`calls
      ensures Valid() && started && loops == old(loops) + newLoops
      ensures calls == next && (old(loops) == [] ==> calls == 0)
    {
      started := true;
      if loops != [] {
        NextIsAPosition(calls, |loops|);
      }
      assert loops == old(loops) + newLoops[..0];
      for i := 0 to numThreads
        invariant started && loops == old(loops) + newLoops[..i]
      {
        loops := loops + [newLoops[i]];
      }
      assert newLoops[..numThreads] == newLoops;
      calls := next;
      if loops != [] {
        DivModUnique(next, 0, next, |loops|);
      }
    }

    /** Call i, counted from 0, is answered with loop i modulo their number; without pooled loops the base
        loop answers. After it the loops have been served as evenly as possible. */
    method GetNextLoop() returns (loop: Loop)
      requires Valid()
      modifies this`next, this`calls
      ensures Valid()
      ensures loops == [] ==> loop == baseLoop && calls == old(calls)
      ensures loops != [] ==> loop == loops[old(calls) % |loops|] && calls == old(calls) + 1
      ensures loops != [] ==> forall i, j :: 0 <= i < |loops| && 0 <= j < |loops| ==>
                Served(calls, |loops|, i) <= Served(calls, |loops|, j) + 1
    {
      loop := baseLoop;
      if loops != [] {
        loop := loops[next];
        NextDivMod(calls, |loops|);
        next := next + 1;
        if next >= |loops| {
          next := 0;
        }
        calls := calls + 1;
        forall i, j | 0 <= i < |loops| && 0 <= j < |loops|
          ensures Served(calls, |loops|, i) <= Served(calls, |loops|, j) + 1 {
          RoundRobinIsBalanced(calls, |loops|, i, j);
        }
      }
    }
  }
}
