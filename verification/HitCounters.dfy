/** The logger's occasional logging: a bounded counter per place in the source that wraps around. */
module HitCounters {
  import opened Arithmetic

  const MAX_LOG_PER_COUNTER := 100_000

  /** validateHitCounts: the counter is wrapped before it is incremented. */
  function Bump(count: nat, n: nat): nat {
    (if count >= MAX_LOG_PER_COUNTER then (if n >= 1 then MAX_LOG_PER_COUNTER % n else 0) else count) + 1
  }

  predicate Triggers(count: nat, n: nat) {
    n >= 1 && count != 0 && count % n == 0
  }

  /** The counter after k calls, all with the same n. */
  function CountAfter(k: nat, n: nat): nat {
    if k == 0 then 0 else Bump(CountAfter(k - 1, n), n)
  }

  lemma ModOfSum(a: nat, b: nat, n: nat)
    requires n >= 1 && a % n == b % n
    ensures (a + 1) % n == (b + 1) % n
  {
    NextDivMod(a, n);
    NextDivMod(b, n);
  }

  /** A call with n within the limit adds one modulo n and stays in range, the wrap included. */
  lemma BumpAgrees(count: nat, n: nat)
    requires 1 <= n <= MAX_LOG_PER_COUNTER && count <= MAX_LOG_PER_COUNTER
    ensures 1 <= Bump(count, n) <= MAX_LOG_PER_COUNTER && Bump(count, n) % n == (count + 1) % n
  {
    if count == MAX_LOG_PER_COUNTER {
      DivModUnique(MAX_LOG_PER_COUNTER % n, 0, MAX_LOG_PER_COUNTER % n, n);
      ModOfSum(MAX_LOG_PER_COUNTER % n, MAX_LOG_PER_COUNTER, n);
    }
  }

  /** The bounded counter stays in range and agrees with an unbounded one modulo n. */
  lemma {:induction false} BoundedRefinesUnbounded(k: nat, n: nat)
    requires 1 <= n <= MAX_LOG_PER_COUNTER
    ensures CountAfter(k, n) <= MAX_LOG_PER_COUNTER && (k > 0 ==> CountAfter(k, n) > 0)
    ensures CountAfter(k, n) % n == k % n
  {
    if k > 0 {
      BoundedRefinesUnbounded(k - 1, n);
      BumpAgrees(CountAfter(k - 1, n), n);
      ModOfSum(CountAfter(k - 1, n), k - 1, n);
    }
  }

  lemma {:induction false} CountsUpToTheLimit(k: nat, n: nat)
    requires k <= MAX_LOG_PER_COUNTER
    ensures CountAfter(k, n) == k
  {
    if k > 0 {
      CountsUpToTheLimit(k - 1, n);
    }
  }

  /** For a larger n the counter gets stuck just above its limit. */
  lemma {:induction false} LargeNGetsStuck(k: nat, n: nat)
    requires n > MAX_LOG_PER_COUNTER && k > MAX_LOG_PER_COUNTER
    ensures CountAfter(k, n) == MAX_LOG_PER_COUNTER + 1
  {
    if k == MAX_LOG_PER_COUNTER + 1 {
      CountsUpToTheLimit(k - 1, n);
    } else {
      LargeNGetsStuck(k - 1, n);
    }
  }

  /** The k-th call answers whether n divides k. */
  ghost predicate EveryNth(n: nat)
    requires n >= 1
  {
    forall k: nat :: k >= 1 ==> (Triggers(CountAfter(k, n), n) <==> k % n == 0)
  }

  /** A counter always used with the same n triggers on exactly every n-th call if and only if n is within
      the limit. */
  lemma TriggersEveryNthIffWithinLimit(n: nat)
    requires n >= 1
    ensures EveryNth(n) <==> n <= 100_000
  {
    if n <= MAX_LOG_PER_COUNTER {
      forall k: nat | k >= 1 ensures Triggers(CountAfter(k, n), n) <==> k % n == 0 {
        BoundedRefinesUnbounded(k, n);
      }
    } else if n == MAX_LOG_PER_COUNTER + 1 {
      LargeNGetsStuck(n + 1, n);
    } else {
      LargeNGetsStuck(n, n);
    }
  }

  // ----- one place reached with any arguments -----

  /** The counter after calls with these arguments, in their order. */
  function CountOver(args: seq<nat>): nat {
    if args == [] then 0 else Bump(CountOver(args[..|args| - 1]), args[|args| - 1])
  }

  ghost predicate AllSame(args: seq<nat>, n: nat) {
    forall i :: 0 <= i < |args| ==> args[i] == n
  }

  lemma {:induction false} SameArguments(args: seq<nat>, n: nat)
    requires AllSame(args, n)
    ensures CountOver(args) == CountAfter(|args|, n)
    decreases |args|
  {
    if args != [] {
      SameArguments(args[..|args| - 1], n);
    }
  }

  /** Up to the limit the counter counts the calls, whatever their arguments. */
  lemma {:induction false} CountsCallsUpToTheLimit(args: seq<nat>)
    requires |args| <= MAX_LOG_PER_COUNTER
    ensures CountOver(args) == |args|
    decreases |args|
  {
    if args != [] {
      CountsCallsUpToTheLimit(args[..|args| - 1]);
    }
  }

  /** When a call triggers: with its own n within the limit, exactly if n divides the number of calls so far, if
      all calls had this n; and whatever the others had, as long as there were not more calls than the limit. */
  lemma WhenTriggered(args: seq<nat>)
    requires args != []
    ensures var n := args[|args| - 1]; var hit := Triggers(CountOver(args), n);
            && (n == 0 ==> !hit)
            && (1 <= n <= MAX_LOG_PER_COUNTER && AllSame(args, n) ==> (hit <==> |args| % n == 0))
            && (n >= 1 && |args| <= MAX_LOG_PER_COUNTER ==> (hit <==> |args| % n == 0))
  {
    var n := args[|args| - 1];
    if |args| <= MAX_LOG_PER_COUNTER {
      CountsCallsUpToTheLimit(args);
    }
    if 1 <= n <= MAX_LOG_PER_COUNTER && AllSame(args, n) {
      SameArguments(args, n);
      BoundedRefinesUnbounded(|args|, n);
    }
  }

  /** A log statement's place: file name and line number. */
  datatype Site = Site(filename: string, line: nat)

  /** Below the limit it counts on; at the limit it continues from a smaller count with the same remainder, so
      that no multiple of n is missed or added and the counter stays in range. */
  method ValidateHitCounts(hitCounts: nat, n: nat) returns (updated: nat)
    ensures hitCounts < MAX_LOG_PER_COUNTER ==> updated == hitCounts + 1
    ensures 1 <= n <= MAX_LOG_PER_COUNTER && hitCounts <= MAX_LOG_PER_COUNTER ==>
              1 <= updated <= MAX_LOG_PER_COUNTER && updated % n == (hitCounts + 1) % n
    ensures hitCounts >= MAX_LOG_PER_COUNTER && n >= 1 ==> 1 <= updated <= n && (updated - 1) % n == MAX_LOG_PER_COUNTER % n
    ensures updated == Bump(hitCounts, n)
  {
    updated := hitCounts;
    if updated >= MAX_LOG_PER_COUNTER {
      updated := if n >= 1 then MAX_LOG_PER_COUNTER % n else 0;
    }
    updated := updated + 1;
    if 1 <= n <= MAX_LOG_PER_COUNTER && hitCounts <= MAX_LOG_PER_COUNTER {
      BumpAgrees(hitCounts, n);
    }
    if n >= 1 {
      DivModUnique(MAX_LOG_PER_COUNTER % n, 0, MAX_LOG_PER_COUNTER % n, n);
    }
  }

  class RegisteredHitCounters {
    var hitCounts: map<Site, nat>
    /** The arguments with which each place has been reached, in their order. */
    ghost var reached: map<Site, seq<nat>>

    ghost predicate Valid()
      reads this
    {
      && hitCounts.Keys == reached.Keys
      && forall s :: s in hitCounts ==> hitCounts[s] == CountOver(reached[s])
    }

    constructor ()
      ensures Valid() && reached == map[]
    {
      hitCounts, reached := map[], map[];
    }

    ghost function ReachedAt(s: Site): seq<nat>
      reads this
    {
      if s in reached then reached[s] else []
    }

    /** Registers the place if it is new. If the place is always reached with one n within the limit, the answer
        is true on exactly every n-th call from it, however often other places are reached in between; with
        changing n it is true exactly if n divides the number of calls, up to the limit. */
    method ValidateEveryN(site: Site, n: nat) returns (result: bool)
      requires Valid()
      modifies this
      ensures Valid() && reached == old(reached)[site := old(ReachedAt(site)) + [n]]
      ensures n == 0 ==> !result
      ensures 1 <= n <= MAX_LOG_PER_COUNTER && AllSame(reached[site], n) ==> (result <==> |reached[site]| % n == 0)
      ensures n >= 1 && |reached[site]| <= MAX_LOG_PER_COUNTER ==> (result <==> |reached[site]| % n == 0)
      ensures result <==> Triggers(hitCounts[site], n)
      ensures forall s :: s != site && s in old(hitCounts) ==> s in hitCounts && hitCounts[s] == old(hitCounts[s])
    {
      var before := if site in hitCounts then hitCounts[site] else 0;
      var count := ValidateHitCounts(before, n);
      hitCounts := hitCounts[site := count];
      ghost var args := ReachedAt(site) + [n];
      assert args[..|args| - 1] == ReachedAt(site);
      reached := reached[site := args];
      result := n >= 1 && count != 0 && count % n == 0;
      WhenTriggered(args);
    }
  }
}
