/** Round-robin choice of an I/O thread. */
module IoThreadPool {
  import opened Basics

  /** The k-th pick is thread k mod n. */
  predicate RoundRobin(picks: seq<nat>, n: nat)
    requires n > 0
  {
    forall k | 0 <= k < |picks| :: picks[k] == k % n
  }

  class Pool {
    const threadCount: nat
    var nextThread: nat
    ghost var picks: seq<nat>    // every thread handed out so far, to whichever caller

    ghost predicate Valid()
      reads this
    {
      if threadCount == 0 then picks == []
      else nextThread == |picks| % threadCount && RoundRobin(picks, threadCount)
    }

    constructor (threadCount: nat)
      ensures Valid() && picks == [] && this.threadCount == threadCount
    {
      this.threadCount := threadCount;
      nextThread, picks := 0, [];
    }

    /** io_thread_pool_get_thread; the mutex makes each call one step, so calls are in one order. */
    method GetThread() returns (thread: Option<nat>)
      requires Valid()
      modifies this
      ensures Valid()
      ensures threadCount == 0 ==> thread == None && picks == old(picks)
      ensures threadCount > 0 ==> thread == Some(|old(picks)| % threadCount) && picks == old(picks) + [thread.value]
    {
      if threadCount == 0 {
        return None;
      }
      thread := Some(nextThread);
      NextPick(|picks|, threadCount);
      picks := picks + [nextThread];
      nextThread := (nextThread + 1) % threadCount;
    }
  }

  lemma NextPick(k: nat, n: nat)
    requires n > 0
    ensures (k % n + 1) % n == (k + 1) % n
    ensures (k + 1) / n == if k % n + 1 == n then k / n + 1 else k / n
    ensures (k + 1) % n == if k % n + 1 == n then 0 else k % n + 1
  {
    var q, r := k / n, k % n;
    DivMod(k, n);
    if r + 1 == n {
      TimesNext(n, q);
      Quotient(k + 1, n, q + 1, 0);
      Quotient(n, n, 1, 0);
    } else {
      Quotient(k + 1, n, q, r + 1);
      Quotient(r + 1, n, 0, r + 1);
    }
  }

  lemma DivMod(k: nat, n: nat)
    requires n > 0
    ensures k == n * (k / n) + k % n && 0 <= k % n < n && 0 <= k / n
  {
  }

  lemma TimesNext(n: nat, q: nat)
    ensures n * (q + 1) == n * q + n
  {
  }

  lemma {:induction false} TimesGap(n: nat, a: nat, b: nat)
    requires a < b
    ensures n * a + n <= n * b
    decreases b - a
  {
    TimesNext(n, a);
    if a + 1 < b {
      TimesGap(n, a + 1, b);
    }
  }

  /** Quotient and remainder are unique. */
  lemma Quotient(k: nat, n: nat, q: nat, r: nat)
    requires n > 0 && r < n && k == n * q + r
    ensures k / n == q && k % n == r
  {
    DivMod(k, n);
    Unique(n, q, r, k / n, k % n);
  }

  lemma Unique(n: nat, q: nat, r: nat, p: nat, t: nat)
    requires r < n && t < n && n * q + r == n * p + t
    ensures p == q && t == r
  {
    if p < q {
      TimesGap(n, p, q);
    } else if q < p {
      TimesGap(n, q, p);
    }
  }

  /** How many picks chose thread `j`. */
  function Picked(j: nat, picks: seq<nat>): nat {
    if picks == [] then 0 else Picked(j, picks[..|picks| - 1]) + (if picks[|picks| - 1] == j then 1 else 0)
  }

  lemma {:induction false} PickedIs(j: nat, picks: seq<nat>, n: nat)
    requires j < n && RoundRobin(picks, n)
    ensures Picked(j, picks) == |picks| / n + (if j < |picks| % n then 1 else 0)
  {
    var k := |picks|;
    if k == 0 {
      Quotient(0, n, 0, 0);
    } else {
      PickedIs(j, picks[..k - 1], n);
      NextPick(k - 1, n);
      DivMod(k - 1, n);
    }
  }

  /** However many picks a pool has made, the loads of two threads differ by at most one. */
  lemma PicksAreFair(pool: Pool, i: nat, j: nat)
    requires pool.Valid() && i < pool.threadCount && j < pool.threadCount
    ensures -1 <= Picked(i, pool.picks) - Picked(j, pool.picks) <= 1
  {
    PickedIs(i, pool.picks, pool.threadCount);
    PickedIs(j, pool.picks, pool.threadCount);
  }
}
