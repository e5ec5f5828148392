/**
 * Deferred destruction of shared handles (common/delayedDestructor.hpp).
 *
 * The list holds shared handles; a handle may be released once the list is its
 * only owner, i.e. its use count is at most one. Reference counts are not
 * computed here: the caller supplies them as a function from handle to count,
 * and where the source sleeps and retries, as one such function per round.
 */
module DelayedDestruction {

  /** The sweep's test: the list is the handle's only remaining owner. */
  predicate Releasable<X>(useCount: X -> nat, h: X)
  {
    useCount(h) <= 1
  }

  /** The handles that still have an owner besides the list, in their original order. */
  function Sweep<X>(s: seq<X>, useCount: X -> nat): (r: seq<X>)
    ensures |r| <= |s|
  {
    if s == [] then []
    else (if Releasable(useCount, s[0]) then [] else [s[0]]) + Sweep(s[1..], useCount)
  }

  /** A sweep of a concatenation is the concatenation of the sweeps: relative order is kept. */
  lemma {:induction false} SweepAppend<X>(a: seq<X>, b: seq<X>, useCount: X -> nat)
    ensures Sweep(a + b, useCount) == Sweep(a, useCount) + Sweep(b, useCount)
  {
    if a == [] {
      assert a + b == b;
    } else {
      assert (a + b)[0] == a[0];
      assert (a + b)[1..] == a[1..] + b;
      SweepAppend(a[1..], b, useCount);
    }
  }

  /** Exactly the releasable handles are removed: every occurrence of them, and no occurrence of any other. */
  lemma {:induction false} SweepOccurrences<X>(s: seq<X>, useCount: X -> nat, x: X)
    ensures multiset(Sweep(s, useCount))[x] == if Releasable(useCount, x) then 0 else multiset(s)[x]
  {
    if s != [] {
      SweepOccurrences(s[1..], useCount, x);
      assert s == [s[0]] + s[1..];
      assert multiset(s) == multiset([s[0]]) + multiset(s[1..]);
    }
  }

  /** A handle survives a sweep if and only if it was listed and is still held elsewhere. */
  lemma SweepMembership<X>(s: seq<X>, useCount: X -> nat, x: X)
    ensures x in Sweep(s, useCount) <==> x in s && !Releasable(useCount, x)
  {
    SweepOccurrences(s, useCount, x);
    assert x in Sweep(s, useCount) <==> multiset(Sweep(s, useCount))[x] > 0;
    assert x in s <==> multiset(s)[x] > 0;
  }

  /** With unchanged counts a second sweep removes nothing more. */
  lemma {:induction false} SweepIdempotent<X>(s: seq<X>, useCount: X -> nat)
    ensures Sweep(Sweep(s, useCount), useCount) == Sweep(s, useCount)
  {
    if s != [] {
      SweepIdempotent(s[1..], useCount);
      var head := if Releasable(useCount, s[0]) then [] else [s[0]];
      SweepAppend(head, Sweep(s[1..], useCount), useCount);
    }
  }

  /** A sweep leaves the list untouched exactly when every handle is still held elsewhere. */
  lemma {:induction false} SweepKeepsAll<X>(s: seq<X>, useCount: X -> nat)
    ensures Sweep(s, useCount) == s <==> forall i :: 0 <= i < |s| ==> !Releasable(useCount, s[i])
  {
    if s != [] {
      SweepKeepsAll(s[1..], useCount);
      if Releasable(useCount, s[0]) {
        assert |Sweep(s, useCount)| < |s|;
      } else {
        assert Sweep(s, useCount) == [s[0]] + Sweep(s[1..], useCount);
        assert forall i :: 1 <= i < |s| ==> s[i] == s[1..][i - 1];
        if forall i :: 0 <= i < |s| ==> !Releasable(useCount, s[i]) {
          assert forall i :: 0 <= i < |s[1..]| ==> !Releasable(useCount, s[1..][i]);
        }
        if Sweep(s, useCount) == s {
          assert Sweep(s[1..], useCount) == s[1..];
        }
      }
    }
  }

  /** The scan that std::remove_if followed by erase performs: compact the kept handles in order. */
  method RemoveIf<X>(s: seq<X>, useCount: X -> nat) returns (kept: seq<X>)
    ensures kept == Sweep(s, useCount)
  {
    kept := [];
    var i := 0;
    while i < |s|
      invariant 0 <= i <= |s|
      invariant kept == Sweep(s[..i], useCount)
    {
      SweepAppend(s[..i], [s[i]], useCount);
      assert s[..i + 1] == s[..i] + [s[i]];
      if !Releasable(useCount, s[i]) {
        kept := kept + [s[i]];
      }
      i := i + 1;
    }
    assert s[..i] == s;
  }

  /**
   * Length of one wait of the timed sweep, in milliseconds, for a delay given as an
   * int count of milliseconds. A negative delay yields that negative length, which
   * stands for a sleep that returns at once.
   */
  function DelayTime(delay: int): (ms: int)
    ensures delay < 100 ==> ms == delay
    ensures delay >= 100 ==> ms == 50
  {
    if delay < 100 then delay else 50
  }

  /** Number of waits the timed sweep may perform for a requested delay. */
  function DelayCount(delay: int): (n: nat)
    ensures n >= 1
    ensures delay < 100 <==> n == 1
  {
    if delay < 100 then 1 else delay / 50
  }

  /** For a non-negative delay the waits add up to the delay, less than one 50 ms step short of it. */
  lemma WaitBudget(delay: int)
    requires delay >= 0
    ensures DelayCount(delay) * DelayTime(delay) <= delay < DelayCount(delay) * DelayTime(delay) + 50
  {
  }

  /**
   * The retry loop of the timed sweep, from completed round `cnt` on: while the list
   * is non-empty and fewer than `limit` rounds have run, wait and sweep with that
   * round's counts.
   */
  function Retry<X>(s: seq<X>, counts: nat -> X -> nat, cnt: nat, limit: nat): (r: seq<X>)
    ensures |r| <= |s|
    ensures cnt >= limit ==> r == s
    decreases limit - cnt
  {
    if s == [] || cnt >= limit then s
    else Retry(Sweep(s, counts(cnt + 1)), counts, cnt + 1, limit)
  }

  /** Number of waits the retry loop performs from completed round `cnt` on. */
  function RetryWaits<X>(s: seq<X>, counts: nat -> X -> nat, cnt: nat, limit: nat): nat
    decreases limit - cnt
  {
    if s == [] || cnt >= limit then 0
    else 1 + RetryWaits(Sweep(s, counts(cnt + 1)), counts, cnt + 1, limit)
  }

  /** The timed sweep: nothing on an empty list, otherwise one sweep with counts(0) and then the retries. */
  function TimedSweep<X>(s: seq<X>, counts: nat -> X -> nat, limit: nat): (r: seq<X>)
    ensures s == [] ==> r == []
    ensures |r| <= |Sweep(s, counts(0))|
  {
    if s == [] then s else Retry(Sweep(s, counts(0)), counts, 0, limit)
  }

  /** Waits the timed sweep performs. */
  function TimedWaits<X>(s: seq<X>, counts: nat -> X -> nat, limit: nat): nat
  {
    if s == [] then 0 else RetryWaits(Sweep(s, counts(0)), counts, 0, limit)
  }

  /** The retries stop early only on an empty list, and never exceed the budget. */
  lemma {:induction false} RetryBudget<X>(s: seq<X>, counts: nat -> X -> nat, cnt: nat, limit: nat)
    requires cnt <= limit
    ensures cnt + RetryWaits(s, counts, cnt, limit) <= limit
    ensures Retry(s, counts, cnt, limit) != [] ==> cnt + RetryWaits(s, counts, cnt, limit) == limit
    decreases limit - cnt
  {
    if s != [] && cnt < limit {
      RetryBudget(Sweep(s, counts(cnt + 1)), counts, cnt + 1, limit);
    }
  }

  /** Retries only ever remove handles: no handle occurs more often afterwards. */
  lemma {:induction false} RetryOnlyRemoves<X>(s: seq<X>, counts: nat -> X -> nat, cnt: nat, limit: nat, x: X)
    ensures multiset(Retry(s, counts, cnt, limit))[x] <= multiset(s)[x]
    decreases limit - cnt
  {
    if s != [] && cnt < limit {
      RetryOnlyRemoves(Sweep(s, counts(cnt + 1)), counts, cnt + 1, limit, x);
      SweepOccurrences(s, counts(cnt + 1), x);
    }
  }

  /** When no count changes between rounds, retrying gains nothing over a single sweep. */
  lemma {:induction false} RetryStable<X>(s: seq<X>, counts: nat -> X -> nat, cnt: nat, limit: nat, useCount: X -> nat)
    requires forall k :: counts(k) == useCount
    requires Sweep(s, useCount) == s
    ensures Retry(s, counts, cnt, limit) == s
    decreases limit - cnt
  {
    if s != [] && cnt < limit {
      RetryStable(s, counts, cnt + 1, limit, useCount);
    }
  }

  /** With counts that do not change, the timed sweep removes exactly what one sweep removes. */
  lemma TimedSweepStable<X>(s: seq<X>, counts: nat -> X -> nat, limit: nat, useCount: X -> nat)
    requires forall k :: counts(k) == useCount
    ensures TimedSweep(s, counts, limit) == Sweep(s, useCount)
  {
    if s != [] {
      SweepIdempotent(s, useCount);
      RetryStable(Sweep(s, useCount), counts, 0, limit, useCount);
    }
  }

  /** The number of sweeps the destructor allows before giving up. */
  const MaxDestructorSweeps := 21

  /** The destructor's pause between sweeps, in milliseconds. */
  const DestructorWaitMs := 100

  /**
   * The destructor's loop after `ii` sweeps on list `s`: while handles remain and fewer
   * than 21 sweeps have run, sweep with counts(ii + 1) (waiting in between).
   */
  function Drain<X>(s: seq<X>, counts: nat -> X -> nat, ii: nat): (r: seq<X>)
    ensures |r| <= |s|
    ensures s == [] ==> r == []
    decreases MaxDestructorSweeps - ii
  {
    if s == [] || ii >= MaxDestructorSweeps then s
    else Drain(Sweep(s, counts(ii + 1)), counts, ii + 1)
  }

  /** Sweeps the destructor's loop performs after `ii` sweeps on list `s`. */
  function DrainSweeps<X>(s: seq<X>, counts: nat -> X -> nat, ii: nat): nat
    decreases MaxDestructorSweeps - ii
  {
    if s == [] || ii >= MaxDestructorSweeps then 0
    else 1 + DrainSweeps(Sweep(s, counts(ii + 1)), counts, ii + 1)
  }

  /** The destructor sweeps at most 21 times, and stops with handles left only after all 21. */
  lemma {:induction false} DrainBound<X>(s: seq<X>, counts: nat -> X -> nat, ii: nat)
    requires ii <= MaxDestructorSweeps
    ensures ii + DrainSweeps(s, counts, ii) <= MaxDestructorSweeps
    ensures Drain(s, counts, ii) != [] ==> ii + DrainSweeps(s, counts, ii) == MaxDestructorSweeps
    decreases MaxDestructorSweeps - ii
  {
    if s != [] && ii < MaxDestructorSweeps {
      DrainBound(Sweep(s, counts(ii + 1)), counts, ii + 1);
    }
  }

  /**
   * DelayedDestructor<X>: a list of shared handles whose destruction is put off until the
   * list is their last owner.
   */
  class DelayedDestructor<X> {
    var elements: seq<X>

    constructor ()
      ensures elements == []
    {
      elements := [];
    }

    /** destroyObjects(): drop every handle the list alone owns; return how many remain. */
    method DestroyObjects(useCount: X -> nat) returns (remaining: nat)
      modifies this
      ensures elements == Sweep(old(elements), useCount)
      ensures remaining == |elements|
    {
      if elements != [] {
        elements := RemoveIf(elements, useCount);
      }
      remaining := |elements|;
    }

    /**
     * destroyObjects(delay): sweep once, then while handles remain and fewer than
     * DelayCount(delay) rounds have run, wait DelayTime(delay) ms and sweep again with
     * the counts of that round. Returns how many remain and the length in ms of each
     * wait made, in order.
     */
    method DestroyObjectsWithin(delay: int, counts: nat -> X -> nat) returns (remaining: nat, waits: seq<int>)
      modifies this
      ensures elements == TimedSweep(old(elements), counts, DelayCount(delay))
      ensures remaining == |elements|
      ensures |waits| == TimedWaits(old(elements), counts, DelayCount(delay))
      ensures forall i :: 0 <= i < |waits| ==> waits[i] == DelayTime(delay)
      ensures |waits| <= DelayCount(delay)
      ensures old(elements) == [] ==> waits == []
      ensures elements != [] ==> |waits| == DelayCount(delay)
    {
      var delayCount := DelayCount(delay);
      waits := [];
      if elements != [] {
        ghost var start := elements;
        elements := RemoveIf(elements, counts(0));
        var cnt := 0;
        while elements != [] && cnt < delayCount
          invariant 0 <= cnt <= delayCount
          invariant |waits| == cnt
          invariant forall i :: 0 <= i < |waits| ==> waits[i] == DelayTime(delay)
          invariant Retry(elements, counts, cnt, delayCount) == TimedSweep(start, counts, delayCount)
          invariant cnt + RetryWaits(elements, counts, cnt, delayCount) == TimedWaits(start, counts, delayCount)
          decreases delayCount - cnt
        {
          waits := waits + [DelayTime(delay)];
          cnt := cnt + 1;
          if elements != [] {
            elements := RemoveIf(elements, counts(cnt));
          }
        }
        RetryBudget(Sweep(start, counts(0)), counts, 0, delayCount);
      }
      remaining := |elements|;
    }

    /** addObjectsToBeDestroyed (both the moving and the copying overload). */
    method AddObjectsToBeDestroyed(obj: X)
      modifies this
      ensures elements == old(elements) + [obj]
    {
      elements := elements + [obj];
    }

    /**
     * The destructor: sweep (with the counts of sweep ii) until the list is empty; after
     * each sweep that leaves handles, give up if 21 sweeps have run, otherwise wait
     * 100 ms. `waits` holds the length in ms of each wait; `gaveUp` is the error the
     * source reports.
     */
    method Dispose(counts: nat -> X -> nat) returns (sweeps: nat, waits: seq<int>, gaveUp: bool)
      modifies this
      ensures elements == Drain(old(elements), counts, 0)
      ensures sweeps == DrainSweeps(old(elements), counts, 0)
      ensures sweeps <= MaxDestructorSweeps
      ensures forall i :: 0 <= i < |waits| ==> waits[i] == DestructorWaitMs
      ensures old(elements) != [] ==> |waits| + 1 == sweeps
      ensures old(elements) == [] ==> sweeps == 0 && waits == []
      ensures gaveUp <==> elements != []
      ensures gaveUp ==> sweeps == MaxDestructorSweeps
    {
      ghost var start := elements;
      var ii := 0;
      waits := [];
      gaveUp := false;
      while elements != [] && !gaveUp
        invariant 0 <= ii <= MaxDestructorSweeps
        invariant elements != [] && !gaveUp ==> ii < MaxDestructorSweeps
        invariant gaveUp ==> ii == MaxDestructorSweeps && elements != []
        invariant ii == 0 ==> elements == start && waits == []
        invariant ii > 0 ==> |waits| + 1 == ii || (|waits| == ii && elements != [] && !gaveUp)
        invariant ii > 0 && elements != [] && !gaveUp ==> |waits| == ii
        invariant forall i :: 0 <= i < |waits| ==> waits[i] == DestructorWaitMs
        invariant Drain(elements, counts, ii) == Drain(start, counts, 0)
        invariant ii + DrainSweeps(elements, counts, ii) == DrainSweeps(start, counts, 0)
        decreases MaxDestructorSweeps - ii
      {
        ii := ii + 1;
        elements := RemoveIf(elements, counts(ii));
        if elements != [] {
          if ii > 20 {
            gaveUp := true;
          } else {
            waits := waits + [DestructorWaitMs];
          }
        }
      }
      sweeps := ii;
      DrainBound(start, counts, 0);
    }
  }
}
