/** Handle allocation: a bounded probe from a wrapping 32-bit counter. */
module IdAllocator {
  import opened Xids

  const U32_LIMIT := 0x1_0000_0000
  const MAX_ID_ALLOC_ATTEMPTS := 1000
  const MAX_ASYNC_REQUESTS := 64

  type U32 = x: int | 0 <= x < U32_LIMIT

  function WrappingNext(x: U32): (r: U32) {
    if x + 1 == U32_LIMIT then 0 else x + 1
  }

  /** What a bounded probe yields: the identifier, if any, and the counter it leaves behind. */
  function Probe(next: U32, live: set<U32>, attempts: nat): (r: (Option<U32>, U32))
    decreases attempts, live
  {
    if attempts == 0 then (None, next)
    else if next != 0 && next !in live then (Some(next), WrappingNext(next))
    else Probe(WrappingNext(next), live, attempts - 1)
  }

  /** The allocation loop shared by connections, statements, transactions, streams, pools and XA. */
  method AllocateId(next: U32, live: set<U32>) returns (id: Option<U32>, counter: U32)
    ensures (id, counter) == Probe(next, live, MAX_ID_ALLOC_ATTEMPTS)
  {
    counter := next;
    for i := 0 to MAX_ID_ALLOC_ATTEMPTS
      invariant Probe(counter, live, MAX_ID_ALLOC_ATTEMPTS - i) == Probe(next, live, MAX_ID_ALLOC_ATTEMPTS)
    {
      var candidate := counter;
      counter := WrappingNext(counter);
      if candidate != 0 && candidate !in live {
        return Some(candidate), counter;
      }
    }
    return None, counter;
  }

  /** The async manager refuses early, at its request limit. */
  method AllocateRequestId(next: U32, live: set<U32>) returns (id: Option<U32>, counter: U32)
    ensures id.None? <==> |live| >= MAX_ASYNC_REQUESTS
    ensures id.Some? ==> id.value != 0 && id.value !in live && counter == WrappingNext(id.value)
    ensures if id.None? then counter == next else (id, counter) == Probe(next, live, MAX_ID_ALLOC_ATTEMPTS)
  {
    if |live| >= MAX_ASYNC_REQUESTS {
      return None, next;
    }
    id, counter := AllocateId(next, live);
    ProbeFresh(next, live, MAX_ID_ALLOC_ATTEMPTS);
    ProbeSucceedsBelow(next, live, MAX_ID_ALLOC_ATTEMPTS);
  }

  /** A free candidate is taken at once. */
  lemma ProbeHead(next: U32, live: set<U32>, attempts: nat)
    requires attempts > 0 && next != 0 && next !in live
    ensures Probe(next, live, attempts) == (Some(next), WrappingNext(next))
  {
  }

  /** An identifier handed out is never zero and never live, and the counter moves just past it. */
  lemma {:induction false} ProbeFresh(next: U32, live: set<U32>, attempts: nat)
    ensures var (id, counter) := Probe(next, live, attempts);
            id.Some? ==> id.value != 0 && id.value !in live && counter == WrappingNext(id.value)
    decreases attempts
  {
    if attempts > 0 && !(next != 0 && next !in live) {
      ProbeFresh(WrappingNext(next), live, attempts - 1);
    }
  }

  /** The window of candidates that a probe of the given length inspects. */
  function Window(next: U32, attempts: nat): (w: set<U32>)
    decreases attempts
  {
    if attempts == 0 then {} else {next} + Window(WrappingNext(next), attempts - 1)
  }

  function Distance(start: U32, x: U32): (d: nat) {
    if x >= start then x - start else x + U32_LIMIT - start
  }

  lemma {:induction false} WindowMembers(next: U32, attempts: nat, x: U32)
    requires attempts <= U32_LIMIT
    ensures x in Window(next, attempts) <==> Distance(next, x) < attempts
    decreases attempts
  {
    if attempts > 0 {
      WindowMembers(WrappingNext(next), attempts - 1, x);
    }
  }

  lemma {:induction false} WindowSize(next: U32, attempts: nat)
    requires attempts <= U32_LIMIT
    ensures |Window(next, attempts)| == attempts
    decreases attempts
  {
    if attempts > 0 {
      WindowSize(WrappingNext(next), attempts - 1);
      WindowMembers(WrappingNext(next), attempts - 1, next);
    }
  }

  /** A probe fails exactly when every non-zero candidate of its window is live. */
  lemma {:induction false} ProbeFailsIff(next: U32, live: set<U32>, attempts: nat)
    ensures Probe(next, live, attempts).0.None? <==> Window(next, attempts) - {0} <= live
    decreases attempts
  {
    if attempts > 0 {
      ProbeFailsIff(WrappingNext(next), live, attempts - 1);
      var w := Window(WrappingNext(next), attempts - 1);
      assert Window(next, attempts) - {0} <= live <==> (next == 0 || next in live) && w - {0} <= live;
    }
  }

  lemma SubsetSize(a: set<U32>, b: set<U32>)
    requires a <= b
    ensures |a| <= |b|
  {
    var rest := b - a;
    assert b == a + rest && a !! rest;
  }

  /** Pigeonhole: fewer than attempts - 1 live identifiers leave a free candidate, whatever the counter. */
  lemma ProbeSucceedsBelow(next: U32, live: set<U32>, attempts: nat)
    requires 1 <= attempts <= U32_LIMIT && |live| < attempts - 1
    ensures Probe(next, live, attempts).0.Some?
  {
    ProbeFailsIff(next, live, attempts);
    if Window(next, attempts) - {0} <= live {
      WindowSize(next, attempts);
      SubsetSize(Window(next, attempts), live + {0});
    }
  }

  /** Where a probe finds nothing, some identifier other than `k` can be given up to make it find one. */
  lemma ProbeMakesRoom(next: U32, live: set<U32>, k: U32) returns (j: U32)
    requires Probe(next, live, MAX_ID_ALLOC_ATTEMPTS).0.None?
    ensures j in live && j != k && Probe(next, live - {j}, MAX_ID_ALLOC_ATTEMPTS).0.Some?
  {
    ProbeFailsIff(next, live, MAX_ID_ALLOC_ATTEMPTS);
    WindowSize(next, MAX_ID_ALLOC_ATTEMPTS);
    var others := Window(next, MAX_ID_ALLOC_ATTEMPTS) - {0, k};
    SubsetSize(Window(next, MAX_ID_ALLOC_ATTEMPTS), others + {0, k});
    assert |{0, k}| <= 2 && others != {};
    j :| j in others;
    ProbeFailsIff(next, live - {j}, MAX_ID_ALLOC_ATTEMPTS);
  }

  /** The bound is sharp: with the counter at zero, attempts - 1 live identifiers defeat the probe. */
  lemma ProbeBoundIsSharp(attempts: nat) returns (live: set<U32>)
    requires 1 <= attempts <= U32_LIMIT
    ensures |live| == attempts - 1 && Probe(0, live, attempts).0.None?
  {
    live := Window(0, attempts) - {0};
    ProbeFailsIff(0, live, attempts);
    WindowSize(0, attempts);
    WindowMembers(0, attempts, 0);
  }
}
