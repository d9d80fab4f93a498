/** The in-memory expiry heaps of compute units reserved for confidential requests.

    `BinaryHeap<Reverse<LockedDetails>>` is modelled by its contents in storage order.  Which
    order the library stores them in is not specified, so no contract here depends on it. */
module LockHeaps {
  import opened Base
  import opened Events

  datatype Lock = Lock(expiresAt: Instant, units: int)

  /** The derived order: by expiry first, then by units. */
  predicate Before(a: Lock, b: Lock) {
    a.expiresAt < b.expiresAt || (a.expiresAt == b.expiresAt && a.units <= b.units)
  }

  predicate Expired(l: Lock, now: Instant) {
    l.expiresAt < now
  }

  predicate Qualifies(l: Lock, now: Instant, minUnits: int) {
    !Expired(l, now) && l.units >= minUnits
  }

  /** The events that give the units of a list of locks back: estimate the lock, bill nothing. */
  function Releases(stack: StackId, locks: seq<Lock>): (r: seq<Event>)
    ensures |r| == |locks|
  {
    seq(|locks|, i requires 0 <= i < |locks| => UpdateStackNumTokens(stack, locks[i].units, 0))
  }

  /** What one pruning pass over a heap may leave behind.  Nothing is lost or released twice,
      only expired locks are released, earliest first; a pass that ran to its end released all
      of them, and one stopped by a failed send still holds the lock it could not release. */
  ghost predicate Pruned(before: seq<Lock>, released: seq<Lock>, after: seq<Lock>, now: Instant, complete: bool) {
    && Pruning(before, released, after, now)
    && (complete <==> NoneExpired(after, now))
  }

  ghost predicate Pruning(before: seq<Lock>, released: seq<Lock>, after: seq<Lock>, now: Instant) {
    && multiset(before) == multiset(released) + multiset(after)
    && (forall l :: l in released ==> Expired(l, now))
    && (forall i, j :: 0 <= i < j < |released| ==> Before(released[i], released[j]))
    && (forall i, l :: 0 <= i < |released| && l in after ==> Before(released[i], l))
  }

  datatype Verdict = Found | NotFound | SendFailed

  /** The outcome of looking for a lock of at least `minUnits` units. */
  ghost predicate Searched(before: seq<Lock>, released: seq<Lock>, taken: seq<Lock>, after: seq<Lock>,
                           now: Instant, minUnits: int, verdict: Verdict) {
    && multiset(before) == multiset(released) + multiset(taken) + multiset(after)
    && (forall l :: l in released ==> Expired(l, now))
    && (verdict.SendFailed? <==> exists l :: l in after && Expired(l, now))
    && (verdict.Found? ==> |taken| == 1 && Qualifies(taken[0], now, minUnits))
    && (!verdict.Found? ==> taken == [])
    && (verdict.NotFound? ==> forall l :: l in after ==> l.units < minUnits)
  }

  class LockTable {
    var heaps: map<StackId, seq<Lock>>

    constructor ()
      ensures heaps == map[]
    {
      heaps := map[];
    }

    function HeapAt(stack: StackId): seq<Lock>
      reads this
    {
      if stack in heaps then heaps[stack] else []
    }

    /** `lock_compute_units_in_memory`. */
    method Push(stack: StackId, start: Instant, timeout: nat, maxNumTokens: int)
      modifies this
      ensures heaps.Keys == old(heaps.Keys) + {stack}
      ensures multiset(HeapAt(stack)) == multiset(old(HeapAt(stack))) + multiset{Lock(start + timeout, maxNumTokens)}
      ensures forall s :: s in old(heaps) && s != stack ==> heaps[s] == old(heaps[s])
    {
      heaps := heaps[stack := HeapAt(stack) + [Lock(start + timeout, maxNumTokens)]];
    }

    /** `find_stacks_meeting_criteria_and_prune`: on every exit each lock that was in the heap
        is still there, or was released by exactly one event, or is the one taken; no other
        heap is touched, and an empty heap does not stay behind. */
    method FindStacksMeetingCriteriaAndPrune(stack: StackId, minUnits: int, now: Instant, ch: Channel)
        returns (verdict: Verdict, ghost released: seq<Lock>, ghost taken: seq<Lock>)
      modifies this, ch
      ensures heaps - {stack} == old(heaps) - {stack}
      ensures ch.sent == old(ch.sent) + Releases(stack, released)
      ensures Searched(old(HeapAt(stack)), released, taken, HeapAt(stack), now, minUnits, verdict)
      ensures verdict.SendFailed? ==> ch.accepts == 0
      ensures stack in heaps <==> old(stack in heaps) && HeapAt(stack) != []
    {
      released, taken := [], [];
      if stack !in heaps {
        return NotFound, released, taken;
      }
      hide Pruned, Searched, Releases;
      ghost var before := heaps[stack];
      var complete, live;
      complete, live, released := PruneHeap(heaps[stack], stack, now, ch);
      heaps := heaps[stack := live];
      if !complete {
        SearchedAfterFailure(before, released, live, now, minUnits);
        return SendFailed, released, taken;
      }
      if live == [] {
        SearchedAfterPruning(before, released, [], [], [], now, minUnits, false);
        heaps := heaps - {stack};
        return NotFound, released, taken;
      }
      var found, kept;
      found, kept, taken := TakeFirst(live, minUnits);
      heaps := heaps[stack := kept];
      SearchedAfterPruning(before, released, live, taken, kept, now, minUnits, found);
      if !found {
        return NotFound, released, taken;
      }
      if kept == [] {
        heaps := heaps - {stack};
      }
      return Found, released, taken;
    }

    /** `prune_compute_units_in_memory`: the same pass over every entry of the map, in some
        order, until a send fails.  An entry stays in the map even when its heap is empty. */
    method PruneComputeUnitsInMemory(now: Instant, ch: Channel)
        returns (complete: bool, ghost order: seq<StackId>, ghost released: map<StackId, seq<Lock>>)
      modifies this, ch
      ensures Swept(old(heaps), heaps, order, released, now, complete)
      ensures complete ==> forall id :: id in heaps ==> id in order
      ensures ch.sent == old(ch.sent) + AllReleases(order, released)
    {
      ghost var before := heaps;
      order, released := [], map[];
      var pending := heaps.Keys;
      SweepStarts(heaps, now);
      hide Swept, Pruned, AllReleases, Releases;
      while pending != {}
        invariant heaps.Keys == before.Keys
        invariant forall id :: id in pending <==> id in heaps && id !in order
        invariant Swept(before, heaps, order, released, now, true)
        invariant ch.sent == old(ch.sent) + AllReleases(order, released)
        decreases |pending|
      {
        var id := Pick(pending);
        var ok, live;
        ghost var gone;
        ok, live, gone := PruneHeap(heaps[id], id, now, ch);
        SweepOne(before, heaps, order, released, now, id, live, gone, ok);
        heaps := heaps[id := live];
        order, released := order + [id], released[id := gone];
        if !ok {
          return false, order, released;
        }
        pending := pending - {id};
      }
      complete := true;
    }
  }

  method Pick(pending: set<StackId>) returns (id: StackId)
    requires pending != {}
    ensures id in pending
  {
    assert (forall id :: id !in pending) ==> pending == {};
    id :| id in pending;
  }

  /** A sweep has pruned the heaps in `order`, each once, and left the others alone.  If it was
      stopped, only its last heap still holds an expired lock. */
  ghost predicate Swept(before: map<StackId, seq<Lock>>, heaps: map<StackId, seq<Lock>>, order: seq<StackId>,
                        released: map<StackId, seq<Lock>>, now: Instant, complete: bool) {
    && heaps.Keys == before.Keys
    && (forall i, j :: 0 <= i < j < |order| ==> order[i] != order[j])
    && (forall id :: id in released <==> id in order)
    && (forall id :: id in order ==> id in heaps && Pruning(before[id], released[id], heaps[id], now))
    && (forall id :: id in heaps && id !in order ==> heaps[id] == before[id])
    && (complete ==> forall id :: id in order ==> NoneExpired(heaps[id], now))
    && (!complete ==> order != [] && forall id :: id in order ==> (NoneExpired(heaps[id], now) <==> id != order[|order| - 1]))
  }

  lemma SweepStarts(heaps: map<StackId, seq<Lock>>, now: Instant)
    ensures Swept(heaps, heaps, [], map[], now, true)
    ensures AllReleases([], map[]) == []
  {
  }

  lemma SweepOne(before: map<StackId, seq<Lock>>, heaps: map<StackId, seq<Lock>>, order: seq<StackId>,
                 released: map<StackId, seq<Lock>>, now: Instant,
                 id: StackId, live: seq<Lock>, gone: seq<Lock>, complete: bool)
    requires Swept(before, heaps, order, released, now, true) && id in heaps && id !in order
    requires Pruned(heaps[id], gone, live, now, complete)
    ensures Swept(before, heaps[id := live], order + [id], released[id := gone], now, complete)
    ensures AllReleases(order + [id], released[id := gone]) == AllReleases(order, released) + Releases(id, gone)
  {
    hide Pruning, NoneExpired, AllReleases, Releases;
    assert Pruning(before[id], gone, live, now);
    AllReleasesGrow(order, released, id, gone);
  }

  /** The events of a pass over several heaps. */
  ghost function AllReleases(order: seq<StackId>, released: map<StackId, seq<Lock>>): seq<Event> {
    if order == [] then []
    else
      var id := order[|order| - 1];
      AllReleases(order[..|order| - 1], released) + (if id in released then Releases(id, released[id]) else [])
  }

  lemma {:induction false} AllReleasesDepend(order: seq<StackId>, released: map<StackId, seq<Lock>>, id: StackId, locks: seq<Lock>)
    requires id !in order
    ensures AllReleases(order, released[id := locks]) == AllReleases(order, released)
  {
    if order != [] {
      AllReleasesDepend(order[..|order| - 1], released, id, locks);
    }
  }

  lemma AllReleasesGrow(order: seq<StackId>, released: map<StackId, seq<Lock>>, id: StackId, locks: seq<Lock>)
    requires id !in order
    ensures AllReleases(order + [id], released[id := locks]) == AllReleases(order, released) + Releases(id, locks)
  {
    AllReleasesDepend(order, released, id, locks);
    assert (order + [id])[..|order|] == order;
  }

  predicate NoneExpired(heap: seq<Lock>, now: Instant) {
    forall l :: l in heap ==> !Expired(l, now)
  }

  /** The peek/pop loop on one heap. */
  method PruneHeap(heap: seq<Lock>, stack: StackId, now: Instant, ch: Channel)
      returns (complete: bool, rest: seq<Lock>, ghost released: seq<Lock>)
    modifies ch
    ensures ch.sent == old(ch.sent) + Releases(stack, released)
    ensures Pruned(heap, released, rest, now, complete)
    ensures !complete ==> ch.accepts == 0
  {
    rest, released := heap, [];
    hide Pruning, Before, Releases, NoneExpired;
    NothingPruned(heap, now);
    assert ch.sent == ch.sent + Releases(stack, []) by {
      ReleasesGrow(stack, [], Lock(0, 0));
    }
    while rest != []
      invariant ch.sent == old(ch.sent) + Releases(stack, released)
      invariant Pruning(heap, released, rest, now)
      decreases |rest|
    {
      var i := Peek(rest);
      var lock := rest[i];
      if lock.expiresAt >= now {
        LeastIsLive(rest, i, now);
        break;
      }
      var sent := ch.Send(UpdateStackNumTokens(stack, lock.units, 0));
      if !sent {
        LeastIsExpired(rest, i, now);
        return false, rest, released;
      }
      PopKeepsPruning(heap, released, rest, now, i);
      ReleasesGrow(stack, released, lock);
      released := released + [lock];
      rest := RemoveAt(rest, i);
    }
    if rest == [] {
      NothingExpired(now);
    }
    complete := true;
  }

  lemma NothingPruned(heap: seq<Lock>, now: Instant)
    ensures Pruning(heap, [], heap, now)
  {
  }

  lemma NothingExpired(now: Instant)
    ensures NoneExpired([], now)
  {
  }

  lemma LeastIsLive(rest: seq<Lock>, i: nat, now: Instant)
    requires i < |rest| && !Expired(rest[i], now) && forall j :: 0 <= j < |rest| ==> Before(rest[i], rest[j])
    ensures NoneExpired(rest, now)
  {
  }

  lemma LeastIsExpired(rest: seq<Lock>, i: nat, now: Instant)
    requires i < |rest| && Expired(rest[i], now)
    ensures !NoneExpired(rest, now)
  {
    assert rest[i] in rest;
  }

  lemma ReleasesGrow(stack: StackId, locks: seq<Lock>, l: Lock)
    ensures Releases(stack, []) == []
    ensures Releases(stack, locks + [l]) == Releases(stack, locks) + [UpdateStackNumTokens(stack, l.units, 0)]
  {
  }

  lemma PopKeepsPruning(heap: seq<Lock>, released: seq<Lock>, rest: seq<Lock>, now: Instant, i: nat)
    requires Pruning(heap, released, rest, now)
    requires i < |rest| && Expired(rest[i], now) && forall j :: 0 <= j < |rest| ==> Before(rest[i], rest[j])
    ensures Pruning(heap, released + [rest[i]], RemoveAt(rest, i), now)
  {
    assert rest[i] in rest;
    RemoveAtBag(rest, i);
    forall l | l in RemoveAt(rest, i)
      ensures l in rest
    {
    }
  }

  lemma SearchedAfterPruning(before: seq<Lock>, released: seq<Lock>, live: seq<Lock>, taken: seq<Lock>, kept: seq<Lock>,
                             now: Instant, minUnits: int, found: bool)
    requires Pruned(before, released, live, now, true)
    requires multiset(live) == multiset(taken) + multiset(kept)
    requires found ==> |taken| == 1 && taken[0] in live && taken[0].units >= minUnits
    requires !found ==> taken == [] && forall l :: l in live ==> l.units < minUnits
    ensures Searched(before, released, taken, kept, now, minUnits, if found then Found else NotFound)
  {
    forall l | l in kept
      ensures l in live
    {
      assert l in multiset(kept);
      assert l in multiset(live);
    }
  }

  lemma SearchedAfterFailure(before: seq<Lock>, released: seq<Lock>, live: seq<Lock>, now: Instant, minUnits: int)
    requires Pruned(before, released, live, now, false)
    ensures Searched(before, released, [], live, now, minUnits, SendFailed)
  {
  }

  /** A lock that was in the heap is found if and only if one qualified. */
  lemma FoundIffOneQualifies(before: seq<Lock>, released: seq<Lock>, taken: seq<Lock>, after: seq<Lock>,
                             now: Instant, minUnits: int, verdict: Verdict)
    requires Searched(before, released, taken, after, now, minUnits, verdict) && !verdict.SendFailed?
    ensures verdict.Found? <==> exists l :: l in before && Qualifies(l, now, minUnits)
    ensures forall l :: multiset(released)[l] == if Expired(l, now) then multiset(before)[l] else 0
    ensures forall l :: multiset(after)[l] ==
              if Expired(l, now) then 0 else multiset(before)[l] - multiset(taken)[l]
  {
    if verdict.Found? {
      assert taken[0] in multiset(before);
    }
    forall l | l in before && Qualifies(l, now, minUnits)
      ensures verdict.Found?
    {
      assert l in multiset(before);
      assert l !in multiset(released);
      if l !in multiset(taken) {
        assert l in multiset(after);
      }
    }
    forall l
      ensures multiset(released)[l] == if Expired(l, now) then multiset(before)[l] else 0
    {
      if Expired(l, now) {
        assert l !in after && l !in taken;
        assert l !in multiset(after) && l !in multiset(taken);
      } else {
        assert l !in multiset(released);
      }
    }
  }

  /** `peek`: a least element of a non-empty heap. */
  method Peek(heap: seq<Lock>) returns (i: nat)
    requires heap != []
    ensures i < |heap| && forall j :: 0 <= j < |heap| ==> Before(heap[i], heap[j])
    ensures forall j :: 0 <= j < |heap| ==> heap[i].expiresAt <= heap[j].expiresAt
    ensures forall j :: 0 <= j < |heap| && heap[j].expiresAt == heap[i].expiresAt ==> heap[i].units <= heap[j].units
  {
    i := 0;
    for n := 1 to |heap|
      invariant i < n
      invariant forall j :: 0 <= j < n ==> Before(heap[i], heap[j])
    {
      if !Before(heap[i], heap[n]) {
        i := n;
      }
    }
  }

  /** The `retain` pass with its `found_and_removed` flag. */
  method TakeFirst(heap: seq<Lock>, minUnits: int) returns (found: bool, kept: seq<Lock>, ghost taken: seq<Lock>)
    ensures multiset(heap) == multiset(taken) + multiset(kept)
    ensures found <==> exists l :: l in heap && l.units >= minUnits
    ensures found ==> |taken| == 1 && taken[0] in heap && taken[0].units >= minUnits
    ensures !found ==> taken == []
  {
    found, kept, taken := false, [], [];
    for n := 0 to |heap|
      invariant multiset(heap[..n]) == multiset(taken) + multiset(kept)
      invariant found <==> exists i :: 0 <= i < n && heap[i].units >= minUnits
      invariant found ==> |taken| == 1 && taken[0] in heap && taken[0].units >= minUnits
      invariant !found ==> taken == []
    {
      assert heap[..n + 1] == heap[..n] + [heap[n]];
      if !found && heap[n].units >= minUnits {
        found, taken := true, [heap[n]];
      } else {
        kept := kept + [heap[n]];
      }
    }
    assert heap[..|heap|] == heap;
  }
}
