/**
 * Sorting into the dispatch list: elv_dispatch_sort
 * (common/block/elevator.c:413-449).
 *
 * The order is that of a head that sweeps one way from the boundary: first the
 * sectors at or above the boundary, rising, and then those below it, rising.
 */
module DispatchSort {
  import opened SeqUtil

  // stop: the request is a barrier or has been started
  datatype Rq = Rq(id: nat, pos: nat, end: nat, write: bool, discard: bool, stop: bool)

  // a comes no later than b in the sweep from the boundary
  predicate Sweep(a: Rq, b: Rq, boundary: nat) {
    if (a.pos >= boundary) == (b.pos >= boundary) then a.pos <= b.pos else a.pos >= boundary
  }

  predicate SameKind(a: Rq, b: Rq) { a.write == b.write && a.discard == b.discard }

  // A new request may go ahead of p.
  predicate Passes(rq: Rq, p: Rq, boundary: nat) {
    SameKind(rq, p) && !p.stop && !Sweep(p, rq, boundary)
  }

  // The place of a new request: it passes everything from k on, and not the one before.
  ghost predicate Place(queue: seq<Rq>, rq: Rq, boundary: nat, k: nat) {
    && k <= |queue|
    && (forall j :: k <= j < |queue| ==> Passes(rq, queue[j], boundary))
    && (k > 0 ==> !Passes(rq, queue[k - 1], boundary))
  }

  // Neighbours that nothing holds in place are in sweep order.
  ghost predicate Swept(queue: seq<Rq>, boundary: nat) {
    forall i :: 0 < i < |queue| ==> Settled(queue[i - 1], queue[i], boundary)
  }

  predicate Settled(a: Rq, b: Rq, boundary: nat) {
    !a.stop && !b.stop && SameKind(a, b) ==> Sweep(a, b, boundary)
  }

  lemma SweepTotal(a: Rq, b: Rq, boundary: nat)
    ensures Sweep(a, b, boundary) || Sweep(b, a, boundary)
  {
  }

  lemma SweepTransitive(a: Rq, b: Rq, c: Rq, boundary: nat)
    requires Sweep(a, b, boundary) && Sweep(b, c, boundary)
    ensures Sweep(a, c, boundary)
  {
  }

  lemma PlacedSwept(queue: seq<Rq>, rq: Rq, boundary: nat, k: nat)
    requires Swept(queue, boundary) && Place(queue, rq, boundary, k)
    ensures Swept(InsertAt(queue, k, rq), boundary)
  {
    hide Sweep;
    var r := InsertAt(queue, k, rq);
    forall i | 0 < i < |r|
      ensures Settled(r[i - 1], r[i], boundary)
    {
      if i == k {
        SweepTotal(queue[k - 1], rq, boundary);
      } else if i == k + 1 {
        SweepTotal(queue[k], rq, boundary);
      } else if i < k {
        assert Settled(queue[i - 1], queue[i], boundary);
      } else {
        assert Settled(queue[i - 2], queue[i - 1], boundary);
      }
    }
  }

  // A stretch of requests that nothing holds in place is sorted throughout.
  lemma {:induction false} StretchIsSorted(queue: seq<Rq>, boundary: nat, i: nat, j: nat)
    requires Swept(queue, boundary) && i <= j < |queue|
    requires forall m :: i <= m <= j ==> !queue[m].stop && SameKind(queue[i], queue[m])
    ensures Sweep(queue[i], queue[j], boundary)
    decreases j - i
  {
    if i < j {
      StretchIsSorted(queue, boundary, i, j - 1);
      assert Settled(queue[j - 1], queue[j], boundary);
      SweepTransitive(queue[i], queue[j - 1], queue[j], boundary);
    }
  }

  // Requests that hold things in place, and those of another kind, keep their
  // place before the new one: nothing of the kind comes after it that came before.
  lemma NothingHeldIsPassed(queue: seq<Rq>, rq: Rq, boundary: nat, k: nat, j: nat)
    requires Place(queue, rq, boundary, k) && j < |queue|
    requires queue[j].stop || !SameKind(queue[j], rq)
    ensures j < k && InsertAt(queue, k, rq)[j] == queue[j]
  {
    assert j >= k ==> Passes(rq, queue[j], boundary);
  }

  class DispatchList {
    var queue: seq<Rq>
    var nrSorted: int
    var endSector: nat

    constructor ()
      ensures queue == [] && nrSorted == 0 && endSector == 0
    {
      queue, nrSorted, endSector := [], 0, 0;
    }

    // elv_dispatch_sort
    method Sort(rq: Rq)
      modifies `queue, `nrSorted
      ensures nrSorted == old(nrSorted) - 1
      ensures exists k :: Place(old(queue), rq, endSector, k) && queue == InsertAt(old(queue), k, rq)
      ensures multiset(queue) == multiset(old(queue)) + multiset{rq}
      ensures old(Swept(queue, endSector)) ==> Swept(queue, endSector)
    {
      nrSorted := nrSorted - 1;
      var boundary: nat, k: nat := endSector, |queue|;
      while k > 0
        invariant k <= |queue|
        invariant forall j :: k <= j < |queue| ==> Passes(rq, queue[j], boundary)
      {
        var p := queue[k - 1];
        if rq.discard != p.discard || rq.write != p.write || p.stop {
          break;
        }
        if rq.pos >= boundary {
          if p.pos < boundary {
            k := k - 1;
            continue;
          }
        } else {
          if p.pos >= boundary {
            break;
          }
        }
        if rq.pos >= p.pos {
          break;
        }
        k := k - 1;
      }
      ghost var was := queue;
      assert Place(was, rq, endSector, k);
      OneMore(was, k, rq);
      queue := InsertAt(queue, k, rq);
      if Swept(was, endSector) {
        PlacedSwept(was, rq, endSector, k);
      }
    }
  }

  lemma Whole(s: seq<Rq>, k: nat)
    requires k <= |s|
    ensures multiset(s) == multiset(s[..k]) + multiset(s[k..])
  {
    assert s == s[..k] + s[k..];
  }

  lemma OneMore(s: seq<Rq>, k: nat, rq: Rq)
    requires k <= |s|
    ensures multiset(InsertAt(s, k, rq)) == multiset(s) + multiset{rq}
  {
    Whole(s, k);
  }

  // Any number of sorted insertions under one boundary.
  ghost predicate Sorted(from: seq<Rq>, rqs: seq<Rq>, boundary: nat, to: seq<Rq>)
    decreases |rqs|
  {
    if rqs == [] then to == from
    else exists k :: Place(from, rqs[0], boundary, k) && Sorted(InsertAt(from, k, rqs[0]), rqs[1..], boundary, to)
  }

  // However many are sorted in, each is there once and the list stays swept.
  lemma {:induction false} SortedKeeps(from: seq<Rq>, rqs: seq<Rq>, boundary: nat, to: seq<Rq>)
    requires Swept(from, boundary) && Sorted(from, rqs, boundary, to)
    ensures Swept(to, boundary) && multiset(to) == multiset(from) + multiset(rqs)
    decreases |rqs|
  {
    hide Swept, Passes, InsertAt;
    if rqs != [] {
      var k :| Place(from, rqs[0], boundary, k) && Sorted(InsertAt(from, k, rqs[0]), rqs[1..], boundary, to);
      PlacedSwept(from, rqs[0], boundary, k);
      SortedKeeps(InsertAt(from, k, rqs[0]), rqs[1..], boundary, to);
      OneMore(from, k, rqs[0]);
      assert rqs == [rqs[0]] + rqs[1..];
    }
  }
}
