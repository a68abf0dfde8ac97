/**
 * The V(R) I/O scheduler (common/block/vr-iosched.c:73-306): one tree of
 * requests sorted by sector, with the nearest request on either side of the
 * head kept at hand, and two fifos.
 */
module Vr {
  import opened SeqUtil
  import opened SortedTree

  datatype Conf = Conf(syncExpire: nat, asyncExpire: nat, fifoBatch: nat, revPenalty: nat)

  datatype State = State(pos: map<nat, int>, due: map<nat, int>, sort: seq<nat>, sync: seq<nat>, async: seq<nat>,
                         next: Option<nat>, prev: Option<nat>, last: int, forward: bool, nbatched: nat, now: int,
                         out: seq<nat>)

  // ---------------------------------------------------------------- the steps

  // vr_del_rq_rb
  function Deleted(s: State, x: nat): State
    requires x in s.sort
  {
    var next := if s.next == Some(x) then Latter(s.sort, x) else s.next;
    var prev := if s.next != Some(x) && s.prev == Some(x) then Former(s.sort, x) else s.prev;
    s.(next := next, prev := prev, sort := Without(s.sort, x))
  }

  function Cleared(fifo: seq<nat>, x: nat): seq<nat> { if x in fifo then Without(fifo, x) else fifo }

  // vr_remove_request
  function Removed(s: State, x: nat): State
    requires x in s.sort
  {
    Deleted(s.(sync := Cleared(s.sync, x), async := Cleared(s.async, x)), x)
  }

  // vr_move_request
  function Moved(s: State, x: nat): State
    requires x in s.sort && x in s.pos
  {
    var t := Removed(Turned(s, x), x);
    t.(out := t.out + [x], nbatched := t.nbatched + 1)
  }

  // The head goes to x, and the caches to its neighbours.
  function Turned(s: State, x: nat): State
    requires x in s.sort && x in s.pos
  {
    s.(forward := s.pos[x] > s.last, last := s.pos[x], next := Latter(s.sort, x), prev := Former(s.sort, x))
  }

  function Settled(s: State, p: int): State
    requires forall x :: x in s.sort ==> x in s.pos
  {
    match Alias(s.sort, s.pos, p)
    case None => s
    case Some(y) =>
      AliasKnown(s.sort, s.pos, p);
      Moved(s, y)
  }

  lemma AliasKnown(sort: seq<nat>, pos: map<nat, int>, p: int)
    requires forall x :: x in sort ==> x in pos
    ensures Alias(sort, pos, p).Some? ==> Alias(sort, pos, p).value in sort
  {
  }

  // The rest of vr_add_rq_rb: into the tree, and into the cache if nearest.
  function Inserted(s: State, x: nat): State
    requires x in s.pos && forall y :: y in s.sort ==> y in s.pos
    requires s.next.Some? ==> s.next.value in s.pos
    requires s.prev.Some? ==> s.prev.value in s.pos
  {
    var p := s.pos[x];
    var t := s.(sort := InsertAt(s.sort, Rank(s.sort, s.pos, p), x));
    if p >= s.last then
      if s.next.None? || s.pos[s.next.value] > p then t.(next := Some(x)) else t
    else if s.prev.None? || s.pos[s.prev.value] < p then t.(prev := Some(x)) else t
  }

  // ---------------------------------------------------------------- the caches

  // next is the nearest queued request at or above the head, prev the nearest below it.
  ghost predicate Nearest(s: State)
    requires forall x :: x in s.sort ==> x in s.pos
  {
    NextOk(s.sort, s.pos, s.last, s.next) && PrevOk(s.sort, s.pos, s.last, s.prev)
  }

  ghost predicate NextOk(sort: seq<nat>, pos: map<nat, int>, last: int, next: Option<nat>)
    requires forall x :: x in sort ==> x in pos
  {
    match next
    case None => forall y :: y in sort ==> pos[y] < last
    case Some(x) => x in sort && pos[x] >= last && forall y :: y in sort && pos[y] >= last ==> pos[x] <= pos[y]
  }

  ghost predicate PrevOk(sort: seq<nat>, pos: map<nat, int>, last: int, prev: Option<nat>)
    requires forall x :: x in sort ==> x in pos
  {
    match prev
    case None => forall y :: y in sort ==> pos[y] >= last
    case Some(x) => x in sort && pos[x] < last && forall y :: y in sort && pos[y] < last ==> pos[y] <= pos[x]
  }

  // The tree, its caches, and the fifos, which hold some of its requests.
  // (extra: requests out of the tree for the moment.)
  ghost predicate Ok(s: State, extra: set<nat>) {
    && Rising(s.sort, s.pos)
    && Nearest(s)
    && FifoOk(s.sync, s.sort, extra, s.due) && FifoOk(s.async, s.sort, extra, s.due)
    && (forall x :: x in s.sync ==> x !in s.async)
    && OutOk(s)
  }

  ghost predicate FifoOk(fifo: seq<nat>, sort: seq<nat>, extra: set<nat>, due: map<nat, int>) {
    Distinct(fifo) && Ordered(fifo, due) && forall x :: x in fifo ==> x in sort || x in extra
  }

  ghost predicate OutOk(s: State) {
    && Distinct(s.out)
    && (forall x :: x in s.out ==> x in s.pos && x !in s.sort)
    && (forall x :: x in s.due ==> x in s.pos)
  }

  lemma DeletedNearest(s: State, x: nat, pos: map<nat, int>)
    requires Rising(s.sort, pos) && x in s.sort
    requires forall y :: y in s.sort && y != x ==> y in s.pos && s.pos[y] == pos[y]
    requires x in s.pos && Nearest(s.(pos := pos))
    ensures var t := Deleted(s, x);
            && Rising(t.sort, s.pos)
            && (forall y :: y in t.sort <==> y in s.sort && y != x)
            && Nearest(t)
  {
    hide Distinct, Without, IndexOf, Rising, Latter, Former;
    Known(s.sort, pos);
    RisingDistinct(s.sort, pos);
    WithoutKeeps(s.sort, x);
    WithoutRising(s.sort, x, pos);
    var t := Deleted(s, x);
    RisingAlike(t.sort, pos, s.pos);
    Neighbours(s.sort, pos, x);
    forall y | y in t.sort
      ensures s.pos[y] != pos[x] && s.pos[y] == pos[y]
    {
      if pos[y] == pos[x] {
        SamePlace(s.sort, pos, x, y);
      }
    }
  }

  lemma RisingAlike(sort: seq<nat>, pos: map<nat, int>, now: map<nat, int>)
    requires Rising(sort, pos) && forall y :: y in sort ==> y in pos && y in now && now[y] == pos[y]
    ensures Rising(sort, now)
  {
  }

  lemma MovedNearest(s: State, x: nat)
    requires Rising(s.sort, s.pos) && x in s.sort
    ensures var t := Moved(s, x);
            && Rising(t.sort, t.pos)
            && (forall y :: y in t.sort <==> y in s.sort && y != x)
            && Nearest(t)
  {
    hide Distinct, Without, IndexOf, Cleared;
    RisingDistinct(s.sort, s.pos);
    WithoutKeeps(s.sort, x);
    WithoutRising(s.sort, x, s.pos);
    Neighbours(s.sort, s.pos, x);
    hide Latter, Former;
    var t := Moved(s, x);
    forall y | y in t.sort
      ensures s.pos[y] != s.pos[x]
    {
      if s.pos[y] == s.pos[x] {
        SamePlace(s.sort, s.pos, x, y);
      }
    }
  }

  lemma NextAfterInsert(sort: seq<nat>, more: seq<nat>, pos: map<nat, int>, last: int, next: Option<nat>, x: nat)
    requires (forall y :: y in sort ==> y in pos) && x in pos && forall y :: y in more <==> y in sort || y == x
    requires NextOk(sort, pos, last, next)
    ensures NextOk(more, pos, last,
                   if pos[x] >= last && (next.None? || pos[next.value] > pos[x]) then Some(x) else next)
  {
  }

  lemma PrevAfterInsert(sort: seq<nat>, more: seq<nat>, pos: map<nat, int>, last: int, prev: Option<nat>, x: nat)
    requires (forall y :: y in sort ==> y in pos) && x in pos && forall y :: y in more <==> y in sort || y == x
    requires PrevOk(sort, pos, last, prev)
    ensures PrevOk(more, pos, last, if pos[x] < last && (prev.None? || pos[prev.value] < pos[x]) then Some(x) else prev)
  {
  }

  lemma InsertedNearest(s: State, x: nat)
    requires Rising(s.sort, s.pos) && Nearest(s) && x in s.pos && x !in s.sort
    requires s.next.Some? ==> s.next.value in s.pos
    requires s.prev.Some? ==> s.prev.value in s.pos
    requires forall y :: y in s.sort ==> s.pos[y] != s.pos[x]
    ensures var t := Inserted(s, x);
            && Rising(t.sort, t.pos)
            && (forall y :: y in t.sort <==> y in s.sort || y == x)
            && Nearest(t)
  {
    hide Rising, InsertAt, NextOk, PrevOk, Rank;
    Known(s.sort, s.pos);
    PlacedRising(s.sort, s.pos, x);
    InsertedHas(s.sort, Rank(s.sort, s.pos, s.pos[x]), x);
    var more := Inserted(s, x).sort;
    NextAfterInsert(s.sort, more, s.pos, s.last, s.next, x);
    PrevAfterInsert(s.sort, more, s.pos, s.last, s.prev, x);
  }

  lemma Known(sort: seq<nat>, pos: map<nat, int>)
    requires Rising(sort, pos)
    ensures forall x :: x in sort ==> x in pos
  {
  }

  lemma ClearedOk(fifo: seq<nat>, sort: seq<nat>, rest: seq<nat>, extra: set<nat>, due: map<nat, int>, x: nat)
    requires FifoOk(fifo, sort, extra, due) && forall y :: y in rest <==> y in sort && y != x
    ensures FifoOk(Cleared(fifo, x), rest, extra, due)
    ensures forall y :: y in Cleared(fifo, x) <==> y in fifo && y != x
  {
    hide Distinct, Ordered, Without;
    if x in fifo {
      WithoutKeeps(fifo, x);
      WithoutOrdered(fifo, x, due);
    }
  }

  lemma RemovedOk(s: State, x: nat, extra: set<nat>)
    requires Ok(s, extra) && x in s.sort
    ensures Ok(Removed(s, x), extra)
    ensures forall y :: y in Removed(s, x).sort <==> y in s.sort && y != x
  {
    hide Distinct, Ordered, Rising, Deleted, Nearest, Cleared, FifoOk;
    var u := s.(sync := Cleared(s.sync, x), async := Cleared(s.async, x));
    SameCaches(s, u);
    Known(s.sort, s.pos);
    DeletedNearest(u, x, s.pos);
    DeletedOnly(u, x);
    var t := Removed(s, x);
    ClearedOk(s.sync, s.sort, t.sort, extra, s.due, x);
    ClearedOk(s.async, s.sort, t.sort, extra, s.due, x);
  }

  lemma SameCaches(s: State, t: State)
    requires Rising(s.sort, s.pos) && Nearest(s)
    requires t.sort == s.sort && t.pos == s.pos && t.next == s.next && t.prev == s.prev && t.last == s.last
    ensures Nearest(t)
  {
  }

  lemma DeletedOnly(s: State, x: nat)
    requires x in s.sort
    ensures var t := Deleted(s, x); t == s.(sort := t.sort, next := t.next, prev := t.prev)
  {
  }

  lemma MovedOk(s: State, x: nat, extra: set<nat>)
    requires Ok(s, extra) && x in s.sort
    ensures x in s.pos && Ok(Moved(s, x), extra) && Moved(s, x).last == s.pos[x]
    ensures forall y :: y in Moved(s, x).sort <==> y in s.sort && y != x
  {
    hide Distinct, Ordered, Rising, Nearest, Cleared, FifoOk;
    Known(s.sort, s.pos);
    MovedNearest(s, x);
    var t := Moved(s, x);
    ClearedOk(s.sync, s.sort, t.sort, extra, s.due, x);
    ClearedOk(s.async, s.sort, t.sort, extra, s.due, x);
    Appended(s.out, x);
  }

  // Afterwards sector p is free; at most one request was sent to make it so.
  lemma SettledOk(s: State, p: int, extra: set<nat>)
    requires Ok(s, extra)
    ensures forall x :: x in s.sort ==> x in s.pos
    ensures var t := Settled(s, p);
            && Ok(t, extra)
            && t.pos == s.pos && t.due == s.due && t.now == s.now
            && (forall y :: y in t.sort ==> y in s.sort && s.pos[y] != p)
            && (forall y :: y in t.out ==> y in s.out || y in s.sort)
  {
    hide Distinct, Ordered, Rising, Nearest, Alias, Cleared, FifoOk;
    Known(s.sort, s.pos);
    AliasIs(s.sort, s.pos, p);
    match Alias(s.sort, s.pos, p)
    case None =>
    case Some(y) => MovedOk(s, y, extra);
  }

  lemma InsertedOk(s: State, x: nat, extra: set<nat>)
    requires Ok(s, extra + {x}) && x in s.pos && x !in s.sort && x !in s.out &&
             forall y :: y in s.sort ==> s.pos[y] != s.pos[x]
    ensures (s.next.Some? ==> s.next.value in s.pos) && (s.prev.Some? ==> s.prev.value in s.pos)
    ensures Ok(Inserted(s, x), extra)
    ensures forall y :: y in Inserted(s, x).sort <==> y in s.sort || y == x
  {
    hide Distinct, Ordered, Rising, Nearest, InsertAt, Rank, FifoOk, Ok;
    CachesKnown(s, extra + {x});
    OkParts(s, extra + {x});
    InsertedNearest(s, x);
    var t := Inserted(s, x);
    FifoGrows(s.sync, s.sort, extra + {x}, t.sort, extra, s.due);
    FifoGrows(s.async, s.sort, extra + {x}, t.sort, extra, s.due);
    OkWhole(t, extra);
  }

  lemma CachesKnown(s: State, extra: set<nat>)
    requires Ok(s, extra)
    ensures (s.next.Some? ==> s.next.value in s.pos) && (s.prev.Some? ==> s.prev.value in s.pos)
  {
    hide Distinct, Ordered, FifoOk;
  }

  lemma OkParts(s: State, extra: set<nat>)
    requires Ok(s, extra)
    ensures Rising(s.sort, s.pos) && (forall x :: x in s.sort ==> x in s.pos) && Nearest(s)
    ensures FifoOk(s.sync, s.sort, extra, s.due) && FifoOk(s.async, s.sort, extra, s.due)
    ensures (forall x :: x in s.sync ==> x !in s.async) && OutOk(s)
  {
    hide Distinct, Ordered, Nearest, FifoOk, OutOk;
  }

  lemma OkWhole(s: State, extra: set<nat>)
    requires Rising(s.sort, s.pos) && (forall x :: x in s.sort ==> x in s.pos) && Nearest(s)
    requires FifoOk(s.sync, s.sort, extra, s.due) && FifoOk(s.async, s.sort, extra, s.due)
    requires (forall x :: x in s.sync ==> x !in s.async) && OutOk(s)
    ensures Ok(s, extra)
  {
    hide Distinct, Ordered, Nearest, FifoOk, OutOk, Rising;
  }

  lemma FifoGrows(fifo: seq<nat>, sort: seq<nat>, extra: set<nat>, more: seq<nat>, other: set<nat>, due: map<nat, int>)
    requires FifoOk(fifo, sort, extra, due) && forall y :: y in sort || y in extra ==> y in more || y in other
    ensures FifoOk(fifo, more, other, due)
  {
    hide Distinct, Ordered;
  }
}
