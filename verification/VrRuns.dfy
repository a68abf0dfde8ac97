/**
 * Whole operations of the V(R) scheduler, its runs, and what holds in all of
 * them (common/block/vr-iosched.c:73-306).
 */
module VrRuns {
  import opened SeqUtil
  import opened SortedTree
  import opened Vr

  const INT_MAX := 0x7fff_ffff

  function Expire(c: Conf, sync: bool): nat { if sync then c.syncExpire else c.asyncExpire }

  // A tree in order, and no deadline beyond what an addition now would get.
  ghost predicate Whole(s: State, c: Conf) {
    && Ok(s, {})
    && InTime(s.sync, s.due, s.now + c.syncExpire)
    && InTime(s.async, s.due, s.now + c.asyncExpire)
  }

  ghost predicate InTime(fifo: seq<nat>, due: map<nat, int>, limit: int) {
    forall x :: x in fifo ==> x in due && due[x] <= limit
  }

  // ---------------------------------------------------------------- additions

  // vr_add_rq_rb
  function AddedRb(s: State, x: nat, ghost extra: set<nat>): State
    requires Ok(s, extra) && x in s.pos && x !in s.sort && x !in s.out
  {
    SettledOk(s, s.pos[x], extra);
    OkMore(Settled(s, s.pos[x]), extra, extra + {x});
    InsertedOk(Settled(s, s.pos[x]), x, extra);
    Inserted(Settled(s, s.pos[x]), x)
  }

  lemma OkMore(s: State, extra: set<nat>, more: set<nat>)
    requires Ok(s, extra) && extra <= more
    ensures Ok(s, more)
  {
    hide Rising, Nearest, Distinct, Ordered;
  }

  lemma AddedRbOk(s: State, x: nat, extra: set<nat>)
    requires Ok(s, extra + {x}) && x in s.pos && x !in s.sort && x !in s.out
    ensures var t := AddedRb(s, x, extra + {x});
            && Ok(t, extra) && x in t.sort
            && t.pos == s.pos && t.due == s.due && t.now == s.now
            && (forall y :: y in t.sync ==> y in s.sync)
            && (forall y :: y in t.async ==> y in s.async)
  {
    hide Ok, Settled, InsertAt;
    SettledOk(s, s.pos[x], extra + {x});
    var m := Settled(s, s.pos[x]);
    CachesKnown(m, extra + {x});
    InsertedOk(m, x, extra);
    SettledFifos(s, s.pos[x]);
    InsertedOnly(m, x);
  }

  lemma InsertedOnly(s: State, x: nat)
    requires x in s.pos && forall y :: y in s.sort ==> y in s.pos
    requires s.next.Some? ==> s.next.value in s.pos
    requires s.prev.Some? ==> s.prev.value in s.pos
    ensures var t := Inserted(s, x); t == s.(sort := t.sort, next := t.next, prev := t.prev)
  {
  }

  lemma SettledFifos(s: State, p: int)
    requires forall x :: x in s.sort ==> x in s.pos
    ensures var t := Settled(s, p);
            (forall y :: y in t.sync ==> y in s.sync) && (forall y :: y in t.async ==> y in s.async)
  {
    hide Alias, Cleared;
    match Alias(s.sort, s.pos, p)
    case None =>
    case Some(y) =>
      AliasKnown(s.sort, s.pos, p);
      ClearedHas(s.sync, y);
      ClearedHas(s.async, y);
  }

  lemma ClearedHas(fifo: seq<nat>, x: nat)
    ensures forall y :: y in Cleared(fifo, x) ==> y in fifo
  {
  }

  // vr_add_request
  function Added(s: State, c: Conf, x: nat, p: int, sync: bool): State
    requires Ok(s, {}) && x !in s.pos
  {
    FreshOk(s, x, p);
    var t := AddedRb(s.(pos := s.pos[x := p]), x, {} + {x});
    if Expire(c, sync) == 0 then t
    else if sync then t.(sync := t.sync + [x], due := t.due[x := s.now + c.syncExpire])
    else t.(async := t.async + [x], due := t.due[x := s.now + c.asyncExpire])
  }

  lemma FreshOk(s: State, x: nat, p: int)
    requires Ok(s, {}) && x !in s.pos
    ensures Ok(s.(pos := s.pos[x := p]), {} + {x})
    ensures x !in s.sort && x !in s.out && x !in s.sync && x !in s.async && x !in s.due
  {
    hide Distinct, Ordered;
    OkParts(s, {});
  }

  lemma FifoAppended(fifo: seq<nat>, sort: seq<nat>, due: map<nat, int>, x: nat, t: int)
    requires FifoOk(fifo, sort, {}, due) && x in sort && x !in due && InTime(fifo, due, t)
    ensures FifoOk(fifo + [x], sort, {}, due[x := t]) && InTime(fifo + [x], due[x := t], t)
  {
  }

  lemma FifoElsewhere(fifo: seq<nat>, sort: seq<nat>, due: map<nat, int>, x: nat, t: int, limit: int)
    requires FifoOk(fifo, sort, {}, due) && x !in fifo && InTime(fifo, due, limit)
    ensures FifoOk(fifo, sort, {}, due[x := t]) && InTime(fifo, due[x := t], limit)
  {
  }

  lemma FewerInTime(fifo: seq<nat>, fewer: seq<nat>, due: map<nat, int>, limit: int)
    requires InTime(fifo, due, limit) && forall y :: y in fewer ==> y in fifo
    ensures InTime(fewer, due, limit)
  {
  }

  lemma AddKeeps(s: State, c: Conf, x: nat, p: int, sync: bool)
    requires Whole(s, c) && x !in s.pos
    ensures Whole(Added(s, c, x, p, sync), c)
  {
    hide Ok, AddedRb, Rising, FifoOk, InTime, Nearest;
    FreshOk(s, x, p);
    var m := s.(pos := s.pos[x := p]);
    AddedRbOk(m, x, {});
    var t := AddedRb(m, x, {} + {x});
    FewerInTime(s.sync, t.sync, s.due, s.now + c.syncExpire);
    FewerInTime(s.async, t.async, s.due, s.now + c.asyncExpire);
    if Expire(c, sync) != 0 {
      OkParts(t, {});
      if sync {
        FifoAppended(t.sync, t.sort, t.due, x, s.now + c.syncExpire);
        FifoElsewhere(t.async, t.sort, t.due, x, s.now + c.syncExpire, s.now + c.asyncExpire);
      } else {
        FifoAppended(t.async, t.sort, t.due, x, s.now + c.asyncExpire);
        FifoElsewhere(t.sync, t.sort, t.due, x, s.now + c.asyncExpire, s.now + c.syncExpire);
      }
      SameCaches(t, Added(s, c, x, p, sync));
      OkWhole(Added(s, c, x, p, sync), {});
    }
  }

  // ---------------------------------------------------------------- merges

  // vr_merged_request after a front merge moved the start of x to p
  function FrontMerged(s: State, x: nat, p: int): State
    requires Ok(s, {}) && x in s.sort
  {
    PulledOk(s, x, p);
    AddedRb(Deleted(s.(pos := s.pos[x := p]), x), x, {} + {x})
  }

  lemma PulledOk(s: State, x: nat, p: int)
    requires Ok(s, {}) && x in s.sort
    ensures var t := Deleted(s.(pos := s.pos[x := p]), x); Ok(t, {} + {x}) && x in t.pos && x !in t.sort && x !in t.out
  {
    hide Rising, Nearest, FifoOk, Deleted, Ok;
    OkParts(s, {});
    var u := s.(pos := s.pos[x := p]);
    SameNearest(s, u);
    DeletedNearest(u, x, s.pos);
    DeletedOnly(u, x);
    var t := Deleted(u, x);
    FifoGrows(s.sync, s.sort, {}, t.sort, {} + {x}, s.due);
    FifoGrows(s.async, s.sort, {}, t.sort, {} + {x}, s.due);
    OkWhole(t, {} + {x});
  }

  lemma SameNearest(s: State, u: State)
    requires (forall x :: x in s.sort ==> x in s.pos) && Nearest(s) && u == s.(pos := u.pos)
    ensures Nearest(u.(pos := s.pos))
  {
  }

  lemma FrontKeeps(s: State, c: Conf, x: nat, p: int)
    requires Whole(s, c) && x in s.sort
    ensures Whole(FrontMerged(s, x, p), c)
  {
    hide Ok, AddedRb, InTime, Deleted;
    PulledOk(s, x, p);
    var u := s.(pos := s.pos[x := p]);
    DeletedOnly(u, x);
    AddedRbOk(Deleted(u, x), x, {});
    var t := FrontMerged(s, x, p);
    FewerInTime(s.sync, t.sync, s.due, s.now + c.syncExpire);
    FewerInTime(s.async, t.async, s.due, s.now + c.asyncExpire);
  }

  // list_move: x leaves its fifo and is put right behind y, in the fifo of y
  function PutBehind(fifo: seq<nat>, x: nat, y: nat): seq<nat>
    requires x != y
  {
    if y in fifo then
      ClearedStill(fifo, x, y);
      InsertAt(Cleared(fifo, x), IndexOf(Cleared(fifo, x), y) + 1, x)
    else Cleared(fifo, x)
  }

  lemma ClearedStill(fifo: seq<nat>, x: nat, y: nat)
    requires y in fifo && x != y
    ensures y in Cleared(fifo, x)
  {
    if x in fifo {
      WithoutStill(fifo, x, y);
    }
  }

  // vr_merged_requests: y is swallowed by x
  function Swallowed(s: State, x: nat, y: nat): State
    requires x in s.sort && y in s.sort && x != y
    requires forall z :: z in s.sync || z in s.async ==> z in s.due
  {
    var fifos := s.sync + s.async;
    if x in fifos && y in fifos && s.due[y] < s.due[x] then
      Removed(s.(sync := PutBehind(s.sync, x, y), async := PutBehind(s.async, x, y), due := s.due[x := s.due[y]]), y)
    else Removed(s, y)
  }

  lemma PutBehindOk(fifo: seq<nat>, sort: seq<nat>, due: map<nat, int>, x: nat, y: nat, limit: int)
    requires FifoOk(fifo, sort, {}, due) && InTime(fifo, due, limit) && x in sort && x != y && y in due
    ensures var r, d := PutBehind(fifo, x, y), due[x := due[y]];
            && FifoOk(r, sort, {}, d) && InTime(r, d, limit)
            && (forall z :: z in r <==> (z in fifo && z != x) || (z == x && y in fifo))
  {
    hide Distinct, Ordered, IndexOf;
    var rest := Cleared(fifo, x);
    ClearedLess(fifo, sort, due, x);
    if y in fifo {
      ClearedStill(fifo, x, y);
      InsertedHas(rest, IndexOf(rest, y) + 1, x);
      InsertedBehind(rest, due, IndexOf(rest, y), x);
    } else {
      OrderedElsewhere(rest, due, x, due[y]);
    }
  }

  lemma OrderedElsewhere(fifo: seq<nat>, due: map<nat, int>, x: nat, t: int)
    requires Ordered(fifo, due) && x !in fifo
    ensures Ordered(fifo, due[x := t])
  {
  }

  lemma ClearedLess(fifo: seq<nat>, sort: seq<nat>, due: map<nat, int>, x: nat)
    requires FifoOk(fifo, sort, {}, due)
    ensures Distinct(Cleared(fifo, x)) && Ordered(Cleared(fifo, x), due)
    ensures forall z :: z in Cleared(fifo, x) <==> z in fifo && z != x
  {
    hide Distinct, Ordered, Without;
    if x in fifo {
      WithoutKeeps(fifo, x);
      WithoutOrdered(fifo, x, due);
    }
  }

  lemma SwallowKeeps(s: State, c: Conf, x: nat, y: nat)
    requires Whole(s, c) && x in s.sort && y in s.sort && x != y
    ensures forall z :: z in s.sync || z in s.async ==> z in s.due
    ensures Whole(Swallowed(s, x, y), c)
  {
    hide Rising, Nearest, FifoOk, Ok, PutBehind, Removed;
    OkParts(s, {});
    FifosDue(s, c);
    var m := s;
    if x in s.sync + s.async && y in s.sync + s.async && s.due[y] < s.due[x] {
      m := s.(sync := PutBehind(s.sync, x, y), async := PutBehind(s.async, x, y), due := s.due[x := s.due[y]]);
      PutBehindOk(s.sync, s.sort, s.due, x, y, s.now + c.syncExpire);
      PutBehindOk(s.async, s.sort, s.due, x, y, s.now + c.asyncExpire);
      SameCaches(s, m);
      OkWhole(m, {});
    }
    RemovedOk(m, y, {});
    RemovedOnly(m, y);
    FewerInTime(m.sync, Removed(m, y).sync, m.due, m.now + c.syncExpire);
    FewerInTime(m.async, Removed(m, y).async, m.due, m.now + c.asyncExpire);
  }

  lemma FifosDue(s: State, c: Conf)
    requires Whole(s, c)
    ensures forall z :: z in s.sync || z in s.async ==> z in s.due
  {
    hide Ok;
  }

  lemma RemovedOnly(s: State, x: nat)
    requires x in s.sort
    ensures var t := Removed(s, x);
            && t.due == s.due && t.now == s.now
            && (forall y :: y in t.sync ==> y in s.sync) && (forall y :: y in t.async ==> y in s.async)
  {
    hide Cleared;
    ClearedHas(s.sync, x);
    ClearedHas(s.async, x);
  }

  // ---------------------------------------------------------------- dispatching

  // vr_expired_request
  function Expired(s: State, fifo: seq<nat>): Option<nat>
    requires forall x :: x in fifo ==> x in s.due
  {
    if fifo != [] && s.now > s.due[fifo[0]] then Some(fifo[0]) else None
  }

  // vr_check_fifo
  function CheckFifo(s: State): Option<nat>
    requires forall x :: x in s.sync || x in s.async ==> x in s.due
  {
    var sync, async := Expired(s, s.sync), Expired(s, s.async);
    if async.Some? && sync.Some? then
      if s.due[async.value] > s.due[sync.value] then sync else async
    else if sync.Some? then sync
    else async
  }

  // vr_choose_request; the divided distance is the remainder that do_div returns
  function Choose(s: State, c: Conf): Option<nat>
    requires s.next.Some? ==> s.next.value in s.pos
    requires s.prev.Some? ==> s.prev.value in s.pos
  {
    if s.prev.None? then s.next
    else if s.next.None? then s.prev
    else
      var penalty := if c.revPenalty == 0 then INT_MAX else c.revPenalty;
      var up, down := s.pos[s.next.value] - s.last, s.last - s.pos[s.prev.value];
      var next := if s.forward then up % penalty else up;
      var prev := if s.forward then down else down % penalty;
      if next <= prev then s.next else s.prev
  }

  function Picked(s: State, c: Conf): Option<nat>
    requires Whole(s, c)
  {
    FifosDue(s, c);
    CachesKnown(s, {});
    var expired := if s.nbatched > c.fifoBatch then CheckFifo(s) else None;
    if expired.Some? then expired else Choose(s, c)
  }

  // vr_dispatch_requests
  function Dispatched(s: State, c: Conf): State
    requires Whole(s, c)
  {
    var t := if s.nbatched > c.fifoBatch then s.(nbatched := 0) else s;
    match Picked(s, c)
    case None => t
    case Some(x) =>
      PickedQueued(s, c);
      Moved(t, x)
  }

  // An expired request is reported exactly when there is one, and is an oldest one.
  lemma CheckFifoFindsOldest(s: State, c: Conf)
    requires Whole(s, c)
    ensures forall x :: x in s.sync || x in s.async ==> x in s.due
    ensures match CheckFifo(s)
            case None => forall x :: x in s.sync || x in s.async ==> s.now <= s.due[x]
            case Some(y) =>
              (y in s.sync || y in s.async) && s.now > s.due[y] &&
                forall x :: x in s.sync || x in s.async ==> s.due[y] <= s.due[x]
  {
    hide Rising, Nearest, Ok;
    OkParts(s, {});
    FifosDue(s, c);
    HeadIsFirst(s.sync, s.due);
    HeadIsFirst(s.async, s.due);
  }

  lemma HeadIsFirst(fifo: seq<nat>, due: map<nat, int>)
    requires Ordered(fifo, due)
    ensures fifo != [] ==> fifo[0] in fifo && forall x :: x in fifo ==> due[fifo[0]] <= due[x]
  {
  }

  // The caches lose nothing: a queued request is always found.
  lemma PickedQueued(s: State, c: Conf)
    requires Whole(s, c)
    ensures match Picked(s, c)
            case None => s.sort == []
            case Some(x) => x in s.sort && x in s.pos
  {
    hide Rising, Ok, CheckFifo;
    OkParts(s, {});
    CachesKnown(s, {});
    CheckFifoFindsOldest(s, c);
    if s.sort != [] {
      assert s.sort[0] in s.sort;
    }
  }

  lemma DispatchKeeps(s: State, c: Conf)
    requires Whole(s, c)
    ensures Whole(Dispatched(s, c), c)
    ensures s.sort != [] ==> |Dispatched(s, c).sort| == |s.sort| - 1
    ensures s.sort != [] ==> exists x :: x in s.sort && x !in s.out && Dispatched(s, c).out == s.out + [x]
    ensures s.sort == [] ==> Dispatched(s, c).sort == [] && Dispatched(s, c).out == s.out
  {
    hide Rising, Ok, Nearest, FifoOk, Picked, Cleared, InTime;
    OkParts(s, {});
    PickedQueued(s, c);
    var t := if s.nbatched > c.fifoBatch then s.(nbatched := 0) else s;
    SameCaches(s, t);
    OkWhole(t, {});
    match Picked(s, c)
    case None =>
    case Some(x) =>
      MovedOk(t, x, {});
      MovedOnly(t, x);
      var u := Moved(t, x);
      FewerInTime(s.sync, u.sync, s.due, s.now + c.syncExpire);
      FewerInTime(s.async, u.async, s.due, s.now + c.asyncExpire);
  }

  lemma MovedOnly(s: State, x: nat)
    requires x in s.sort && x in s.pos
    ensures var t := Moved(s, x);
            && t.due == s.due && t.now == s.now && t.out == s.out + [x] && |t.sort| == |s.sort| - 1
            && (forall y :: y in t.sync ==> y in s.sync) && (forall y :: y in t.async ==> y in s.async)
  {
    hide Cleared, Latter, Former;
    ClearedHas(s.sync, x);
    ClearedHas(s.async, x);
  }

  // ---------------------------------------------------------------- runs

  datatype Event =
    | Add(x: nat, p: int, sync: bool)
    | Front(x: nat, p: int)
    | Swallow(x: nat, y: nat)
    | Dispatch
    | Tick(now: int)

  predicate Enabled(s: State, e: Event) {
    match e
    case Add(x, p, sync) => x !in s.pos
    case Front(x, p) => x in s.sort
    case Swallow(x, y) => x in s.sort && y in s.sort && x != y
    case Dispatch => true
    case Tick(t) => t >= s.now
  }

  function Next(s: State, c: Conf, e: Event): State
    requires Whole(s, c) && Enabled(s, e)
  {
    match e
    case Add(x, p, sync) => Added(s, c, x, p, sync)
    case Front(x, p) => FrontMerged(s, x, p)
    case Swallow(x, y) =>
      FifosDue(s, c);
      Swallowed(s, x, y)
    case Dispatch => Dispatched(s, c)
    case Tick(t) => s.(now := t)
  }

  lemma StepKeeps(s: State, c: Conf, e: Event)
    requires Whole(s, c) && Enabled(s, e)
    ensures Whole(Next(s, c, e), c)
  {
    hide Whole, Ok, Added, FrontMerged, Swallowed, Dispatched;
    match e
    case Add(x, p, sync) =>
      WholeOk(s, c);
      AddKeeps(s, c, x, p, sync);
    case Front(x, p) =>
      WholeOk(s, c);
      FrontKeeps(s, c, x, p);
    case Swallow(x, y) => SwallowKeeps(s, c, x, y);
    case Dispatch => DispatchKeeps(s, c);
    case Tick(t) => TickKeeps(s, c, t);
  }

  lemma WholeOk(s: State, c: Conf)
    requires Whole(s, c)
    ensures Ok(s, {})
  {
    hide Ok;
  }

  lemma TickKeeps(s: State, c: Conf, now: int)
    requires Whole(s, c) && now >= s.now
    ensures Whole(s.(now := now), c)
  {
    hide Rising, Nearest, FifoOk, Ok;
    OkParts(s, {});
    var t := s.(now := now);
    SameCaches(s, t);
    OkWhole(t, {});
  }

  lemma SettledHas(s: State, p: int, extra: set<nat>, z: nat)
    requires Ok(s, extra) && forall x :: x in s.sort ==> x in s.pos
    ensures var t := Settled(s, p); z in t.sort || z in t.out <==> z in s.sort || z in s.out
  {
    hide Ok, Alias, Moved;
    match Alias(s.sort, s.pos, p)
    case None =>
    case Some(y) =>
      AliasKnown(s.sort, s.pos, p);
      MovedOk(s, y, extra);
      MovedOnly(s, y);
  }

  lemma AddedRbHas(s: State, x: nat, extra: set<nat>, z: nat)
    requires Ok(s, extra) && x in s.pos && x !in s.sort && x !in s.out
    ensures var t := AddedRb(s, x, extra); z in t.sort || z in t.out <==> z in s.sort || z in s.out || z == x
  {
    hide Ok, Settled, InsertAt;
    SettledOk(s, s.pos[x], extra);
    OkMore(Settled(s, s.pos[x]), extra, extra + {x});
    InsertedOk(Settled(s, s.pos[x]), x, extra);
    SettledHas(s, s.pos[x], extra, z);
    InsertedOnly(Settled(s, s.pos[x]), x);
  }

  // Requests are neither lost nor made up: one that was waiting or sent still is,
  // unless it was swallowed, and a new one was added.
  lemma NothingIsLost(s: State, c: Conf, e: Event, z: nat)
    requires Whole(s, c) && Enabled(s, e)
    ensures var t := Next(s, c, e);
            z in t.sort || z in t.out <==>
            (z in s.sort || z in s.out || (e.Add? && z == e.x)) && !(e.Swallow? && z == e.y)
  {
    hide Whole, Ok, AddedRb, Deleted, Removed, PutBehind, Dispatched;
    WholeOk(s, c);
    OkParts(s, {});
    match e
    case Add(x, p, sync) =>
      FreshOk(s, x, p);
      AddedRbHas(s.(pos := s.pos[x := p]), x, {} + {x}, z);
    case Front(x, p) =>
      PulledOk(s, x, p);
      PulledHas(s, x, p, z);
      AddedRbHas(Deleted(s.(pos := s.pos[x := p]), x), x, {} + {x}, z);
    case Swallow(x, y) => SwallowedHas(s, c, x, y, z);
    case Dispatch => DispatchedHas(s, c, z);
    case Tick(t) =>
  }

  lemma PulledHas(s: State, x: nat, p: int, z: nat)
    requires Ok(s, {}) && x in s.sort
    ensures var t := Deleted(s.(pos := s.pos[x := p]), x); t.out == s.out && (z in t.sort <==> z in s.sort && z != x)
  {
    hide Rising, Nearest, FifoOk, Deleted, Ok;
    OkParts(s, {});
    var u := s.(pos := s.pos[x := p]);
    SameNearest(s, u);
    DeletedNearest(u, x, s.pos);
    DeletedOnly(u, x);
  }

  lemma SwallowedHas(s: State, c: Conf, x: nat, y: nat, z: nat)
    requires Whole(s, c) && x in s.sort && y in s.sort && x != y
    ensures forall w :: w in s.sync || w in s.async ==> w in s.due
    ensures var t := Swallowed(s, x, y); t.out == s.out && (z in t.sort <==> z in s.sort && z != y)
  {
    hide Rising, Nearest, FifoOk, Ok, PutBehind, Cleared, Without;
    OkParts(s, {});
    FifosDue(s, c);
    RisingDistinct(s.sort, s.pos);
    WithoutKeeps(s.sort, y);
  }

  lemma DispatchedHas(s: State, c: Conf, z: nat)
    requires Whole(s, c)
    ensures var t := Dispatched(s, c); z in t.sort || z in t.out <==> z in s.sort || z in s.out
  {
    hide Rising, Ok, Nearest, FifoOk, Picked, Moved, InTime;
    OkParts(s, {});
    PickedQueued(s, c);
    var t := if s.nbatched > c.fifoBatch then s.(nbatched := 0) else s;
    SameCaches(s, t);
    OkWhole(t, {});
    match Picked(s, c)
    case None =>
    case Some(x) =>
      MovedOk(t, x, {});
      MovedOnly(t, x);
  }

  function Init(now: int): State {
    State(map[], map[], [], [], [], None, None, 0, true, 0, now, [])
  }

  lemma InitWhole(c: Conf, now: int)
    ensures Whole(Init(now), c)
  {
  }

  ghost predicate CanRun(s: State, c: Conf, es: seq<Event>)
    requires Whole(s, c)
    decreases |es|
  {
    es == [] || (Enabled(s, es[0]) && (StepKeeps(s, c, es[0]); CanRun(Next(s, c, es[0]), c, es[1..])))
  }

  function Run(s: State, c: Conf, es: seq<Event>): (t: State)
    requires Whole(s, c) && CanRun(s, c, es)
    ensures Whole(t, c)
    decreases |es|
  {
    if es == [] then s else
      StepKeeps(s, c, es[0]);
      Run(Next(s, c, es[0]), c, es[1..])
  }

  ghost predicate CanReach(c: Conf, now: int, es: seq<Event>) { InitWhole(c, now); CanRun(Init(now), c, es) }

  ghost function Reach(c: Conf, now: int, es: seq<Event>): (s: State)
    requires CanReach(c, now, es)
    ensures Whole(s, c)
  {
    InitWhole(c, now); Run(Init(now), c, es)
  }

  // In every reachable state the cached requests are the nearest queued ones on
  // either side of the head, and they differ.
  lemma CachesAreNearest(c: Conf, now: int, es: seq<Event>)
    requires CanReach(c, now, es)
    ensures var s := Reach(c, now, es);
            && (forall x :: x in s.sort ==> x in s.pos)
            && Nearest(s)
            && (s.next.Some? ==> s.next != s.prev)
  {
    hide CanReach, Reach, Ok, Rising, FifoOk;
    OkParts(Reach(c, now, es), {});
  }

  // n dispatches in a row send n requests, or all there are.
  lemma {:induction false} DispatchesDrain(s: State, c: Conf, n: nat)
    requires Whole(s, c)
    ensures CanRun(s, c, seq(n, i => Dispatch))
    ensures var t := Run(s, c, seq(n, i => Dispatch));
            |t.sort| == (if n < |s.sort| then |s.sort| - n else 0) && |t.out| == |s.out| + |s.sort| - |t.sort|
    decreases n
  {
    hide Whole, Dispatched;
    if n > 0 {
      var es := seq(n, i => Dispatch);
      assert es[0] == Dispatch && es[1..] == seq(n - 1, i => Dispatch);
      StepKeeps(s, c, Dispatch);
      DispatchKeeps(s, c);
      DispatchesDrain(Next(s, c, Dispatch), c, n - 1);
    }
  }
}
