/**
 * The deadline I/O scheduler (common/block/deadline-iosched.c:77-327).
 *
 * Each direction has its requests twice: in a tree sorted by sector and in a
 * fifo sorted by deadline.  A request is a number; its sector, length and
 * deadline are kept in maps.  Sectors in one tree differ: adding a request at
 * an occupied sector first sends the occupant to the dispatch list.
 */
module Deadline {
  import opened SeqUtil
  import opened SortedTree

  datatype Dir = Read | Write

  datatype Side = Side(sort: seq<nat>, fifo: seq<nat>, next: Option<nat>)

  datatype Conf = Conf(readExpire: nat, writeExpire: nat, fifoBatch: nat, writesStarved: nat)

  // now: the clock; out: the dispatch list, oldest first
  datatype State = State(pos: map<nat, int>, due: map<nat, int>, rd: Side, wr: Side,
                         batching: nat, starved: nat, now: int, out: seq<nat>)

  function Of(s: State, d: Dir): Side { if d.Read? then s.rd else s.wr }

  function Other(d: Dir): Dir { if d.Read? then Write else Read }

  function With(s: State, d: Dir, side: Side): State {
    if d.Read? then s.(rd := side) else s.(wr := side)
  }

  function Expire(c: Conf, d: Dir): nat { if d.Read? then c.readExpire else c.writeExpire }

  // ---------------------------------------------------------------- the steps

  // deadline_remove_request
  function Taken(side: Side, x: nat): Side
    requires x in side.sort && x in side.fifo
  {
    Side(Without(side.sort, x), Without(side.fifo, x), if side.next == Some(x) then Latter(side.sort, x) else side.next)
  }

  // deadline_move_request
  function Move(s: State, d: Dir, x: nat): State
    requires x in Of(s, d).sort && x in Of(s, d).fifo
  {
    var side := Of(s, d).(next := Latter(Of(s, d).sort, x));
    var t := With(s, Other(d), Of(s, Other(d)).(next := None));
    With(t, d, Taken(side, x)).(out := s.out + [x])
  }

  // The loop of deadline_add_rq_rb: an alias is moved to the dispatch list.
  function Settled(s: State, d: Dir, p: int): State
    requires forall x :: x in Of(s, d).sort ==> x in s.pos && x in Of(s, d).fifo
  {
    match Alias(Of(s, d).sort, s.pos, p)
    case None => s
    case Some(y) => Move(s, d, y)
  }

  function Placed(s: State, d: Dir, x: nat): State
    requires x in s.pos && forall y :: y in Of(s, d).sort ==> y in s.pos
  {
    var side := Of(s, d);
    With(s, d, side.(sort := InsertAt(side.sort, Rank(side.sort, s.pos, s.pos[x]), x)))
  }

  function Queued(s: State, d: Dir, x: nat, due: int): State {
    With(s, d, Of(s, d).(fifo := Of(s, d).fifo + [x])).(due := s.due[x := due])
  }

  // deadline_add_request
  function Added(s: State, c: Conf, d: Dir, x: nat, p: int): State
    requires Ok(s, d, {}, s.now + Expire(c, d)) && Fresh(s, x)
  {
    var s1 := s.(pos := s.pos[x := p]);
    SettledOk(s1, d, p, {}, s.now + Expire(c, d));
    Queued(Placed(Settled(s1, d, p), d, x), d, x, s.now + Expire(c, d))
  }

  function Pulled(s: State, d: Dir, x: nat, p: int): State
    requires x in Of(s, d).sort
  {
    With(s, d, Of(s, d).(sort := Without(Of(s, d).sort, x))).(pos := s.pos[x := p])
  }

  // deadline_merged_request after a front merge moved the start of x to p
  function FrontMerged(s: State, c: Conf, d: Dir, x: nat, p: int): State
    requires Ok(s, d, {}, s.now + Expire(c, d)) && x in Of(s, d).sort
  {
    PulledOk(s, d, x, p, s.now + Expire(c, d));
    SettledOk(Pulled(s, d, x, p), d, p, {x}, s.now + Expire(c, d));
    Placed(Settled(Pulled(s, d, x, p), d, p), d, x)
  }

  // deadline_merged_requests: y is swallowed by x
  function Swallowed(s: State, d: Dir, x: nat, y: nat): State
    requires x in Of(s, d).fifo && y in Of(s, d).fifo && y in Of(s, d).sort && x != y
    requires x in s.due && y in s.due
  {
    var side := Of(s, d);
    if s.due[y] < s.due[x] then
      var moved := side.(fifo := MovedAfter(side.fifo, x, y));
      With(s, d, Taken(moved, y)).(due := s.due[x := s.due[y]])
    else With(s, d, Taken(side, y))
  }

  // ---------------------------------------------------------------- what every step keeps

  // One direction: both lists hold the same requests, except that those in
  // extra are out of the tree for the moment.
  ghost predicate SideOk(side: Side, pos: map<nat, int>, due: map<nat, int>, extra: set<nat>, limit: int) {
    && Rising(side.sort, pos)
    && Ordered(side.fifo, due)
    && Distinct(side.fifo)
    && (forall x :: x in side.fifo <==> x in side.sort || x in extra)
    && (forall x :: x in extra ==> x !in side.sort)
    && (forall x :: x in side.fifo ==> due[x] <= limit)
    && (side.next.Some? ==> side.next.value in side.fifo)
  }

  // Direction d is in order, with no deadline past limit.
  ghost predicate Ok(s: State, d: Dir, extra: set<nat>, limit: int) {
    && SideOk(Of(s, d), s.pos, s.due, extra, limit)
    && (forall x :: x in Of(s, d).fifo ==> x in s.pos)
    && Distinct(s.out)
    && (forall x :: x in s.out ==> x in s.pos && x !in Of(s, d).fifo)
  }

  predicate Fresh(s: State, x: nat) { x !in s.pos && x !in s.due }

  lemma TakenOk(side: Side, x: nat, pos: map<nat, int>, due: map<nat, int>, extra: set<nat>, limit: int)
    requires SideOk(side, pos, due, extra, limit) && x in side.sort
    ensures x in side.fifo && SideOk(Taken(side, x), pos, due, extra, limit)
    ensures forall y :: y in Taken(side, x).fifo <==> y in side.fifo && y != x
  {
    hide Rising, Ordered;
    RisingDistinct(side.sort, pos);
    WithoutKeeps(side.sort, x);
    WithoutKeeps(side.fifo, x);
    WithoutRising(side.sort, x, pos);
    WithoutOrdered(side.fifo, x, due);
    LatterIsOther(side.sort, x);
  }

  lemma MoveOk(s: State, d: Dir, x: nat, extra: set<nat>, limit: int)
    requires Ok(s, d, extra, limit) && x in Of(s, d).sort
    ensures x in Of(s, d).fifo && Ok(Move(s, d, x), d, extra, limit)
  {
    hide Rising, Ordered, Taken, Distinct;
    var side := Of(s, d).(next := Latter(Of(s, d).sort, x));
    SortedDistinct(Of(s, d), s.pos, s.due, extra, limit);
    LatterIsOther(Of(s, d).sort, x);
    assert SideOk(side, s.pos, s.due, extra, limit);
    TakenOk(side, x, s.pos, s.due, extra, limit);
    Appended(s.out, x);
  }

  lemma SortedDistinct(side: Side, pos: map<nat, int>, due: map<nat, int>, extra: set<nat>, limit: int)
    requires SideOk(side, pos, due, extra, limit)
    ensures Distinct(side.sort)
  {
  }

  // Afterwards the sector is free.
  lemma SettledOk(s: State, d: Dir, p: int, extra: set<nat>, limit: int)
    requires Ok(s, d, extra, limit)
    ensures forall x :: x in Of(s, d).sort ==> x in s.pos && x in Of(s, d).fifo
    ensures var t := Settled(s, d, p);
            && Ok(t, d, extra, limit)
            && t.pos == s.pos && t.due == s.due
            && (forall x :: x in Of(t, d).sort ==> s.pos[x] != p)
            && (forall x :: x in Of(t, d).fifo ==> x in Of(s, d).fifo)
            && (forall x :: x in extra ==> x in Of(t, d).fifo)
  {
    hide Distinct, Ordered, Taken, Rising, Alias;
    SortKnown(s, d, extra, limit);
    AliasIs(Of(s, d).sort, s.pos, p);
    match Alias(Of(s, d).sort, s.pos, p)
    case None =>
    case Some(y) =>
      MoveOk(s, d, y, extra, limit);
      var side := Of(s, d).(next := Latter(Of(s, d).sort, y));
      SortedDistinct(Of(s, d), s.pos, s.due, extra, limit);
      LatterIsOther(Of(s, d).sort, y);
      TakenOk(side, y, s.pos, s.due, extra, limit);
  }

  lemma SortKnown(s: State, d: Dir, extra: set<nat>, limit: int)
    requires Ok(s, d, extra, limit)
    ensures forall x :: x in Of(s, d).sort ==> x in s.pos && x in Of(s, d).fifo
  {
  }

  lemma PulledOk(s: State, d: Dir, x: nat, p: int, limit: int)
    requires Ok(s, d, {}, limit) && x in Of(s, d).sort
    ensures Ok(Pulled(s, d, x, p), d, {x}, limit)
  {
    hide Rising, Ordered, Distinct;
    var side := Of(s, d);
    SortedDistinct(side, s.pos, s.due, {}, limit);
    WithoutKeeps(side.sort, x);
    WithoutRising(side.sort, x, s.pos);
    RisingElsewhere(Without(side.sort, x), s.pos, x, p);
  }

  lemma PlacedOk(s: State, d: Dir, x: nat, limit: int)
    requires Ok(s, d, {x}, limit)
    requires x in s.pos && forall y :: y in Of(s, d).sort ==> y in s.pos && s.pos[y] != s.pos[x]
    ensures Ok(Placed(s, d, x), d, {}, limit)
  {
    hide Rising, Ordered, Distinct;
    var side := Of(s, d);
    PlacedRising(side.sort, s.pos, x);
    InsertedHas(side.sort, Rank(side.sort, s.pos, s.pos[x]), x);
  }

  lemma QueuedOk(s: State, d: Dir, x: nat, due: int)
    requires Ok(s, d, {}, due) && x !in s.due && x in s.pos && x !in s.out && x !in Of(s, d).sort
    ensures Ok(Queued(s, d, x, due), d, {x}, due)
  {
    hide Rising;
    var side, t := Of(s, d), Of(Queued(s, d, x, due), d);
    assert forall y :: y in t.fifo <==> y in side.fifo || y == x;
  }

  lemma AddedOk(s: State, c: Conf, d: Dir, x: nat, p: int)
    requires Ok(s, d, {}, s.now + Expire(c, d)) && Fresh(s, x)
    ensures Ok(Added(s, c, d, x, p), d, {}, s.now + Expire(c, d))
  {
    hide Settled, Ok, InsertAt;
    var due := s.now + Expire(c, d);
    var s1 := s.(pos := s.pos[x := p]);
    NewPos(s, d, x, p, due);
    SettledOk(s1, d, p, {}, due);
    var s2 := Settled(s1, d, p);
    NotQueued(s, d, x, due);
    SettledOut(s1, d, p, x, due);
    SortKnown(s2, d, {}, due);
    QueuedOk(s2, d, x, due);
    PlacedOk(Queued(s2, d, x, due), d, x, due);
  }

  lemma NotQueued(s: State, d: Dir, x: nat, limit: int)
    requires Ok(s, d, {}, limit) && x !in s.pos
    ensures x !in s.out && x !in Of(s, d).fifo
  {
    hide SideOk, Distinct;
  }

  lemma NewPos(s: State, d: Dir, x: nat, p: int, limit: int)
    requires Ok(s, d, {}, limit) && x !in s.pos
    ensures Ok(s.(pos := s.pos[x := p]), d, {}, limit)
  {
    hide Ordered, Distinct;
  }

  // Only queued requests are sent to the dispatch list.
  lemma SettledOut(s: State, d: Dir, p: int, x: nat, limit: int)
    requires Ok(s, d, {}, limit) && x !in s.out && x !in Of(s, d).fifo
    requires forall y :: y in Of(s, d).sort ==> y in s.pos && y in Of(s, d).fifo
    ensures x !in Settled(s, d, p).out
  {
    hide Ordered, Distinct, Taken, Rising;
  }

  lemma FrontMergedOk(s: State, c: Conf, d: Dir, x: nat, p: int)
    requires Ok(s, d, {}, s.now + Expire(c, d)) && x in Of(s, d).sort
    ensures Ok(FrontMerged(s, c, d, x, p), d, {}, s.now + Expire(c, d))
  {
    hide Settled, Ok, Without, InsertAt;
    var limit := s.now + Expire(c, d);
    PulledOk(s, d, x, p, limit);
    SettledOk(Pulled(s, d, x, p), d, p, {x}, limit);
    SortKnown(Settled(Pulled(s, d, x, p), d, p), d, {x}, limit);
    PlacedOk(Settled(Pulled(s, d, x, p), d, p), d, x, limit);
  }

  lemma SwallowedOk(s: State, d: Dir, x: nat, y: nat, limit: int)
    requires Ok(s, d, {}, limit) && x in Of(s, d).sort && y in Of(s, d).sort && x != y
    ensures x in Of(s, d).fifo && y in Of(s, d).fifo && x in s.due && y in s.due
    ensures Ok(Swallowed(s, d, x, y), d, {}, limit)
  {
    hide Ordered, Distinct, Rising, Taken;
    var side := Of(s, d);
    DueKnown(side, s.due);
    if s.due[y] < s.due[x] {
      MovedAfterOk(side.fifo, s.due, x, y);
      var moved := side.(fifo := MovedAfter(side.fifo, x, y));
      assert SideOk(moved, s.pos, s.due[x := s.due[y]], {}, limit);
      TakenOk(moved, y, s.pos, s.due[x := s.due[y]], {}, limit);
    } else {
      TakenOk(side, y, s.pos, s.due, {}, limit);
    }
  }

  lemma DueKnown(side: Side, due: map<nat, int>)
    requires Ordered(side.fifo, due)
    ensures forall x :: x in side.fifo ==> x in due
  {
  }

  // ---------------------------------------------------------------- dispatching

  datatype Pick = Idle | Pick(dir: Dir, id: nat, batch: bool, starved: nat)

  // The start of a batch: the request with the earliest deadline if that has
  // passed or there is no next one, else the next one.
  function BatchStart(s: State, d: Dir): nat
    requires Of(s, d).fifo != [] && forall x :: x in Of(s, d).fifo ==> x in s.due
  {
    var head := Of(s, d).fifo[0];
    if s.now > s.due[head] || Of(s, d).next.None? then head else Of(s, d).next.value
  }

  function Picked(s: State, c: Conf): Pick
    requires forall x :: x in s.rd.fifo || x in s.wr.fifo ==> x in s.due
  {
    var d := if s.wr.next.Some? then Write else Read;
    if Of(s, d).next.Some? && s.batching < c.fifoBatch then Pick(d, Of(s, d).next.value, true, s.starved)
    else if s.rd.fifo != [] && !(s.wr.fifo != [] && s.starved >= c.writesStarved) then
      Pick(Read, BatchStart(s, Read), false, if s.wr.fifo != [] then s.starved + 1 else s.starved)
    else if s.wr.fifo != [] then Pick(Write, BatchStart(s, Write), false, 0)
    else Idle
  }

  // deadline_dispatch_requests
  function Dispatched(s: State, c: Conf): State
    requires Whole(s, c)
  {
    WholeKnown(s, c);
    match Picked(s, c)
    case Idle => s
    case Pick(d, x, batch, starved) =>
      PickedIsQueued(s, c);
      Move(s.(batching := if batch then s.batching + 1 else 1, starved := starved), d, x)
  }

  // What every run keeps.
  ghost predicate Whole(s: State, c: Conf) {
    && Ok(s, Read, {}, s.now + c.readExpire)
    && Ok(s, Write, {}, s.now + c.writeExpire)
    && (forall x :: x in s.rd.fifo ==> x !in s.wr.fifo)
    && !(s.rd.next.Some? && s.wr.next.Some?)
    && s.starved <= c.writesStarved
    && (forall x :: x in s.due ==> x in s.pos)
  }

  lemma WholeKnown(s: State, c: Conf)
    requires Whole(s, c)
    ensures forall x :: x in s.rd.fifo || x in s.wr.fifo ==> x in s.due && x in s.pos
    ensures forall x :: x in s.rd.fifo <==> x in s.rd.sort
    ensures forall x :: x in s.wr.fifo <==> x in s.wr.sort
    ensures s.rd.next.Some? ==> s.rd.next.value in s.rd.fifo
    ensures s.wr.next.Some? ==> s.wr.next.value in s.wr.fifo
  {
    hide Rising, Distinct;
  }

  lemma PickedIsQueued(s: State, c: Conf)
    requires Whole(s, c)
    requires forall x :: x in s.rd.fifo || x in s.wr.fifo ==> x in s.due
    ensures var k := Picked(s, c); k.Pick? ==> k.id in Of(s, k.dir).sort && k.id in Of(s, k.dir).fifo
  {
    hide Whole;
    WholeKnown(s, c);
  }
}
