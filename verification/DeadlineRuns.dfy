/**
 * Runs of the deadline scheduler: its lists agree in every reachable state, and
 * a pending write is overtaken by a bounded number of reads
 * (common/block/deadline-iosched.c:77-327).
 */
module DeadlineRuns {
  import opened SeqUtil
  import opened SortedTree
  import opened Deadline

  datatype Event =
    | Add(d: Dir, x: nat, p: int)
    | Front(d: Dir, x: nat, p: int)
    | Swallow(d: Dir, x: nat, y: nat)
    | Dispatch
    | Tick(now: int)

  predicate Enabled(s: State, e: Event) {
    match e
    case Add(d, x, p) => Fresh(s, x)
    case Front(d, x, p) => x in Of(s, d).sort
    case Swallow(d, x, y) => x in Of(s, d).sort && y in Of(s, d).sort && x != y
    case Dispatch => true
    case Tick(t) => t >= s.now
  }

  function Next(s: State, c: Conf, e: Event): State
    requires Whole(s, c) && Enabled(s, e)
  {
    WholeOk(s, c);
    match e
    case Add(d, x, p) => Added(s, c, d, x, p)
    case Front(d, x, p) => FrontMerged(s, c, d, x, p)
    case Swallow(d, x, y) =>
      SwallowedOk(s, d, x, y, s.now + Expire(c, d));
      Swallowed(s, d, x, y)
    case Dispatch => Dispatched(s, c)
    case Tick(t) => s.(now := t)
  }

  lemma WholeOk(s: State, c: Conf)
    requires Whole(s, c)
    ensures forall d :: Ok(s, d, {}, s.now + Expire(c, d))
  {
    hide Ok;
  }

  // A step in direction d leaves the other direction alone, except that it may
  // drop its next request.
  ghost predicate Local(s: State, t: State, d: Dir) {
    var a, b := Of(s, Other(d)), Of(t, Other(d));
    && b.sort == a.sort && b.fifo == a.fifo
    && (b.next == None || (b.next == a.next && (Of(t, d).next.Some? ==> Of(s, d).next.Some?)))
    && (forall x :: x in s.pos && x !in Of(s, d).fifo ==> x in t.pos && t.pos[x] == s.pos[x])
    && (forall x :: x in s.due && x !in Of(s, d).fifo ==> x in t.due && t.due[x] == s.due[x])
    && (forall x :: x in Of(t, d).fifo ==> x in Of(s, d).fifo || x !in s.pos)
    && (forall x :: x in t.out ==> x in s.out || x in Of(s, d).fifo)
    && t.now == s.now
  }

  lemma OtherOk(s: State, t: State, d: Dir, limit: int)
    requires Ok(s, Other(d), {}, limit) && Local(s, t, d)
    requires forall x :: x in Of(s, d).fifo ==> x !in Of(s, Other(d)).fifo
    requires Distinct(t.out) && forall x :: x in t.out ==> x in t.pos
    ensures Ok(t, Other(d), {}, limit)
  {
  }

  lemma WholeFrom(s: State, t: State, c: Conf, d: Dir)
    requires Whole(s, c) && Local(s, t, d) && Ok(t, d, {}, s.now + Expire(c, d))
    requires t.starved <= c.writesStarved && forall x :: x in t.due ==> x in t.pos
    ensures Whole(t, c)
  {
    hide SideOk, Distinct;
    OtherOk(s, t, d, s.now + Expire(c, Other(d)));
  }

  lemma LocalMove(s: State, d: Dir, x: nat, extra: set<nat>, limit: int)
    requires Ok(s, d, extra, limit) && x in Of(s, d).sort
    ensures x in Of(s, d).fifo && Local(s, Move(s, d, x), d)
  {
    hide Rising, Ordered, Taken, Distinct;
    var side := Of(s, d).(next := Latter(Of(s, d).sort, x));
    SortedDistinct(Of(s, d), s.pos, s.due, extra, limit);
    LatterIsOther(Of(s, d).sort, x);
    assert SideOk(side, s.pos, s.due, extra, limit);
    TakenOk(side, x, s.pos, s.due, extra, limit);
  }

  lemma LocalSettled(s: State, d: Dir, p: int, extra: set<nat>, limit: int)
    requires Ok(s, d, extra, limit)
    requires forall x :: x in Of(s, d).sort ==> x in s.pos && x in Of(s, d).fifo
    ensures var t := Settled(s, d, p);
            Local(s, t, d) && t.starved == s.starved && t.batching == s.batching && t.due == s.due && t.pos == s.pos
  {
    hide Rising, Ordered, Taken, Distinct, Alias;
    AliasIs(Of(s, d).sort, s.pos, p);
    match Alias(Of(s, d).sort, s.pos, p)
    case None =>
    case Some(y) => LocalMove(s, d, y, extra, limit);
  }

  lemma AddKeeps(s: State, c: Conf, d: Dir, x: nat, p: int)
    requires Whole(s, c) && Fresh(s, x) && Ok(s, d, {}, s.now + Expire(c, d))
    ensures var t := Added(s, c, d, x, p); Whole(t, c) && t.batching == s.batching && t.starved == s.starved
  {
    hide Whole, Settled, SideOk, Distinct;
    var due := s.now + Expire(c, d);
    var s1 := s.(pos := s.pos[x := p]);
    NewPos(s, d, x, p, due);
    SettledOk(s1, d, p, {}, due);
    LocalSettled(s1, d, p, {}, due);
    AddedOk(s, c, d, x, p);
    Rest(s, c);
    WholeFrom(s, Added(s, c, d, x, p), c, d);
  }

  lemma Rest(s: State, c: Conf)
    requires Whole(s, c)
    ensures s.starved <= c.writesStarved && forall x :: x in s.due ==> x in s.pos
  {
  }

  lemma LocalPulled(s: State, t: State, d: Dir, x: nat, p: int)
    requires x in Of(s, d).sort && x in Of(s, d).fifo && Local(Pulled(s, d, x, p), t, d)
    ensures Local(s, t, d)
  {
    hide Without;
  }

  lemma LocalPlaced(s: State, t: State, d: Dir, x: nat)
    requires x in t.pos && forall y :: y in Of(t, d).sort ==> y in t.pos
    requires Local(s, t, d)
    ensures Local(s, Placed(t, d, x), d)
  {
    hide Rank, InsertAt;
  }

  lemma FrontKeeps(s: State, c: Conf, d: Dir, x: nat, p: int)
    requires Whole(s, c) && x in Of(s, d).sort && Ok(s, d, {}, s.now + Expire(c, d))
    ensures var t := FrontMerged(s, c, d, x, p); Whole(t, c) && t.batching == s.batching && t.starved == s.starved
  {
    var limit := s.now + Expire(c, d);
    SortKnown(s, d, {}, limit);
    PulledOk(s, d, x, p, limit);
    var s1 := Pulled(s, d, x, p);
    SettledOk(s1, d, p, {x}, limit);
    LocalSettled(s1, d, p, {x}, limit);
    FrontMergedOk(s, c, d, x, p);
    Rest(s, c);
    hide Whole, Settled, Ok, Local, Without, InsertAt;
    LocalPulled(s, Settled(s1, d, p), d, x, p);
    LocalPlaced(s, Settled(s1, d, p), d, x);
    WholeFrom(s, FrontMerged(s, c, d, x, p), c, d);
  }

  lemma LocalSwallowed(s: State, d: Dir, x: nat, y: nat)
    requires x in Of(s, d).fifo && y in Of(s, d).fifo && y in Of(s, d).sort && x != y
    requires x in s.due && y in s.due && Ordered(Of(s, d).fifo, s.due) && Distinct(Of(s, d).fifo)
    ensures Local(s, Swallowed(s, d, x, y), d)
  {
    hide Ordered, Distinct, Without, MovedAfter;
    var side := Of(s, d);
    MovedAfterOk(side.fifo, s.due, x, y);
    WithoutHas(side.fifo, y);
    WithoutHas(MovedAfter(side.fifo, x, y), y);
  }

  lemma SwallowKeeps(s: State, c: Conf, d: Dir, x: nat, y: nat)
    requires Whole(s, c) && Ok(s, d, {}, s.now + Expire(c, d))
    requires x in Of(s, d).sort && y in Of(s, d).sort && x != y
    requires x in Of(s, d).fifo && y in Of(s, d).fifo && x in s.due && y in s.due
    ensures var t := Swallowed(s, d, x, y); Whole(t, c) && t.batching == s.batching && t.starved == s.starved
  {
    hide Whole, Ok, Local, Taken, MovedAfter, Ordered, Distinct;
    SwallowedOk(s, d, x, y, s.now + Expire(c, d));
    Rest(s, c);
    FifoOrdered(s, d, s.now + Expire(c, d));
    LocalSwallowed(s, d, x, y);
    SwallowedRest(s, d, x, y);
    WholeFrom(s, Swallowed(s, d, x, y), c, d);
  }

  lemma FifoOrdered(s: State, d: Dir, limit: int)
    requires Ok(s, d, {}, limit)
    ensures Ordered(Of(s, d).fifo, s.due) && Distinct(Of(s, d).fifo)
  {
    hide Rising;
  }

  lemma SwallowedRest(s: State, d: Dir, x: nat, y: nat)
    requires x in Of(s, d).fifo && y in Of(s, d).fifo && y in Of(s, d).sort && x != y
    requires x in s.due && y in s.due
    ensures var t := Swallowed(s, d, x, y);
            t.batching == s.batching && t.starved == s.starved && t.pos == s.pos &&
              forall z :: z in t.due <==> z in s.due
  {
    hide Taken, MovedAfter;
  }

  lemma WithoutHas(s: seq<nat>, x: nat)
    requires x in s
    ensures forall y :: y in Without(s, x) ==> y in s
  {
  }

  lemma DispatchKeeps(s: State, c: Conf)
    requires Whole(s, c)
    ensures Whole(Dispatched(s, c), c)
  {
    hide Whole, Move, Picked;
    WholeKnown(s, c);
    PickedIsQueued(s, c);
    PickedStarves(s, c);
    Rest(s, c);
    match Picked(s, c)
    case Idle =>
    case Pick(d, x, batch, starved) => MoveKeeps(s, c, d, x, if batch then s.batching + 1 else 1, starved);
  }

  lemma PickedStarves(s: State, c: Conf)
    requires Whole(s, c)
    requires forall x :: x in s.rd.fifo || x in s.wr.fifo ==> x in s.due
    ensures Picked(s, c).Pick? ==> Picked(s, c).starved <= c.writesStarved
  {
    hide Ok, BatchStart;
  }

  lemma MoveKeeps(s: State, c: Conf, d: Dir, x: nat, batching: nat, starved: nat)
    requires Whole(s, c) && x in Of(s, d).sort && x in Of(s, d).fifo && starved <= c.writesStarved
    ensures Whole(Move(s.(batching := batching, starved := starved), d, x), c)
  {
    hide Whole, Ok, Local, Move;
    WholeOk(s, c);
    Rest(s, c);
    var s1 := s.(batching := batching, starved := starved);
    var limit := s.now + Expire(c, d);
    SameOk(s, s1, d, limit);
    MoveOk(s1, d, x, {}, limit);
    LocalMove(s1, d, x, {}, limit);
    MoveOnly(s1, d, x);
    SameLists(s, s1, Move(s1, d, x), d);
    WholeFrom(s, Move(s1, d, x), c, d);
  }

  lemma SameOk(s: State, s1: State, d: Dir, limit: int)
    requires s1 == s.(batching := s1.batching, starved := s1.starved) && Ok(s, d, {}, limit)
    ensures Ok(s1, d, {}, limit)
  {
    hide SideOk, Distinct;
  }

  lemma SameLists(s: State, s1: State, t: State, d: Dir)
    requires s1 == s.(batching := s1.batching, starved := s1.starved) && Local(s1, t, d)
    ensures Local(s, t, d)
  {
  }

  lemma MoveOnly(s: State, d: Dir, x: nat)
    requires x in Of(s, d).sort && x in Of(s, d).fifo
    ensures var t := Move(s, d, x);
            t.batching == s.batching && t.starved == s.starved && t.due == s.due && t.pos == s.pos &&
              t.out == s.out + [x]
  {
  }

  lemma TickKeeps(s: State, c: Conf, now: int)
    requires Whole(s, c) && now >= s.now
    ensures Whole(s.(now := now), c)
  {
    hide Rising, Ordered, Distinct;
  }

  lemma StepKeeps(s: State, c: Conf, e: Event)
    requires Whole(s, c) && Enabled(s, e)
    ensures Whole(Next(s, c, e), c)
    ensures !e.Dispatch? ==> Next(s, c, e).batching == s.batching && Next(s, c, e).starved == s.starved
  {
    WholeOk(s, c);
    hide Whole, Ok, Added, FrontMerged, Swallowed, Dispatched;
    match e
    case Add(d, x, p) => AddKeeps(s, c, d, x, p);
    case Front(d, x, p) => FrontKeeps(s, c, d, x, p);
    case Swallow(d, x, y) =>
      SwallowedOk(s, d, x, y, s.now + Expire(c, d));
      SwallowKeeps(s, c, d, x, y);
    case Dispatch => DispatchKeeps(s, c);
    case Tick(t) => TickKeeps(s, c, t);
  }

  // ---------------------------------------------------------------- reachable states

  function Init(now: int): State {
    State(map[], map[], Side([], [], None), Side([], [], None), 0, 0, now, [])
  }

  ghost predicate CanRun(s: State, c: Conf, es: seq<Event>)
    requires Whole(s, c)
    decreases |es|
  {
    es == [] || (Enabled(s, es[0]) && (StepKeeps(s, c, es[0]); CanRun(Next(s, c, es[0]), c, es[1..])))
  }

  function Run(s: State, c: Conf, es: seq<Event>): (t: State)
    requires Whole(s, c) && CanRun(s, c, es)
    ensures Whole(t, c)
    decreases |es|
  {
    if es == [] then s else
      StepKeeps(s, c, es[0]);
      Run(Next(s, c, es[0]), c, es[1..])
  }

  lemma InitWhole(c: Conf, now: int)
    ensures Whole(Init(now), c)
  {
  }

  ghost predicate CanReach(c: Conf, now: int, es: seq<Event>) { InitWhole(c, now); CanRun(Init(now), c, es) }

  ghost function Reach(c: Conf, now: int, es: seq<Event>): (s: State)
    requires CanReach(c, now, es)
    ensures Whole(s, c)
  {
    InitWhole(c, now); Run(Init(now), c, es)
  }

  // In every reachable state the tree and the fifo of each direction hold the
  // same requests, the tree is sorted by sector and the fifo by deadline, a next
  // request is a queued one, and only one direction has one.
  lemma ListsAgree(c: Conf, now: int, es: seq<Event>, d: Dir)
    requires CanReach(c, now, es)
    ensures var s := Reach(c, now, es);
            var side := Of(s, d);
            && (forall x :: x in side.sort <==> x in side.fifo)
            && Distinct(side.fifo)
            && Rising(side.sort, s.pos)
            && Ordered(side.fifo, s.due)
            && (side.next.Some? ==> side.next.value in side.sort && Of(s, Other(d)).next.None?)
  {
    hide Rising, Ordered, Distinct, CanReach, Reach;
    var s := Reach(c, now, es);
    WholeKnown(s, c);
  }

  // Looking at the head of the fifo is enough to see whether anything has expired.
  lemma HeadTellsExpiry(s: State, c: Conf, d: Dir)
    requires Whole(s, c)
    ensures forall x :: x in Of(s, d).fifo ==> x in s.due
    ensures (exists x :: x in Of(s, d).fifo && s.now > s.due[x])
       <==> Of(s, d).fifo != [] && s.now > s.due[Of(s, d).fifo[0]]
  {
    hide Rising;
    var fifo := Of(s, d).fifo;
    assert Ordered(fifo, s.due);
    if fifo != [] && s.now > s.due[fifo[0]] {
      assert fifo[0] in fifo;
    }
  }

  // As long as anything is queued, a dispatch sends exactly one queued request.
  lemma DispatchSendsOne(s: State, c: Conf)
    requires Whole(s, c)
    ensures var t := Dispatched(s, c);
            if s.rd.fifo == [] && s.wr.fifo == [] then t == s
            else exists d, x :: x in Of(s, d).fifo && x !in s.out && t.out == s.out + [x] && x !in Of(t, d).fifo
  {
    hide Whole, Move;
    WholeKnown(s, c);
    PickedIsQueued(s, c);
    match Picked(s, c)
    case Idle =>
    case Pick(d, x, batch, starved) =>
      var s1 := s.(batching := if batch then s.batching + 1 else 1, starved := starved);
      MoveOnly(s1, d, x);
      DispatchKeeps(s, c);
      Gone(Dispatched(s, c), c, d, x);
      NotOutYet(s, c, d, x);
  }

  lemma Gone(t: State, c: Conf, d: Dir, x: nat)
    requires Whole(t, c) && x in t.out
    ensures x !in Of(t, d).fifo
  {
  }

  lemma NotOutYet(s: State, c: Conf, d: Dir, x: nat)
    requires Whole(s, c) && x in Of(s, d).fifo
    ensures x !in s.out
  {
  }

  // A batch starts with a request that no other of its direction has an earlier
  // deadline than, if any deadline has passed; else it goes on where it was.
  lemma BatchStartsWithOldest(s: State, c: Conf, d: Dir)
    requires Whole(s, c) && Of(s, d).fifo != []
    ensures forall x :: x in Of(s, d).fifo ==> x in s.due
    ensures if exists x :: x in Of(s, d).fifo && s.now > s.due[x]
            then forall x :: x in Of(s, d).fifo ==> s.due[BatchStart(s, d)] <= s.due[x]
            else Of(s, d).next.Some? ==> BatchStart(s, d) == Of(s, d).next.value
  {
    hide Rising;
    HeadTellsExpiry(s, c, d);
    assert Ordered(Of(s, d).fifo, s.due);
    assert Of(s, d).fifo[0] in Of(s, d).fifo;
  }

  // A request that was moved leaves the nearest one above it as the next.
  lemma BatchGoesUp(s: State, c: Conf, d: Dir, x: nat)
    requires Whole(s, c) && x in Of(s, d).sort
    ensures x in Of(s, d).fifo && x in s.pos
    ensures match Of(Move(s, d, x), d).next
            case None => forall y :: y in Of(s, d).sort ==> y in s.pos && s.pos[y] <= s.pos[x]
            case Some(z) =>
              && z in Of(s, d).sort && z in s.pos && s.pos[z] > s.pos[x]
              && forall y :: y in Of(s, d).sort ==> y in s.pos && (s.pos[y] > s.pos[x] ==> s.pos[z] <= s.pos[y])
  {
    hide Distinct, Ordered, Latter;
    WholeOk(s, c);
    Neighbours(Of(s, d).sort, s.pos, x);
  }

  // The request that swallows another takes over the earlier of the two deadlines.
  lemma SwallowTakesEarlier(s: State, c: Conf, d: Dir, x: nat, y: nat)
    requires Whole(s, c) && Enabled(s, Swallow(d, x, y))
    ensures var t := Next(s, c, Swallow(d, x, y));
            && x in s.due && y in s.due && x in t.due
            && t.due[x] == (if s.due[y] < s.due[x] then s.due[y] else s.due[x])
            && (forall z :: z in Of(t, d).fifo <==> z in Of(s, d).fifo && z != y)
            && (forall z :: z in s.due && z != x ==> z in t.due && t.due[z] == s.due[z])
  {
    hide Whole, Ok, Ordered, Distinct, Without, MovedAfter;
    WholeOk(s, c);
    SwallowedOk(s, d, x, y, s.now + Expire(c, d));
    FifoOrdered(s, d, s.now + Expire(c, d));
    var fifo := Of(s, d).fifo;
    MovedAfterOk(fifo, s.due, x, y);
    WithoutKeeps(fifo, y);
    WithoutKeeps(MovedAfter(fifo, x, y), y);
  }

  predicate Waiting(s: State, z: nat) { z in s.rd.fifo || z in s.wr.fifo }

  // Requests are neither lost nor made up: one that was waiting or sent still is,
  // unless it was swallowed, and a new one was added.
  lemma NothingIsLost(s: State, c: Conf, e: Event, z: nat)
    requires Whole(s, c) && Enabled(s, e)
    ensures var t := Next(s, c, e);
            Waiting(t, z) || z in t.out <==>
            (Waiting(s, z) || z in s.out || (e.Add? && z == e.x)) && !(e.Swallow? && z == e.y)
  {
    hide Whole, Ok, Added, FrontMerged, Dispatched;
    WholeOk(s, c);
    WholeKnown(s, c);
    match e
    case Add(d, x, p) => AddedHas(s, c, d, x, p, z);
    case Front(d, x, p) => FrontHas(s, c, d, x, p, z);
    case Swallow(d, x, y) =>
      SwallowTakesEarlier(s, c, d, x, y);
      SwallowedElsewhere(s, c, d, x, y);
    case Dispatch => DispatchedHas(s, c, z);
    case Tick(t) =>
  }

  lemma SwallowedElsewhere(s: State, c: Conf, d: Dir, x: nat, y: nat)
    requires Whole(s, c) && Enabled(s, Swallow(d, x, y))
    ensures var t := Next(s, c, Swallow(d, x, y));
            t.out == s.out && Of(t, Other(d)) == Of(s, Other(d)) && y !in Of(s, Other(d)).fifo && y !in s.out
  {
    WholeKnown(s, c);
    WholeOk(s, c);
    SwallowedOk(s, d, x, y, s.now + Expire(c, d));
  }

  lemma MovedHas(s: State, d: Dir, x: nat, extra: set<nat>, limit: int, z: nat)
    requires Ok(s, d, extra, limit) && x in Of(s, d).sort && x in Of(s, d).fifo
    ensures var t := Move(s, d, x);
            Of(t, Other(d)).fifo == Of(s, Other(d)).fifo
            && (z in Of(t, d).fifo || z in t.out <==> z in Of(s, d).fifo || z in s.out)
  {
    hide Rising, Ordered, Distinct, Taken;
    var side := Of(s, d).(next := Latter(Of(s, d).sort, x));
    SortedDistinct(Of(s, d), s.pos, s.due, extra, limit);
    LatterIsOther(Of(s, d).sort, x);
    assert SideOk(side, s.pos, s.due, extra, limit);
    TakenOk(side, x, s.pos, s.due, extra, limit);
  }

  lemma SettledHas(s: State, d: Dir, p: int, extra: set<nat>, limit: int, z: nat)
    requires Ok(s, d, extra, limit)
    requires forall x :: x in Of(s, d).sort ==> x in s.pos && x in Of(s, d).fifo
    ensures var t := Settled(s, d, p);
            Of(t, Other(d)).fifo == Of(s, Other(d)).fifo
            && (z in Of(t, d).fifo || z in t.out <==> z in Of(s, d).fifo || z in s.out)
  {
    hide Ordered, Distinct, Move, Alias, Rising;
    AliasIs(Of(s, d).sort, s.pos, p);
    match Alias(Of(s, d).sort, s.pos, p)
    case None =>
    case Some(y) => MovedHas(s, d, y, extra, limit, z);
  }

  lemma AddedHas(s: State, c: Conf, d: Dir, x: nat, p: int, z: nat)
    requires Whole(s, c) && Fresh(s, x) && Ok(s, d, {}, s.now + Expire(c, d))
    ensures var t := Added(s, c, d, x, p);
            Waiting(t, z) || z in t.out <==> Waiting(s, z) || z in s.out || z == x
  {
    hide Whole, Settled, Ok, InsertAt;
    var due := s.now + Expire(c, d);
    var s1 := s.(pos := s.pos[x := p]);
    NewPos(s, d, x, p, due);
    SettledOk(s1, d, p, {}, due);
    SettledHas(s1, d, p, {}, due, z);
  }

  lemma FrontHas(s: State, c: Conf, d: Dir, x: nat, p: int, z: nat)
    requires Whole(s, c) && x in Of(s, d).sort && Ok(s, d, {}, s.now + Expire(c, d))
    ensures var t := FrontMerged(s, c, d, x, p);
            Waiting(t, z) || z in t.out <==> Waiting(s, z) || z in s.out
  {
    hide Whole, Settled, Ok, InsertAt, Without;
    var limit := s.now + Expire(c, d);
    PulledOk(s, d, x, p, limit);
    var s1 := Pulled(s, d, x, p);
    SettledOk(s1, d, p, {x}, limit);
    SettledHas(s1, d, p, {x}, limit, z);
  }

  lemma DispatchedHas(s: State, c: Conf, z: nat)
    requires Whole(s, c)
    ensures var t := Dispatched(s, c); Waiting(t, z) || z in t.out <==> Waiting(s, z) || z in s.out
  {
    hide Whole, Move, Picked, Ok;
    WholeKnown(s, c);
    WholeOk(s, c);
    PickedIsQueued(s, c);
    match Picked(s, c)
    case Idle =>
    case Pick(d, x, batch, starved) =>
      var s1 := s.(batching := if batch then s.batching + 1 else 1, starved := starved);
      SameOk(s, s1, d, s.now + Expire(c, d));
      MovedHas(s1, d, x, {}, s.now + Expire(c, d), z);
  }

  // ---------------------------------------------------------------- starvation

  function Batch(c: Conf): nat { if c.fifoBatch > 1 then c.fifoBatch else 1 }

  // What is left of the current batch and of the batches writes may still wait.
  function Patience(s: State, c: Conf): int {
    (if c.fifoBatch > s.batching then c.fifoBatch - s.batching else 0) + (c.writesStarved - s.starved) * Batch(c)
  }

  // A run in which writes stay pending and none is dispatched.
  ghost predicate Starving(s: State, c: Conf, es: seq<Event>)
    requires Whole(s, c)
    decreases |es|
  {
    && s.wr.fifo != []
    && (es != [] ==>
          && Enabled(s, es[0])
          && (WholeKnown(s, c); es[0].Dispatch? ==> Picked(s, c).Pick? && Picked(s, c).dir.Read?)
          && (StepKeeps(s, c, es[0]); Starving(Next(s, c, es[0]), c, es[1..])))
  }

  function Reads(es: seq<Event>): nat {
    if es == [] then 0 else (if es[0].Dispatch? then 1 else 0) + Reads(es[1..])
  }

  lemma Stretch(a: int, m: int)
    ensures (a - 1) * m == a * m - m
  {
  }

  lemma ReadCostsPatience(s: State, c: Conf)
    requires Whole(s, c) && s.wr.fifo != []
    requires forall x :: x in s.rd.fifo || x in s.wr.fifo ==> x in s.due
    requires Picked(s, c).Pick? && Picked(s, c).dir.Read?
    ensures Patience(Dispatched(s, c), c) <= Patience(s, c) - 1
  {
    hide Whole, Move, BatchStart;
    PickedIsQueued(s, c);
    var k := Picked(s, c);
    MoveOnly(s.(batching := if k.batch then s.batching + 1 else 1, starved := k.starved), k.dir, k.id);
    Stretch(c.writesStarved - s.starved, Batch(c));
  }

  lemma {:induction false} ReadsWithinPatience(s: State, c: Conf, es: seq<Event>)
    requires Whole(s, c) && Starving(s, c, es)
    ensures Reads(es) <= Patience(s, c)
    decreases |es|
  {
    hide Whole, Next, Dispatched;
    if es == [] {
      PatienceLeft(s, c);
    } else {
      StepKeeps(s, c, es[0]);
      var t := Next(s, c, es[0]);
      ReadsWithinPatience(t, c, es[1..]);
      if es[0].Dispatch? {
        WholeKnown(s, c);
        DispatchIs(s, c);
        ReadCostsPatience(s, c);
      }
    }
  }

  lemma DispatchIs(s: State, c: Conf)
    requires Whole(s, c)
    ensures Next(s, c, Dispatch) == Dispatched(s, c)
  {
    hide Whole, Dispatched;
  }

  lemma PatienceLeft(s: State, c: Conf)
    requires Whole(s, c)
    ensures 0 <= Patience(s, c) <= (c.writesStarved + 1) * Batch(c)
  {
    hide Ok;
    Product(c.writesStarved - s.starved, Batch(c));
    Product(s.starved, Batch(c));
    assert (c.writesStarved + 1) * Batch(c)
           == (c.writesStarved - s.starved) * Batch(c) + s.starved * Batch(c) + Batch(c);
  }

  lemma Product(a: nat, m: nat)
    ensures a * m >= 0
  {
  }

  // While writes are pending, at most (writes_starved + 1) * max(1, fifo_batch)
  // reads are dispatched before a write is, from any reachable state.
  lemma WritesAreNotStarved(s: State, c: Conf, es: seq<Event>)
    requires Whole(s, c) && Starving(s, c, es)
    ensures Reads(es) <= (c.writesStarved + 1) * Batch(c)
  {
    hide Whole;
    ReadsWithinPatience(s, c, es);
    PatienceLeft(s, c);
  }
}
