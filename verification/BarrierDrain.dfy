/** Barriers ordered by draining: what each step keeps of the order of the dispatch list, and
    the safety of whole runs. */
module BarrierDrain {
  import opened SeqUtil
  import opened Barrier
  import opened BarrierInvariant
  import opened BarrierSteps

  // ---------- the promise ----------

  /** Every fs request queued before rank `id` is over. */
  ghost predicate BeforeDone(l: Log, id: nat) {
    forall a :: a in AddedIn(l) && a.fs && a.id < id ==> if a.barrier then a.gen in EndedIn(l) else a.id in DoneIn(l)
  }

  /** Every barrier queued before rank `id` has ended. */
  ghost predicate BarriersDone(l: Log, id: nat) {
    forall b :: b in AddedIn(l) && b.barrier && b.id < id ==> b.gen in EndedIn(l)
  }

  /** The phases that come before kind `k` in the sequence of a barrier are done. */
  ghost predicate EarlierDone(m: Mode, l: Log, r: Request) {
    var m' := Effective(m, r.empty);
    && (r.kind != PreFlush && m'.doPreflush ==> (PreFlush, r.gen) in PhasesIn(l))
    && (r.kind == PostFlush && m'.doBar ==> (Proxy, r.gen) in PhasesIn(l))
  }

  ghost predicate SafeEvent(m: Mode, l: Log, e: Event) {
    match e
    case Issued(r) =>
      if r.kind == Normal then r.fs ==> BarriersDone(l, r.id)
      else BeforeDone(l, r.id) && EarlierDone(m, l, r)
    case Ended(b, _) => BeforeDone(l, b.id)
    case _ => true
  }

  ghost predicate Safe(m: Mode, l: Log) {
    match l
    case Empty => true
    case Snoc(rest, e) => Safe(m, rest) && SafeEvent(m, rest, e)
  }

  // ---------- the order of the dispatch list ----------

  /** Requests subject to barrier ordering. */
  ghost predicate Ordered(r: Request) { r.fs || r.kind != Normal }

  ghost function Rank(r: Request): nat {
    if r.kind != Normal then PhaseOf(r.kind) else if r.barrier then DONE else 0
  }

  ghost predicate Le(a: Request, b: Request) { a.gen < b.gen || (a.gen == b.gen && Rank(a) <= Rank(b)) }

  ghost predicate Sorted(s: seq<Request>) {
    forall i, j :: 0 <= i < j < |s| && Ordered(s[i]) && Ordered(s[j]) ==> Le(s[i], s[j])
  }

  ghost predicate AllMobile(s: seq<Request>, i: int) {
    forall j :: 0 <= i <= j < |s| ==> !s[j].Stop()
  }

  /** Behind the last request that stops sorting there are only requests of the latest generation. */
  ghost predicate MobileOk(s: seq<Request>, gen: nat) {
    forall i :: 0 <= i < |s| && s[i].fs && AllMobile(s, i) ==> s[i].gen == gen
  }

  ghost predicate DriverGen(s: seq<Request>, g: nat) {
    forall r :: r in s && r.kind == Normal && r.fs ==> r.gen == g
  }

  ghost predicate HeadGen(s: seq<Request>, g: nat) {
    forall r :: r in s && Ordered(r) ==> r.gen >= g
  }

  ghost predicate NoneOf(s: seq<Request>, g: nat) {
    forall r :: r in s && r.kind == Normal && r.fs ==> r.gen != g
  }

  ghost predicate OrderOk(q: Queue) {
    && Sorted(q.head) && MobileOk(q.head, q.gen)
    && HeadGen(q.head, q.ended) && DriverGen(q.driver, q.ended)
  }

  /** Once draining is recorded, nothing queued before the barrier is left. */
  ghost predicate QuietOk(q: Queue) {
    q.Active() && q.ordseq.drain ==> NoneOf(q.head, q.ended) && NoneOf(q.driver, q.ended)
  }

  ghost predicate Has(s: seq<Request>, a: Request) { exists r :: r in s && Base(r) == a }

  ghost predicate Located(q: Queue, a: Request) {
    a.id in DoneIn(q.log) || Has(q.head, a) || Has(q.pool, a) || Has(q.driver, a)
  }

  ghost predicate LocatedOk(q: Queue) {
    forall a :: a in AddedIn(q.log) && a.fs && !a.barrier ==> Located(q, a)
  }

  ghost predicate DrainInv(q: Queue) {
    Draining(q.nextOrdered) && OrderOk(q) && QuietOk(q) && LocatedOk(q) && Safe(q.nextOrdered, q.log)
  }

  // ---------- consequences ----------

  /** The first ordered request belongs to the lowest generation not yet dealt with. */
  lemma FirstIsLowest(s: seq<Request>, i: nat, lo: nat, hi: nat)
    requires i < |s| && Sorted(s) && BarriersOk(s, lo, hi) && Ordered(s[i]) && s[i].gen <= hi
    requires forall r :: r in s && r.kind == Normal && r.barrier ==> r.fs
    requires forall j :: 0 <= j < i && Ordered(s[j]) ==> s[j].gen < lo
    ensures s[i].gen <= lo
  {
    if lo < hi {
      assert HasBarrier(s, lo);
      var b :| b in s && b.kind == Normal && b.barrier && b.gen == lo;
      var j :| 0 <= j < |s| && s[j] == b;
      if j > i {
        assert Le(s[i], s[j]);
      }
    }
  }

  lemma HeadBounds(q: Queue)
    requires ListsOk(q) && SequenceOk(q)
    ensures forall r :: r in q.head ==> r.gen <= q.gen
    ensures forall r :: r in q.head && r.kind == Normal && r.barrier ==> r.fs
  {
  }

  /** A request handed out while a barrier is waiting or running was queued before that barrier. */
  lemma PassingGen(q: Queue)
    requires Inv(q) && Draining(q.nextOrdered) && OrderOk(q) && q.head != [] && Passes(q, q.head[0]) && q.head[0].fs
    requires q.head[0].kind == Normal
    ensures q.head[0].gen == q.ended
  {
    HeadBounds(q);
    FirstIsLowest(q.head, 0, Lowest(q), q.gen);
    var r := q.head[0];
    assert r in q.head;
    assert Odd(q.ended + 1) != Odd(q.ended);
  }

  /** The warning of blk_do_ordered is never given. */
  lemma NeverWarns(q: Queue)
    requires Inv(q) && DrainInv(q) && q.head != []
    ensures !Warns(q, q.head[0])
  {
    hide MobileOk, StoryOk, LocatedOk, Safe, CountsOk, DriverOk, PoolOk;
    var r := q.head[0];
    assert r in q.head;
    assert Odd(q.ended + 1) != Odd(q.ended);
    HeadBounds(q);
    if r.fs && r.kind == Normal {
      FirstIsLowest(q.head, 0, Lowest(q), q.gen);
    }
  }

  /** With nothing of the barrier's generation left, all that was queued before it is done. */
  lemma QuietMeansDone(q: Queue)
    requires StoryOk(q) && LocatedOk(q) && OrderOk(q)
    requires forall r :: r in q.pool ==> r.gen == q.gen
    requires forall r :: r in q.head ==> r.kind == Normal || r.fs || r.gen == q.ended
    requires OrigOk(q.orig, q.ended, q.gen, AddedIn(q.log))
    requires NoneOf(q.head, q.ended) && NoneOf(q.driver, q.ended)
    ensures BeforeDone(q.log, q.orig.id)
  {
    forall a | a in AddedIn(q.log) && a.fs && a.id < q.orig.id
      ensures if a.barrier then a.gen in EndedIn(q.log) else a.id in DoneIn(q.log)
    {
      assert Base(q.orig) in AddedIn(q.log);
      assert a.gen <= q.ended;
      if !a.barrier {
        assert Located(q, a);
      }
    }
  }

  // ---------- sorted insertion ----------

  lemma InsertKeepsSorted(s: seq<Request>, p: nat, x: Request)
    requires p <= |s| && Sorted(s)
    requires Ordered(x) ==> forall i :: 0 <= i < p && Ordered(s[i]) ==> Le(s[i], x)
    requires Ordered(x) ==> forall i :: p <= i < |s| && Ordered(s[i]) ==> Le(x, s[i])
    ensures Sorted(InsertAt(s, p, x))
  {
  }

  /** An inserted request that sorting cannot move past keeps the tail of the list uniform, and so
      does one of the latest generation. */
  lemma InsertKeepsMobile(s: seq<Request>, p: nat, x: Request, gen: nat)
    requires p <= |s| && MobileOk(s, gen) && (x.Stop() || x.gen == gen || !x.fs)
    ensures MobileOk(InsertAt(s, p, x), gen)
  {
    var t := InsertAt(s, p, x);
    forall i | 0 <= i < |t| && t[i].fs && AllMobile(t, i) ensures t[i].gen == gen {
      if i != p {
        var k := if i < p then i else i - 1;
        assert forall j :: k <= j < |s| ==> s[j] == t[if j < p then j else j + 1];
        assert AllMobile(s, k);
      }
    }
  }

  lemma RemoveFirstKeeps(s: seq<Request>, gen: nat)
    requires s != [] && Sorted(s) && MobileOk(s, gen)
    ensures Sorted(s[1..]) && MobileOk(s[1..], gen)
  {
    forall i | 0 <= i < |s[1..]| && s[1..][i].fs && AllMobile(s[1..], i) ensures s[1..][i].gen == gen {
      assert forall j :: i + 1 <= j < |s| ==> s[j] == s[1..][j - 1];
      assert AllMobile(s, i + 1);
    }
  }

  lemma HasInsert(s: seq<Request>, p: nat, x: Request)
    requires p <= |s|
    ensures forall a :: Has(s, a) || a == Base(x) ==> Has(InsertAt(s, p, x), a)
  {
    InInsert(s, p, x);
  }

  lemma HasRemove(s: seq<Request>, i: nat)
    requires i < |s|
    ensures forall a :: Has(s, a) ==> Has(RemoveAt(s, i), a) || a == Base(s[i])
  {
    InRemove(s, i);
  }

  // ---------- queueing and dispatching ----------

  /** What sits in the dispatch list comes before a request of the latest generation. */
  lemma BeforeLatest(q: Queue, x: Request)
    requires ListsOk(q) && SequenceOk(q) && x.gen == q.gen
    ensures forall r :: r in q.head && Ordered(r) ==> Le(r, x)
  {
  }

  lemma AddBackKeepsOrder(q: Queue, r: Request)
    requires ListsOk(q) && SequenceOk(q) && OrderOk(q) && Fresh(q, r) && r.soft && q.ended <= q.gen
    ensures OrderOk(AddBack(q, r))
  {
    BeforeLatest(q, r);
    assert q.head + [r] == InsertAt(q.head, |q.head|, r);
    InsertKeepsSorted(q.head, |q.head|, r);
    var t := q.head + [r];
    forall i | 0 <= i < |t| && t[i].fs && AllMobile(t, i) ensures false {
      assert t[|q.head|].Stop();
    }
  }

  lemma AddFrontKeepsOrder(q: Queue, r: Request)
    requires ListsOk(q) && OrderOk(q) && Fresh(q, r) && !r.fs && !r.barrier
    ensures OrderOk(AddFront(q, r))
  {
    assert [r] + q.head == InsertAt(q.head, 0, r);
    InsertKeepsSorted(q.head, 0, r);
    InsertKeepsMobile(q.head, 0, r, q.gen);
  }

  lemma DispatchKeepsOrder(q: Queue, i: nat, p: nat)
    requires ListsOk(q) && SequenceOk(q) && OrderOk(q) && Enabled(q, DoDispatch(i, p)) && q.ended <= q.gen
    ensures OrderOk(Dispatch(q, i, p))
  {
    var x := q.pool[i];
    assert x in q.pool;
    BeforeLatest(q, x);
    forall k | p <= k < |q.head| && Ordered(q.head[k]) ensures Le(x, q.head[k]) {
      assert q.head[k] in q.head;
      assert !q.head[k].Stop();
      assert AllMobile(q.head, k);
    }
    InsertKeepsSorted(q.head, p, x);
    InsertKeepsMobile(q.head, p, x, q.gen);
    InInsert(q.head, p, x);
  }

  lemma AddKeepsLocated(q: Queue, q': Queue, r: Request)
    requires LocatedOk(q) && q'.log == Snoc(q.log, Added(r)) && q'.driver == q.driver
    requires forall a :: Has(q.head, a) ==> Has(q'.head, a)
    requires forall a :: Has(q.pool, a) ==> Has(q'.pool, a)
    requires r.fs && !r.barrier ==> Has(q'.head, Base(r)) || Has(q'.pool, Base(r))
    ensures LocatedOk(q')
  {
    forall a | a in AddedIn(q'.log) && a.fs && !a.barrier ensures Located(q', a) {
      if a in AddedIn(q.log) {
        assert Located(q, a);
      }
    }
  }

  lemma MovedKeepsLocated(q: Queue, q': Queue)
    requires LocatedOk(q) && AddedIn(q'.log) == AddedIn(q.log) && DoneIn(q.log) <= DoneIn(q'.log)
    requires forall a :: a in AddedIn(q.log) && (Has(q.head, a) || Has(q.pool, a) || Has(q.driver, a)) ==>
             Located(q', a)
    ensures LocatedOk(q')
  {
    forall a | a in AddedIn(q'.log) && a.fs && !a.barrier ensures Located(q', a) {
      assert Located(q, a);
    }
  }

  lemma AddSortedKeepsDrain(q: Queue, r: Request)
    requires Inv(q) && DrainInv(q) && Fresh(q, r) && r.fs && !r.barrier
    ensures DrainInv(AddSorted(q, r))
  {
    var q' := AddSorted(q, r);
    assert q.pool + [r] == InsertAt(q.pool, |q.pool|, r);
    HasInsert(q.pool, |q.pool|, r);
    AddKeepsLocated(q, q', r);
  }

  lemma AddBackKeepsDrain(q: Queue, r: Request)
    requires Inv(q) && DrainInv(q) && Fresh(q, r) && r.soft
    ensures DrainInv(AddBack(q, r))
  {
    var q' := AddBack(q, r);
    AddBackKeepsOrder(q, r);
    assert q.head + [r] == InsertAt(q.head, |q.head|, r);
    HasInsert(q.head, |q.head|, r);
    AddKeepsLocated(q, q', r);
  }

  lemma AddFrontKeepsDrain(q: Queue, r: Request)
    requires Inv(q) && DrainInv(q) && Fresh(q, r) && !r.fs && !r.barrier
    ensures DrainInv(AddFront(q, r))
  {
    var q' := AddFront(q, r);
    AddFrontKeepsOrder(q, r);
    assert [r] + q.head == InsertAt(q.head, 0, r);
    HasInsert(q.head, 0, r);
    AddKeepsLocated(q, q', r);
  }

  lemma DispatchKeepsDrain(q: Queue, i: nat, p: nat)
    requires Inv(q) && DrainInv(q) && Enabled(q, DoDispatch(i, p))
    ensures DrainInv(Dispatch(q, i, p))
  {
    var q' := Dispatch(q, i, p);
    DispatchKeepsOrder(q, i, p);
    HasInsert(q.head, p, q.pool[i]);
    HasRemove(q.pool, i);
    MovedKeepsLocated(q, q');
    InInsert(q.head, p, q.pool[i]);
    assert q.pool[i] in q.pool;
  }

  // ---------- issuing ----------

  lemma PeekKeepsOrder(q: Queue)
    requires OrderOk(q) && q.head != []
    ensures OrderOk(MarkStarted(q))
  {
    var s := q.head;
    var x := s[0].(started := true);
    RemoveFirstKeeps(s, q.gen);
    assert s[0 := x] == InsertAt(s[1..], 0, x);
    assert forall i :: 0 <= i < |s[1..]| ==> s[1..][i] == s[i + 1];
    InsertKeepsSorted(s[1..], 0, x);
    InsertKeepsMobile(s[1..], 0, x, q.gen);
    InInsert(s[1..], 0, x);
    assert s[0] in s;
  }

  lemma PeekKeepsDrain(q: Queue)
    requires Inv(q) && DrainInv(q) && q.head != []
    ensures DrainInv(MarkStarted(q))
  {
    var q' := MarkStarted(q);
    PeekKeepsOrder(q);
    FirstStarted(q.head);
    MovedKeepsLocated(q, q');
  }

  lemma FirstStarted(s: seq<Request>)
    requires s != []
    ensures forall a :: Has(s, a) ==> Has(s[0 := s[0].(started := true)], a)
    ensures forall g :: NoneOf(s, g) ==> NoneOf(s[0 := s[0].(started := true)], g)
  {
    var x := s[0].(started := true);
    var t := s[0 := x];
    assert s == [s[0]] + s[1..] && t == [x] + s[1..];
    forall a | Has(s, a) ensures Has(t, a) {
      var r :| r in s && Base(r) == a;
      if r == s[0] {
        assert x in t;
      }
    }
    assert s[0] in s;
  }

  lemma IssueKeepsLocated(q: Queue)
    requires LocatedOk(q) && q.head != []
    ensures LocatedOk(Issue(q))
  {
    var q' := Issue(q);
    var x := q.head[0].(started := true);
    assert q.driver + [x] == InsertAt(q.driver, |q.driver|, x);
    HasInsert(q.driver, |q.driver|, x);
    assert q.head[1..] == RemoveAt(q.head, 0);
    HasRemove(q.head, 0);
    assert q'.head == q.head[1..];
    MovedKeepsLocated(q, q');
  }

  /** What the driver is handed respects the order of the barriers. */
  lemma IssueIsSafe(q: Queue)
    requires Inv(q) && DrainInv(q) && q.head != [] && Passes(q, q.head[0])
    ensures SafeEvent(q.nextOrdered, q.log, Issued(q.head[0].(started := true)))
  {
    var r := q.head[0];
    assert r in q.head;
    if r.kind == Normal {
      if r.fs {
        PassingGen(q);
        assert Base(r) in AddedIn(q.log);
      }
    } else {
      PassingPhase(q);
      QuietMeansDone(q);
    }
  }

  lemma IssueKeepsOrder(q: Queue)
    requires Inv(q) && DrainInv(q) && q.head != [] && Passes(q, q.head[0])
    ensures OrderOk(Issue(q)) && QuietOk(Issue(q))
  {
    hide Sorted, MobileOk, NormalOk, PlacesOk, StoryOk, Passes, LocatedOk, Safe, Issue, PoolOk, SequenceOk;
    if q.head[0].kind == Normal && q.head[0].fs {
      PassingGen(q);
    }
    RemoveFirstKeeps(q.head, q.gen);
    IssueIs(q);
    assert forall r :: r in q.head[1..] ==> r in q.head;
    assert q.head[0] in q.head;
  }

  lemma IssueIs(q: Queue)
    requires q.head != []
    ensures
      var q' := Issue(q);
      && q'.head == q.head[1..] && q'.driver == q.driver + [q.head[0].(started := true)]
      && q'.gen == q.gen && q'.ended == q.ended && q'.ordseq == q.ordseq
  {
  }

  lemma IssueKeepsDrain(q: Queue)
    requires Inv(q) && DrainInv(q) && q.head != [] && Passes(q, q.head[0])
    ensures DrainInv(Issue(q))
  {
    IssueKeepsOrder(q);
    IssueKeepsLocated(q);
    IssueIsSafe(q);
  }

  // ---------- giving back ----------

  /** A request of a later generation stands behind the next barrier due. */
  lemma BehindNextBarrier(s: seq<Request>, i: nat, lo: nat, hi: nat) returns (j: nat)
    requires i < |s| && Sorted(s) && BarriersOk(s, lo, hi) && Ordered(s[i]) && lo < s[i].gen <= hi
    requires forall r :: r in s && r.kind == Normal && r.barrier ==> r.fs
    ensures j < i && s[j].kind == Normal && s[j].barrier && s[j].gen == lo && s[j] in s
  {
    assert HasBarrier(s, lo);
    var b :| b in s && b.kind == Normal && b.barrier && b.gen == lo;
    j :| 0 <= j < |s| && s[j] == b;
    assert i < j ==> Le(s[i], s[j]);
  }

  /** In an active sequence only requests of the barrier's own generation share its colour, up to the
      first waiting barrier. */
  lemma SameColourIsSameGeneration(q: Queue, i: nat)
    requires ListsOk(q) && BarriersOk(q.head, q.ended + 1, q.gen) && OrderOk(q) && q.Active()
    requires OrigOk(q.orig, q.ended, q.gen, AddedIn(q.log))
    requires i < |q.head| && q.head[i].kind == Normal && q.head[i].fs && q.head[i].color == q.orig.color
    requires forall j :: 0 <= j < i ==> ReqSeq(q, q.head[j]) < DONE
    ensures q.head[i].gen == q.ended
  {
    assert q.head[i] in q.head;
    assert Odd(q.ended + 1) != Odd(q.ended);
    if q.head[i].gen > q.ended + 1 {
      var j := BehindNextBarrier(q.head, i, q.ended + 1, q.gen);
      assert false;
    }
  }

  /** Up to where the requeue scan stops, everything ordered comes first. */
  lemma RequeueScanBefore(q: Queue, x: Request, i: nat)
    requires ListsOk(q) && PlacesOk(q) && OrderOk(q) && q.Active() && OrigOk(q.orig, q.ended, q.gen, AddedIn(q.log))
    requires x.gen == q.ended && (x.kind == Normal ==> x.fs && x.color == q.orig.color)
    requires i < RequeuePos(q, x) && Ordered(q.head[i])
    ensures Le(q.head[i], x)
  {
    assert q.head[i] in q.head;
    if q.head[i].kind == Normal {
      SameColourIsSameGeneration(q, i);
    }
  }

  /** From there on, everything ordered comes later. */
  lemma RequeueScanAfter(q: Queue, x: Request, i: nat)
    requires ListsOk(q) && OrderOk(q) && q.Active() && OrigOk(q.orig, q.ended, q.gen, AddedIn(q.log))
    requires x.gen == q.ended && (x.kind == Normal ==> !x.barrier)
    requires RequeuePos(q, x) <= i < |q.head| && Ordered(q.head[i])
    ensures Le(x, q.head[i])
  {
    hide MobileOk, DriverOk, PoolOk, Odd;
    var p := RequeuePos(q, x);
    assert q.head[i] in q.head && q.head[p] in q.head;
    if x.kind != Normal {
      assert Le(x, q.head[p]);
      if p < i {
        assert Le(q.head[p], q.head[i]);
      }
    }
  }

  /** The requeue scan stops where the request belongs. */
  lemma RequeueIsSorted(q: Queue, x: Request)
    requires ListsOk(q) && PlacesOk(q) && OrderOk(q) && Ordered(x) && x.gen == q.ended
    requires q.Active() ==> OrigOk(q.orig, q.ended, q.gen, AddedIn(q.log))
    requires if x.kind == Normal then x.color == Odd(x.gen) && !x.barrier else q.Active()
    ensures Sorted(InsertAt(q.head, RequeuePos(q, x), x))
  {
    var p := RequeuePos(q, x);
    if q.Active() {
      forall i | 0 <= i < p && Ordered(q.head[i]) ensures Le(q.head[i], x) { RequeueScanBefore(q, x, i); }
      forall i | p <= i < |q.head| && Ordered(q.head[i]) ensures Le(x, q.head[i]) { RequeueScanAfter(q, x, i); }
    } else {
      forall i | p <= i < |q.head| && Ordered(q.head[i]) ensures Le(x, q.head[i]) { assert q.head[i] in q.head; }
    }
    InsertKeepsSorted(q.head, p, x);
  }

  lemma RequeueKeepsSorted(q: Queue, i: nat)
    requires Inv(q) && OrderOk(q) && i < |q.driver|
    ensures Sorted(Requeue(q, i).head)
  {
    var x := Back(q.driver[i]);
    assert q.driver[i] in q.driver;
    if Ordered(x) {
      RequeueIsSorted(q, x);
    } else {
      InsertKeepsSorted(q.head, RequeuePos(q, x), x);
    }
  }

  lemma RequeueKeepsGen(q: Queue, i: nat)
    requires ListsOk(q) && OrderOk(q) && QuietOk(q) && i < |q.driver|
    requires q.Active() ==> OrigOk(q.orig, q.ended, q.gen, AddedIn(q.log))
    ensures HeadGen(Requeue(q, i).head, q.ended) && DriverGen(Requeue(q, i).driver, q.ended) && QuietOk(Requeue(q, i))
  {
    hide Sorted, MobileOk, NormalOk, InsertAt, RemoveAt, RequeuePos;
    var x := Back(q.driver[i]);
    assert q.driver[i] in q.driver;
    InInsert(q.head, RequeuePos(q, x), x);
    InRemove(q.driver, i);
  }

  lemma RequeueKeepsOrder(q: Queue, i: nat)
    requires Inv(q) && OrderOk(q) && QuietOk(q) && i < |q.driver|
    ensures OrderOk(Requeue(q, i)) && QuietOk(Requeue(q, i))
  {
    var x := Back(q.driver[i]);
    RequeueKeepsSorted(q, i);
    RequeueKeepsGen(q, i);
    InsertKeepsMobile(q.head, RequeuePos(q, x), x, q.gen);
  }

  lemma RequeueKeepsLocated(q: Queue, i: nat)
    requires LocatedOk(q) && i < |q.driver|
    ensures LocatedOk(Requeue(q, i))
  {
    var x := Back(q.driver[i]);
    assert Base(x) == Base(q.driver[i]);
    HasInsert(q.head, RequeuePos(q, x), x);
    HasRemove(q.driver, i);
    MovedKeepsLocated(q, Requeue(q, i));
  }

  lemma RequeueKeepsDrain(q: Queue, i: nat)
    requires Inv(q) && DrainInv(q) && i < |q.driver|
    ensures DrainInv(Requeue(q, i))
  {
    RequeueKeepsOrder(q, i);
    RequeueKeepsLocated(q, i);
  }

  // ---------- beginning and ending a sequence ----------

  lemma CountFsZero(s: seq<Request>)
    requires CountFs(s) == 0
    ensures forall r :: r in s ==> !r.fs
  {
    forall r | r in s ensures !r.fs {
      var i :| 0 <= i < |s| && s[i] == r;
      CountMember(s, i);
    }
  }

  lemma EndKeepsDrain(q: Queue)
    requires Loose(q) && DrainInv(q) && CurSeq(q.ordseq) == DONE
    ensures DrainInv(EndSequence(q))
  {
    var q' := EndSequence(q);
    NoPhaseLeft(q);
    QuietMeansDone(q);
    MovedKeepsLocated(q, q');
  }

  lemma CompleteSeqKeepsDrain(q: Queue, seqs: OrdSeq, error: int)
    requires Loose(Recorded(q, seqs, error)) && DrainInv(Recorded(q, seqs, error))
    requires !q.ordseq.Overlaps(seqs)
    ensures DrainInv(CompleteSeq(q, seqs, error))
  {
    if CurSeq(q.ordseq.Or(seqs)) == DONE {
      EndKeepsDrain(Recorded(q, seqs, error));
    }
  }

  /** Behind the barrier at the head there are only later requests. */
  lemma BehindBarrier(q: Queue)
    requires Inv(q) && OrderOk(q) && AtBarrier(q)
    ensures q.head[0].gen == q.ended
    ensures forall r :: r in q.head[1..] && Ordered(r) ==> r.gen > q.ended
  {
    var b := q.head[0];
    FirstBarrierIsNext(q.head, q.ended, q.gen);
    forall r | r in q.head[1..] && Ordered(r) ensures r.gen > q.ended {
      var i :| 0 <= i < |q.head[1..]| && q.head[1..][i] == r;
      assert q.head[i + 1] == r && r in q.head;
      assert Le(b, r);
    }
  }

  lemma PhasesAreSorted(m: Mode, b: Request)
    ensures Sorted(Phases(m, b))
    ensures forall i :: 0 <= i < |Phases(m, b)| ==>
      Phases(m, b)[i].kind != Normal && Phases(m, b)[i].gen == b.gen && Phases(m, b)[i].Stop()
  {
  }

  lemma ConcatSorted(a: seq<Request>, b: seq<Request>, g: nat)
    requires Sorted(a) && Sorted(b)
    requires forall r :: r in a ==> r.gen == g
    requires forall r :: r in b && Ordered(r) ==> r.gen > g
    ensures Sorted(a + b) && HeadGen(a + b, g)
  {
    var t := a + b;
    forall i, j | 0 <= i < j < |t| && Ordered(t[i]) && Ordered(t[j]) ensures Le(t[i], t[j]) {
      assert j < |a| || t[j] in b;
      assert i >= |a| || t[i] in a;
    }
  }

  lemma BeginKeepsSorted(q: Queue)
    requires Inv(q) && OrderOk(q) && AtBarrier(q)
    ensures Sorted(Begun(q).head) && HeadGen(Begun(q).head, q.ended)
  {
    BehindBarrier(q);
    PhasesAreSorted(Effective(q.nextOrdered, q.head[0].empty), q.head[0]);
    RemoveFirstKeeps(q.head, q.gen);
    ConcatSorted(Phases(Effective(q.nextOrdered, q.head[0].empty), q.head[0]), q.head[1..], q.ended);
  }

  lemma {:induction false} StopsKeepMobile(ps: seq<Request>, s: seq<Request>, gen: nat)
    requires MobileOk(s, gen) && forall i :: 0 <= i < |ps| ==> ps[i].Stop()
    ensures MobileOk(ps + s, gen)
  {
    if ps == [] {
      assert ps + s == s;
    } else {
      StopsKeepMobile(ps[1..], s, gen);
      assert ps + s == InsertAt(ps[1..] + s, 0, ps[0]);
      InsertKeepsMobile(ps[1..] + s, 0, ps[0], gen);
    }
  }

  lemma BeginKeepsMobile(q: Queue)
    requires q.head != [] && MobileOk(q.head, q.gen) && Sorted(q.head)
    ensures MobileOk(Begun(q).head, q.gen)
  {
    var ps := Phases(Effective(q.nextOrdered, q.head[0].empty), q.head[0]);
    PhasesAreSorted(Effective(q.nextOrdered, q.head[0].empty), q.head[0]);
    RemoveFirstKeeps(q.head, q.gen);
    StopsKeepMobile(ps, q.head[1..], q.gen);
  }

  lemma BeginKeepsQuiet(q: Queue)
    requires Inv(q) && OrderOk(q) && AtBarrier(q) && Draining(q.nextOrdered)
    ensures QuietOk(Begun(q))
  {
    var q' := Begun(q);
    var ps := Phases(q'.ordered, q.head[0]);
    BehindBarrier(q);
    PhasesAreSorted(q'.ordered, q.head[0]);
    assert q'.head == ps + q.head[1..];
    assert q.head[0] in q.head;
    if q'.ordseq.drain {
      CountFsZero(q.driver);
    }
  }

  lemma BeginKeepsLocated(q: Queue)
    requires LocatedOk(q) && q.head != [] && q.head[0].barrier
    ensures LocatedOk(Begun(q))
  {
    var q' := Begun(q);
    var b := q.head[0];
    var ps := Phases(Effective(q.nextOrdered, b.empty), b);
    assert q'.head == ps + q.head[1..];
    assert q.head == [b] + q.head[1..];
    forall a | a in AddedIn(q'.log) && a.fs && !a.barrier ensures Located(q', a) {
      assert Located(q, a);
      if Has(q.head, a) {
        var r :| r in q.head && Base(r) == a;
        assert r in q'.head;
      }
    }
  }

  lemma BeginKeepsDrain(q: Queue)
    requires Inv(q) && DrainInv(q) && AtBarrier(q)
    ensures DrainInv(StartOrdered(q))
  {
    assert q.head[0] in q.head;
    BeginKeepsSorted(q);
    BeginKeepsMobile(q);
    BeginKeepsQuiet(q);
    BeginKeepsLocated(q);
    BeginKeepsPlaces(q);
    BeginKeepsLists(q);
    BeginKeepsSequence(q);
    CompleteSeqKeepsDrain(QueuePhases(q), Skipped(QueuePhases(q)), 0);
  }

  // ---------- completing ----------

  lemma GoneKeepsLocated(q: Queue, i: nat, error: int)
    requires LocatedOk(q) && i < |q.driver| && AddedOk(AddedIn(q.log), q.gen, q.count)
    ensures LocatedOk(Gone(q, i, error))
  {
    HasRemove(q.driver, i);
    MovedKeepsLocated(q, Gone(q, i, error));
  }

  lemma GoneKeepsDrain(q: Queue, i: nat, error: int)
    requires Inv(q) && DrainInv(q) && i < |q.driver|
    ensures DrainInv(Gone(q, i, error))
  {
    InRemove(q.driver, i);
    GoneKeepsLocated(q, i, error);
  }

  /** When the test of elv_completed_request succeeds, nothing queued before the barrier is left. */
  lemma DrainedIsQuiet(q: Queue)
    requires Inv(q) && OrderOk(q) && Drained(q)
    ensures NoneOf(q.head, q.ended) && NoneOf(q.driver, q.ended)
  {
    CountFsZero(q.driver);
    forall r | r in q.head && r.kind == Normal && r.fs ensures r.gen != q.ended {
      var i :| 0 <= i < |q.head| && q.head[i] == r;
      var h := q.head[0];
      assert h in q.head;
      assert Ordered(h);
      if i > 0 {
        assert Le(h, r);
      }
    }
  }

  lemma CompleteNormalKeepsDrain(q: Queue, i: nat, error: int)
    requires Inv(q) && DrainInv(q) && i < |q.driver| && q.driver[i].kind == Normal
    ensures DrainInv(Complete(q, i, error))
  {
    var q1 := Gone(q, i, error);
    CompleteIs(q, i, error);
    GoneKeeps(q, i, error);
    GoneKeepsDrain(q, i, error);
    if Drained(q1) {
      DrainKeeps(q1);
      DrainedIsQuiet(q1);
      RecordKeepsDrain(q1, Only(Normal), 0);
      CompleteSeqKeepsDrain(q1, Only(Normal), 0);
    }
  }

  /** Recording a phase changes nothing else. */
  lemma RecordKeepsDrain(q: Queue, seqs: OrdSeq, error: int)
    requires DrainInv(q) && q.Active()
    requires !q.ordseq.drain && seqs.drain ==> NoneOf(q.head, q.ended) && NoneOf(q.driver, q.ended)
    ensures DrainInv(Recorded(q, seqs, error))
  {
    var q' := Recorded(q, seqs, error);
    forall a | a in AddedIn(q'.log) && a.fs && !a.barrier ensures Located(q', a) {
      assert Located(q, a);
    }
  }

  lemma CompletePhaseKeepsDrain(q: Queue, i: nat, error: int)
    requires Inv(q) && DrainInv(q) && i < |q.driver| && q.driver[i].kind != Normal
    ensures DrainInv(Complete(q, i, error))
  {
    CompleteIs(q, i, error);
    PhaseIsUnique(q, i);
    PhaseKeepsLists(q, i, error);
    PhaseKeepsPlaces(q, i, error);
    PhaseKeepsSequence(q, i, error);
    GoneKeepsDrain(q, i, error);
    RecordKeepsDrain(Gone(q, i, error), Only(q.driver[i].kind), error);
    CompleteSeqKeepsDrain(Gone(q, i, error), Only(q.driver[i].kind), error);
  }

  lemma ReportKeepsDrain(q: Queue, error: int)
    requires DrainInv(q)
    ensures DrainInv(ReportError(q, error))
  {
    MovedKeepsLocated(q, ReportError(q, error));
  }

  // ---------- runs ----------

  lemma AddingKeepsDrain(q: Queue, s: Step)
    requires Inv(q) && DrainInv(q) && Enabled(q, s) &&
             (s.DoAddSorted? || s.DoAddBack? || s.DoAddFront? || s.DoDispatch?)
    ensures DrainInv(Next(q, s))
  {
    match s
    case DoAddSorted(empty) => AddSortedKeepsDrain(q, NewRequest(q, true, false, empty, false));
    case DoAddBack(fs, barrier, empty) => AddBackKeepsDrain(q, NewRequest(q, fs, barrier, empty, true));
    case DoAddFront(empty) => AddFrontKeepsDrain(q, NewRequest(q, false, false, empty, true));
    case DoDispatch(i, p) => DispatchKeepsDrain(q, i, p);
  }

  lemma OrderingKeepsDrain(q: Queue, s: Step)
    requires Inv(q) && DrainInv(q) && Enabled(q, s) && (s.DoBegin? || s.DoPeek? || s.DoIssue?)
    ensures DrainInv(Next(q, s))
  {
    match s
    case DoBegin => FirstIsNormal(q); BeginKeepsDrain(q);
    case DoPeek => PeekKeepsDrain(q);
    case DoIssue => IssueKeepsDrain(q);
  }

  lemma ReturningKeepsDrain(q: Queue, s: Step)
    requires Inv(q) && DrainInv(q) && Enabled(q, s) && (s.DoComplete? || s.DoReport? || s.DoRequeue?)
    ensures DrainInv(Next(q, s))
  {
    match s
    case DoComplete(i, error) =>
      if q.driver[i].kind == Normal {
        CompleteNormalKeepsDrain(q, i, error);
      } else {
        CompletePhaseKeepsDrain(q, i, error);
      }
    case DoReport(error) => ReportKeepsDrain(q, error);
    case DoRequeue(i) => RequeueKeepsDrain(q, i);
  }

  lemma StepKeepsDrain(q: Queue, s: Step)
    requires Inv(q) && DrainInv(q) && Enabled(q, s)
    ensures DrainInv(Next(q, s))
  {
    if s.DoAddSorted? || s.DoAddBack? || s.DoAddFront? || s.DoDispatch? {
      AddingKeepsDrain(q, s);
    } else if s.DoComplete? || s.DoReport? || s.DoRequeue? {
      ReturningKeepsDrain(q, s);
    } else {
      OrderingKeepsDrain(q, s);
    }
  }

  lemma {:induction false} RunKeepsDrain(q: Queue, ss: seq<Step>)
    requires Inv(q) && DrainInv(q) && CanRun(q, ss)
    ensures DrainInv(Run(q, ss))
    decreases |ss|
  {
    if ss != [] {
      StepKeeps(q, ss[0]);
      StepKeepsDrain(q, ss[0]);
      RunKeepsDrain(Next(q, ss[0]), ss[1..]);
    }
  }

  lemma InitDrain(m: Mode)
    requires Draining(m)
    ensures DrainInv(Init(m))
  {
    var q := Init(m);
    assert AddedIn(q.log) == {};
  }
}
