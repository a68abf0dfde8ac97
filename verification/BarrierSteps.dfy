/** Every step keeps the barrier invariant, whatever the ordering mode. */
module BarrierSteps {
  import opened SeqUtil
  import opened Barrier
  import opened BarrierInvariant

  // ---------- queueing a request ----------

  /** A request that joins keeps what is known of all the others. */
  lemma AddKeeps(added: set<Request>, r: Request, gen: nat, count: nat, gen': nat)
    requires AddedOk(added, gen, count)
    requires r.kind == Normal && r.id == count && r.gen == gen && gen' == gen + if r.barrier then 1 else 0
    ensures AddedOk(added + {Base(r)}, gen', count + 1)
  {
  }

  ghost predicate Fresh(q: Queue, r: Request) {
    r == NewRequest(q, r.fs, r.barrier, r.empty, r.soft) && (r.barrier ==> r.fs)
  }

  lemma AnnounceKeepsStory(q: Queue, r: Request)
    requires StoryOk(q) && Fresh(q, r)
    ensures StoryOk(Announce(q, r))
    ensures AddedIn(Announce(q, r).log) == AddedIn(q.log) + {Base(r)}
  {
    hide AddedOk;
    AddKeeps(AddedIn(q.log), r, q.gen, q.count, q.gen + if r.barrier then 1 else 0);
  }

  lemma AnnounceKeepsSequence(q: Queue, r: Request)
    requires SequenceOk(q) && Fresh(q, r)
    ensures SequenceOk(Announce(q, r))
  {
    var q' := Announce(q, r);
    assert q'.ordcolor == Odd(q'.gen);
  }

  lemma AnnounceKeepsLists(q: Queue, r: Request)
    requires ListsOk(q) && Fresh(q, r) && q.ordcolor == Odd(q.gen) && (r.barrier ==> q.pool == [])
    ensures ListsOk(Announce(q, r))
    ensures NormalOk(r, Announce(q, r).gen, AddedIn(Announce(q, r).log))
  {
  }

  lemma AddSortedKeeps(q: Queue, r: Request)
    requires Inv(q) && Fresh(q, r) && r.fs && !r.barrier
    ensures Inv(AddSorted(q, r))
  {
    AnnounceKeepsStory(q, r);
    AnnounceKeepsSequence(q, r);
    AnnounceKeepsLists(q, r);
  }

  lemma AppendKeepsBarriers(s: seq<Request>, x: Request, lo: nat, hi: nat)
    requires BarriersOk(s, lo, hi) && x.kind == Normal && x.gen == hi
    ensures BarriersOk(s + [x], lo, hi + if x.barrier then 1 else 0)
  {
    forall k | lo <= k < hi ensures HasBarrier(s + [x], k) {
      assert HasBarrier(s, k);
    }
    assert x in s + [x];
  }

  lemma AddBackKeepsPlaces(q: Queue, r: Request)
    requires PlacesOk(q) && Fresh(q, r)
    ensures PlacesOk(AddBack(q, r))
  {
    AppendKeepsBarriers(q.head, r, Lowest(q), q.gen);
    CountOne(r);
    CountConcat(q.head, [r]);
  }

  lemma AddBackKeeps(q: Queue, r: Request)
    requires Inv(q) && Fresh(q, r) && q.pool == []
    ensures Inv(AddBack(q, r))
  {
    AddBackKeepsPlaces(q, r);
    AnnounceKeepsStory(q, r);
    AnnounceKeepsSequence(q, r);
    AnnounceKeepsLists(q, r);
  }

  lemma InsertKeepsBarriers(s: seq<Request>, p: nat, x: Request, lo: nat, hi: nat)
    requires p <= |s| && BarriersOk(s, lo, hi) && (x.kind == Normal ==> !x.barrier)
    ensures BarriersOk(InsertAt(s, p, x), lo, hi)
  {
    InInsert(s, p, x);
    forall k | lo <= k < hi ensures HasBarrier(InsertAt(s, p, x), k) {
      assert HasBarrier(s, k);
    }
  }

  lemma AddFrontKeepsPlaces(q: Queue, r: Request)
    requires PlacesOk(q) && Fresh(q, r) && !r.barrier
    ensures PlacesOk(AddFront(q, r))
  {
    assert [r] + q.head == InsertAt(q.head, 0, r);
    CountInsert(q.head, 0, r);
    InsertKeepsBarriers(q.head, 0, r, Lowest(q), q.gen);
  }

  lemma AddFrontKeeps(q: Queue, r: Request)
    requires Inv(q) && Fresh(q, r) && !r.barrier
    ensures Inv(AddFront(q, r))
  {
    AddFrontKeepsPlaces(q, r);
    AnnounceKeepsStory(q, r);
    AnnounceKeepsSequence(q, r);
    AnnounceKeepsLists(q, r);
  }

  // ---------- moving a request ----------

  lemma DispatchKeeps(q: Queue, i: nat, p: nat)
    requires Inv(q) && i < |q.pool| && p <= |q.head|
    ensures Inv(Dispatch(q, i, p))
  {
    hide AddedOk, HistoryOk, OnceOk, NormalOk, HeadOk, DriverOk, BarriersOk, OrigOk, FlagsOk, Odd;
    var r := q.pool[i];
    InRemove(q.pool, i);
    CountInsert(q.head, p, r);
    InsertKeepsHead(q.head, p, r, q.gen, AddedIn(q.log), q.ordseq, q.orig);
    InsertKeepsBarriers(q.head, p, r, Lowest(q), q.gen);
  }

  lemma PeekKeepsBarriers(s: seq<Request>, x: Request, lo: nat, hi: nat)
    requires s != [] && BarriersOk(s, lo, hi)
    requires !(s[0].kind == Normal && s[0].barrier) && x.kind == s[0].kind && x.barrier == s[0].barrier
    ensures BarriersOk(s[0 := x], lo, hi)
  {
    RemoveKeepsBarriers(s, lo, hi);
    assert s[0 := x] == InsertAt(s[1..], 0, x);
    InsertKeepsBarriers(s[1..], 0, x, lo, hi);
  }

  lemma PeekKeepsPlaces(q: Queue)
    requires PlacesOk(q) && q.head != [] && !(q.head[0].kind == Normal && q.head[0].barrier)
    ensures PlacesOk(MarkStarted(q))
  {
    var q' := MarkStarted(q);
    var rest := q.head[1..];
    assert q.head == [q.head[0]] + rest && q'.head == [q'.head[0]] + rest;
    CountConcat([q.head[0]], rest);
    CountConcat([q'.head[0]], rest);
    CountOne(q.head[0]);
    CountOne(q'.head[0]);
    PeekKeepsBarriers(q.head, q'.head[0], Lowest(q), q.gen);
  }

  /** blk_do_ordered never hands out a barrier itself. */
  lemma PassesIsNoBarrier(q: Queue)
    requires Inv(q) && q.head != [] && Passes(q, q.head[0])
    ensures !(q.head[0].kind == Normal && q.head[0].barrier)
  {
    var r := q.head[0];
    assert r in q.head;
    if r.kind == Normal && r.barrier && q.Active() && !q.ordered.byTag {
      NextGenerationIsOther(q);
    }
  }

  /** While a sequence runs, the first barrier still waiting has the other colour. */
  lemma NextGenerationIsOther(q: Queue)
    requires Inv(q) && q.Active() && q.head != [] && q.head[0].kind == Normal && q.head[0].barrier
    ensures ReqSeq(q, q.head[0]) == DONE > CurSeq(q.ordseq)
  {
    FirstBarrierIsNext(q.head, Lowest(q), q.gen);
    assert q.head[0] in q.head;
  }

  /** The first barrier of the list is the next one due. */
  lemma FirstBarrierIsNext(s: seq<Request>, lo: nat, hi: nat)
    requires s != [] && s[0].kind == Normal && s[0].barrier && BarriersOk(s, lo, hi)
    ensures s[0].gen == lo && BarriersOk(s[1..], lo + 1, hi)
  {
    assert s == [s[0]] + s[1..];
    forall r | r in s[1..] && r.kind == Normal && r.barrier ensures s[0].gen < r.gen {
      var i :| 0 <= i < |s[1..]| && s[1..][i] == r;
      assert s[i + 1] == r;
    }
    assert s[0] in s;
    assert HasBarrier(s, lo);
    forall k | lo + 1 <= k < hi ensures HasBarrier(s[1..], k) {
      assert HasBarrier(s, k);
    }
  }

  lemma PeekKeeps(q: Queue)
    requires Inv(q) && q.head != [] && Passes(q, q.head[0])
    ensures Inv(MarkStarted(q))
  {
    PassesIsNoBarrier(q);
    PeekKeepsPlaces(q);
    PeekKeepsLists(q);
  }

  lemma PeekKeepsLists(q: Queue)
    requires ListsOk(q) && q.head != [] && !(q.head[0].kind == Normal && q.head[0].barrier)
    ensures ListsOk(MarkStarted(q))
  {
    var q' := MarkStarted(q);
    assert forall r :: r in q'.head ==> r == q'.head[0] || r in q.head;
    assert q.head[0] in q.head;
  }

  /** A phase handed out has the draining behind it, and is neither recorded nor over. */
  lemma PassingPhase(q: Queue)
    requires Inv(q) && q.head != [] && q.head[0].kind != Normal && Passes(q, q.head[0])
    ensures PhaseOk(q.head[0], q.ordseq, q.orig) && q.ordseq.drain
    ensures (q.head[0].kind, q.head[0].gen) !in PhasesIn(q.log) && q.head[0].gen !in EndedIn(q.log)
  {
    assert q.head[0] in q.head;
  }

  lemma IssueKeepsPlaces(q: Queue)
    requires PlacesOk(q) && q.head != [] && !(q.head[0].kind == Normal && q.head[0].barrier)
    ensures PlacesOk(Issue(q))
  {
    PeekKeepsPlaces(q);
    var q1 := MarkStarted(q);
    var r := q1.head[0];
    assert Issue(q).head == q1.head[1..];
    assert q1.head == InsertAt(q1.head[1..], 0, r);
    CountInsert(q1.head[1..], 0, r);
    CountConcat(q.driver, [r]);
    CountOne(r);
    RemoveKeepsBarriers(q1.head, Lowest(q), q.gen);
  }

  lemma RemoveKeepsBarriers(s: seq<Request>, lo: nat, hi: nat)
    requires s != [] && BarriersOk(s, lo, hi) && !(s[0].kind == Normal && s[0].barrier)
    ensures BarriersOk(s[1..], lo, hi)
  {
    assert s == [s[0]] + s[1..];
    forall k | lo <= k < hi ensures HasBarrier(s[1..], k) {
      assert HasBarrier(s, k);
    }
  }

  lemma IssueKeepsLists(q: Queue)
    requires ListsOk(q) && q.head != [] && !(q.head[0].kind == Normal && q.head[0].barrier)
    requires q.head[0].kind != Normal ==> PhaseOk(q.head[0], q.ordseq, q.orig) && q.ordseq.drain
    ensures ListsOk(Issue(q))
  {
    PeekKeepsLists(q);
    var q1 := MarkStarted(q);
    assert q1.head[0] in q1.head;
    assert forall r :: r in q1.head[1..] ==> r in q1.head;
  }

  lemma IssueKeepsStory(q: Queue)
    requires StoryOk(q) && SequenceOk(q) && q.head != []
    requires q.head[0].kind != Normal ==>
      (q.head[0].kind, q.head[0].gen) !in PhasesIn(q.log) && q.head[0].gen !in EndedIn(q.log)
    ensures StoryOk(Issue(q)) && SequenceOk(Issue(q))
  {
  }

  lemma IssueKeeps(q: Queue)
    requires Inv(q) && q.head != [] && Passes(q, q.head[0])
    ensures Inv(Issue(q))
  {
    IssueKeepsStory(q);
    PassesIsNoBarrier(q);
    if q.head[0].kind != Normal {
      PassingPhase(q);
    }
    IssueKeepsPlaces(q);
    IssueKeepsLists(q);
  }

  lemma RemoveFromDriver(q: Queue, i: nat)
    requires i < |q.driver| && q.inFlight == CountFs(q.driver) && ListsOk(q)
    ensures q.inFlight - (if q.driver[i].Account() then 1 else 0) == CountFs(RemoveAt(q.driver, i))
    ensures DriverOk(RemoveAt(q.driver, i), q.gen, AddedIn(q.log), q.ordseq, q.orig)
    ensures q.driver[i] in q.driver
  {
    assert q.driver[i] in q.driver;
    CountRemove(q.driver, i);
    InRemove(q.driver, i);
  }

  lemma InsertKeepsHead(s: seq<Request>, p: nat, x: Request, gen: nat, added: set<Request>, o: OrdSeq, b: Request)
    requires p <= |s| && HeadOk(s, gen, added, o, b)
    requires if x.kind == Normal then NormalOk(x, gen, added) && (x.barrier ==> !x.started) else PhaseOk(x, o, b)
    ensures HeadOk(InsertAt(s, p, x), gen, added, o, b)
  {
    InInsert(s, p, x);
  }

  lemma RequeueKeepsLists(q: Queue, i: nat)
    requires i < |q.driver| && ListsOk(q) && q.inFlight == CountFs(q.driver)
    ensures ListsOk(Requeue(q, i))
  {
    RemoveFromDriver(q, i);
    var back := Back(q.driver[i]);
    assert Base(back) == Base(q.driver[i]);
    InsertKeepsHead(q.head, RequeuePos(q, back), back, q.gen, AddedIn(q.log), q.ordseq, q.orig);
  }

  lemma RequeueKeepsPlaces(q: Queue, i: nat)
    requires i < |q.driver| && ListsOk(q) && PlacesOk(q)
    ensures PlacesOk(Requeue(q, i))
  {
    hide NormalOk, PoolOk, HeadOk, BarriersOk, RequeuePos, Odd;
    RemoveFromDriver(q, i);
    var back := Back(q.driver[i]);
    CountRemove(q.driver, i);
    CountInsert(q.head, RequeuePos(q, back), back);
    InsertKeepsBarriers(q.head, RequeuePos(q, back), back, Lowest(q), q.gen);
  }

  lemma RequeueKeepsStory(q: Queue, i: nat)
    requires i < |q.driver| && StoryOk(q) && SequenceOk(q)
    ensures StoryOk(Requeue(q, i)) && SequenceOk(Requeue(q, i))
  {
  }

  lemma RequeueKeeps(q: Queue, i: nat)
    requires Inv(q) && i < |q.driver|
    ensures Inv(Requeue(q, i))
  {
    RequeueKeepsStory(q, i);
    RequeueKeepsLists(q, i);
    RequeueKeepsPlaces(q, i);
  }

  // ---------- ending a barrier ----------

  lemma RefuseKeepsPlaces(q: Queue)
    requires ListsOk(q) && PlacesOk(q) && !q.Active() && q.head != [] && q.head[0].kind == Normal && q.head[0].barrier
    ensures PlacesOk(Refuse(q)) && ListsOk(Refuse(q)) && q.head[0].gen == q.ended
  {
    assert q.head[0] in q.head;
    FirstBarrierIsNext(q.head, Lowest(q), q.gen);
    assert q.head == [q.head[0]] + q.head[1..];
    CountOne(q.head[0]);
    CountConcat([q.head[0]], q.head[1..]);
  }

  lemma RefuseKeeps(q: Queue)
    requires Inv(q) && Enabled(q, DoRefuse)
    ensures Inv(Refuse(q))
  {
    assert q.head[0] in q.head;
    RefuseKeepsPlaces(q);
  }

  /** When all phases are recorded none of their requests is left anywhere. */
  lemma NoPhaseLeft(q: Queue)
    requires ListsOk(q) && CurSeq(q.ordseq) == DONE
    ensures forall r :: r in q.head || r in q.driver ==> r.kind == Normal
  {
  }

  lemma EndKeepsStory(q: Queue)
    requires StoryOk(q) && SequenceOk(q) && CurSeq(q.ordseq) == DONE
    ensures StoryOk(EndSequence(q))
  {
    hide AddedOk;
    var q' := EndSequence(q);
    assert EndedIn(q'.log) == EndedIn(q.log) + {q.ended};
  }

  lemma EndKeepsPlaces(q: Queue)
    requires ListsOk(q) && PlacesOk(q) && SequenceOk(q) && CurSeq(q.ordseq) == DONE
    ensures PlacesOk(EndSequence(q)) && ListsOk(EndSequence(q))
  {
    NoPhaseLeft(q);
  }

  /** Ending a sequence all of whose phases are recorded. */
  lemma EndKeeps(q: Queue)
    requires Loose(q) && CurSeq(q.ordseq) == DONE
    ensures Inv(EndSequence(q))
  {
    EndKeepsStory(q);
    EndKeepsPlaces(q);
  }

  /** The state in which blk_ordered_complete_seq tests for the end of the sequence. */
  ghost function Recorded(q: Queue, seqs: OrdSeq, error: int): Queue {
    q.(orderr := if error != 0 && q.orderr == 0 then error else q.orderr, ordseq := q.ordseq.Or(seqs))
  }

  lemma CompleteSeqKeeps(q: Queue, seqs: OrdSeq, error: int)
    requires !q.ordseq.Overlaps(seqs) && Loose(Recorded(q, seqs, error))
    ensures Inv(CompleteSeq(q, seqs, error))
  {
    if CurSeq(q.ordseq.Or(seqs)) == DONE {
      EndKeeps(Recorded(q, seqs, error));
    }
  }

  // ---------- beginning a sequence ----------

  lemma CountPhases(m: Mode, b: Request)
    ensures forall k :: Count(Phases(m, b), k) == if Does(m, k) then 1 else 0
  {
    var x := if m.doPreflush then [Phase(b, PreFlush)] else [];
    var y := if m.doBar then [Phase(b, Proxy)] else [];
    var z := if m.doPostflush then [Phase(b, PostFlush)] else [];
    CountConcat(x + y, z);
    CountConcat(x, y);
    CountOne(Phase(b, PreFlush));
    CountOne(Phase(b, Proxy));
    CountOne(Phase(b, PostFlush));
  }

  lemma PhasesKeepBarriers(ps: seq<Request>, s: seq<Request>, lo: nat, hi: nat)
    requires BarriersOk(s, lo, hi) && forall i :: 0 <= i < |ps| ==> ps[i].kind != Normal
    ensures BarriersOk(ps + s, lo, hi)
  {
    forall k | lo <= k < hi ensures HasBarrier(ps + s, k) {
      assert HasBarrier(s, k);
    }
  }

  /** The state of start_ordered when it has marked the phases it skips. */
  ghost function Begun(q: Queue): Queue
    requires q.head != []
  {
    Recorded(QueuePhases(q), Skipped(QueuePhases(q)), 0)
  }

  ghost predicate AtBarrier(q: Queue) {
    q.ordseq == ZERO && q.head != [] && q.head[0].kind == Normal && q.head[0].IsBarrier() && q.nextOrdered != NONE
  }

  lemma BeginKeepsCounts(q: Queue)
    requires PlacesOk(q) && AtBarrier(q)
    ensures CountsOk(Begun(q).head, q.driver, Begun(q).ordseq)
  {
    var b := q.head[0];
    var m := Effective(q.nextOrdered, b.empty);
    CountPhases(m, b);
    CountConcat(Phases(m, b), q.head[1..]);
    CountConcat([b], q.head[1..]);
    CountOne(b);
    assert q.head == [b] + q.head[1..];
  }

  lemma BeginKeepsPlaces(q: Queue)
    requires PlacesOk(q) && AtBarrier(q) && !q.head[0].started
    ensures PlacesOk(Begun(q)) && q.head[0].gen == q.ended
  {
    var b := q.head[0];
    BeginKeepsCounts(q);
    FirstBarrierIsNext(q.head, q.ended, q.gen);
    PhasesKeepBarriers(Phases(Effective(q.nextOrdered, b.empty), b), q.head[1..], q.ended + 1, q.gen);
  }

  lemma BeginKeepsLists(q: Queue)
    requires PlacesOk(q) && ListsOk(q) && AtBarrier(q)
    ensures ListsOk(Begun(q))
  {
    hide NormalOk, BarriersOk, CountsOk, PhaseOk, Phases, Effective;
    var b := q.head[0];
    var q' := Begun(q);
    var ps := Phases(q'.ordered, b);
    PhasesFit(q'.ordered, b, q'.ordseq);
    NoPhases(q);
    assert forall r :: r in q.head[1..] ==> r in q.head;
    assert q'.head == ps + q.head[1..];
  }

  lemma PhasesFit(m: Mode, b: Request, o: OrdSeq)
    requires o.started && (o.preflush <==> !m.doPreflush) && (o.bar <==> !m.doBar) && (o.postflush <==> !m.doPostflush)
    ensures forall r :: r in Phases(m, b) ==> r.kind != Normal && PhaseOk(r, o, b)
  {
  }

  lemma NoPhases(q: Queue)
    requires ListsOk(q) && q.ordseq == ZERO
    ensures (forall r :: r in q.head ==> r.kind == Normal) && (forall r :: r in q.driver ==> r.kind == Normal)
  {
  }

  lemma BeginKeepsSequence(q: Queue)
    requires StoryOk(q) && SequenceOk(q) && AtBarrier(q) && q.head[0].gen == q.ended
    requires !q.head[0].started && NormalOk(q.head[0], q.gen, AddedIn(q.log))
    ensures SequenceOk(Begun(q)) && StoryOk(Begun(q))
  {
  }

  lemma BeginKeeps(q: Queue)
    requires Inv(q) && AtBarrier(q)
    ensures Inv(StartOrdered(q))
  {
    assert q.head[0] in q.head;
    BeginKeepsPlaces(q);
    BeginKeepsLists(q);
    BeginKeepsSequence(q);
    CompleteSeqKeeps(QueuePhases(q), Skipped(QueuePhases(q)), 0);
  }

  // ---------- completing a request ----------

  /** blk_finish_request before the ordered sequence is looked at. */
  ghost function Gone(q: Queue, i: nat, error: int): Queue
    requires i < |q.driver|
  {
    q.(driver := RemoveAt(q.driver, i), log := Snoc(q.log, Finished(q.driver[i], error)),
       inFlight := q.inFlight - if q.driver[i].Account() then 1 else 0)
  }

  /** Completion, with its two ways of touching the ordered sequence. */
  lemma CompleteIs(q: Queue, i: nat, error: int)
    requires i < |q.driver|
    ensures q.driver[i].kind == Normal && Drained(Gone(q, i, error)) ==>
      Complete(q, i, error) == CompleteSeq(Gone(q, i, error), Only(Normal), 0)
    ensures q.driver[i].kind == Normal && !Drained(Gone(q, i, error)) ==> Complete(q, i, error) == Gone(q, i, error)
    ensures q.driver[i].kind != Normal && q.ordseq.drain ==>
      Complete(q, i, error) == CompleteSeq(Gone(q, i, error), Only(q.driver[i].kind), error)
  {
  }

  lemma GoneKeepsStory(q: Queue, i: nat, error: int)
    requires StoryOk(q) && SequenceOk(q) && i < |q.driver| && q.driver[i].kind == Normal
    ensures StoryOk(Gone(q, i, error)) && SequenceOk(Gone(q, i, error))
  {
  }

  lemma GoneKeepsPlaces(q: Queue, i: nat, error: int)
    requires ListsOk(q) && PlacesOk(q) && i < |q.driver| && q.driver[i].kind == Normal
    ensures ListsOk(Gone(q, i, error)) && PlacesOk(Gone(q, i, error))
  {
    RemoveFromDriver(q, i);
    CountRemove(q.driver, i);
  }

  lemma GoneKeeps(q: Queue, i: nat, error: int)
    requires Inv(q) && i < |q.driver| && q.driver[i].kind == Normal
    ensures Inv(Gone(q, i, error))
  {
    GoneKeepsStory(q, i, error);
    GoneKeepsPlaces(q, i, error);
  }

  lemma DrainKeeps(q: Queue)
    requires Inv(q) && Drained(q)
    ensures Loose(Recorded(q, Only(Normal), 0))
  {
    var q' := Recorded(q, Only(Normal), 0);
    assert ListsOk(q');
  }

  lemma CompleteNormalKeeps(q: Queue, i: nat, error: int)
    requires Inv(q) && i < |q.driver| && q.driver[i].kind == Normal
    ensures Inv(Complete(q, i, error))
  {
    var q1 := Gone(q, i, error);
    CompleteIs(q, i, error);
    GoneKeeps(q, i, error);
    if Drained(q1) {
      DrainKeeps(q1);
      CompleteSeqKeeps(q1, Only(Normal), 0);
    }
  }

  lemma CountZero(s: seq<Request>, k: Kind)
    requires Count(s, k) == 0
    ensures forall r :: r in s ==> r.kind != k
  {
    forall r | r in s ensures r.kind != k {
      var i :| 0 <= i < |s| && s[i] == r;
      CountMember(s, i);
    }
  }

  /** The request of a phase is the only one of its kind. */
  lemma PhaseIsUnique(q: Queue, i: nat)
    requires ListsOk(q) && PlacesOk(q) && i < |q.driver| && q.driver[i].kind != Normal
    ensures PhaseOk(q.driver[i], q.ordseq, q.orig) && q.ordseq.drain
    ensures forall r :: r in q.head || r in RemoveAt(q.driver, i) ==> r.kind != q.driver[i].kind
  {
    var k := q.driver[i].kind;
    assert q.driver[i] in q.driver;
    CountRemove(q.driver, i);
    CountZero(q.head, k);
    CountZero(RemoveAt(q.driver, i), k);
  }

  ghost function PhaseGone(q: Queue, i: nat, error: int): Queue
    requires i < |q.driver|
  {
    Recorded(Gone(q, i, error), Only(q.driver[i].kind), error)
  }

  /** Recording one phase leaves the requests of the others pending. */
  lemma RecordKeepsPhase(r: Request, o: OrdSeq, b: Request, k: Kind)
    requires PhaseOk(r, o, b) && r.kind != k
    ensures PhaseOk(r, o.Or(Only(k)), b)
  {
  }

  lemma PhaseKeepsLists(q: Queue, i: nat, error: int)
    requires ListsOk(q) && PlacesOk(q) && i < |q.driver| && q.driver[i].kind != Normal
    ensures ListsOk(PhaseGone(q, i, error))
  {
    PhaseIsUnique(q, i);
    RemoveFromDriver(q, i);
    var o := q.ordseq.Or(Only(q.driver[i].kind));
    forall r | (r in q.head || r in RemoveAt(q.driver, i)) && r.kind != Normal ensures PhaseOk(r, o, q.orig) {
      RecordKeepsPhase(r, q.ordseq, q.orig, q.driver[i].kind);
    }
    assert AddedIn(PhaseGone(q, i, error).log) == AddedIn(q.log);
  }

  lemma PhaseKeepsPlaces(q: Queue, i: nat, error: int)
    requires ListsOk(q) && PlacesOk(q) && i < |q.driver| && q.driver[i].kind != Normal
    ensures PlacesOk(PhaseGone(q, i, error))
  {
    PhaseIsUnique(q, i);
    RemoveFromDriver(q, i);
    CountRemove(q.driver, i);
  }

  lemma PhaseKeepsSequence(q: Queue, i: nat, error: int)
    requires i < |q.driver| && q.driver[i].kind != Normal && PhaseOk(q.driver[i], q.ordseq, q.orig) && q.ordseq.drain
    requires StoryOk(q) && SequenceOk(q)
    ensures StoryOk(PhaseGone(q, i, error)) && SequenceOk(PhaseGone(q, i, error))
  {
    var q' := PhaseGone(q, i, error);
    assert PhasesIn(q'.log) == PhasesIn(q.log) + {(q.driver[i].kind, q.orig.gen)};
  }

  lemma CompletePhaseKeeps(q: Queue, i: nat, error: int)
    requires Inv(q) && i < |q.driver| && q.driver[i].kind != Normal
    ensures Inv(Complete(q, i, error))
  {
    CompleteIs(q, i, error);
    PhaseIsUnique(q, i);
    PhaseKeepsLists(q, i, error);
    PhaseKeepsPlaces(q, i, error);
    PhaseKeepsSequence(q, i, error);
    CompleteSeqKeeps(Gone(q, i, error), Only(q.driver[i].kind), error);
  }

  lemma ReportKeeps(q: Queue, error: int)
    requires Inv(q)
    ensures Inv(ReportError(q, error))
  {
    hide PoolOk, HeadOk, DriverOk, BarriersOk, CountsOk, AddedOk, NormalOk;
  }

  // ---------- runs ----------

  lemma AddingKeeps(q: Queue, s: Step)
    requires Inv(q) && Enabled(q, s) && (s.DoAddSorted? || s.DoAddBack? || s.DoAddFront? || s.DoDispatch?)
    ensures Inv(Next(q, s)) && Next(q, s).nextOrdered == q.nextOrdered
  {
    hide Inv;
    match s
    case DoAddSorted(empty) => AddSortedKeeps(q, NewRequest(q, true, false, empty, false));
    case DoAddBack(fs, barrier, empty) => AddBackKeeps(q, NewRequest(q, fs, barrier, empty, true));
    case DoAddFront(empty) => AddFrontKeeps(q, NewRequest(q, false, false, empty, true));
    case DoDispatch(i, p) => DispatchKeeps(q, i, p);
  }

  lemma OrderingKeeps(q: Queue, s: Step)
    requires Inv(q) && Enabled(q, s) && (s.DoBegin? || s.DoRefuse? || s.DoPeek? || s.DoIssue?)
    ensures Inv(Next(q, s)) && Next(q, s).nextOrdered == q.nextOrdered
  {
    hide ListsOk, PlacesOk, StoryOk, SequenceOk;
    match s
    case DoBegin => FirstIsNormal(q); BeginKeeps(q);
    case DoRefuse => RefuseKeeps(q);
    case DoPeek => PeekKeeps(q);
    case DoIssue => IssueKeeps(q);
  }

  lemma CompleteKeeps(q: Queue, i: nat, error: int)
    requires Inv(q) && i < |q.driver|
    ensures Inv(Complete(q, i, error))
  {
    if q.driver[i].kind == Normal { CompleteNormalKeeps(q, i, error); } else { CompletePhaseKeeps(q, i, error); }
  }

  lemma CompleteKeepsMode(q: Queue, i: nat, error: int)
    requires i < |q.driver|
    ensures Complete(q, i, error).nextOrdered == q.nextOrdered
  {
  }

  lemma ReturningKeeps(q: Queue, s: Step)
    requires Inv(q) && Enabled(q, s) && (s.DoComplete? || s.DoReport? || s.DoRequeue?)
    ensures Inv(Next(q, s)) && Next(q, s).nextOrdered == q.nextOrdered
  {
    hide Loose, Complete;
    match s
    case DoComplete(i, error) => CompleteKeeps(q, i, error); CompleteKeepsMode(q, i, error);
    case DoReport(error) => ReportKeeps(q, error);
    case DoRequeue(i) => RequeueKeeps(q, i);
  }

  lemma StepKeeps(q: Queue, s: Step)
    requires Inv(q) && Enabled(q, s)
    ensures Inv(Next(q, s)) && Next(q, s).nextOrdered == q.nextOrdered
  {
    if s.DoAddSorted? || s.DoAddBack? || s.DoAddFront? || s.DoDispatch? {
      AddingKeeps(q, s);
    } else if s.DoBegin? || s.DoRefuse? || s.DoPeek? || s.DoIssue? {
      OrderingKeeps(q, s);
    } else {
      ReturningKeeps(q, s);
    }
  }

  lemma FirstIsNormal(q: Queue)
    requires ListsOk(q) && !q.Active() && q.head != []
    ensures q.head[0].kind == Normal
  {
    assert q.head[0] in q.head;
  }

  lemma InitLists(m: Mode)
    ensures ListsOk(Init(m)) && PlacesOk(Init(m))
  {
  }

  lemma InitStory(m: Mode)
    ensures StoryOk(Init(m))
  {
  }

  lemma InitSequence(m: Mode)
    requires ValidMode(m)
    ensures SequenceOk(Init(m))
  {
  }

  lemma IdleInv(q: Queue)
    requires ListsOk(q) && PlacesOk(q) && StoryOk(q) && SequenceOk(q) && q.ordseq == ZERO
    ensures Inv(q)
  {
  }

  lemma InitInv(m: Mode)
    requires ValidMode(m)
    ensures Inv(Init(m))
  {
    InitLists(m);
    InitStory(m);
    InitSequence(m);
    IdleInv(Init(m));
  }

  /** Every state a run goes through satisfies the invariant. */
  lemma {:induction false} RunKeeps(q: Queue, ss: seq<Step>)
    requires Inv(q) && CanRun(q, ss)
    ensures Inv(Run(q, ss)) && Run(q, ss).nextOrdered == q.nextOrdered
    decreases |ss|
  {
    if ss != [] {
      StepKeeps(q, ss[0]);
      RunKeeps(Next(q, ss[0]), ss[1..]);
    }
  }
}
