/** The request queue as the block layer keeps it: fields updated in place under the queue lock.
    Each method is tied to a transition of module Barrier, so that whatever a sequence of calls
    does is a run of that system. */
module BarrierQueue {
  import opened SeqUtil
  import B = Barrier

  type Request = B.Request
  /** A sequence that is over as soon as it starts has queued nothing, and otherwise, unless the queue
      has to drain, its first phase may go. */
  lemma StartedSequence(q: B.Queue)
    requires q.head != [] && q.ordseq == B.ZERO && B.ValidMode(q.nextOrdered) && q.nextOrdered != B.NONE
    ensures
      var q1 := B.QueuePhases(q);
      var o := q1.ordseq.Or(B.Skipped(q1));
      && (B.CurSeq(o) == B.DONE ==> q1.head == q.head[1..])
      && (B.CurSeq(o) != B.DONE && B.Skipped(q1).drain && q1.head != [] && q1.head[0].kind != B.Normal ==>
            B.Passes(B.StartOrdered(q), q1.head[0]))
      && (q1.ordered.doPreflush || q1.ordered.doBar || q1.ordered.doPostflush ==>
            q1.head != [] && q1.head[0].kind != B.Normal)
  {
  }

  const EIO := -5

  /** What prep_rq_fn says: BLKPREP_OK, BLKPREP_DEFER or BLKPREP_KILL. */
  datatype Prep = Good | Defer | Condemn

  lemma IssueEnabled(q: B.Queue)
    requires q.head != [] && B.Passes(q, q.head[0])
    ensures B.Enabled(q, B.DoIssue)
  {
  }

  lemma PeekEnabled(q: B.Queue)
    requires q.head != [] && B.Passes(q, q.head[0])
    ensures B.Enabled(q, B.DoPeek)
  {
  }

  lemma CompleteStep(q: B.Queue, i: nat, error: int)
    requires i < |q.driver|
    ensures B.CanRun(q, [B.DoComplete(i, error)]) && B.Run(q, [B.DoComplete(i, error)]) == B.Complete(q, i, error)
  {
    hide B.Complete;
    OneStep(q, B.DoComplete(i, error));
  }

  lemma SeqKeepsMode(q: B.Queue, seqs: B.OrdSeq, error: int)
    ensures var t := B.CompleteSeq(q, seqs, error); t.nextOrdered == q.nextOrdered && t.driver == q.driver
  {
    hide B.CurSeq;
  }

  lemma ElvKeepsMode(q: B.Queue, r: Request)
    ensures var t := B.ElvCompleted(q, r); t.nextOrdered == q.nextOrdered && t.driver == q.driver
  {
    SeqKeepsMode(q.(inFlight := q.inFlight - if r.Account() then 1 else 0), B.Only(B.Normal), 0);
    hide B.CompleteSeq, B.Drained;
  }

  lemma CompletionKeepsMode(q: B.Queue, i: nat, error: int)
    requires i < |q.driver|
    ensures var t := B.Complete(q, i, error); t.nextOrdered == q.nextOrdered && t.driver == RemoveAt(q.driver, i)
  {
    var r := q.driver[i];
    var q1 := q.(driver := RemoveAt(q.driver, i), log := B.Snoc(q.log, B.Finished(r, error)));
    ElvKeepsMode(q1, r);
    SeqKeepsMode(B.ElvCompleted(q1, r), B.Only(r.kind), error);
    hide B.CompleteSeq, B.ElvCompleted;
  }

  lemma IssueKeepsMode(q: B.Queue)
    requires B.Enabled(q, B.DoIssue)
    ensures B.Next(q, B.DoIssue) == B.Issue(q) && B.Issue(q).nextOrdered == q.nextOrdered
    ensures B.Issue(q).driver == q.driver + [q.head[0].(started := true)]
  {
    hide B.Passes;
  }

  lemma Stashed(q: B.Queue, q1: B.Queue)
    requires q.head != []
    requires q1 == q.(orderr := 0, ordered := B.Effective(q.nextOrdered, q.head[0].empty),
                      ordseq := q.ordseq.(started := true))
    ensures B.QueuePhases(q).(head := q.head[1..]) ==
      B.DequeueHead(q1).(orig := q.head[0], log := B.Snoc(q.log, B.Began(q.head[0])))
  {
    hide B.Effective, B.Phases;
  }

  class RequestQueue {
    var head: seq<Request>
    var pool: seq<Request>
    var driver: seq<Request>
    var inFlight: int
    var ordseq: B.OrdSeq
    var orderr: int
    var ordered: B.Mode
    var nextOrdered: B.Mode
    var orig: Request
    var ordcolor: bool
    var bug: bool
    var gen: nat             // history, as in module Barrier
    ghost var ended: nat
    var count: nat           // history
    ghost var log: B.Log

    ghost function State(): B.Queue
      reads this
    {
      B.Queue(head, pool, driver, inFlight, ordseq, orderr, ordered, nextOrdered, orig, ordcolor, bug, gen, ended,
              count, log)
    }

    /** A queue for which blk_queue_ordered has accepted the mode `m`. */
    constructor (m: B.Mode)
      requires B.ValidMode(m)
      ensures State() == B.Init(m)
    {
      head, pool, driver, inFlight := [], [], [], 0;
      ordseq, orderr, ordered, nextOrdered := B.ZERO, 0, m, m;
      orig, ordcolor, bug := B.NoRequest, false, false;
      gen, ended, count, log := 0, 0, 0, B.Empty;
    }

    /** blk_dequeue_request, for the first request of the list. */
    method DequeueHead() returns (r: Request)
      requires head != []
      modifies this`head, this`inFlight
      ensures State() == B.DequeueHead(old(State())) && r == old(head)[0]
    {
      r := head[0];
      head := head[1..];
      if r.Account() {
        inFlight := inFlight + 1;
      }
    }

    /** The sequence is over: end the original barrier. */
    method EndSequence()
      modifies this`ordseq, this`inFlight, this`ended, this`log
      ensures State() == B.EndSequence(old(State()))
    {
      ordseq := B.ZERO;
      if orig.Account() {
        inFlight := inFlight - 1;
      }
      ended := ended + 1;
      log := B.Snoc(log, B.Ended(orig, orderr));
    }

    /** blk_ordered_complete_seq. */
    method CompleteSeq(seqs: B.OrdSeq, error: int) returns (done: bool)
      modifies this`orderr, this`bug, this`ordseq, this`inFlight, this`ended, this`log
      ensures State() == B.CompleteSeq(old(State()), seqs, error)
      ensures done <==> B.CurSeq(old(ordseq).Or(seqs)) == B.DONE
    {
      orderr := if error != 0 && orderr == 0 then error else orderr;
      bug := bug || ordseq.Overlaps(seqs);
      ordseq := ordseq.Or(seqs);
      done := B.CurSeq(ordseq) == B.DONE;
      if done {
        EndSequence();
      }
    }

    /** queue_flush, or queueing the proxy: put a phase that the mode needs at the front, or note
        that it is skipped. */
    method StackPhase(k: B.Kind, first: Option<Request>, skip: B.OrdSeq) returns (rq: Option<Request>, skip': B.OrdSeq)
      requires k != B.Normal
      modifies this`head
      ensures B.Does(ordered, k) ==> head == [B.Phase(orig, k)] + old(head) && rq == Some(head[0]) && skip' == skip
      ensures !B.Does(ordered, k) ==> head == old(head) && rq == first && skip' == skip.Or(B.Only(k))
    {
      if B.Does(ordered, k) {
        head := [B.Phase(orig, k)] + head;
        return Some(head[0]), skip;
      }
      return first, skip.Or(B.Only(k));
    }

    /** Queue the sequence at the front, last phase first. */
    method StackPhases() returns (rq: Option<Request>, skip: B.OrdSeq)
      modifies this`head
      ensures head == B.Phases(ordered, orig) + old(head)
      ensures skip == B.OrdSeq(false, false, !ordered.doPreflush, !ordered.doBar, !ordered.doPostflush)
      ensures rq.Some? <==> ordered.doPreflush || ordered.doBar || ordered.doPostflush
      ensures rq.Some? ==> head != [] && rq.value == head[0]
    {
      rq, skip := StackPhase(B.PostFlush, None, B.ZERO);
      rq, skip := StackPhase(B.Proxy, rq, skip);
      rq, skip := StackPhase(B.PreFlush, rq, skip);
    }

    /** The mode of the sequence that starts with the barrier at the head. */
    method ChooseMode()
      requires head != []
      modifies this`ordered
      ensures ordered == B.Effective(nextOrdered, head[0].empty)
    {
      ordered := nextOrdered;
      if head[0].empty {
        ordered := ordered.(doBar := false, doPostflush := false);
        if ordered.byTag && !ordered.doPreflush {
          ordered := ordered.(byTag := false, byDrain := true);
        }
      }
    }

    method StartSequence()
      requires head != []
      modifies this`ordered, this`orderr, this`ordseq
      ensures State() == old(State()).(orderr := 0, ordered := B.Effective(nextOrdered, head[0].empty),
                                       ordseq := old(ordseq).(started := true))
    {
      hide B.Effective;
      ChooseMode();
      orderr, ordseq := 0, ordseq.(started := true);
    }

    /** start_ordered until it stacks the sequence: choose the mode and stash the barrier at the head. */
    method StashBarrier()
      requires head != []
      modifies this`head, this`inFlight, this`orderr, this`ordered, this`ordseq, this`orig, this`log
      ensures State() == B.QueuePhases(old(State())).(head := old(head)[1..])
    {
      hide B.Effective, B.Phases, B.DequeueHead, B.QueuePhases;
      ghost var q := State();
      StartSequence();
      ghost var before := State();
      orig := DequeueHead();
      log := B.Snoc(log, B.Began(orig));
      Stashed(q, before);
    }

    method QueuePhases() returns (rq: Option<Request>, skip: B.OrdSeq)
      requires head != []
      modifies this`head, this`inFlight, this`orderr, this`ordered, this`ordseq, this`orig, this`log
      ensures State() == B.QueuePhases(old(State()))
      ensures skip == B.OrdSeq(false, false, !ordered.doPreflush, !ordered.doBar, !ordered.doPostflush)
      ensures rq.Some? <==> ordered.doPreflush || ordered.doBar || ordered.doPostflush
      ensures rq.Some? ==> head != [] && rq.value == head[0]
    {
      hide B.Phases, B.Effective;
      StashBarrier();
      rq, skip := StackPhases();
    }

    /** start_ordered. */
    method StartOrdered() returns (rq: Option<Request>, alive: bool)
      requires head != [] && ordseq == B.ZERO && B.ValidMode(nextOrdered) && nextOrdered != B.NONE
      modifies this`head, this`inFlight, this`orderr, this`ordered, this`ordseq, this`orig, this`bug, this`ended,
        this`log
      ensures State() == B.StartOrdered(old(State()))
      ensures !alive ==> |head| < old(|head|)
      ensures alive && rq.Some? ==> head != [] && rq.value == head[0] && B.Passes(State(), head[0])
    {
      hide B.CompleteSeq, B.QueuePhases, B.Passes;
      var skip;
      rq, skip := QueuePhases();
      if ordered.byDrain && inFlight != 0 {
        rq := None;
      } else {
        skip := skip.(drain := true);
      }
      StartedSequence(old(State()));
      var done := CompleteSeq(skip, 0);
      alive := !done;
    }

    /** blk_do_ordered while no sequence is running: a barrier starts one, or is refused. */
    method DoOrderedIdle() returns (rq: Option<Request>, alive: bool, ghost ss: seq<B.Step>)
      requires head != [] && B.ValidMode(nextOrdered) && ordseq == B.ZERO
      modifies this
      ensures B.CanRun(old(State()), ss) && State() == B.Run(old(State()), ss)
      ensures ss == [] || ss == [B.DoBegin] || ss == [B.DoRefuse]
      ensures !alive ==> |head| < old(|head|)
      ensures alive && rq.Some? ==> head != [] && rq.value == head[0] && B.Passes(State(), head[0])
      ensures alive && ss == [] ==> rq.Some?
      ensures pool == old(pool) && nextOrdered == old(nextOrdered) && driver == old(driver)
    {
      hide B.StartOrdered;
      var r := head[0];
      if !r.IsBarrier() {
        return Some(r), true, [];
      }
      if nextOrdered != B.NONE {
        ss := [B.DoBegin];
        OneStep(State(), B.DoBegin);
        rq, alive := StartOrdered();
        return;
      }
      ss := [B.DoRefuse];
      OneStep(State(), B.DoRefuse);
      r := DequeueHead();
      ended := ended + 1;
      log := B.Snoc(log, B.Ended(r, -95));
      return None, false, ss;
    }

    /** blk_do_ordered, on the request at the head of the list.  The step it takes, if any, is
        `ss`. */
    method DoOrdered() returns (rq: Option<Request>, alive: bool, ghost ss: seq<B.Step>)
      requires head != [] && B.ValidMode(nextOrdered)
      modifies this
      ensures B.CanRun(old(State()), ss) && State() == B.Run(old(State()), ss)
      ensures ss == [] || ss == [B.DoBegin] || ss == [B.DoRefuse]
      ensures !alive ==> |head| < old(|head|)
      ensures alive && rq.Some? ==> head != [] && rq.value == head[0] && B.Passes(State(), head[0])
      ensures alive && ss == [] && rq.None? ==> !B.Passes(State(), head[0])
      ensures pool == old(pool) && nextOrdered == old(nextOrdered) && driver == old(driver)
    {
      if ordseq == B.ZERO {
        rq, alive, ss := DoOrderedIdle();
        return;
      }
      var r := head[0];
      if !r.fs && r.kind != B.PreFlush && r.kind != B.PostFlush {
        return Some(r), true, [];
      }
      if ordered.byTag {
        if r.IsBarrier() && r.kind != B.Proxy {
          return None, true, [];
        }
      } else if B.ReqSeqOf(orig, r) > B.CurSeq(ordseq) {
        return None, true, [];
      }
      return Some(r), true, [];
    }

    /** elevator_dispatch_fn: the I/O scheduler hands over any number of the requests it holds, each to the
        end of the list or to a place that sorting can reach; with `force`, all of them. */
    method DispatchSome(force: bool) returns (some: bool, ghost ss: seq<B.Step>)
      modifies this`head, this`pool
      ensures B.CanRun(old(State()), ss) && State() == B.Run(old(State()), ss)
      ensures forall s :: s in ss ==> s.DoDispatch?
      ensures |pool| <= |old(pool)| && (some <==> |pool| < |old(pool)|) && (force ==> pool == [])
    {
      some, ss := false, [];
      var more: bool := force;
      if !force {
        more :| true;
      }
      while more && pool != []
        invariant B.CanRun(old(State()), ss) && State() == B.Run(old(State()), ss)
        invariant forall s :: s in ss ==> s.DoDispatch?
        invariant |pool| <= |old(pool)| && (some <==> |pool| < |old(pool)|) && (force ==> more)
        decreases |pool|
      {
        ghost var before := State();
        var i: nat :| i < |pool|;
        assert B.Reachable(head, |head|);
        var p: nat :| p <= |head| && B.Reachable(head, p);
        head := InsertAt(head, p, pool[i]);
        pool := RemoveAt(pool, i);
        assert State() == B.Dispatch(before, i, p);
        RunConcat(old(State()), ss, [B.DoDispatch(i, p)]);
        ss := ss + [B.DoDispatch(i, p)];
        some := true;
        if !force {
          more :| true;
        }
      }
    }

    /** __elv_next_request: go on until a request may be handed out or none can be had.  When the list
        is empty the I/O scheduler is asked for more; which requests it gives, if any, is its choice. */
    method NextRequest() returns (rq: Option<Request>, ghost ss: seq<B.Step>)
      requires B.ValidMode(nextOrdered)
      modifies this
      ensures B.CanRun(old(State()), ss) && State() == B.Run(old(State()), ss)
      ensures forall s :: s in ss ==> s.DoBegin? || s.DoRefuse? || s.DoDispatch?
      ensures rq.Some? ==> head != [] && rq.value == head[0] && B.Passes(State(), head[0])
      ensures nextOrdered == old(nextOrdered) && driver == old(driver)
    {
      hide B.Passes, B.Next, B.Enabled;
      ss := [];
      while true
        invariant B.CanRun(old(State()), ss) && State() == B.Run(old(State()), ss)
        invariant forall s :: s in ss ==> s.DoBegin? || s.DoRefuse? || s.DoDispatch?
        invariant nextOrdered == old(nextOrdered) && driver == old(driver)
        decreases |pool|, |head|
      {
        ghost var more;
        if head != [] {
          var alive;
          rq, alive, more := DoOrdered();
          RunConcat(old(State()), ss, more);
          ss := ss + more;
          if alive {
            return;
          }
        } else {
          var some;
          some, more := DispatchSome(false);
          RunConcat(old(State()), ss, more);
          ss := ss + more;
          if !some {
            return None, ss;
          }
        }
      }
    }

    /** blk_start_request: the request at the head goes to the driver. */
    method StartRequest() returns (r: Request)
      requires head != [] && B.Passes(State(), head[0])
      modifies this
      ensures B.Enabled(old(State()), B.DoIssue) && State() == B.Next(old(State()), B.DoIssue)
      ensures driver != [] && r == driver[|driver| - 1]
    {
      hide B.Passes, B.Next, B.Enabled;
      IssueEnabled(State());
      IssueKeepsMode(State());
      r := head[0].(started := true);
      head := head[1..];
      if r.Account() {
        inFlight := inFlight + 1;
      }
      driver := driver + [r];
      log := B.Snoc(log, B.Issued(r));
    }

    /** The first request has been seen by the driver. */
    method MarkStarted()
      requires head != [] && B.Passes(State(), head[0])
      modifies this`head
      ensures State() == B.Next(old(State()), B.DoPeek)
      ensures head != [] && head[0] == old(head)[0].(started := true) && B.Passes(State(), head[0])
    {
      head := head[0 := head[0].(started := true)];
    }

    /** A request that its preparation condemned is started and ended. */
    method Kill() returns (ghost ss: seq<B.Step>)
      requires head != [] && B.Passes(State(), head[0])
      modifies this
      ensures B.CanRun(old(State()), ss) && State() == B.Run(old(State()), ss)
      ensures ss == [B.DoIssue, B.DoComplete(|old(driver)|, EIO)]
      ensures nextOrdered == old(nextOrdered) && driver == old(driver)
    {
      hide B.Passes, B.Next, B.Complete;
      IssueEnabled(State());
      OneStep(State(), B.DoIssue);
      IssueKeepsMode(State());
      var r := StartRequest();
      ghost var mid, k := State(), |old(driver)|;
      Complete(|driver| - 1, EIO);
      CompleteStep(mid, k, EIO);
      CompletionKeepsMode(mid, k, EIO);
      RunConcat(old(State()), [B.DoIssue], [B.DoComplete(k, EIO)]);
      ss := [B.DoIssue] + [B.DoComplete(k, EIO)];
    }

    /** The next request that may be handed out, marked as started. */
    method PeekHead() returns (rq: Option<Request>, ghost ss: seq<B.Step>)
      requires B.ValidMode(nextOrdered)
      modifies this
      ensures B.CanRun(old(State()), ss) && State() == B.Run(old(State()), ss)
      ensures nextOrdered == old(nextOrdered) && driver == old(driver) && forall s :: s in ss ==> !s.DoComplete?
      ensures rq.Some? ==> head != [] && rq.value == head[0] && head[0].started && B.Passes(State(), head[0])
      ensures rq.Some? ==> ss != [] && ss[|ss| - 1] == B.DoPeek
    {
      hide B.Passes, B.Next, B.Enabled;
      rq, ss := NextRequest();
      if rq.Some? {
        PeekEnabled(State());
        OneStep(State(), B.DoPeek);
        RunConcat(old(State()), ss, [B.DoPeek]);
        MarkStarted();
        ss := ss + [B.DoPeek];
        rq := Some(head[0]);
      }
    }

    /** blk_peek_request.  The outcomes of preparing one request after the other are `preps`, and good
        after that.  `killed` requests are condemned, and each is issued and ended with -EIO; then the
        next one is handed out, or `deferred`: it stays at the head, marked as started. */
    method PeekRequest(preps: seq<Prep>)
      returns (rq: Option<Request>, ghost deferred: bool, ghost killed: nat, ghost ss: seq<B.Step>)
      requires B.ValidMode(nextOrdered)
      modifies this
      ensures B.CanRun(old(State()), ss) && State() == B.Run(old(State()), ss) && driver == old(driver)
      ensures killed <= |preps| && forall j :: 0 <= j < killed ==> preps[j] == Condemn
      ensures Killed(ss, |driver|) == killed &&
              forall s :: s in ss && s.DoComplete? ==> s == B.DoComplete(|driver|, EIO)
      ensures rq.Some? || deferred ==> head != [] && head[0].started && B.Passes(State(), head[0])
      ensures rq.Some? ==> rq.value == head[0] && (killed < |preps| ==> preps[killed] == Good) && !deferred
      ensures deferred ==> killed < |preps| && preps[killed] == Defer && ss != [] && ss[|ss| - 1] == B.DoPeek
    {
      hide B.Passes, B.Next, B.Enabled, Killed;
      ss, deferred, killed := [], false, 0;
      NobodyKilled([], |driver|);
      ghost var more;
      var i := 0;
      while true
        invariant i == killed <= |preps| && B.ValidMode(nextOrdered) && driver == old(driver) && !deferred
        invariant forall j :: 0 <= j < killed ==> preps[j] == Condemn
        invariant B.CanRun(old(State()), ss) && State() == B.Run(old(State()), ss)
        invariant Killed(ss, |driver|) == killed
        invariant forall s :: s in ss && s.DoComplete? ==> s == B.DoComplete(|driver|, EIO)
        decreases |preps| - i
      {
        rq, more := PeekHead();
        RunConcat(old(State()), ss, more);
        NobodyKilled(more, |driver|);
        KilledConcat(ss, more, |driver|);
        ss := ss + more;
        if rq.None? {
          return;
        }
        if i == |preps| || preps[i] == Good {
          return Some(head[0]), false, killed, ss;
        }
        if preps[i] == Defer {
          return None, true, killed, ss;
        }
        i, killed := i + 1, killed + 1;
        more := Kill();
        RunConcat(old(State()), ss, more);
        OneKilled(|driver|);
        KilledConcat(ss, more, |driver|);
        ss := ss + more;
      }
    }

    /** blk_fetch_request: take the next request off the list for the driver. */
    method FetchRequest(preps: seq<Prep>) returns (rq: Option<Request>, ghost ss: seq<B.Step>)
      requires B.ValidMode(nextOrdered)
      modifies this
      ensures B.CanRun(old(State()), ss) && State() == B.Run(old(State()), ss)
      ensures rq.Some? ==> ss != [] && ss[|ss| - 1] == B.DoIssue && driver != [] && rq.value == driver[|driver| - 1]
    {
      hide B.Passes, B.Next, B.Enabled;
      ghost var deferred, killed;
      rq, deferred, killed, ss := PeekRequest(preps);
      if rq.Some? {
        IssueEnabled(State());
        OneStep(State(), B.DoIssue);
        RunConcat(old(State()), ss, [B.DoIssue]);
        var r := StartRequest();
        ss := ss + [B.DoIssue];
        rq := Some(r);
      }
    }

    /** The colouring at the start of __elv_add_request. */
    method Announce(fs: bool, barrier: bool, empty: bool, soft: bool) returns (r: Request)
      modifies this`ordcolor, this`gen, this`count, this`log
      ensures r == B.NewRequest(old(State()), fs, barrier, empty, soft)
      ensures State() == B.Announce(old(State()), r)
    {
      r := B.Request(B.Normal, count, gen, fs, barrier, empty, ordcolor, soft, false);
      if barrier {
        ordcolor := !ordcolor;
        gen := gen + 1;
      }
      count := count + 1;
      log := B.Snoc(log, B.Added(r));
    }

    /** add_request for an fs request: ELEVATOR_INSERT_SORT, which a barrier turns into
        ELEVATOR_INSERT_BACK. */
    method AddRequest(barrier: bool, empty: bool) returns (ghost ss: seq<B.Step>)
      modifies this
      ensures B.CanRun(old(State()), ss) && State() == B.Run(old(State()), ss)
      ensures ss != [] && ss[|ss| - 1] == if barrier then B.DoAddBack(true, true, empty) else B.DoAddSorted(empty)
    {
      if barrier {
        ss := AddBack(true, true, empty);
      } else {
        var r := Announce(true, false, empty, false);
        pool := pool + [r];
        ss := [B.DoAddSorted(empty)];
        assert B.Enabled(old(State()), ss[0]) && State() == B.Next(old(State()), ss[0]);
      }
    }

    /** ELEVATOR_INSERT_BACK. */
    method AddBack(fs: bool, barrier: bool, empty: bool) returns (ghost ss: seq<B.Step>)
      requires barrier ==> fs
      modifies this
      ensures B.CanRun(old(State()), ss) && State() == B.Run(old(State()), ss)
      ensures ss != [] && ss[|ss| - 1] == B.DoAddBack(fs, barrier, empty)
    {
      var _, drained := DispatchSome(true);
      ss := drained;
      ghost var before := State();
      var r := Announce(fs, barrier, empty, true);
      head := head + [r];
      assert State() == B.AddBack(before, r);
      RunConcat(old(State()), ss, [B.DoAddBack(fs, barrier, empty)]);
      ss := ss + [B.DoAddBack(fs, barrier, empty)];
    }

    /** ELEVATOR_INSERT_FRONT, which no fs request uses. */
    method AddFront(empty: bool)
      modifies this
      ensures State() == B.Next(old(State()), B.DoAddFront(empty))
    {
      var r := Announce(false, false, empty, true);
      head := [r] + head;
    }

    /** The scan of ELEVATOR_INSERT_REQUEUE. */
    method ScanRequeue(rank: nat) returns (p: nat)
      ensures p == B.RequeueAt(orig, head, rank)
    {
      hide B.ReqSeqOf;
      p := 0;
      while p < |head| && B.ReqSeqOf(orig, head[p]) < rank
        invariant p <= |head| && forall i :: 0 <= i < p ==> B.ReqSeqOf(orig, head[i]) < rank
      {
        p := p + 1;
      }
    }

    /** ELEVATOR_INSERT_REQUEUE: the place in sequence order. */
    method InsertRequeue(r: Request)
      modifies this`head
      ensures State() == old(State()).(head := InsertAt(old(head), B.RequeuePos(old(State()), r), r))
    {
      hide B.ReqSeqOf, B.RequeueAt, InsertAt;
      var p := 0;
      if ordseq != B.ZERO {
        p := ScanRequeue(B.ReqSeqOf(orig, r));
      }
      head := InsertAt(head, p, r);
    }

    /** elv_requeue_request, for the i-th request of the driver. */
    method Requeue(i: nat)
      requires i < |driver|
      modifies this`driver, this`inFlight, this`head, this`log
      ensures State() == B.Requeue(old(State()), i)
    {
      var r := driver[i];
      InsertRequeue(B.Back(r));
      driver := RemoveAt(driver, i);
      if r.Account() {
        inFlight := inFlight - 1;
      }
      log := B.Snoc(log, B.Returned(r));
    }

    /** elv_completed_request. */
    method ElvCompleted(r: Request)
      modifies this`inFlight, this`orderr, this`bug, this`ordseq, this`ended, this`log
      ensures State() == B.ElvCompleted(old(State()), r)
    {
      if r.Account() {
        inFlight := inFlight - 1;
      }
      if ordseq != B.ZERO && inFlight == 0 && B.CurSeq(ordseq) == B.DRAIN
         && (head == [] || B.ReqSeqOf(orig, head[0]) > B.DRAIN)
      {
        var _ := CompleteSeq(B.Only(B.Normal), 0);
      }
    }

    /** blk_finish_request with the end_io handlers of the three phases. */
    method Complete(i: nat, error: int)
      requires i < |driver|
      modifies this
      ensures State() == B.Complete(old(State()), i, error)
    {
      var r := driver[i];
      driver := RemoveAt(driver, i);
      log := B.Snoc(log, B.Finished(r, error));
      ElvCompleted(r);
      if r.kind != B.Normal {
        var _ := CompleteSeq(B.Only(r.kind), error);
      }
    }

    /** req_bio_endio for part of the proxy's data. */
    method ReportError(error: int)
      modifies this`orderr, this`log
      ensures State() == B.ReportError(old(State()), error)
    {
      if error != 0 && orderr == 0 {
        orderr := error;
      }
      log := B.Snoc(log, B.Reported(error));
    }
  }

  /** How many requests are issued and at once ended with -EIO, the driver having `n` others. */
  function Killed(ss: seq<B.Step>, n: nat): nat {
    if |ss| < 2 then 0
    else if ss[|ss| - 2] == B.DoIssue && ss[|ss| - 1] == B.DoComplete(n, EIO) then Killed(ss[..|ss| - 2], n) + 1
    else Killed(ss[..|ss| - 1], n)
  }

  lemma {:induction false} NobodyKilled(ss: seq<B.Step>, n: nat)
    requires forall s :: s in ss ==> !s.DoComplete?
    ensures Killed(ss, n) == 0
  {
    if |ss| >= 2 {
      NobodyKilled(ss[..|ss| - 1], n);
    }
  }

  lemma OneKilled(n: nat)
    ensures Killed([B.DoIssue, B.DoComplete(n, EIO)], n) == 1
  {
  }

  lemma {:induction false} KilledConcat(a: seq<B.Step>, b: seq<B.Step>, n: nat)
    requires b != [] ==> !b[0].DoComplete?
    ensures Killed(a + b, n) == Killed(a, n) + Killed(b, n)
    decreases |b|
  {
    if b == [] {
      assert a + b == a;
    } else if |b| == 1 {
      assert (a + b)[..|a|] == a;
    } else if b[|b| - 2] == B.DoIssue && b[|b| - 1] == B.DoComplete(n, EIO) {
      KilledConcat(a, b[..|b| - 2], n);
      assert (a + b)[..|a| + |b| - 2] == a + b[..|b| - 2];
    } else {
      KilledConcat(a, b[..|b| - 1], n);
      assert (a + b)[..|a| + |b| - 1] == a + b[..|b| - 1];
    }
  }

  lemma OneStep(q: B.Queue, s: B.Step)
    requires B.Enabled(q, s)
    ensures B.CanRun(q, [s]) && B.Run(q, [s]) == B.Next(q, s)
  {
    hide B.Next;
    assert [s][1..] == [];
  }

  /** Two runs, one after the other, are a run. */
  lemma {:induction false} RunConcat(q: B.Queue, a: seq<B.Step>, b: seq<B.Step>)
    requires B.CanRun(q, a) && B.CanRun(B.Run(q, a), b)
    ensures B.CanRun(q, a + b) && B.Run(q, a + b) == B.Run(B.Run(q, a), b)
    decreases |a|
  {
    hide B.Next, B.Enabled;
    if a == [] {
      assert a + b == b;
    } else {
      RunConcat(B.Next(q, a[0]), a[1..], b);
      assert (a + b)[1..] == a[1..] + b;
    }
  }
}
