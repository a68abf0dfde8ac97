/** The ordered-write guarantees, for every run of a queue. */
module BarrierSafety {
  import opened Barrier
  import opened BarrierInvariant
  import opened BarrierSteps
  import opened BarrierDrain

  /** `l` is the log at some earlier moment of `full`. */
  ghost predicate Earlier(l: Log, full: Log) {
    l == full || (full.Snoc? && Earlier(l, full.rest))
  }

  lemma {:induction false} OnceAt(m: Mode, l: Log, e: Event, full: Log)
    requires OnceOk(m, full) && Earlier(Snoc(l, e), full)
    ensures OnceEvent(m, l, e)
  {
    if full != Snoc(l, e) {
      OnceAt(m, l, e, full.rest);
    }
  }

  lemma {:induction false} SafeAt(m: Mode, l: Log, e: Event, full: Log)
    requires Safe(m, full) && Earlier(Snoc(l, e), full)
    ensures SafeEvent(m, l, e)
  {
    if full != Snoc(l, e) {
      SafeAt(m, l, e, full.rest);
    }
  }

  /** The invariant holds wherever a run leads. */
  lemma Reached(m: Mode, ss: seq<Step>, q: Queue)
    requires ValidMode(m) && CanRun(Init(m), ss) && q == Run(Init(m), ss)
    ensures Inv(q) && q.nextOrdered == m
  {
    InitInv(m);
    RunKeeps(Init(m), ss);
  }

  lemma ReachedDrain(m: Mode, ss: seq<Step>, q: Queue)
    requires ValidMode(m) && Draining(m) && CanRun(Init(m), ss) && q == Run(Init(m), ss)
    ensures DrainInv(q) && q.nextOrdered == m
  {
    InitInv(m);
    InitDrain(m);
    RunKeeps(Init(m), ss);
    RunKeepsDrain(Init(m), ss);
  }

  /** In every mode and whatever the order of completions: no BUG_ON of blk_ordered_complete_seq
      fires, every phase is recorded once, and each barrier ends once, after all the phases it
      needs and with the first error reported on them. */
  lemma SequencesEndOnce(m: Mode, ss: seq<Step>, l: Log, e: Event)
    requires ValidMode(m) && CanRun(Init(m), ss) && Earlier(Snoc(l, e), Run(Init(m), ss).log)
    ensures !Run(Init(m), ss).bug
    ensures e.Finished? && e.r.kind != Normal ==> (e.r.kind, e.r.gen) !in PhasesIn(l) && e.r.gen !in EndedIn(l)
    ensures e.Ended? ==> e.r.gen !in EndedIn(l) && Base(e.r) in AddedIn(l)
    ensures e.Ended? && m != NONE ==> NeededIn(m, e.r, PhasesIn(l)) && e.error == FirstError(l)
    ensures e.Ended? && m == NONE ==> e.error == -95
  {
    Reached(m, ss, Run(Init(m), ss));
    OnceAt(m, l, e, Run(Init(m), ss).log);
  }

  /** Ordering by draining, at every moment of every run: a request of a barrier's sequence is
      handed to the driver only when every fs request queued before the barrier is over and the
      earlier phases are done; and no fs request is handed out before all the barriers queued
      ahead of it have ended. */
  lemma DrainOrdering(m: Mode, ss: seq<Step>, l: Log, r: Request)
    requires ValidMode(m) && Draining(m) && CanRun(Init(m), ss)
    requires Earlier(Snoc(l, Issued(r)), Run(Init(m), ss).log)
    ensures r.kind != Normal ==> BeforeDone(l, r.id) && EarlierDone(m, l, r)
    ensures r.kind == Normal && r.fs ==> BarriersDone(l, r.id)
  {
    ReachedDrain(m, ss, Run(Init(m), ss));
    SafeAt(m, l, Issued(r), Run(Init(m), ss).log);
  }

  /** A barrier ordered by draining ends only when everything queued before it is over. */
  lemma DrainEnd(m: Mode, ss: seq<Step>, l: Log, b: Request, error: int)
    requires ValidMode(m) && Draining(m) && CanRun(Init(m), ss)
    requires Earlier(Snoc(l, Ended(b, error)), Run(Init(m), ss).log)
    ensures BeforeDone(l, b.id)
  {
    ReachedDrain(m, ss, Run(Init(m), ss));
    SafeAt(m, l, Ended(b, error), Run(Init(m), ss).log);
  }

  /** The ordering warning of blk_do_ordered is never given when ordering by draining. */
  lemma DrainNeverWarns(m: Mode, ss: seq<Step>)
    requires ValidMode(m) && Draining(m) && CanRun(Init(m), ss) && Run(Init(m), ss).head != []
    ensures !Warns(Run(Init(m), ss), Run(Init(m), ss).head[0])
  {
    Reached(m, ss, Run(Init(m), ss));
    ReachedDrain(m, ss, Run(Init(m), ss));
    NeverWarns(Run(Init(m), ss));
  }

  /** A generation names one barrier, and the requests queued before a barrier are those of an equal
      or smaller generation. */
  lemma GenerationsFollowRanks(m: Mode, ss: seq<Step>, a: Request, b: Request)
    requires ValidMode(m) && CanRun(Init(m), ss)
    requires a in AddedIn(Run(Init(m), ss).log) && b in AddedIn(Run(Init(m), ss).log) && b.barrier && a != b
    ensures a.id < b.id <==> a.gen <= b.gen
  {
    Reached(m, ss, Run(Init(m), ss));
  }
}
