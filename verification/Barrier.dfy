/** The ordered-write (barrier) protocol of the block layer: the queue state of
    common/block/blk-barrier.c together with the insertion, requeue and completion
    paths of common/block/elevator.c, as transition functions on a value.

    `gen`, `ended`, `count` and `log` (and `gen`/`id` of a request) are history: the
    source does not store them.  They let a property speak of all the requests that
    were queued before a barrier, which the one-bit colour of the source cannot. */
module Barrier {
  import opened SeqUtil

  /** The three requests embedded in a queue, and all the others. */
  datatype Kind = Normal | PreFlush | Proxy | PostFlush

  datatype Request = Request(
    kind: Kind,
    id: nat,          // history: rank among all requests ever queued; a phase carries its barrier's
    gen: nat,         // history: number of barriers queued before it
    fs: bool,         // cmd_type == REQ_TYPE_FS
    barrier: bool,    // REQ_HARDBARRIER
    empty: bool,      // no sectors
    color: bool,      // REQ_ORDERED_COLOR
    soft: bool,       // REQ_SOFTBARRIER
    started: bool)    // REQ_STARTED
  {
    predicate Account() { started && fs }
    predicate IsBarrier() { fs && barrier }
    predicate Stop() { soft || barrier || started }
  }

  /** QUEUE_ORDERED_* bits. */
  datatype Mode = Mode(byDrain: bool, byTag: bool, doPreflush: bool, doBar: bool, doPostflush: bool)

  const NONE := Mode(false, false, false, false, false)

  /** What blk_queue_ordered accepts. */
  predicate ValidMode(m: Mode) {
    || m == NONE
    || (m.byDrain != m.byTag && m.doBar && (m.doPostflush ==> m.doPreflush))
  }

  /** The queue ordering is by draining. */
  predicate Draining(m: Mode) { m.byDrain && !m.byTag }

  /** The mode one sequence runs in: an empty barrier has no proxy and no post-flush,
      and a tag-ordered one without any command to send drains instead. */
  function Effective(m: Mode, empty: bool): Mode {
    if !empty then m
    else
      var m1 := m.(doBar := false, doPostflush := false);
      if m1.byTag && !m1.doPreflush then m1.(byTag := false, byDrain := true) else m1
  }

  predicate Does(m: Mode, k: Kind) {
    match k
    case Normal => false
    case PreFlush => m.doPreflush
    case Proxy => m.doBar
    case PostFlush => m.doPostflush
  }

  /** q->ordseq, one field per QUEUE_ORDSEQ_* bit below DONE. */
  datatype OrdSeq = OrdSeq(started: bool, drain: bool, preflush: bool, bar: bool, postflush: bool)
  {
    predicate Bit(k: Kind) {
      match k
      case Normal => drain
      case PreFlush => preflush
      case Proxy => bar
      case PostFlush => postflush
    }

    function Or(o: OrdSeq): OrdSeq {
      OrdSeq(started || o.started, drain || o.drain, preflush || o.preflush, bar || o.bar, postflush || o.postflush)
    }

    predicate Overlaps(o: OrdSeq) {
      (started && o.started) || (drain && o.drain) || (preflush && o.preflush) || (bar && o.bar) ||
        (postflush && o.postflush)
    }

    function Bits(): bv8 {
      (if started then 0x01 else 0) | (if drain then 0x02 else 0) | (if preflush then 0x04 else 0)
      | (if bar then 0x08 else 0) | (if postflush then 0x10 else 0)
    }
  }

  const ZERO := OrdSeq(false, false, false, false, false)

  function Only(k: Kind): OrdSeq {
    OrdSeq(false, k.Normal?, k.PreFlush?, k.Proxy?, k.PostFlush?)
  }

  // Ranks of the QUEUE_ORDSEQ_* constants, in their order.
  const IDLE: nat := 0
  const DRAIN: nat := 2
  const PREFLUSH: nat := 3
  const BAR: nat := 4
  const POSTFLUSH: nat := 5
  const DONE: nat := 6

  function PhaseOf(k: Kind): nat {
    match k
    case Normal => DRAIN
    case PreFlush => PREFLUSH
    case Proxy => BAR
    case PostFlush => POSTFLUSH
  }

  /** blk_ordered_cur_seq. */
  function CurSeq(o: OrdSeq): nat {
    if o == ZERO then IDLE
    else if !o.started then 1
    else if !o.drain then DRAIN
    else if !o.preflush then PREFLUSH
    else if !o.bar then BAR
    else if !o.postflush then POSTFLUSH
    else DONE
  }

  function RankBit(r: nat): bv8
    requires r <= DONE
  {
    if r == 0 then 0 else (1 as bv8) << (r - 1)
  }

  /** The rank computed field by field is the lowest clear bit of the flag word. */
  lemma CurSeqIsLowestClearBit(o: OrdSeq)
    ensures CurSeq(o) <= DONE
    ensures o == ZERO <==> o.Bits() == 0
    ensures o != ZERO ==> RankBit(CurSeq(o)) & o.Bits() == 0
    ensures o != ZERO ==> (RankBit(CurSeq(o)) - 1) & o.Bits() == RankBit(CurSeq(o)) - 1
  {
  }

  /** What happened to a queue, oldest first. */
  datatype Event =
    | Added(r: Request)
    | Issued(r: Request)                // handed to the driver
    | Returned(r: Request)              // given back by the driver, not done
    | Finished(r: Request, error: int)
    | Reported(error: int)              // an error on part of the proxy's data
    | Began(r: Request)
    | Ended(r: Request, error: int)

  datatype Log = Empty | Snoc(rest: Log, last: Event)

  datatype Queue = Queue(
    head: seq<Request>,      // q->queue_head
    pool: seq<Request>,      // requests held by the I/O scheduler
    driver: seq<Request>,    // dequeued, not completed
    inFlight: int,           // q->in_flight[0] + q->in_flight[1]
    ordseq: OrdSeq,
    orderr: int,
    ordered: Mode,
    nextOrdered: Mode,
    orig: Request,           // q->orig_bar_rq
    ordcolor: bool,
    bug: bool,               // a BUG_ON has fired
    gen: nat,                // history: barriers queued
    ended: nat,              // history: barriers ended
    count: nat,              // history: requests queued
    log: Log)
  {
    predicate Active() { ordseq != ZERO }
  }

  /** blk_ordered_req_seq, while the sequence of barrier `b` is running. */
  function ReqSeqOf(b: Request, r: Request): nat {
    if r.kind != Normal then PhaseOf(r.kind)
    else if !r.fs then DRAIN
    else if r.color == b.color then DRAIN
    else DONE
  }

  function ReqSeq(q: Queue, r: Request): nat { ReqSeqOf(q.orig, r) }

  /** list_del plus the accounting of blk_dequeue_request, for the first request. */
  function DequeueHead(q: Queue): Queue
    requires q.head != []
  {
    q.(head := q.head[1..], inFlight := q.inFlight + if q.head[0].Account() then 1 else 0)
  }

  /** The tail of blk_ordered_complete_seq: the whole sequence is done. */
  function EndSequence(q: Queue): Queue {
    q.(ordseq := ZERO, ended := q.ended + 1,
       inFlight := q.inFlight - if q.orig.Account() then 1 else 0,
       log := Snoc(q.log, Ended(q.orig, q.orderr)))
  }

  /** blk_ordered_complete_seq. */
  function CompleteSeq(q: Queue, seqs: OrdSeq, error: int): Queue {
    var q1 := q.(orderr := if error != 0 && q.orderr == 0 then error else q.orderr,
                 bug := q.bug || q.ordseq.Overlaps(seqs),
                 ordseq := q.ordseq.Or(seqs));
    if CurSeq(q1.ordseq) != DONE then q1 else EndSequence(q1)
  }

  /** A request of the ordered sequence of barrier `b`, as elv_insert leaves it at the front. */
  function Phase(b: Request, k: Kind): Request {
    Request(k, b.id, b.gen, k == Proxy, true, b.empty, false, true, false)
  }

  function Phases(m: Mode, b: Request): seq<Request> {
    (if m.doPreflush then [Phase(b, PreFlush)] else [])
    + (if m.doBar then [Phase(b, Proxy)] else [])
    + (if m.doPostflush then [Phase(b, PostFlush)] else [])
  }

  /** Queue the sequence of the barrier at the head (start_ordered up to its last call). */
  function QueuePhases(q: Queue): Queue
    requires q.head != []
  {
    var b := q.head[0];
    var m := Effective(q.nextOrdered, b.empty);
    var q1 := DequeueHead(q.(orderr := 0, ordered := m, ordseq := q.ordseq.(started := true)));
    q1.(orig := b, head := Phases(m, b) + q1.head, log := Snoc(q1.log, Began(b)))
  }

  /** The phases a sequence that has just been queued does without. */
  function Skipped(q: Queue): OrdSeq {
    OrdSeq(false, !(q.ordered.byDrain && q.inFlight != 0), !q.ordered.doPreflush, !q.ordered.doBar,
           !q.ordered.doPostflush)
  }

  /** start_ordered. */
  function StartOrdered(q: Queue): Queue
    requires q.head != []
  {
    var q1 := QueuePhases(q);
    CompleteSeq(q1, Skipped(q1), 0)
  }

  /** The branch of blk_do_ordered for a queue without ordering support. */
  function Refuse(q: Queue): Queue
    requires q.head != []
  {
    var q1 := DequeueHead(q);
    q1.(ended := q.ended + 1, log := Snoc(q1.log, Ended(q.head[0], -95)))
  }

  /** blk_do_ordered hands `r` out unchanged. */
  predicate Passes(q: Queue, r: Request) {
    if !q.Active() then !r.IsBarrier()
    else if !r.fs && r.kind != PreFlush && r.kind != PostFlush then true
    else if q.ordered.byTag then !(r.IsBarrier() && r.kind != Proxy)
    else ReqSeq(q, r) <= CurSeq(q.ordseq)
  }

  /** The WARN_ON of blk_do_ordered. */
  predicate Warns(q: Queue, r: Request) {
    && q.Active() && !q.ordered.byTag
    && (r.fs || r.kind == PreFlush || r.kind == PostFlush)
    && ReqSeq(q, r) < CurSeq(q.ordseq)
  }

  /** A new request as __elv_add_request colours it. */
  function NewRequest(q: Queue, fs: bool, barrier: bool, empty: bool, soft: bool): Request {
    Request(Normal, q.count, q.gen, fs, barrier, empty, q.ordcolor, soft, false)
  }

  function Announce(q: Queue, r: Request): Queue {
    q.(count := q.count + 1,
       ordcolor := if r.barrier then !q.ordcolor else q.ordcolor,
       gen := if r.barrier then q.gen + 1 else q.gen,
       log := Snoc(q.log, Added(r)))
  }

  function AddSorted(q: Queue, r: Request): Queue {
    Announce(q, r).(pool := q.pool + [r])
  }

  function AddBack(q: Queue, r: Request): Queue {
    Announce(q, r).(head := q.head + [r])
  }

  function AddFront(q: Queue, r: Request): Queue {
    Announce(q, r).(head := [r] + q.head)
  }

  /** A place in the dispatch list with nothing behind it that stops sorting. */
  predicate Reachable(s: seq<Request>, p: nat) {
    p <= |s| && forall j :: p <= j < |s| ==> !s[j].Stop()
  }

  /** The scheduler moves its i-th request to position p of the dispatch list. */
  function Dispatch(q: Queue, i: nat, p: nat): Queue
    requires i < |q.pool| && p <= |q.head|
  {
    q.(pool := RemoveAt(q.pool, i), head := InsertAt(q.head, p, q.pool[i]))
  }

  /** blk_peek_request: the driver has seen the first request. */
  function MarkStarted(q: Queue): Queue
    requires q.head != []
  {
    q.(head := q.head[0 := q.head[0].(started := true)])
  }

  /** blk_peek_request followed by blk_start_request. */
  function Issue(q: Queue): Queue
    requires q.head != []
  {
    var q1 := MarkStarted(q);
    DequeueHead(q1).(driver := q.driver + [q1.head[0]], log := Snoc(q.log, Issued(q1.head[0])))
  }

  /** elv_completed_request has drained the queue. */
  predicate Drained(q: Queue) {
    && q.Active() && q.inFlight == 0 && CurSeq(q.ordseq) == DRAIN
    && (q.head == [] || ReqSeq(q, q.head[0]) > DRAIN)
  }

  /** elv_completed_request. */
  function ElvCompleted(q: Queue, r: Request): Queue {
    var q1 := q.(inFlight := q.inFlight - if r.Account() then 1 else 0);
    if Drained(q1) then CompleteSeq(q1, Only(Normal), 0) else q1
  }

  /** blk_finish_request and the end_io handlers, for the i-th request of the driver. */
  function Complete(q: Queue, i: nat, error: int): Queue
    requires i < |q.driver|
  {
    var r := q.driver[i];
    var q1 := ElvCompleted(q.(driver := RemoveAt(q.driver, i), log := Snoc(q.log, Finished(r, error))), r);
    if r.kind == Normal then q1 else CompleteSeq(q1, Only(r.kind), error)
  }

  /** req_bio_endio for part of the proxy. */
  function ReportError(q: Queue, error: int): Queue {
    q.(orderr := if error != 0 && q.orderr == 0 then error else q.orderr, log := Snoc(q.log, Reported(error)))
  }

  /** The list_for_each of ELEVATOR_INSERT_REQUEUE: the first position whose rank is not lower. */
  function RequeueAt(b: Request, s: seq<Request>, rank: nat): (p: nat)
    ensures p <= |s|
    ensures forall i :: 0 <= i < p ==> ReqSeqOf(b, s[i]) < rank
    ensures p < |s| ==> rank <= ReqSeqOf(b, s[p])
  {
    if s == [] || rank <= ReqSeqOf(b, s[0]) then 0 else 1 + RequeueAt(b, s[1..], rank)
  }

  function RequeuePos(q: Queue, r: Request): (p: nat)
    ensures p <= |q.head|
  {
    if !q.Active() then 0 else RequeueAt(q.orig, q.head, ReqSeq(q, r))
  }

  /** A request as it goes back on the list. */
  function Back(r: Request): Request { r.(started := false, soft := true) }

  /** elv_requeue_request. */
  function Requeue(q: Queue, i: nat): Queue
    requires i < |q.driver|
  {
    var r := q.driver[i];
    q.(driver := RemoveAt(q.driver, i),
       inFlight := q.inFlight - if r.Account() then 1 else 0,
       head := InsertAt(q.head, RequeuePos(q, Back(r)), Back(r)),
       log := Snoc(q.log, Returned(r)))
  }

  // ---------- runs ----------

  /** One step under the queue lock.  `DoRefuse` and `DoBegin` are blk_do_ordered meeting a
      barrier; `DoDispatch` is the I/O scheduler moving one request, in any order and to any
      place elv_dispatch_sort or elv_dispatch_add_tail can choose. */
  datatype Step =
    | DoAddSorted(empty: bool)
    | DoAddBack(fs: bool, barrier: bool, empty: bool)
    | DoAddFront(empty: bool)
    | DoDispatch(i: nat, p: nat)
    | DoBegin
    | DoRefuse
    | DoPeek
    | DoIssue
    | DoComplete(i: nat, error: int)
    | DoReport(error: int)
    | DoRequeue(i: nat)

  predicate Enabled(q: Queue, s: Step) {
    match s
    case DoAddSorted(_) => true
    case DoAddBack(fs, barrier, _) => q.pool == [] && (barrier ==> fs)
    case DoAddFront(_) => true
    case DoDispatch(i, p) => i < |q.pool| && Reachable(q.head, p)
    case DoBegin => !q.Active() && q.head != [] && q.head[0].IsBarrier() && q.nextOrdered != NONE
    case DoRefuse => !q.Active() && q.head != [] && q.head[0].IsBarrier() && q.nextOrdered == NONE
    case DoPeek => q.head != [] && Passes(q, q.head[0])
    case DoIssue => q.head != [] && Passes(q, q.head[0])
    case DoComplete(i, _) => i < |q.driver|
    case DoReport(_) => exists r :: r in q.driver && r.kind == Proxy
    case DoRequeue(i) => i < |q.driver|
  }

  function Next(q: Queue, s: Step): Queue
    requires Enabled(q, s)
  {
    match s
    case DoAddSorted(empty) => AddSorted(q, NewRequest(q, true, false, empty, false))
    case DoAddBack(fs, barrier, empty) => AddBack(q, NewRequest(q, fs, barrier, empty, true))
    case DoAddFront(empty) => AddFront(q, NewRequest(q, false, false, empty, true))
    case DoDispatch(i, p) => Dispatch(q, i, p)
    case DoBegin => StartOrdered(q)
    case DoRefuse => Refuse(q)
    case DoPeek => MarkStarted(q)
    case DoIssue => Issue(q)
    case DoComplete(i, error) => Complete(q, i, error)
    case DoReport(error) => ReportError(q, error)
    case DoRequeue(i) => Requeue(q, i)
  }

  const NoRequest := Request(Normal, 0, 0, false, false, false, false, false, false)

  /** A queue configured by blk_queue_ordered, before any request. */
  function Init(m: Mode): Queue {
    Queue([], [], [], 0, ZERO, 0, m, m, NoRequest, false, false, 0, 0, 0, Empty)
  }

  /** The steps `ss` can be taken from `q`, one after the other. */
  predicate CanRun(q: Queue, ss: seq<Step>)
    decreases |ss|
  {
    ss == [] || (Enabled(q, ss[0]) && CanRun(Next(q, ss[0]), ss[1..]))
  }

  function Run(q: Queue, ss: seq<Step>): Queue
    requires CanRun(q, ss)
    decreases |ss|
  {
    if ss == [] then q else Run(Next(q, ss[0]), ss[1..])
  }
}
