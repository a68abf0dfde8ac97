/** What every step of the barrier protocol keeps. */
module BarrierInvariant {
  import opened SeqUtil
  import opened Barrier

  // ---------- reading the log ----------

  /** A request as it was when it was queued. */
  ghost function Base(r: Request): Request { r.(soft := false, started := false) }

  ghost function AddedIn(l: Log): set<Request> {
    match l
    case Empty => {}
    case Snoc(rest, e) => if e.Added? then AddedIn(rest) + {Base(e.r)} else AddedIn(rest)
  }

  ghost function DoneIn(l: Log): set<nat> {
    match l
    case Empty => {}
    case Snoc(rest, e) => if e.Finished? && e.r.kind == Normal then DoneIn(rest) + {e.r.id} else DoneIn(rest)
  }

  /** The barriers that have ended, each named by its generation. */
  ghost function EndedIn(l: Log): set<nat> {
    match l
    case Empty => {}
    case Snoc(rest, e) => if e.Ended? then EndedIn(rest) + {e.r.gen} else EndedIn(rest)
  }

  /** The phases that have been completed, each with the generation of its barrier. */
  ghost function PhasesIn(l: Log): set<(Kind, nat)> {
    match l
    case Empty => {}
    case Snoc(rest, e) =>
      if e.Finished? && e.r.kind != Normal then PhasesIn(rest) + {(e.r.kind, e.r.gen)} else PhasesIn(rest)
  }

  /** The first non-zero error reported on a phase since the last barrier began. */
  ghost function FirstError(l: Log): int {
    match l
    case Empty => 0
    case Snoc(rest, e) =>
      match e
      case Began(_) => 0
      case Reported(err) => if FirstError(rest) != 0 then FirstError(rest) else err
      case Finished(r, err) => if FirstError(rest) != 0 || r.kind == Normal then FirstError(rest) else err
      case _ => FirstError(rest)
  }

  // ---------- what is promised in every ordering mode ----------

  /** All the phases that a barrier needs are among `done`. */
  ghost predicate NeededIn(m: Mode, b: Request, done: set<(Kind, nat)>) {
    var m' := Effective(m, b.empty);
    && (m'.doPreflush ==> (PreFlush, b.gen) in done)
    && (m'.doBar ==> (Proxy, b.gen) in done)
    && (m'.doPostflush ==> (PostFlush, b.gen) in done)
  }

  /** Each phase is recorded once and not after its barrier has ended; a barrier ends once, after
      all the phases it needs, with the first error reported on any of them. */
  ghost predicate OnceEvent(m: Mode, l: Log, e: Event) {
    match e
    case Issued(r) =>
      r.kind != Normal ==> (r.kind, r.gen) !in PhasesIn(l) && r.gen !in EndedIn(l)
    case Finished(r, _) =>
      r.kind != Normal ==> (r.kind, r.gen) !in PhasesIn(l) && r.gen !in EndedIn(l)
    case Ended(b, error) =>
      && b.gen !in EndedIn(l) && Base(b) in AddedIn(l)
      && if m == NONE then error == -95 else error == FirstError(l) && NeededIn(m, b, PhasesIn(l))
    case _ => true
  }

  ghost predicate OnceOk(m: Mode, l: Log) {
    match l
    case Empty => true
    case Snoc(rest, e) => OnceOk(m, rest) && OnceEvent(m, rest, e)
  }

  // ---------- counting ----------

  ghost function Count(s: seq<Request>, k: Kind): nat {
    if s == [] then 0 else (if s[0].kind == k then 1 else 0) + Count(s[1..], k)
  }

  ghost function CountFs(s: seq<Request>): nat {
    if s == [] then 0 else (if s[0].fs then 1 else 0) + CountFs(s[1..])
  }

  lemma {:induction false} CountConcat(a: seq<Request>, b: seq<Request>)
    ensures forall k :: Count(a + b, k) == Count(a, k) + Count(b, k)
    ensures CountFs(a + b) == CountFs(a) + CountFs(b)
  {
    if a == [] {
      assert a + b == b;
    } else {
      assert (a + b)[1..] == a[1..] + b;
      CountConcat(a[1..], b);
    }
  }

  lemma CountOne(x: Request)
    ensures forall k :: Count([x], k) == if x.kind == k then 1 else 0
    ensures CountFs([x]) == if x.fs then 1 else 0
  {
    assert [x][1..] == [];
  }

  lemma {:induction false} CountInsert(s: seq<Request>, p: nat, x: Request)
    requires p <= |s|
    ensures forall k :: Count(InsertAt(s, p, x), k) == Count(s, k) + if x.kind == k then 1 else 0
    ensures CountFs(InsertAt(s, p, x)) == CountFs(s) + if x.fs then 1 else 0
  {
    CountOne(x);
    assert s == s[..p] + s[p..];
    CountConcat(s[..p], s[p..]);
    CountConcat(s[..p] + [x], s[p..]);
    CountConcat(s[..p], [x]);
  }

  lemma {:induction false} CountRemove(s: seq<Request>, i: nat)
    requires i < |s|
    ensures forall k :: Count(s, k) == Count(RemoveAt(s, i), k) + if s[i].kind == k then 1 else 0
    ensures CountFs(s) == CountFs(RemoveAt(s, i)) + if s[i].fs then 1 else 0
  {
    assert s == InsertAt(RemoveAt(s, i), i, s[i]);
    CountInsert(RemoveAt(s, i), i, s[i]);
  }

  lemma {:induction false} CountMember(s: seq<Request>, i: nat)
    requires i < |s|
    ensures Count(s, s[i].kind) >= 1
    ensures s[i].fs ==> CountFs(s) >= 1
  {
    CountRemove(s, i);
  }

  lemma InInsert(s: seq<Request>, p: nat, x: Request)
    requires p <= |s|
    ensures forall r :: r in InsertAt(s, p, x) <==> r in s || r == x
  {
    assert s == s[..p] + s[p..];
  }

  lemma InRemove(s: seq<Request>, i: nat)
    requires i < |s|
    ensures forall r :: r in s <==> r in RemoveAt(s, i) || r == s[i]
  {
    assert s == s[..i] + [s[i]] + s[i + 1..];
  }

  // ---------- the invariant, for every ordering mode ----------

  /** Parity, one step at a time. */
  ghost predicate Odd(n: nat) { if n == 0 then false else !Odd(n - 1) }

  /** Colour is the parity of the number of barriers queued before. */
  ghost predicate NormalOk(r: Request, gen: nat, added: set<Request>) {
    r.color == Odd(r.gen) && r.gen <= gen && (r.barrier ==> r.fs && r.gen < gen) && Base(r) in added
  }

  /** A phase of the barrier in progress that is not recorded as done. */
  ghost predicate PhaseOk(r: Request, o: OrdSeq, b: Request) {
    && o != ZERO && !o.Bit(r.kind) && r.barrier && r.soft
    && r.id == b.id && r.gen == b.gen && r.empty == b.empty && r.fs == (r.kind == Proxy)
  }

  ghost predicate PoolOk(s: seq<Request>, gen: nat, added: set<Request>) {
    forall r :: r in s ==> r.kind == Normal && r.fs && !r.barrier && r.gen == gen && NormalOk(r, gen, added)
  }

  ghost predicate HeadOk(s: seq<Request>, gen: nat, added: set<Request>, o: OrdSeq, b: Request) {
    && (forall r :: r in s && r.kind == Normal ==> NormalOk(r, gen, added) && (r.barrier ==> !r.started))
    && (forall r :: r in s && r.kind != Normal ==> PhaseOk(r, o, b))
  }

  ghost predicate DriverOk(s: seq<Request>, gen: nat, added: set<Request>, o: OrdSeq, b: Request) {
    && (forall r :: r in s ==> r.started)
    && (forall r :: r in s && r.kind == Normal ==> NormalOk(r, gen, added) && !r.barrier)
    && (forall r :: r in s && r.kind != Normal ==> PhaseOk(r, o, b) && o.drain)
  }

  ghost predicate HasBarrier(s: seq<Request>, k: nat) {
    exists r :: r in s && r.kind == Normal && r.barrier && r.gen == k
  }

  /** The waiting barriers, in the order they were queued and none missing. */
  ghost predicate BarriersOk(s: seq<Request>, lo: nat, hi: nat) {
    && lo <= hi
    && (forall r :: r in s && r.kind == Normal && r.barrier ==> lo <= r.gen < hi)
    && (forall i, j :: 0 <= i < j < |s| && s[i].kind == Normal && s[i].barrier && s[j].kind == Normal && s[j].barrier
          ==> s[i].gen < s[j].gen)
    && (forall k :: lo <= k < hi ==> HasBarrier(s, k))
  }

  /** The lowest generation whose barrier can still be waiting in the dispatch list. */
  ghost function Lowest(q: Queue): nat { q.ended + if q.Active() then 1 else 0 }

  /** The flags of a sequence agree with the phases recorded for its barrier. */
  ghost predicate FlagsOk(o: OrdSeq, m: Mode, g: nat, done: set<(Kind, nat)>) {
    && o.started && (!o.drain ==> Draining(m))
    && (o.preflush <==> (!m.doPreflush || (PreFlush, g) in done))
    && (o.bar <==> (!m.doBar || (Proxy, g) in done))
    && (o.postflush <==> (!m.doPostflush || (PostFlush, g) in done))
  }

  ghost predicate OrigOk(b: Request, ended: nat, gen: nat, added: set<Request>) {
    b.kind == Normal && b.IsBarrier() && !b.started && b.gen == ended && NormalOk(b, gen, added)
  }

  /** Each pending phase is in exactly one place; nothing else is. */
  ghost predicate CountsOk(head: seq<Request>, driver: seq<Request>, o: OrdSeq) {
    && Count(head, PreFlush) + Count(driver, PreFlush) == (if o != ZERO && !o.preflush then 1 else 0)
    && Count(head, Proxy) + Count(driver, Proxy) == (if o != ZERO && !o.bar then 1 else 0)
    && Count(head, PostFlush) + Count(driver, PostFlush) == (if o != ZERO && !o.postflush then 1 else 0)
  }

  /** Ranks and generations of the requests ever queued agree. */
  ghost predicate AddedOk(added: set<Request>, gen: nat, count: nat) {
    && (forall a :: a in added ==> a.kind == Normal && a.id < count && a.gen <= gen && (a.barrier ==> a.gen < gen))
    && (forall a, b :: a in added && b in added && a.id < b.id ==> a.gen <= b.gen && (a.barrier ==> a.gen < b.gen))
    && (forall a, b :: a in added && b in added && a.id == b.id ==> a == b)
  }

  ghost predicate HistoryOk(l: Log, ended: nat, lowest: nat) {
    && (forall g :: g in EndedIn(l) <==> 0 <= g < ended)
    && (forall p :: p in PhasesIn(l) ==> p.1 < lowest)
  }

  ghost predicate ListsOk(q: Queue) {
    && PoolOk(q.pool, q.gen, AddedIn(q.log))
    && HeadOk(q.head, q.gen, AddedIn(q.log), q.ordseq, q.orig)
    && DriverOk(q.driver, q.gen, AddedIn(q.log), q.ordseq, q.orig)
  }

  ghost predicate PlacesOk(q: Queue) {
    && BarriersOk(q.head, Lowest(q), q.gen)
    && CountsOk(q.head, q.driver, q.ordseq)
    && q.inFlight == CountFs(q.driver)
  }

  ghost predicate StoryOk(q: Queue) {
    && AddedOk(AddedIn(q.log), q.gen, q.count)
    && HistoryOk(q.log, q.ended, Lowest(q))
    && OnceOk(q.nextOrdered, q.log)
  }

  ghost predicate SequenceOk(q: Queue) {
    && ValidMode(q.nextOrdered) && !q.bug && q.ordcolor == Odd(q.gen)
    && (q.Active() ==>
          && OrigOk(q.orig, q.ended, q.gen, AddedIn(q.log))
          && q.nextOrdered != NONE && q.ordered == Effective(q.nextOrdered, q.orig.empty)
          && FlagsOk(q.ordseq, q.ordered, q.orig.gen, PhasesIn(q.log))
          && q.orderr == FirstError(q.log))
  }

  /** Holds in every reachable state, and between the recording of a phase and the end of its sequence. */
  ghost predicate Loose(q: Queue) { ListsOk(q) && PlacesOk(q) && StoryOk(q) && SequenceOk(q) }

  ghost predicate Inv(q: Queue) { Loose(q) && CurSeq(q.ordseq) != DONE }
}
