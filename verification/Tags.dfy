/**
 * Tagged command queueing on one queue (common/block/blk-tag.c:220-405): a
 * bitmap of tags in use, the request each tag belongs to, and the list of
 * tagged requests, newest first.
 */
module Tags {
  import opened SeqUtil

  // depth: max_depth; |bits|: real_max_depth; tag: rq->tag of the tagged
  // requests; began: when each of them was last started
  datatype State = State(depth: nat, bits: seq<bool>, index: seq<Option<nat>>, busy: seq<nat>, tag: map<nat, nat>,
                         queue: seq<nat>, began: map<nat, nat>, clock: nat)

  // ---------------------------------------------------------------- the operations

  // find_first_zero_bit
  function FirstFree(bits: seq<bool>, limit: nat): (t: nat)
    requires limit <= |bits|
    ensures t <= limit
    ensures forall i :: 0 <= i < t ==> bits[i]
    ensures t < limit ==> !bits[t]
  {
    FreeFrom(bits, limit, 0)
  }

  function FreeFrom(bits: seq<bool>, limit: nat, from: nat): (t: nat)
    requires from <= limit <= |bits|
    ensures from <= t <= limit
    ensures forall i :: from <= i < t ==> bits[i]
    ensures t < limit ==> !bits[t]
    decreases limit - from
  {
    if from == limit || !bits[from] then from else FreeFrom(bits, limit, from + 1)
  }

  // Asynchronous requests leave the last tags alone.
  function Limit(depth: nat, sync: bool): nat {
    if sync || depth <= 1 then depth else if depth == 2 then 1 else depth - 2
  }

  // Whether blk_queue_start_tag gives x a tag; inFlight counts asynchronous requests.
  predicate Starts(s: State, sync: bool, inFlight: nat)
    requires s.depth <= |s.bits|
  {
    && !(!sync && s.depth > 1 && inFlight > Limit(s.depth, sync))
    && FirstFree(s.bits, Limit(s.depth, sync)) < Limit(s.depth, sync)
  }

  function Started(s: State, x: nat, sync: bool): State
    requires s.depth <= |s.bits| && |s.index| == |s.bits| && x in s.queue &&
             FirstFree(s.bits, Limit(s.depth, sync)) < Limit(s.depth, sync)
  {
    var t := FirstFree(s.bits, Limit(s.depth, sync));
    s.(bits := s.bits[t := true], index := s.index[t := Some(x)], tag := s.tag[x := t], busy := [x] + s.busy,
       queue := Without(s.queue, x), began := s.began[x := s.clock], clock := s.clock + 1)
  }

  // blk_queue_end_tag
  function Ended(s: State, x: nat): State
    requires x in s.tag && x in s.busy && s.tag[x] < |s.bits| == |s.index|
  {
    s.(bits := s.bits[s.tag[x] := false], index := s.index[s.tag[x] := None], tag := s.tag - {x},
       busy := Without(s.busy, x))
  }

  // blk_requeue_request, no ordered sequence being active
  function Requeued(s: State, x: nat): State
    requires x in s.tag && x in s.busy && s.tag[x] < |s.bits| == |s.index|
  {
    var t := Ended(s, x);
    t.(queue := [x] + t.queue)
  }

  // blk_queue_resize_tags
  function Resized(s: State, depth: nat): State {
    if depth <= |s.bits| then s.(depth := depth)
    else s.(depth := depth, bits := s.bits + seq(depth - |s.bits|, i => false),
            index := s.index + seq(depth - |s.bits|, i => None))
  }

  // ---------------------------------------------------------------- agreement

  // A tag is taken exactly when it has a request; that request has the tag and
  // is on the busy list, where every tagged request is once.
  ghost predicate Agree(s: State) {
    && |s.index| == |s.bits| && s.depth <= |s.bits|
    && (forall t :: 0 <= t < |s.bits| ==> (s.bits[t] <==> s.index[t].Some?))
    && (forall t :: 0 <= t < |s.bits| && s.index[t].Some? ==> s.index[t].value in s.tag && s.tag[s.index[t].value] == t)
    && (forall x :: x in s.tag ==> s.tag[x] < |s.bits| && s.index[s.tag[x]] == Some(x))
    && (forall x :: x in s.busy <==> x in s.tag)
  }

  // Requests are queued or busy, not both; the busy list is newest first.
  ghost predicate Placed(s: State) {
    && Distinct(s.busy) && Distinct(s.queue)
    && (forall x :: x in s.busy ==> x !in s.queue)
    && (forall x :: x in s.busy ==> x in s.began && s.began[x] < s.clock)
    && forall i, j :: 0 <= i < j < |s.busy| ==> s.began[s.busy[j]] < s.began[s.busy[i]]
  }

  ghost predicate Inv(s: State) { Agree(s) && Placed(s) }

  lemma Sizes(s: State)
    requires Agree(s)
    ensures s.depth <= |s.bits| == |s.index|
  {
  }

  lemma AgreeElsewhere(s: State, t: State)
    requires Agree(s) && t == s.(queue := t.queue)
    ensures Agree(t)
  {
  }

  lemma StartedAgrees(s: State, x: nat, sync: bool)
    requires Inv(s) && x in s.queue && FirstFree(s.bits, Limit(s.depth, sync)) < Limit(s.depth, sync)
    ensures Agree(Started(s, x, sync))
  {
    hide FirstFree, Distinct, Without;
    var t := Started(s, x, sync);
    assert t.busy[0] == x;
    assert forall y :: y in t.busy <==> y in s.busy || y == x;
  }

  lemma StartedPlaced(s: State, x: nat, sync: bool)
    requires Inv(s) && x in s.queue && FirstFree(s.bits, Limit(s.depth, sync)) < Limit(s.depth, sync)
    ensures Placed(Started(s, x, sync))
  {
    hide FirstFree, Agree, Without;
    Sizes(s);
    WithoutKeeps(s.queue, x);
    var t := Started(s, x, sync);
    assert forall y :: y in t.busy <==> y in s.busy || y == x;
  }

  lemma EndedInv(s: State, x: nat)
    requires Inv(s) && x in s.busy
    ensures x in s.tag && s.tag[x] < |s.bits| == |s.index| && Inv(Ended(s, x))
    ensures forall y :: y in Ended(s, x).busy <==> y in s.busy && y != x
  {
    WithoutKeeps(s.busy, x);
    EndedAgrees(s, x);
    EndedPlaced(s, x);
  }

  lemma EndedAgrees(s: State, x: nat)
    requires Inv(s) && x in s.busy
    ensures x in s.tag && s.tag[x] < |s.bits| == |s.index| && Agree(Ended(s, x))
  {
    hide Placed, Without;
    BusyDistinct(s);
    WithoutKeeps(s.busy, x);
  }

  lemma BusyDistinct(s: State)
    requires Placed(s)
    ensures Distinct(s.busy)
  {
  }

  lemma EndedPlaced(s: State, x: nat)
    requires Placed(s) && x in s.busy && x in s.tag && s.tag[x] < |s.bits| == |s.index|
    ensures Placed(Ended(s, x))
  {
    WithoutKeeps(s.busy, x);
  }

  lemma RequeuedInv(s: State, x: nat)
    requires Inv(s) && x in s.busy
    ensures x in s.tag && s.tag[x] < |s.bits| == |s.index| && Inv(Requeued(s, x))
  {
    hide Agree, Without;
    EndedInv(s, x);
    AgreeElsewhere(Ended(s, x), Requeued(s, x));
    NotQueuedTwice(s, x);
  }

  lemma NotQueuedTwice(s: State, x: nat)
    requires Placed(s) && x in s.busy
    ensures Distinct([x] + s.queue) && x !in s.queue
  {
  }

  lemma ResizedInv(s: State, depth: nat)
    requires Inv(s)
    ensures Inv(Resized(s, depth))
  {
    hide Distinct;
  }

  // ---------------------------------------------------------------- what agreement means

  // No two tagged requests share a tag, and the index leads from tag to request.
  lemma TagsAreUnique(s: State, x: nat, y: nat)
    requires Inv(s) && x in s.busy && y in s.busy && x != y
    ensures x in s.tag && y in s.tag && s.tag[x] != s.tag[y]
    ensures s.tag[x] < |s.bits| && s.bits[s.tag[x]] && s.index[s.tag[x]] == Some(x)
  {
    hide Placed;
  }

  // The tag given is the lowest free one, and asynchronous requests keep out of
  // the last two tags.
  lemma StartTakesLowest(s: State, x: nat, sync: bool, inFlight: nat)
    requires Inv(s) && x in s.queue && s.depth <= |s.bits|
    ensures Starts(s, sync, inFlight) ==>
              && Inv(Started(s, x, sync))
              && var t := Started(s, x, sync).tag[x];
              && !s.bits[t] && (forall i :: 0 <= i < t ==> s.bits[i])
              && t < s.depth && (!sync && s.depth > 2 ==> t < s.depth - 2)
    ensures !Starts(s, sync, inFlight) <==>
              (!sync && s.depth > 1 && inFlight > Limit(s.depth, sync)) ||
                (forall t :: 0 <= t < Limit(s.depth, sync) ==> s.bits[t])
  {
    Sizes(s);
    if Starts(s, sync, inFlight) {
      StartedAgrees(s, x, sync);
      StartedPlaced(s, x, sync);
      hide Agree, Placed;
    }
  }

  // ---------------------------------------------------------------- invalidation

  // blk_queue_invalidate_tags: every busy request is requeued, newest first.
  function Invalidated(s: State): (t: State)
    requires Inv(s)
    ensures Inv(t)
    decreases |s.busy|
  {
    if s.busy == [] then s
    else
      assert s.busy[0] in s.busy;
      RequeuedInv(s, s.busy[0]);
      Invalidated(Requeued(s, s.busy[0]))
  }

  // The busy list holds the newest request first.
  function InStartOrder(busy: seq<nat>): (q: seq<nat>)
    ensures |q| == |busy|
  {
    seq(|busy|, i requires 0 <= i < |busy| => busy[|busy| - 1 - i])
  }

  lemma {:induction false} InvalidatedIs(s: State)
    requires Inv(s)
    ensures var t := Invalidated(s);
            t.busy == [] && t.queue == InStartOrder(s.busy) + s.queue && t.began == s.began && |t.bits| == |s.bits|
    decreases |s.busy|
  {
    hide Agree, Placed;
    if s.busy != [] {
      var x := s.busy[0];
      assert x in s.busy;
      RequeuedInv(s, x);
      var m := Requeued(s, x);
      FirstGoes(s.busy);
      InvalidatedIs(m);
      OldestLast(s.busy, s.queue);
      hide InStartOrder;
    } else {
      assert InStartOrder(s.busy) == [];
    }
  }

  lemma OldestLast(busy: seq<nat>, queue: seq<nat>)
    requires busy != []
    ensures InStartOrder(busy[1..]) + ([busy[0]] + queue) == InStartOrder(busy) + queue
  {
    assert InStartOrder(busy) == InStartOrder(busy[1..]) + [busy[0]];
  }

  lemma FirstGoes(s: seq<nat>)
    requires s != []
    ensures Without(s, s[0]) == s[1..]
  {
  }

  // Afterwards every tag is free, and the queue is the requests that were in
  // flight, in the order in which they were started, and then the old queue.
  lemma InvalidationRestoresOrder(s: State)
    requires Inv(s)
    ensures var t, n := Invalidated(s), |s.busy|;
            && t.busy == [] && t.tag == map[] && (forall i :: 0 <= i < |t.bits| ==> !t.bits[i])
            && |t.queue| == n + |s.queue| && t.queue[n..] == s.queue
            && (forall x :: x in t.queue[..n] <==> x in s.busy)
            && (forall i :: 0 <= i < n ==> t.queue[i] in s.began)
            && (forall i, j :: 0 <= i < j < n ==> s.began[t.queue[i]] < s.began[t.queue[j]])
  {
    hide Agree, Invalidated, InStartOrder, Placed;
    InvalidatedIs(s);
    Freed(Invalidated(s));
    NewestFirst(s);
    OldestFirst(s.busy, s.began);
    var r := InStartOrder(s.busy);
    assert (r + s.queue)[..|r|] == r && (r + s.queue)[|r|..] == s.queue;
  }

  lemma NewestFirst(s: State)
    requires Placed(s)
    ensures forall x :: x in s.busy ==> x in s.began
    ensures forall i, j :: 0 <= i < j < |s.busy| ==> s.began[s.busy[j]] < s.began[s.busy[i]]
  {
  }

  lemma OldestFirst(busy: seq<nat>, began: map<nat, nat>)
    requires forall x :: x in busy ==> x in began
    requires forall i, j :: 0 <= i < j < |busy| ==> began[busy[j]] < began[busy[i]]
    ensures var r := InStartOrder(busy);
            && (forall x :: x in r <==> x in busy)
            && (forall i, j :: 0 <= i < j < |r| ==> began[r[i]] < began[r[j]])
  {
    var r, n := InStartOrder(busy), |busy|;
    forall x | x in busy
      ensures x in r
    {
      var k :| 0 <= k < n && busy[k] == x;
      assert r[n - 1 - k] == x;
    }
  }

  lemma Freed(t: State)
    requires Agree(t) && t.busy == []
    ensures t.tag == map[] && forall i :: 0 <= i < |t.bits| ==> !t.bits[i]
  {
  }

  // ---------------------------------------------------------------- runs

  datatype Event =
    | Submit(x: nat)
    | Start(x: nat, sync: bool, inFlight: nat)
    | Complete(x: nat)
    | Requeue(x: nat)
    | Invalidate
    | Resize(depth: nat)

  ghost predicate Enabled(s: State, e: Event) {
    match e
    case Submit(x) => x !in s.queue && x !in s.busy
    case Start(x, sync, n) => x in s.queue
    case Complete(x) => x in s.busy
    case Requeue(x) => x in s.busy
    case Invalidate => true
    case Resize(d) => true
  }

  ghost function Next(s: State, e: Event): (t: State)
    requires Inv(s) && Enabled(s, e)
  {
    match e
    case Submit(x) => s.(queue := s.queue + [x])
    case Start(x, sync, n) => if Starts(s, sync, n) then Started(s, x, sync) else s
    case Complete(x) =>
      EndedInv(s, x);
      Ended(s, x)
    case Requeue(x) =>
      RequeuedInv(s, x);
      Requeued(s, x)
    case Invalidate => Invalidated(s)
    case Resize(d) => Resized(s, d)
  }

  lemma StepKeeps(s: State, e: Event)
    requires Inv(s) && Enabled(s, e)
    ensures Inv(Next(s, e))
  {
    hide Agree, Started, Ended, Requeued, Resized;
    match e
    case Submit(x) =>
      AgreeElsewhere(s, s.(queue := s.queue + [x]));
    case Start(x, sync, n) =>
      Sizes(s);
      if Starts(s, sync, n) {
        StartedAgrees(s, x, sync);
        StartedPlaced(s, x, sync);
      }
    case Complete(x) => EndedInv(s, x);
    case Requeue(x) => RequeuedInv(s, x);
    case Invalidate =>
    case Resize(d) => ResizedInv(s, d);
  }

  ghost predicate CanRun(s: State, es: seq<Event>)
    requires Inv(s)
    decreases |es|
  {
    es == [] || (Enabled(s, es[0]) && (StepKeeps(s, es[0]); CanRun(Next(s, es[0]), es[1..])))
  }

  ghost function Run(s: State, es: seq<Event>): (t: State)
    requires Inv(s) && CanRun(s, es)
    ensures Inv(t)
    decreases |es|
  {
    if es == [] then s else
      StepKeeps(s, es[0]);
      Run(Next(s, es[0]), es[1..])
  }

  function Init(depth: nat): State {
    State(depth, seq(depth, i => false), seq(depth, i => None), [], map[], [], map[], 0)
  }

  lemma InitInv(depth: nat)
    ensures Inv(Init(depth))
  {
  }

  ghost predicate CanReach(depth: nat, es: seq<Event>) { InitInv(depth); CanRun(Init(depth), es) }

  ghost function Reach(depth: nat, es: seq<Event>): (s: State)
    requires CanReach(depth, es)
    ensures Inv(s)
  {
    InitInv(depth); Run(Init(depth), es)
  }

  // Whatever happened since the map was set up, a busy request has a tag of its
  // own below the real depth, so ending it always frees a tag that is in use.
  lemma EndingFreesABusyTag(depth: nat, es: seq<Event>, x: nat)
    requires CanReach(depth, es) && x in Reach(depth, es).busy
    ensures var s := Reach(depth, es);
            && x in s.tag && s.tag[x] < |s.bits| && s.bits[s.tag[x]]
            && (forall y :: y in s.busy && y != x ==> y in s.tag && s.tag[y] != s.tag[x])
  {
    hide CanRun, Placed;
    var s := Reach(depth, es);
  }
}
