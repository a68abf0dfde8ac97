/** The B-WF2Q+ engine of common/block/bfq-sched.c in the flat configuration: one sched_data with one
    service tree per priority class.  Entities are numbered in the order of their creation.

    An active tree is represented by the set of entities that are on it (module BfqTree is about its
    shape and the choice of the next entity); an idle tree by its entities in tree order.  Times are
    unbounded here; module BfqTree relates them to wrapping 64-bit ones. */
module BfqSched {
  import opened SeqUtil

  const CLASSES: nat := 3
  const IOPRIO_BE_NR: nat := 8
  const MAX_WEIGHT: nat := 1000
  const BOOST_COEFF: nat := 10
  const BOOST_BUDGET: nat := 49152
  const SERVICE_SHIFT: nat := 4194304  // 1 << WFQ_SERVICE_SHIFT

  /** entity->tree. */
  datatype Place = Off | Active | Idle

  datatype Ent = Ent(
    start: int, finish: int, service: nat, budget: nat,
    weight: nat, newWeight: nat, origWeight: nat,
    ioprio: nat, newIoprio: nat, cls: nat, newCls: nat, changed: bool,
    boost: nat,       // bfqq->high_weight_budget
    onSt: bool, place: Place)

  datatype State = State(
    ents: seq<Ent>,
    inService: Option<nat>,
    idle: seq<seq<nat>>,          // per class, in tree order
    firstIdle: seq<Option<nat>>,
    lastIdle: seq<Option<nat>>,
    vtime: seq<int>,
    wsum: seq<int>,
    bug: bool)                    // a BUG_ON has fired, or a division by zero

  /** bfq_delta. */
  function Delta(service: nat, weight: nat): nat
    requires weight > 0
  {
    service * SERVICE_SHIFT / weight
  }

  predicate Shape(s: State) {
    && |s.idle| == CLASSES && |s.firstIdle| == CLASSES && |s.lastIdle| == CLASSES
    && |s.vtime| == CLASSES && |s.wsum| == CLASSES
    && (s.inService.Some? ==> s.inService.value < |s.ents|)
    && (forall i :: 0 <= i < |s.ents| ==> s.ents[i].cls < CLASSES && s.ents[i].newCls < CLASSES)
    && (forall c, k :: 0 <= c < CLASSES && 0 <= k < |s.idle[c]| ==> s.idle[c][k] < |s.ents|)
    && (forall c :: 0 <= c < CLASSES && s.firstIdle[c].Some? ==> s.firstIdle[c].value in s.idle[c])
    && (forall c :: 0 <= c < CLASSES && s.lastIdle[c].Some? ==> s.lastIdle[c].value in s.idle[c])
  }

  // ---------- weights ----------

  /** The new weight, original weight and priority that __bfq_entity_update_weight_prio gives. */
  function Reweighed(e: Ent): Ent {
    var coeff := 1 + e.boost * BOOST_COEFF / BOOST_BUDGET;
    var e1 :=
      if e.newWeight != e.origWeight then
        e.(origWeight := e.newWeight,
           ioprio := if e.newWeight > IOPRIO_BE_NR then 0 else IOPRIO_BE_NR - e.newWeight)
      else if e.newIoprio != e.ioprio then
        e.(ioprio := e.newIoprio, origWeight := if e.newIoprio < IOPRIO_BE_NR then IOPRIO_BE_NR - e.newIoprio else 0)
      else
        var w := if e.ioprio < IOPRIO_BE_NR then IOPRIO_BE_NR - e.ioprio else 0;
        e.(newWeight := w, origWeight := w);
    e1.(cls := e.newCls, changed := false, weight := e1.origWeight * coeff)
  }

  /** Values that the interfaces of the scheduler can store. */
  predicate InRange(e: Ent) {
    && e.newWeight <= MAX_WEIGHT && e.origWeight <= MAX_WEIGHT && e.ioprio <= IOPRIO_BE_NR && e.newIoprio < IOPRIO_BE_NR
    && e.boost <= BOOST_BUDGET && e.weight <= MAX_WEIGHT * (1 + BOOST_COEFF)
  }

  /** An update gives a weight that is usable and fits 16 bits, except when no weight was ever requested
      and yet an earlier update has set one; then the weight becomes zero. */
  lemma UpdateGivesWeight(e: Ent)
    requires InRange(e)
    ensures 1 <= Reweighed(e).weight <= 11000 < 65536 <==> !(e.newWeight == 0 && e.origWeight != 0)
    ensures InRange(Reweighed(e))
  {
    var coeff := 1 + e.boost * BOOST_COEFF / BOOST_BUDGET;
    assert 1 <= coeff <= 1 + BOOST_COEFF;
    Scaled(Reweighed(e).origWeight, coeff);
  }

  lemma Scaled(w: nat, coeff: nat)
    requires w <= MAX_WEIGHT && 1 <= coeff <= 1 + BOOST_COEFF
    ensures w <= w * coeff <= MAX_WEIGHT * (1 + BOOST_COEFF)
  {
  }

  /** The priority an entity takes on is the requested one exactly when no weight other than the one in use
      is on record, or that weight happens to mean the same priority. */
  lemma UpdateTakesPriority(e: Ent)
    requires InRange(e)
    ensures Reweighed(e).ioprio == e.newIoprio <==>
      e.newWeight == e.origWeight
      || (if e.newWeight > IOPRIO_BE_NR then 0 else IOPRIO_BE_NR - e.newWeight) == e.newIoprio
  {
  }

  /** A priority change is undone by the next update: it leaves the recorded weight behind, and the next
      update goes back to that. */
  lemma PriorityIsUndone(e: Ent, other: Ent)
    requires InRange(e) && e.newWeight == e.origWeight == IOPRIO_BE_NR - e.ioprio && e.ioprio < IOPRIO_BE_NR
    requires e.newIoprio != e.ioprio && other == Reweighed(e).(changed := true)
    ensures other.ioprio == e.newIoprio && Reweighed(other).ioprio == e.ioprio != Reweighed(other).newIoprio
  {
  }

  /** The next update of this entity gives it weight zero. */
  predicate Spoilt(e: Ent) { e.newWeight == 0 && e.origWeight != 0 }

  /** The entity has a weight, or will be updated before it is used. */
  predicate Weighed(e: Ent) { InRange(e) && (e.changed || e.weight >= 1) }

  lemma UpdateWeighs(e: Ent)
    requires Weighed(e)
    ensures Weighed(Reweighed(e)) || Spoilt(e)
    ensures Reweighed(e).weight >= 1 <==> !Spoilt(e)
  {
    UpdateGivesWeight(e);
  }

  // ---------- sums of weights ----------

  function Share(e: Ent, c: nat): nat { if e.onSt && e.cls == c then e.weight else 0 }

  function SumW(es: seq<Ent>, c: nat): nat {
    if es == [] then 0 else Share(es[0], c) + SumW(es[1..], c)
  }

  lemma {:induction false} SumUpdate(es: seq<Ent>, i: nat, e: Ent, c: nat)
    requires i < |es|
    ensures SumW(es[i := e], c) == SumW(es, c) - Share(es[i], c) + Share(e, c)
  {
    if i == 0 {
      assert es[i := e][1..] == es[1..];
    } else {
      SumUpdate(es[1..], i - 1, e, c);
      assert es[i := e][1..] == es[1..][i - 1 := e];
    }
  }

  lemma {:induction false} SumAtLeast(es: seq<Ent>, i: nat, c: nat)
    requires i < |es|
    ensures Share(es[i], c) <= SumW(es, c)
  {
    if i > 0 {
      SumAtLeast(es[1..], i - 1, c);
    }
  }

  lemma {:induction false} SumAppend(es: seq<Ent>, e: Ent, c: nat)
    ensures SumW(es + [e], c) == SumW(es, c) + Share(e, c)
  {
    if es == [] {
      assert es + [e] == [e] && [e][1..] == [];
    } else {
      assert (es + [e])[1..] == es[1..] + [e];
      SumAppend(es[1..], e, c);
    }
  }

  // ---------- idle trees ----------

  /** bfq_insert into an idle tree: behind its equals. */
  function InsertIdle(es: seq<Ent>, l: seq<nat>, i: nat): (r: seq<nat>)
    requires i < |es| && forall k :: 0 <= k < |l| ==> l[k] < |es|
    ensures forall x :: x in r <==> x in l || x == i
    ensures |r| == |l| + 1
  {
    if l == [] then [i]
    else if es[l[0]].finish > es[i].finish then [i] + l
    else [l[0]] + InsertIdle(es, l[1..], i)
  }

  /** bfq_idle_insert. */
  function IdleInsert(s: State, i: nat): State
    requires Shape(s) && i < |s.ents|
  {
    var c := s.ents[i].cls;
    var f, l := s.firstIdle[c], s.lastIdle[c];
    var first := if f.None? || s.ents[f.value].finish > s.ents[i].finish then Some(i) else f;
    var last := if l.None? || s.ents[i].finish > s.ents[l.value].finish then Some(i) else l;
    s.(firstIdle := s.firstIdle[c := first], lastIdle := s.lastIdle[c := last],
       idle := s.idle[c := InsertIdle(s.ents, s.idle[c], i)],
       ents := s.ents[i := s.ents[i].(place := Idle)])
  }

  /** bfq_idle_extract: the caches move to the neighbours. */
  function IdleExtract(s: State, i: nat): State
    requires Shape(s) && i < |s.ents| && i in s.idle[s.ents[i].cls]
  {
    var c := s.ents[i].cls;
    var l := s.idle[c];
    var k := IndexOf(l, i);
    var next := if k + 1 < |l| then Some(l[k + 1]) else None;
    var prev := if k > 0 then Some(l[k - 1]) else None;
    s.(firstIdle := if s.firstIdle[c] == Some(i) then s.firstIdle[c := next] else s.firstIdle,
       lastIdle := if s.lastIdle[c] == Some(i) then s.lastIdle[c := prev] else s.lastIdle,
       idle := s.idle[c := Without(l, i)],
       ents := s.ents[i := s.ents[i].(place := Off)])
  }

  // ---------- invariants ----------

  ghost predicate ByFinish(es: seq<Ent>, l: seq<nat>) {
    && (forall k :: 0 <= k < |l| ==> l[k] < |es|)
    && (forall j, k :: 0 <= j < k < |l| ==> es[l[j]].finish <= es[l[k]].finish)
  }

  /** The idle tree of class `c` holds exactly the entities that say so, in order of finish time. */
  ghost predicate IdleList(es: seq<Ent>, l: seq<nat>, c: nat) {
    && Distinct(l) && ByFinish(es, l)
    && (forall k :: 0 <= k < |l| ==> es[l[k]].place == Idle && es[l[k]].cls == c)
    && (forall i :: 0 <= i < |es| && es[i].place == Idle && es[i].cls == c ==> i in l)
  }

  ghost predicate IdleOk(s: State)
    requires Shape(s)
  {
    forall c :: 0 <= c < CLASSES ==> IdleList(s.ents, s.idle[c], c)
  }

  /** first_idle is the first entity of the idle tree.  (last_idle is one of its entities, or null: that
      much is part of Shape.) */
  ghost predicate CachesOk(s: State)
    requires Shape(s)
  {
    forall c :: 0 <= c < CLASSES ==> s.firstIdle[c] == if s.idle[c] == [] then None else Some(s.idle[c][0])
  }

  ghost predicate Summed(s: State)
    requires Shape(s)
  {
    forall c :: 0 <= c < CLASSES ==> s.wsum[c] == SumW(s.ents, c)
  }

  /** On a service tree means: in exactly one of the active tree, the idle tree, or service. */
  predicate PlacedEnt(e: Ent, serving: bool) {
    (e.onSt <==> e.place != Off || serving) && !(e.place != Off && serving)
  }

  ghost predicate Placed(s: State, but: int) {
    forall i :: 0 <= i < |s.ents| && i != but ==> PlacedEnt(s.ents[i], s.inService == Some(i))
  }

  ghost predicate WeightsOk(s: State, but: int) {
    forall i :: 0 <= i < |s.ents| ==> Weighed(s.ents[i]) && (i != but && s.ents[i].onSt ==> s.ents[i].weight >= 1)
  }

  /** The invariant, except that entity `but` may be on its way from one place to another. */
  ghost predicate InvBut(s: State, but: int) {
    && Shape(s) && IdleOk(s) && CachesOk(s) && Summed(s) && Placed(s, but) && WeightsOk(s, but) && !s.bug
    && (0 <= but < |s.ents| ==> s.ents[but].onSt && s.ents[but].place == Off && s.inService != Some(but))
  }

  ghost predicate Inv(s: State) { InvBut(s, -1) }

  lemma Wide(s: State)
    requires Inv(s)
    ensures Shape(s) && |s.vtime| == CLASSES && |s.wsum| == CLASSES
  {
  }

  // ---------- lists under change ----------

  lemma ChangeElsewhere(es: seq<Ent>, l: seq<nat>, c: nat, i: nat, e: Ent)
    requires i < |es| && IdleList(es, l, c) && i !in l && !(e.place == Idle && e.cls == c)
    ensures IdleList(es[i := e], l, c)
  {
  }

  lemma {:induction false} InsertKeepsSorted(es: seq<Ent>, l: seq<nat>, i: nat)
    requires i < |es| && ByFinish(es, l) && Distinct(l) && i !in l
    ensures ByFinish(es, InsertIdle(es, l, i)) && Distinct(InsertIdle(es, l, i))
  {
    var r := InsertIdle(es, l, i);
    if l == [] {
    } else if es[l[0]].finish > es[i].finish {
      assert r == [i] + l;
    } else {
      InsertKeepsSorted(es, l[1..], i);
      var t := InsertIdle(es, l[1..], i);
      assert r == [l[0]] + t;
      forall k | 0 <= k < |t| ensures es[l[0]].finish <= es[t[k]].finish && l[0] != t[k] {
        assert t[k] in t;
        if t[k] != i {
          var j :| 0 <= j < |l[1..]| && l[1..][j] == t[k];
          assert l[j + 1] == t[k];
        }
      }
    }
  }

  lemma {:induction false} InsertIgnoresPlace(es: seq<Ent>, fs: seq<Ent>, l: seq<nat>, i: nat)
    requires i < |es| && |fs| == |es| && forall k :: 0 <= k < |l| ==> l[k] < |es|
    requires forall k :: 0 <= k < |es| ==> es[k].finish == fs[k].finish
    ensures InsertIdle(es, l, i) == InsertIdle(fs, l, i)
  {
    if l != [] && es[l[0]].finish <= es[i].finish {
      InsertIgnoresPlace(es, fs, l[1..], i);
    }
  }

  lemma InsertKeepsList(es: seq<Ent>, l: seq<nat>, i: nat)
    requires i < |es| && IdleList(es, l, es[i].cls) && i !in l
    ensures IdleList(es[i := es[i].(place := Idle)], InsertIdle(es, l, i), es[i].cls)
  {
    var r := InsertIdle(es, l, i);
    InsertKeepsSorted(es, l, i);
    forall k | 0 <= k < |r| ensures r[k] == i || r[k] in l {
      assert r[k] in r;
    }
  }

  lemma WithoutByFinish(es: seq<Ent>, l: seq<nat>, i: nat)
    requires i in l && ByFinish(es, l)
    ensures ByFinish(es, Without(l, i))
  {
  }

  lemma RemoveKeepsList(es: seq<Ent>, l: seq<nat>, i: nat, e: Ent)
    requires i < |es| && IdleList(es, l, es[i].cls) && i in l && e.place != Idle
    ensures IdleList(es[i := e], Without(l, i), es[i].cls)
    ensures i !in Without(l, i) && forall x :: x in Without(l, i) ==> x in l
  {
    WithoutKeeps(l, i);
    WithoutByFinish(es, l, i);
    hide Without, Distinct;
    var r := Without(l, i);
    forall k | 0 <= k < |r| ensures r[k] in l && r[k] != i {
      assert r[k] in r;
    }
  }

  // ---------- operations ----------

  /** The finish time bfq_calc_finish gives, and whether its BUG_ON fires. */
  function CalcFinish(e: Ent, service: nat): (r: (Ent, bool))
    ensures r.0 == e.(finish := r.0.finish) && (r.1 <==> e.weight == 0)
  {
    if e.weight == 0 then (e, true) else (e.(finish := e.start + Delta(service, e.weight)), false)
  }

  function Put(s: State, i: nat, e: Ent): State
    requires i < |s.ents|
  {
    s.(ents := s.ents[i := e])
  }

  /** __bfq_entity_update_weight_prio. */
  function UpdateWeight(s: State, i: nat): State
    requires Shape(s) && i < |s.ents|
  {
    var e := s.ents[i];
    if !e.changed then s
    else
      var e1 := Reweighed(e);
      var w := s.wsum[e.cls := s.wsum[e.cls] - e.weight];
      var e2 := if e1.cls != e.cls then e1.(start := s.vtime[e1.cls]) else e1;
      Put(s, i, e2).(wsum := w[e1.cls := w[e1.cls] + e1.weight], bug := s.bug || s.wsum[e.cls] < e.weight)
  }

  predicate OnIdleTree(s: State, i: nat)
    requires Shape(s) && i < |s.ents|
  {
    s.ents[i].place == Idle ==> i in s.idle[s.ents[i].cls]
  }

  /** The first part of __bfq_activate_entity: off whatever tree it was on, with its start time. */
  function Detach(s: State, i: nat): State
    requires Shape(s) && i < |s.ents| && OnIdleTree(s, i)
  {
    var e := s.ents[i];
    if s.inService == Some(i) then
      var (e1, b) := CalcFinish(e, e.service);
      Put(s, i, e1.(start := e1.finish)).(inService := None, bug := s.bug || b || e.place != Off)
    else if e.place == Active then
      Put(s, i, e.(place := Off))
    else if e.place == Idle then
      var s1 := IdleExtract(s, i);
      Put(s1, i, s1.ents[i].(start := if s.vtime[e.cls] > e.finish then s.vtime[e.cls] else e.finish))
    else
      Put(s, i, e.(start := s.vtime[e.cls], onSt := true))
        .(wsum := s.wsum[e.cls := s.wsum[e.cls] + e.weight], bug := s.bug || e.onSt)
  }

  /** The last part of __bfq_activate_entity. */
  function Attach(s: State, i: nat): State
    requires i < |s.ents|
  {
    var (e, b) := CalcFinish(s.ents[i], s.ents[i].budget);
    Put(s, i, e.(place := Active)).(bug := s.bug || b)
  }

  // ---------- what they keep ----------

  /** Moving an entity that is on no idle tree, with the sum of its class adjusted. */
  lemma PutKeeps(s: State, i: nat, e: Ent)
    requires Shape(s) && IdleOk(s) && CachesOk(s) && i < |s.ents| && s.ents[i].place != Idle && e.place != Idle
    requires e.cls < CLASSES && e.newCls < CLASSES
    ensures Shape(Put(s, i, e)) && IdleOk(Put(s, i, e)) && CachesOk(Put(s, i, e))
  {
    var s' := Put(s, i, e);
    forall c | 0 <= c < CLASSES ensures IdleList(s'.ents, s'.idle[c], c) {
      assert IdleList(s.ents, s.idle[c], c);
      assert i !in s.idle[c];
      ChangeElsewhere(s.ents, s.idle[c], c, i, e);
    }
  }

  lemma PutSums(s: State, i: nat, e: Ent)
    requires Shape(s) && Summed(s) && i < |s.ents|
    ensures forall c :: 0 <= c < CLASSES ==>
      SumW(s.ents[i := e], c) == s.wsum[c] - Share(s.ents[i], c) + Share(e, c)
  {
    forall c | 0 <= c < CLASSES
      ensures SumW(s.ents[i := e], c) == s.wsum[c] - Share(s.ents[i], c) + Share(e, c)
    {
      SumUpdate(s.ents, i, e, c);
    }
  }

  lemma AttachKeeps(s: State, i: nat)
    requires i < |s.ents| && InvBut(s, i) && s.ents[i].weight >= 1
    ensures Inv(Attach(s, i))
  {
    var e := CalcFinish(s.ents[i], s.ents[i].budget).0.(place := Active);
    PutKeeps(s, i, e);
    PutSums(s, i, e);
  }

  /** An update is due that gives the entity weight zero. */
  predicate FatalUpdate(e: Ent) { e.changed && Spoilt(e) }

  lemma UpdateKeeps(s: State, i: nat)
    requires i < |s.ents| && InvBut(s, i) && !FatalUpdate(s.ents[i])
    ensures InvBut(UpdateWeight(s, i), i) && UpdateWeight(s, i).ents[i].weight >= 1
  {
    var e := s.ents[i];
    if e.changed {
      UpdateWeighs(e);
      SumAtLeast(s.ents, i, e.cls);
      var e2 := UpdateWeight(s, i).ents[i];
      PutKeeps(s, i, e2);
      PutSums(s, i, e2);
    }
  }

  /** Taking an entity off its idle tree. */
  lemma IdleExtractShape(s: State, i: nat)
    requires Shape(s) && IdleOk(s) && CachesOk(s) && i < |s.ents| && s.ents[i].place == Idle
    ensures i in s.idle[s.ents[i].cls]
    ensures Shape(IdleExtract(s, i)) && IdleOk(IdleExtract(s, i)) && CachesOk(IdleExtract(s, i))
  {
    hide Distinct, ByFinish, Without, IndexOf;
    var c := s.ents[i].cls;
    var l := s.idle[c];
    assert IdleList(s.ents, l, c);
    var k := IndexOf(l, i);
    var s' := IdleExtract(s, i);
    var e := s'.ents[i];
    RemoveKeepsList(s.ents, l, i, e);
    forall d | 0 <= d < CLASSES && d != c ensures IdleList(s'.ents, s'.idle[d], d) {
      assert IdleList(s.ents, s.idle[d], d);
      ChangeElsewhere(s.ents, s.idle[d], d, i, e);
    }
    var r := Without(l, i);
    forall j | 0 <= j < |r| ensures r[j] < |s.ents| {
      assert r[j] in r;
    }
    FirstAfterRemoval(l, i);
    CacheAfterRemoval(l, i, s.lastIdle[c], s'.lastIdle[c]);
    assert s.firstIdle[c] == Some(l[0]);
  }

  lemma FirstAfterRemoval(l: seq<nat>, i: nat)
    requires Distinct(l) && i in l
    ensures
      var r, k := Without(l, i), IndexOf(l, i);
      (if r == [] then None else Some(r[0]))
      == if l[0] == i then (if k + 1 < |l| then Some(l[k + 1]) else None) else Some(l[0])
  {
  }

  lemma CacheAfterRemoval(l: seq<nat>, i: nat, last: Option<nat>, last': Option<nat>)
    requires Distinct(l) && i in l && (last.Some? ==> last.value in l)
    requires last' == if last == Some(i) then (if IndexOf(l, i) > 0 then Some(l[IndexOf(l, i) - 1]) else None) else last
    ensures last'.Some? ==> last'.value in Without(l, i)
  {
    var k := IndexOf(l, i);
    var r := Without(l, i);
    if last'.Some? {
      var j :| 0 <= j < |l| && l[j] == last'.value;
      assert r[if j < k then j else j - 1] == last'.value;
    }
  }

  lemma IdleExtractKeeps(s: State, i: nat)
    requires Inv(s) && i < |s.ents| && s.ents[i].place == Idle
    ensures i in s.idle[s.ents[i].cls] && InvBut(IdleExtract(s, i), i)
  {
    IdleExtractShape(s, i);
    PutSums(s, i, s.ents[i].(place := Off));
  }

  /** Changing the times of an entity in transit. */
  lemma RetimeKeeps(s: State, i: nat, start: int, finish: int)
    requires i < |s.ents| && InvBut(s, i)
    ensures InvBut(Put(s, i, s.ents[i].(start := start, finish := finish)), i)
  {
    var e := s.ents[i].(start := start, finish := finish);
    PutKeeps(s, i, e);
    PutSums(s, i, e);
  }

  lemma OffActiveKeeps(s: State, i: nat)
    requires Inv(s) && i < |s.ents| && s.ents[i].place == Active
    ensures InvBut(Put(s, i, s.ents[i].(place := Off)), i)
  {
    var e := s.ents[i].(place := Off);
    PutKeeps(s, i, e);
    PutSums(s, i, e);
  }

  lemma OffServiceKeeps(s: State, i: nat)
    requires Inv(s) && i < |s.ents| && s.inService == Some(i)
    ensures InvBut(s.(inService := None), i)
  {
  }

  lemma JoinKeeps(s: State, i: nat)
    requires Inv(s) && i < |s.ents| && !s.ents[i].onSt
    ensures InvBut(Detach(s, i), i)
  {
    var e := s.ents[i];
    var e' := e.(start := s.vtime[e.cls], onSt := true);
    PutKeeps(s, i, e');
    PutSums(s, i, e');
  }

  lemma IdleIsListed(s: State, i: nat)
    requires Shape(s) && IdleOk(s) && i < |s.ents|
    ensures OnIdleTree(s, i)
  {
    assert IdleList(s.ents, s.idle[s.ents[i].cls], s.ents[i].cls);
  }

  /** The entity in service, with new times and out of service. */
  lemma ServedKeeps(s: State, i: nat, start: int, finish: int)
    requires Inv(s) && i < |s.ents| && s.inService == Some(i)
    ensures s.ents[i].place == Off && s.ents[i].weight >= 1
    ensures InvBut(Put(s, i, s.ents[i].(start := start, finish := finish)).(inService := None), i)
  {
    OffServiceKeeps(s, i);
    RetimeKeeps(s.(inService := None), i, start, finish);
  }

  lemma DetachKeeps(s: State, i: nat)
    requires Inv(s) && i < |s.ents|
    ensures OnIdleTree(s, i) && InvBut(Detach(s, i), i)
  {
    IdleIsListed(s, i);
    var e := s.ents[i];
    if s.inService == Some(i) {
      var f := CalcFinish(e, e.service).0.finish;
      ServedKeeps(s, i, f, f);
    } else if e.place == Active {
      OffActiveKeeps(s, i);
    } else if e.place == Idle {
      IdleExtractKeeps(s, i);
      var s1 := IdleExtract(s, i);
      RetimeKeeps(s1, i, if s.vtime[e.cls] > e.finish then s.vtime[e.cls] else e.finish, e.finish);
    } else {
      JoinKeeps(s, i);
    }
  }

  /** __bfq_activate_entity. */
  function Activate(s: State, i: nat): State
    requires Shape(s) && i < |s.ents| && OnIdleTree(s, i) && Shape(Detach(s, i))
  {
    Attach(UpdateWeight(Detach(s, i), i), i)
  }

  lemma ReweighedOnly(e: Ent)
    ensures var r := Reweighed(e);
            && r == e.(weight := r.weight, newWeight := r.newWeight, origWeight := r.origWeight, ioprio := r.ioprio,
                       cls := e.newCls, changed := false)
  {
  }

  lemma ReweighedAlike(e: Ent, f: Ent)
    requires f == e.(start := f.start, finish := f.finish, onSt := f.onSt, place := f.place)
    ensures Reweighed(f) == Reweighed(e).(start := f.start, finish := f.finish, onSt := f.onSt, place := f.place)
  {
  }

  lemma DetachedOnly(s: State, i: nat)
    requires Shape(s) && i < |s.ents| && OnIdleTree(s, i)
    requires s.inService == Some(i) || !s.ents[i].onSt ==> s.ents[i].place == Off
    ensures
      var d := Detach(s, i);
      && |d.ents| == |s.ents| && d.vtime == s.vtime
      && d.ents == s.ents[i := s.ents[i].(start := d.ents[i].start, finish := d.ents[i].finish,
                                          onSt := d.ents[i].onSt, place := Off)]
  {
  }

  lemma UpdatedOnly(s: State, i: nat)
    requires Shape(s) && i < |s.ents|
    ensures
      var u := UpdateWeight(s, i);
      && |u.ents| == |s.ents| && u.vtime == s.vtime && u.inService == s.inService && u.idle == s.idle
      && u.lastIdle == s.lastIdle
      && u.ents == s.ents[i := (if s.ents[i].changed then Reweighed(s.ents[i])
                                else s.ents[i]).(start := u.ents[i].start)]
  {
    ReweighedOnly(s.ents[i]);
    hide Reweighed;
  }

  /** Activation gives an entity whose priority values are to be updated the weight of that update, whatever
      tree it was on and also in service; the BUG_ON of bfq_calc_finish fires exactly if that weight is zero. */
  lemma ActivationWeighs(s: State, i: nat)
    requires Inv(s) && i < |s.ents|
    ensures OnIdleTree(s, i) && Shape(Detach(s, i)) && |Activate(s, i).ents| == |s.ents|
    ensures
      var e, r := Activate(s, i).ents[i], if s.ents[i].changed then Reweighed(s.ents[i]) else s.ents[i];
      && e == r.(start := e.start, finish := e.finish, onSt := e.onSt, place := Active)
      && (Activate(s, i).bug <==> r.weight == 0)
      && (r.weight == 0 <==> FatalUpdate(s.ents[i]))
      && (r.weight > 0 ==> e.finish == e.start + Delta(e.budget, e.weight))
  {
    DetachKeeps(s, i);
    DetachedOnly(s, i);
    var d := Detach(s, i);
    UpdatedOnly(d, i);
    ReweighedAlike(s.ents[i], d.ents[i]);
    UpdateWeighs(s.ents[i]);
    NoBugYet(d, i);
    hide Detach, UpdateWeight, Reweighed;
  }

  lemma NoBugYet(s: State, i: nat)
    requires i < |s.ents| && InvBut(s, i)
    ensures !UpdateWeight(s, i).bug
  {
    SumAtLeast(s.ents, i, s.ents[i].cls);
  }

  lemma ActivateKeeps(s: State, i: nat)
    requires Inv(s) && i < |s.ents|
    ensures OnIdleTree(s, i) && Shape(Detach(s, i))
    ensures Inv(Activate(s, i)) <==> !FatalUpdate(s.ents[i])
  {
    DetachKeeps(s, i);
    DetachedOnly(s, i);
    ActivationWeighs(s, i);
    hide Detach, UpdateWeight;
    if !FatalUpdate(s.ents[i]) {
      UpdateKeeps(Detach(s, i), i);
      AttachKeeps(UpdateWeight(Detach(s, i), i), i);
    }
  }

  // ---------- leaving ----------

  /** bfq_forget_entity. */
  function ForgetEntity(s: State, i: nat): State
    requires Shape(s) && i < |s.ents|
  {
    var e := s.ents[i];
    Put(s, i, e.(onSt := false)).(wsum := s.wsum[e.cls := s.wsum[e.cls] - e.weight], bug := s.bug || !e.onSt)
  }

  lemma ForgetKeeps(s: State, i: nat)
    requires i < |s.ents| && InvBut(s, i) && s.ents[i].weight >= 1
    ensures Inv(ForgetEntity(s, i))
  {
    var e := s.ents[i].(onSt := false);
    PutKeeps(s, i, e);
    PutSums(s, i, e);
  }

  lemma IdleInsertShape(s: State, i: nat)
    requires Shape(s) && IdleOk(s) && CachesOk(s) && i < |s.ents| && s.ents[i].place == Off
    ensures Shape(IdleInsert(s, i)) && IdleOk(IdleInsert(s, i)) && CachesOk(IdleInsert(s, i))
  {
    hide Distinct, ByFinish, InsertIdle;
    var c := s.ents[i].cls;
    var l := s.idle[c];
    var s' := IdleInsert(s, i);
    assert IdleList(s.ents, l, c);
    assert i !in l;
    InsertKeepsList(s.ents, l, i);
    FirstAfterInsert(s.ents, l, i);
    forall d | 0 <= d < CLASSES && d != c ensures IdleList(s'.ents, s'.idle[d], d) {
      assert IdleList(s.ents, s.idle[d], d);
      ChangeElsewhere(s.ents, s.idle[d], d, i, s'.ents[i]);
    }
    forall k | 0 <= k < |s'.idle[c]| ensures s'.idle[c][k] < |s.ents| {
      assert s'.idle[c][k] in s'.idle[c];
    }
  }

  lemma FirstAfterInsert(es: seq<Ent>, l: seq<nat>, i: nat)
    requires i < |es| && forall k :: 0 <= k < |l| ==> l[k] < |es|
    ensures InsertIdle(es, l, i)[0] == if l == [] || es[l[0]].finish > es[i].finish then i else l[0]
  {
  }

  lemma IdleInsertKeeps(s: State, i: nat)
    requires i < |s.ents| && InvBut(s, i) && s.ents[i].weight >= 1
    ensures Inv(IdleInsert(s, i))
  {
    IdleInsertShape(s, i);
    PutSums(s, i, s.ents[i].(place := Idle));
  }

  /** The first part of __bfq_deactivate_entity, for an entity on a service tree. */
  function Withdraw(s: State, i: nat): State
    requires Shape(s) && i < |s.ents| && OnIdleTree(s, i)
  {
    var e := s.ents[i];
    if s.inService == Some(i) then
      var (e1, b) := CalcFinish(e, e.service);
      Put(s, i, e1).(inService := None, bug := s.bug || b || e.place != Off)
    else if e.place == Active then Put(s, i, e.(place := Off))
    else if e.place == Idle then IdleExtract(s, i)
    else s
  }

  lemma WithdrawKeeps(s: State, i: nat)
    requires Inv(s) && i < |s.ents| && s.ents[i].onSt
    ensures OnIdleTree(s, i) && InvBut(Withdraw(s, i), i) && Withdraw(s, i).ents[i].weight >= 1
  {
    IdleIsListed(s, i);
    var e := s.ents[i];
    if s.inService == Some(i) {
      ServedKeeps(s, i, e.start, CalcFinish(e, e.service).0.finish);
    } else if e.place == Active {
      OffActiveKeeps(s, i);
    } else {
      IdleExtractKeeps(s, i);
    }
  }

  /** __bfq_deactivate_entity. */
  function Deactivate(s: State, i: nat, requeue: bool): State
    requires Shape(s) && i < |s.ents| && OnIdleTree(s, i) && Shape(Withdraw(s, i))
  {
    if !s.ents[i].onSt then s
    else
      var s1 := Withdraw(s, i);
      if !requeue || s1.ents[i].finish <= s1.vtime[s1.ents[i].cls] then ForgetEntity(s1, i) else IdleInsert(s1, i)
  }

  lemma DeactivateKeeps(s: State, i: nat, requeue: bool)
    requires Inv(s) && i < |s.ents|
    ensures OnIdleTree(s, i) && Shape(Withdraw(s, i)) && Inv(Deactivate(s, i, requeue))
  {
    IdleIsListed(s, i);
    if s.ents[i].onSt {
      WithdrawKeeps(s, i);
      var s1 := Withdraw(s, i);
      if !requeue || s1.ents[i].finish <= s1.vtime[s1.ents[i].cls] {
        ForgetKeeps(s1, i);
      } else {
        IdleInsertKeeps(s1, i);
      }
    }
  }

  // ---------- time ----------

  predicate NoneActive(s: State, c: nat) {
    forall i :: 0 <= i < |s.ents| ==> !(s.ents[i].place == Active && s.ents[i].cls == c)
  }

  /** The virtual time after the first test of bfq_forget_idle. */
  function PulledVtime(s: State, c: nat): int
    requires Shape(s) && c < CLASSES
  {
    var last := s.lastIdle[c];
    if NoneActive(s, c) && last.Some? && s.ents[last.value].finish <= s.vtime[c] then s.ents[last.value].finish
    else s.vtime[c]
  }

  lemma VtimeKeeps(s: State, c: nat, v: int)
    requires Inv(s) && c < CLASSES
    ensures Inv(s.(vtime := s.vtime[c := v]))
  {
  }

  lemma FirstIsIdle(s: State, c: nat)
    requires Inv(s) && c < CLASSES && s.firstIdle[c].Some?
    ensures s.firstIdle[c].value < |s.ents| && s.ents[s.firstIdle[c].value].place == Idle
    ensures s.ents[s.firstIdle[c].value].cls == c
  {
    assert IdleList(s.ents, s.idle[c], c);
  }

  /** bfq_put_idle_entity. */
  ghost function PutIdle(s: State, i: nat): State
    requires Inv(s) && i < |s.ents| && s.ents[i].place == Idle
  {
    IdleExtractKeeps(s, i);
    ForgetEntity(IdleExtract(s, i), i)
  }

  lemma PutIdleKeeps(s: State, i: nat)
    requires Inv(s) && i < |s.ents| && s.ents[i].place == Idle
    ensures Inv(PutIdle(s, i))
  {
    IdleExtractKeeps(s, i);
    ForgetKeeps(IdleExtract(s, i), i);
  }

  lemma PutIdleFrame(s: State, i: nat)
    requires Inv(s) && i < |s.ents| && s.ents[i].place == Idle
    ensures PutIdle(s, i).ents == s.ents[i := s.ents[i].(place := Off, onSt := false)]
    ensures PutIdle(s, i).vtime == s.vtime && PutIdle(s, i).inService == s.inService
  {
    IdleExtractKeeps(s, i);
  }

  /** bfq_forget_idle. */
  ghost function ForgetIdle(s: State, c: nat): State
    requires Inv(s) && c < CLASSES
  {
    VtimeKeeps(s, c, PulledVtime(s, c));
    var s1 := s.(vtime := s.vtime[c := PulledVtime(s, c)]);
    var first := s1.firstIdle[c];
    if first.Some? && s1.ents[first.value].finish <= s1.vtime[c] then
      FirstIsIdle(s1, c);
      PutIdle(s1, first.value)
    else s1
  }

  lemma ForgetIdleKeeps(s: State, c: nat)
    requires Inv(s) && c < CLASSES
    ensures Inv(ForgetIdle(s, c))
  {
    VtimeKeeps(s, c, PulledVtime(s, c));
    var s1 := s.(vtime := s.vtime[c := PulledVtime(s, c)]);
    var first := s1.firstIdle[c];
    if first.Some? && s1.ents[first.value].finish <= s1.vtime[c] {
      FirstIsIdle(s1, c);
      PutIdleKeeps(s1, first.value);
    }
  }

  /** It touches nothing but idle entities and the virtual time. */
  lemma ForgetIdleFrame(s: State, c: nat)
    requires Inv(s) && c < CLASSES
    ensures |ForgetIdle(s, c).ents| == |s.ents| && ForgetIdle(s, c).inService == s.inService
    ensures ForgetIdle(s, c).vtime == s.vtime[c := PulledVtime(s, c)]
    ensures forall i :: 0 <= i < |s.ents| && s.ents[i].place != Idle ==> ForgetIdle(s, c).ents[i] == s.ents[i]
    ensures forall i :: 0 <= i < |s.ents| && s.ents[i].place == Idle ==> ForgetIdle(s, c).ents[i].place != Active
  {
    VtimeKeeps(s, c, PulledVtime(s, c));
    var s1 := s.(vtime := s.vtime[c := PulledVtime(s, c)]);
    var first := s1.firstIdle[c];
    if first.Some? && s1.ents[first.value].finish <= s1.vtime[c] {
      FirstIsIdle(s1, c);
      PutIdleFrame(s1, first.value);
      assert ForgetIdle(s, c) == PutIdle(s1, first.value);
    } else {
      assert ForgetIdle(s, c) == s1;
    }
  }

  /** `m` is the least start time of the active entities of class `c`. */
  ghost predicate LeastStart(s: State, c: nat, m: int) {
    && (exists i :: 0 <= i < |s.ents| && s.ents[i].place == Active && s.ents[i].cls == c && s.ents[i].start == m)
    && (forall i :: 0 <= i < |s.ents| && s.ents[i].place == Active && s.ents[i].cls == c ==> m <= s.ents[i].start)
  }

  /** bfq_update_vtime, for a tree whose root caches `m`. */
  ghost function UpdateVtime(s: State, c: nat, m: int): State
    requires Inv(s) && c < CLASSES
  {
    if m > s.vtime[c] then
      VtimeKeeps(s, c, m);
      ForgetIdle(s.(vtime := s.vtime[c := m]), c)
    else s
  }

  /** After bfq_update_vtime some active entity is eligible, and the virtual time has not gone back. */
  lemma UpdateVtimeKeeps(s: State, c: nat, m: int)
    requires Inv(s) && c < CLASSES && LeastStart(s, c, m)
    ensures Inv(UpdateVtime(s, c, m)) && UpdateVtime(s, c, m).inService == s.inService
    ensures m <= UpdateVtime(s, c, m).vtime[c] && s.vtime[c] <= UpdateVtime(s, c, m).vtime[c]
    ensures |UpdateVtime(s, c, m).ents| == |s.ents|
    ensures forall i :: 0 <= i < |s.ents| && s.ents[i].place == Active ==> UpdateVtime(s, c, m).ents[i] == s.ents[i]
  {
    if m > s.vtime[c] {
      VtimeKeeps(s, c, m);
      var s1 := s.(vtime := s.vtime[c := m]);
      ForgetIdleKeeps(s1, c);
      ForgetIdleFrame(s1, c);
      assert !NoneActive(s1, c);
    }
  }

  /** bfq_lookup_next_entity and bfq_get_next_queue, when the walk of the active tree returns entity `i`. */
  ghost function Select(s: State, i: nat, m: int): State
    requires Inv(s) && i < |s.ents| && LeastStart(s, s.ents[i].cls, m)
  {
    var c := s.ents[i].cls;
    UpdateVtimeKeeps(s, c, m);
    var s1 := UpdateVtime(s, c, m);
    Put(s1, i, s1.ents[i].(place := Off, service := 0)).(inService := Some(i))
  }

  lemma SelectKeeps(s: State, i: nat, m: int)
    requires Inv(s) && s.inService.None? && i < |s.ents| && s.ents[i].place == Active && LeastStart(s, s.ents[i].cls, m)
    ensures Inv(Select(s, i, m))
  {
    var c := s.ents[i].cls;
    UpdateVtimeKeeps(s, c, m);
    var s1 := UpdateVtime(s, c, m);
    var e := s1.ents[i].(place := Off, service := 0);
    PutKeeps(s1, i, e);
    PutSums(s1, i, e);
  }

  /** The part of bfq_bfqq_served before bfq_forget_idle; the virtual time advances by `dv`. */
  function Served(s: State, amount: nat, dv: nat): State
    requires Shape(s) && s.inService.Some?
  {
    var i := s.inService.value;
    var e := s.ents[i];
    Put(s, i, e.(service := e.service + amount))
      .(bug := s.bug || s.wsum[e.cls] <= 0, vtime := s.vtime[e.cls := s.vtime[e.cls] + dv])
  }

  lemma ServiceKeeps(s: State, service: nat, v: int)
    requires Inv(s) && s.inService.Some?
    ensures
      var i := s.inService.value;
      && s.wsum[s.ents[i].cls] > 0
      && Inv(Put(s, i, s.ents[i].(service := service)).(vtime := s.vtime[s.ents[i].cls := v]))
  {
    var i := s.inService.value;
    var e' := s.ents[i].(service := service);
    SumAtLeast(s.ents, i, e'.cls);
    PutKeeps(s, i, e');
    PutSums(s, i, e');
    VtimeKeeps(Put(s, i, e'), e'.cls, v);
  }

  lemma ServedKeepsInv(s: State, amount: nat, dv: nat)
    requires Inv(s) && s.inService.Some?
    ensures Inv(Served(s, amount, dv))
  {
    hide Summed, Placed, IdleOk, CachesOk, WeightsOk;
    var i := s.inService.value;
    var e := s.ents[i];
    ServiceKeeps(s, e.service + amount, s.vtime[e.cls] + dv);
    assert Served(s, amount, dv) ==
      Put(s, i, e.(service := e.service + amount)).(vtime := s.vtime[e.cls := s.vtime[e.cls] + dv]);
  }

  /** bfq_bfqq_served, for the entity in service. */
  ghost function Serve(s: State, amount: nat): State
    requires Inv(s) && s.inService.Some?
  {
    var c := s.ents[s.inService.value].cls;
    var dv := if s.wsum[c] > 0 then Delta(amount, s.wsum[c]) else 0;
    ServedKeepsInv(s, amount, dv);
    ForgetIdle(Served(s, amount, dv), c)
  }

  /** The end of an iteration of __bfq_dispatch_requests for a queue whose weight is boosted: the boost is
      used up by the service given, or over. */
  function Decayed(e: Ent, amount: nat, timely: bool): Ent {
    e.(boost := if timely && e.boost > amount then e.boost - amount else 0, changed := true)
  }

  function Decay(s: State, amount: nat, timely: bool): State
    requires Shape(s) && s.inService.Some?
  {
    var i := s.inService.value;
    if s.ents[i].boost > 0 then UpdateWeight(Put(s, i, Decayed(s.ents[i], amount, timely)), i) else s
  }

  lemma DecayedKeeps(s: State, i: nat, e: Ent)
    requires Inv(s) && s.inService == Some(i) && i < |s.ents|
    requires e == s.ents[i].(boost := e.boost, changed := true) && e.boost <= BOOST_BUDGET
    ensures InvBut(Put(s, i, e).(inService := None), i)
  {
    PutKeeps(s, i, e);
    PutSums(s, i, e);
    OffServiceKeeps(Put(s, i, e), i);
  }

  lemma BackInService(s: State, i: nat)
    requires i < |s.ents| && InvBut(s, i) && s.ents[i].weight >= 1 && s.inService == None
    ensures Inv(s.(inService := Some(i)))
  {
  }

  lemma FatalDecay(s: State, amount: nat, timely: bool)
    requires Inv(s) && s.inService.Some?
    requires var e := s.ents[s.inService.value]; e.boost > 0 && Spoilt(e)
    ensures !Inv(Decay(s, amount, timely))
  {
    var i := s.inService.value;
    var e := Decayed(s.ents[i], amount, timely);
    assert s.ents[i].onSt;
    UpdateWeighs(e);
    UpdatedOnly(Put(s, i, e), i);
    ReweighedOnly(e);
    hide Reweighed, UpdateWeight, Shape, IdleOk, CachesOk, Summed, Placed;
    assert Decay(s, amount, timely).ents[i].onSt && Decay(s, amount, timely).ents[i].weight == 0;
  }

  /** Decay updates the weight of a boosted entity, which may be fatal. */
  lemma DecayKeeps(s: State, amount: nat, timely: bool)
    requires Inv(s) && s.inService.Some?
    ensures
      var e := s.ents[s.inService.value];
      Inv(Decay(s, amount, timely)) <==> !(e.boost > 0 && Spoilt(e))
  {
    hide IdleOk, CachesOk, Summed, Placed, UpdateWeight;
    var i := s.inService.value;
    if s.ents[i].boost > 0 && Spoilt(s.ents[i]) {
      FatalDecay(s, amount, timely);
    } else if s.ents[i].boost > 0 {
      var s1 := Put(s, i, Decayed(s.ents[i], amount, timely));
      DecayedKeeps(s, i, Decayed(s.ents[i], amount, timely));
      UpdateKeeps(s1.(inService := None), i);
      OutOfService(s1, i);
      BackInService(UpdateWeight(s1.(inService := None), i), i);
    }
  }

  lemma OutOfService(s: State, i: nat)
    requires Shape(s) && i < |s.ents| && s.inService == Some(i)
    ensures
      var u := UpdateWeight(s.(inService := None), i);
      u.(inService := Some(i)) == UpdateWeight(s, i) && u.inService == None && |u.ents| == |s.ents|
  {
    hide Reweighed;
    ReweighedOnly(s.ents[i]);
  }

  // ---------- requests from outside ----------

  /** A queue just allocated: priority values set, no weight. */
  function NewEnt(ioprio: nat, cls: nat): Ent {
    Ent(0, 0, 0, 0, 0, 0, 0, ioprio, ioprio, cls, cls, true, 0, false, Off)
  }

  lemma CreateKeeps(s: State, ioprio: nat, cls: nat)
    requires Inv(s) && ioprio < IOPRIO_BE_NR && cls < CLASSES
    ensures Inv(s.(ents := s.ents + [NewEnt(ioprio, cls)]))
  {
    var e := NewEnt(ioprio, cls);
    var s' := s.(ents := s.ents + [e]);
    forall c | 0 <= c < CLASSES ensures IdleList(s'.ents, s'.idle[c], c) && s'.wsum[c] == SumW(s'.ents, c) {
      assert IdleList(s.ents, s.idle[c], c);
      SumAppend(s.ents, e, c);
    }
  }

  /** Fields that other code may set at any time, to be taken into account at the next update. */
  ghost predicate Requested(e: Ent, e': Ent) {
    && e' == e.(newIoprio := e'.newIoprio, newCls := e'.newCls, newWeight := e'.newWeight, boost := e'.boost,
                budget := e'.budget, changed := e'.changed)
    && InRange(e') && e'.newCls < CLASSES && (e.changed ==> e'.changed)
    && (e'.newWeight == e.newWeight || e'.newWeight >= 1)
  }

  lemma RequestKeeps(s: State, i: nat, e: Ent)
    requires Inv(s) && i < |s.ents| && Requested(s.ents[i], e)
    ensures Inv(Put(s, i, e))
  {
    var s' := Put(s, i, e);
    PutSums(s, i, e);
    forall c | 0 <= c < CLASSES ensures IdleList(s'.ents, s'.idle[c], c) {
      assert IdleList(s.ents, s.idle[c], c);
    }
  }

  // ---------- runs ----------

  datatype Step =
    | Create(ioprio: nat, cls: nat)
    | Request(i: nat, e: Ent)
    | DoActivate(i: nat)
    | DoRebudget(i: nat, budget: nat)
    | DoDeactivate(i: nat, requeue: bool)
    | DoSelect(i: nat, m: int)
    | DoServe(amount: nat)
    | DoDecay(amount: nat, timely: bool)
    | DoForget(c: nat)

  ghost predicate Enabled(s: State, t: Step)
    requires Inv(s)
  {
    match t
    case Create(ioprio, cls) => ioprio < IOPRIO_BE_NR && cls < CLASSES
    case Request(i, e) =>
      // the budget of an active entity changes only together with its times
      i < |s.ents| && Requested(s.ents[i], e) && (s.ents[i].place == Active ==> e.budget == s.ents[i].budget)
    case DoActivate(i) => i < |s.ents|
    case DoRebudget(i, _) => i < |s.ents| && s.ents[i].place == Active
    case DoDeactivate(i, _) => i < |s.ents|
    case DoSelect(i, m) =>
      && s.inService.None? && i < |s.ents| && s.ents[i].place == Active && LeastStart(s, s.ents[i].cls, m)
      && (forall c :: 0 <= c < s.ents[i].cls ==> NoneActive(s, c))
      && s.ents[i].start <= if m > s.vtime[s.ents[i].cls] then m else s.vtime[s.ents[i].cls]
    case DoServe(_) => s.inService.Some?
    case DoDecay(_, _) => s.inService.Some?
    case DoForget(c) => c < CLASSES
  }

  /** The step updates an entity that has no weight on record although an earlier update gave it one. */
  predicate Fatal(s: State, t: Step)
    requires Shape(s)
  {
    match t
    case DoActivate(i) => i < |s.ents| && FatalUpdate(s.ents[i])
    case DoRebudget(i, _) => i < |s.ents| && FatalUpdate(s.ents[i])
    case DoDecay(_, _) => s.inService.Some? && s.ents[s.inService.value].boost > 0 && Spoilt(s.ents[s.inService.value])
    case _ => false
  }

  /** bfq_updated_next_req: a new budget, and requeueing with it. */
  ghost function Rebudget(s: State, i: nat, budget: nat): State
    requires Inv(s) && i < |s.ents| && s.ents[i].place == Active
  {
    RebudgetKeeps(s, i, budget);
    Activate(Put(s, i, s.ents[i].(budget := budget)), i)
  }

  lemma RebudgetKeeps(s: State, i: nat, budget: nat)
    requires Inv(s) && i < |s.ents| && s.ents[i].place == Active
    ensures
      var s1 := Put(s, i, s.ents[i].(budget := budget));
      Inv(s1) && OnIdleTree(s1, i) && Shape(Detach(s1, i)) && (Inv(Activate(s1, i)) <==> !FatalUpdate(s.ents[i]))
  {
    hide Activate, Detach;
    RequestKeeps(s, i, s.ents[i].(budget := budget));
    ActivateKeeps(Put(s, i, s.ents[i].(budget := budget)), i);
  }

  /** Every operation keeps the invariant, except for fatal updates. */
  ghost function Next(s: State, t: Step): (r: State)
    requires Inv(s) && Enabled(s, t)
    ensures Inv(r) <==> !Fatal(s, t)
  {
    match t
    case Create(ioprio, cls) => CreateKeeps(s, ioprio, cls); s.(ents := s.ents + [NewEnt(ioprio, cls)])
    case Request(i, e) => RequestKeeps(s, i, e); Put(s, i, e)
    case DoActivate(i) => ActivateKeeps(s, i); Activate(s, i)
    case DoRebudget(i, budget) => RebudgetKeeps(s, i, budget); Rebudget(s, i, budget)
    case DoDeactivate(i, requeue) => DeactivateKeeps(s, i, requeue); Deactivate(s, i, requeue)
    case DoSelect(i, m) => SelectKeeps(s, i, m); Select(s, i, m)
    case DoServe(amount) => ServeKeeps(s, amount); Serve(s, amount)
    case DoDecay(amount, timely) => DecayKeeps(s, amount, timely); Decay(s, amount, timely)
    case DoForget(c) => ForgetIdleKeeps(s, c); ForgetIdle(s, c)
  }

  lemma ServeKeeps(s: State, amount: nat)
    requires Inv(s) && s.inService.Some?
    ensures Inv(Serve(s, amount))
  {
    var c := s.ents[s.inService.value].cls;
    var dv := if s.wsum[c] > 0 then Delta(amount, s.wsum[c]) else 0;
    ServedKeepsInv(s, amount, dv);
    ForgetIdleKeeps(Served(s, amount, dv), c);
  }

  const EMPTY := State([], None, [[], [], []], [None, None, None], [None, None, None], [0, 0, 0], [0, 0, 0], false)

  lemma NobodyInv(s: State)
    requires s.ents == [] && s.inService == None && !s.bug
    requires |s.idle| == CLASSES && |s.firstIdle| == CLASSES && |s.lastIdle| == CLASSES
    requires |s.vtime| == CLASSES && |s.wsum| == CLASSES
    requires forall c :: 0 <= c < CLASSES ==>
             s.idle[c] == [] && s.firstIdle[c] == None && s.lastIdle[c] == None && s.wsum[c] == 0
    ensures Inv(s)
  {
  }

  lemma EmptyInv()
    ensures Inv(EMPTY)
  {
    NobodyInv(EMPTY);
  }

  ghost predicate CanRun(s: State, ts: seq<Step>)
    requires Inv(s)
    decreases |ts|
  {
    ts == [] || (Enabled(s, ts[0]) && !Fatal(s, ts[0]) && CanRun(Next(s, ts[0]), ts[1..]))
  }

  ghost function Run(s: State, ts: seq<Step>): (r: State)
    requires Inv(s) && CanRun(s, ts)
    ensures Inv(r)
    decreases |ts|
  {
    if ts == [] then s else Run(Next(s, ts[0]), ts[1..])
  }

  /** What a run from an empty scheduler leads to. */
  ghost predicate CanReach(ts: seq<Step>) {
    EmptyInv(); CanRun(EMPTY, ts)
  }

  ghost function Reach(ts: seq<Step>): (s: State)
    requires CanReach(ts)
    ensures Inv(s)
  {
    EmptyInv(); Run(EMPTY, ts)
  }

  /** In every state a run without fatal updates reaches: no BUG_ON has fired and nothing was divided by zero; an
      entity on a service tree is in exactly one of the active tree, the idle tree and service, with a weight
      between 1 and 11000; and the weight sum of each class is the sum of the weights of its entities. */
  lemma EngineInvariant(ts: seq<Step>, i: nat, c: nat)
    requires CanReach(ts) && i < |Reach(ts).ents| && c < CLASSES
    ensures
      var s := Reach(ts);
      var e := s.ents[i];
      && !s.bug
      && (e.onSt <==> e.place == Active || e.place == Idle || s.inService == Some(i))
      && !(e.place != Off && s.inService == Some(i))
      && (e.onSt ==> 1 <= e.weight <= 11000)
      && s.wsum[c] == SumW(s.ents, c)
      && (e.place == Idle ==> i in s.idle[e.cls])
      && s.firstIdle[c] == (if s.idle[c] == [] then None else Some(s.idle[c][0]))
  {
    var s := Reach(ts);
    assert IdleList(s.ents, s.idle[s.ents[i].cls], s.ents[i].cls);
  }
}
