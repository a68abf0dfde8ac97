/** What holds over every run of the B-WF2Q+ engine beyond its invariant: when virtual time goes back, what
    the finish time of an active entity is, when last_idle is the last idle entity, and which runs meet a
    fatal update; with runs that show what does not hold (common/block/bfq-sched.c, bfq.h). */
module BfqRuns {
  import opened SeqUtil
  import opened BfqSched

  // ---------- what a step leaves alone ----------

  /** Entity `i` may differ, the others do not. */
  ghost predicate But(s: State, s': State, i: nat) {
    && |s'.ents| == |s.ents|
    && (forall j :: 0 <= j < |s.ents| && j != i ==> s'.ents[j] == s.ents[j])
  }

  lemma ActivateFrame(s: State, i: nat)
    requires Inv(s) && i < |s.ents|
    ensures OnIdleTree(s, i) && Shape(Detach(s, i))
    ensures But(s, Activate(s, i), i) && Activate(s, i).vtime == s.vtime
    ensures
      var d := if s.ents[i].place == Idle && s.inService != Some(i) then IdleExtract(s, i) else s;
      Activate(s, i).idle == d.idle && Activate(s, i).lastIdle == d.lastIdle
  {
    hide InvBut, UpdateWeight, Reweighed, IdleExtract;
    DetachKeeps(s, i);
    Wide(s);
    PlaceKnown(s, i);
    DetachedOnly(s, i);
    ShapeKnown(Detach(s, i), i);
    UpdatedOnly(Detach(s, i), i);
  }

  lemma PlaceKnown(s: State, i: nat)
    requires Inv(s) && i < |s.ents|
    ensures s.inService == Some(i) || !s.ents[i].onSt ==> s.ents[i].place == Off
  {
  }

  lemma ShapeKnown(s: State, i: int)
    requires InvBut(s, i)
    ensures Shape(s)
  {
  }

  lemma DeactivateFrame(s: State, i: nat, requeue: bool)
    requires Inv(s) && i < |s.ents|
    ensures OnIdleTree(s, i) && Shape(Withdraw(s, i))
    ensures
      var s' := Deactivate(s, i, requeue);
      But(s, s', i) && s'.vtime == s.vtime && s'.ents[i].place != Active
  {
    DeactivateKeeps(s, i, requeue);
    if s.ents[i].onSt {
      WithdrawKeeps(s, i);
      assert Withdraw(s, i).ents[i].place == Off;
      hide InvBut;
    }
  }

  lemma DecayFrame(s: State, amount: nat, timely: bool)
    requires Inv(s) && s.inService.Some?
    ensures
      var s' := Decay(s, amount, timely);
      && But(s, s', s.inService.value) && s'.vtime == s.vtime && s'.idle == s.idle && s'.lastIdle == s.lastIdle
      && s'.ents[s.inService.value].place == Off
  {
    var i := s.inService.value;
    assert s.ents[i].place == Off;
    if s.ents[i].boost > 0 {
      var e := Decayed(s.ents[i], amount, timely);
      UpdatedOnly(Put(s, i, e), i);
      ReweighedOnly(e);
      hide InvBut, UpdateWeight, Reweighed;
    }
  }

  // ---------- virtual time ----------

  /** The step ends in bfq_forget_idle for class `c`. */
  predicate Forgets(s: State, t: Step, c: nat)
    requires Shape(s)
  {
    t == DoForget(c) || (t.DoServe? && s.inService.Some? && s.ents[s.inService.value].cls == c)
  }

  lemma SelectTime(s: State, i: nat, m: int, c: nat)
    requires Inv(s) && Enabled(s, DoSelect(i, m)) && c < CLASSES
    ensures |Select(s, i, m).vtime| == CLASSES && Select(s, i, m).vtime[c] >= s.vtime[c]
  {
    hide InvBut, NoneActive, ForgetIdle, LeastStart;
    Wide(s);
    var d := s.ents[i].cls;
    UpdateVtimeKeeps(s, d, m);
    Wide(UpdateVtime(s, d, m));
    if m > s.vtime[d] {
      VtimeKeeps(s, d, m);
      ForgetIdleFrame(s.(vtime := s.vtime[d := m]), d);
    }
  }

  lemma ServeTime(s: State, amount: nat, c: nat)
    requires Inv(s) && s.inService.Some? && c < CLASSES
    ensures
      var v := Serve(s, amount).vtime;
      && |v| == CLASSES
      && (v[c] < s.vtime[c] <==>
            && s.ents[s.inService.value].cls == c && NoneActive(s, c)
            && s.lastIdle[c].Some? && s.ents[s.lastIdle[c].value].finish < s.vtime[c])
  {
    hide InvBut, NoneActive, ForgetIdle, Delta;
    Wide(s);
    var i := s.inService.value;
    var d := s.ents[i].cls;
    var dv := if s.wsum[d] > 0 then Delta(amount, s.wsum[d]) else 0;
    ServedKeepsInv(s, amount, dv);
    var s1 := Served(s, amount, dv);
    Wide(s1);
    ForgetIdleFrame(s1, d);
    ServedIsOff(s);
    SameActive(s, s1, i, c);
    if s.lastIdle[c].Some? {
      LastIsIdle(s, c);
    }
  }

  lemma ServedIsOff(s: State)
    requires Inv(s) && s.inService.Some?
    ensures s.inService.value < |s.ents| && s.ents[s.inService.value].place == Off
  {
  }

  lemma SameActive(s: State, s': State, i: nat, c: nat)
    requires But(s, s', i) && i < |s.ents| && s.ents[i].place != Active && s'.ents[i].place != Active
    ensures NoneActive(s, c) <==> NoneActive(s', c)
  {
  }

  lemma LastIsIdle(s: State, c: nat)
    requires Inv(s) && c < CLASSES && s.lastIdle[c].Some?
    ensures s.lastIdle[c].value < |s.ents| && s.ents[s.lastIdle[c].value].place == Idle && s.inService != s.lastIdle[c]
  {
    assert IdleList(s.ents, s.idle[c], c);
  }

  /** Virtual time falls in a step exactly when bfq_forget_idle is called for its class, no entity of the
      class is active, and the cached last idle one has finished before the time it was. */
  lemma VtimeFalls(s: State, t: Step, c: nat)
    requires Inv(s) && Enabled(s, t) && c < CLASSES
    ensures Shape(s) && |Next(s, t).vtime| == CLASSES
    ensures Next(s, t).vtime[c] < s.vtime[c] <==>
      && Forgets(s, t, c) && NoneActive(s, c)
      && s.lastIdle[c].Some? && s.ents[s.lastIdle[c].value].finish < s.vtime[c]
  {
    hide InvBut, NoneActive, LeastStart, Requested, Activate, Deactivate, Select, Serve, Decay, ForgetIdle, NewEnt,
      Detach, Withdraw;
    Wide(s);
    match t
    case Create(_, _) =>
    case Request(_, _) =>
    case DoActivate(i) => ActivateFrame(s, i);
    case DoRebudget(i, b) => RebudgetKeeps(s, i, b); ActivateFrame(Put(s, i, s.ents[i].(budget := b)), i);
    case DoDeactivate(i, requeue) => DeactivateFrame(s, i, requeue);
    case DoSelect(i, m) => SelectTime(s, i, m, c);
    case DoServe(amount) => ServeTime(s, amount, c);
    case DoDecay(amount, timely) => DecayFrame(s, amount, timely);
    case DoForget(d) => ForgetIdleFrame(s, d);
  }

  // ---------- last_idle ----------

  function LastOf(l: seq<nat>): Option<nat> { if l == [] then None else Some(l[|l| - 1]) }

  /** last_idle is the last entity of the idle tree, for every class. */
  ghost predicate AllLast(s: State)
    requires Shape(s)
  {
    forall c :: 0 <= c < CLASSES ==> s.lastIdle[c] == LastOf(s.idle[c])
  }

  lemma {:induction false} LastAfterInsert(es: seq<Ent>, l: seq<nat>, i: nat)
    requires i < |es| && ByFinish(es, l) && i !in l
    ensures
      var r := InsertIdle(es, l, i);
      r[|r| - 1] == if l == [] || es[l[|l| - 1]].finish <= es[i].finish then i else l[|l| - 1]
  {
    if l != [] && es[l[0]].finish <= es[i].finish {
      var t := l[1..];
      assert forall k :: 0 <= k < |t| ==> t[k] == l[k + 1];
      LastAfterInsert(es, t, i);
      assert InsertIdle(es, l, i) == [l[0]] + InsertIdle(es, t, i);
    }
  }

  /** The entity has the finish time of the last entity of its idle tree. */
  predicate TiesLast(s: State, i: nat)
    requires Shape(s) && i < |s.ents|
  {
    var l := s.idle[s.ents[i].cls];
    l != [] && s.ents[l[|l| - 1]].finish == s.ents[i].finish
  }

  lemma ListLast(es: seq<Ent>, l: seq<nat>, i: nat)
    requires i < |es| && ByFinish(es, l) && i !in l
    ensures
      var last := LastOf(l);
      var now := if last.None? || es[i].finish > es[last.value].finish then Some(i) else last;
      now == LastOf(InsertIdle(es, l, i)) <==> !(l != [] && es[l[|l| - 1]].finish == es[i].finish)
  {
    LastAfterInsert(es, l, i);
    hide InsertIdle;
  }

  lemma InsertLast(s: State, i: nat)
    requires Shape(s) && IdleOk(s) && CachesOk(s) && i < |s.ents| && s.ents[i].place == Off && AllLast(s)
    ensures Shape(IdleInsert(s, i)) && (AllLast(IdleInsert(s, i)) <==> !TiesLast(s, i))
  {
    hide InsertIdle, LastOf, IdleOk, CachesOk, IdleList, ByFinish, Distinct;
    var c := s.ents[i].cls;
    IdleInsertShape(s, i);
    ListIsDistinct(s, c);
    ListLast(s.ents, s.idle[c], i);
    var s' := IdleInsert(s, i);
    assert forall d :: 0 <= d < CLASSES && d != c ==> s'.lastIdle[d] == s.lastIdle[d] && s'.idle[d] == s.idle[d];
    assert s'.lastIdle[c] == LastOf(s'.idle[c]) <==> !TiesLast(s, i);
  }

  lemma WithoutLast(l: seq<nat>, i: nat)
    requires i in l && Distinct(l)
    ensures
      var k, last := IndexOf(l, i), LastOf(l);
      LastOf(Without(l, i)) == if last == Some(i) then (if k > 0 then Some(l[k - 1]) else None) else last
  {
  }

  lemma ListIsDistinct(s: State, c: nat)
    requires Shape(s) && IdleOk(s) && c < CLASSES
    ensures Distinct(s.idle[c]) && ByFinish(s.ents, s.idle[c])
    ensures forall i :: 0 <= i < |s.ents| && s.ents[i].place != Idle ==> i !in s.idle[c]
  {
    assert IdleList(s.ents, s.idle[c], c);
  }

  lemma ExtractLast(s: State, i: nat)
    requires Shape(s) && IdleOk(s) && CachesOk(s) && i < |s.ents| && s.ents[i].place == Idle && AllLast(s)
    ensures i in s.idle[s.ents[i].cls] && Shape(IdleExtract(s, i)) && AllLast(IdleExtract(s, i))
  {
    hide Without, IndexOf, LastOf, IdleOk, CachesOk, IdleList;
    var c := s.ents[i].cls;
    IdleExtractShape(s, i);
    ListIsDistinct(s, c);
    WithoutLast(s.idle[c], i);
    var s' := IdleExtract(s, i);
    assert forall d :: 0 <= d < CLASSES && d != c ==> s'.lastIdle[d] == s.lastIdle[d] && s'.idle[d] == s.idle[d];
    assert s'.lastIdle[c] == LastOf(s'.idle[c]);
  }

  /** The step inserts an entity into an idle tree whose last entity has the same finish time. */
  predicate Ties(s: State, t: Step)
    requires Shape(s)
  {
    && t.DoDeactivate? && t.i < |s.ents| && s.ents[t.i].onSt && t.requeue && OnIdleTree(s, t.i)
    && var s1 := Withdraw(s, t.i);
    && Shape(s1) && s1.ents[t.i].finish > s1.vtime[s1.ents[t.i].cls] && TiesLast(s1, t.i)
  }

  lemma SameLast(s: State, s': State)
    requires Shape(s) && Shape(s') && s'.idle == s.idle && s'.lastIdle == s.lastIdle
    ensures AllLast(s) <==> AllLast(s')
  {
    hide Shape, LastOf;
  }

  lemma ForgetIdleLast(s: State, c: nat)
    requires Inv(s) && c < CLASSES && Shape(s) && AllLast(s)
    ensures Inv(ForgetIdle(s, c)) && Shape(ForgetIdle(s, c)) && AllLast(ForgetIdle(s, c))
  {
    ForgetIdleKeeps(s, c);
    Wide(ForgetIdle(s, c));
    VtimeKeeps(s, c, PulledVtime(s, c));
    var s1 := s.(vtime := s.vtime[c := PulledVtime(s, c)]);
    var first := s1.firstIdle[c];
    SameLast(s, s1);
    if first.Some? && s1.ents[first.value].finish <= s1.vtime[c] {
      FirstIsIdle(s1, c);
      ExtractLast(s1, first.value);
      hide InvBut, IdleExtract, AllLast;
      SameLast(IdleExtract(s1, first.value), ForgetIdle(s, c));
    }
  }

  lemma ActivateLast(s: State, i: nat)
    requires Inv(s) && i < |s.ents| && Shape(s) && AllLast(s) && !FatalUpdate(s.ents[i])
    ensures OnIdleTree(s, i) && Shape(Detach(s, i)) && Shape(Activate(s, i)) && AllLast(Activate(s, i))
  {
    ActivateKeeps(s, i);
    ActivateFrame(s, i);
    Wide(Activate(s, i));
    if s.ents[i].place == Idle && s.inService != Some(i) {
      ExtractLast(s, i);
      hide InvBut, IdleExtract, Activate, Detach, AllLast;
      SameLast(IdleExtract(s, i), Activate(s, i));
    } else {
      hide InvBut, IdleExtract, Activate, Detach, AllLast;
      SameLast(s, Activate(s, i));
    }
  }

  lemma WithdrawLast(s: State, i: nat)
    requires Inv(s) && i < |s.ents| && Shape(s) && AllLast(s) && s.ents[i].onSt
    ensures OnIdleTree(s, i) && InvBut(Withdraw(s, i), i) && Shape(Withdraw(s, i)) && AllLast(Withdraw(s, i))
  {
    WithdrawKeeps(s, i);
    if s.ents[i].place == Idle && s.inService != Some(i) {
      ExtractLast(s, i);
    } else {
      SameLast(s, Withdraw(s, i));
    }
  }

  lemma DeactivateLast(s: State, i: nat, requeue: bool)
    requires Inv(s) && i < |s.ents| && Shape(s) && AllLast(s)
    ensures OnIdleTree(s, i) && Shape(Withdraw(s, i)) && Shape(Deactivate(s, i, requeue))
    ensures AllLast(Deactivate(s, i, requeue)) <==> !Ties(s, DoDeactivate(i, requeue))
  {
    DeactivateKeeps(s, i, requeue);
    Wide(Deactivate(s, i, requeue));
    if s.ents[i].onSt {
      WithdrawLast(s, i);
      var s1 := Withdraw(s, i);
      hide Withdraw, IdleInsert, AllLast;
      if !requeue || s1.ents[i].finish <= s1.vtime[s1.ents[i].cls] {
        SameLast(s1, Deactivate(s, i, requeue));
      } else {
        InsertLast(s1, i);
      }
    }
  }

  lemma SelectLast(s: State, i: nat, m: int)
    requires Inv(s) && Enabled(s, DoSelect(i, m)) && Shape(s) && AllLast(s)
    ensures Shape(Select(s, i, m)) && AllLast(Select(s, i, m))
  {
    SelectKeeps(s, i, m);
    Wide(Select(s, i, m));
    var c := s.ents[i].cls;
    UpdateVtimeKeeps(s, c, m);
    var s1 := UpdateVtime(s, c, m);
    Wide(s1);
    if m > s.vtime[c] {
      VtimeKeeps(s, c, m);
      var s0 := s.(vtime := s.vtime[c := m]);
      SameLast(s, s0);
      ForgetIdleLast(s0, c);
    }
    SameLast(s1, Select(s, i, m));
  }

  lemma ServeLast(s: State, amount: nat)
    requires Inv(s) && s.inService.Some? && Shape(s) && AllLast(s)
    ensures Shape(Serve(s, amount)) && AllLast(Serve(s, amount))
  {
    var c := s.ents[s.inService.value].cls;
    var dv := if s.wsum[c] > 0 then Delta(amount, s.wsum[c]) else 0;
    ServedKeepsInv(s, amount, dv);
    SameLast(s, Served(s, amount, dv));
    ForgetIdleLast(Served(s, amount, dv), c);
  }

  /** A step loses the last idle entity exactly when it ties. */
  lemma StepLast(s: State, t: Step)
    requires Inv(s) && Enabled(s, t) && Shape(s) && !Fatal(s, t) && AllLast(s)
    ensures Shape(Next(s, t)) && (AllLast(Next(s, t)) <==> !Ties(s, t))
  {
    hide InvBut, AllLast, NoneActive, LeastStart, Requested, Activate, Deactivate, Select, Serve, Decay, ForgetIdle,
      NewEnt, Detach, Withdraw;
    Wide(Next(s, t));
    match t
    case Create(_, _) => SameLast(s, Next(s, t));
    case Request(_, _) => SameLast(s, Next(s, t));
    case DoActivate(i) => ActivateLast(s, i);
    case DoRebudget(i, b) =>
      RebudgetKeeps(s, i, b);
      var s1 := Put(s, i, s.ents[i].(budget := b));
      Wide(s1);
      SameLast(s, s1);
      ActivateLast(s1, i);
    case DoDeactivate(i, requeue) => DeactivateLast(s, i, requeue);
    case DoSelect(i, m) => SelectLast(s, i, m);
    case DoServe(amount) => ServeLast(s, amount);
    case DoDecay(amount, timely) => DecayFrame(s, amount, timely); SameLast(s, Next(s, t));
    case DoForget(c) => ForgetIdleLast(s, c);
  }

  ghost predicate Tieless(s: State, ts: seq<Step>)
    requires Inv(s) && CanRun(s, ts)
    decreases |ts|
  {
    ts == [] || (!Ties(s, ts[0]) && Tieless(Next(s, ts[0]), ts[1..]))
  }

  ghost predicate AlwaysLast(s: State, ts: seq<Step>)
    requires Inv(s) && CanRun(s, ts)
    decreases |ts|
  {
    AllLast(s) && (ts == [] || AlwaysLast(Next(s, ts[0]), ts[1..]))
  }

  lemma {:induction false} LastFrom(s: State, ts: seq<Step>)
    requires Inv(s) && Shape(s) && AllLast(s) && CanRun(s, ts)
    ensures AlwaysLast(s, ts) <==> Tieless(s, ts)
    ensures AlwaysLast(s, ts) ==> Shape(Run(s, ts)) && AllLast(Run(s, ts))
    decreases |ts|
  {
    hide Inv, Enabled, Fatal, Ties, AllLast, Next;
    if ts != [] {
      StepLast(s, ts[0]);
      if !Ties(s, ts[0]) {
        LastFrom(Next(s, ts[0]), ts[1..]);
      } else if |ts| > 1 {
        LastNow(Next(s, ts[0]), ts[1..]);
      }
    }
  }

  lemma LastNow(s: State, ts: seq<Step>)
    requires Inv(s) && CanRun(s, ts) && Shape(s) && !AllLast(s)
    ensures !AlwaysLast(s, ts)
  {
  }

  /** Through a whole run last_idle is the last entity of its idle tree exactly when no insertion ties with
      the entity that is last. */
  lemma LastIdleIsLast(ts: seq<Step>)
    requires CanReach(ts)
    ensures Inv(EMPTY) && CanRun(EMPTY, ts) && (AlwaysLast(EMPTY, ts) <==> Tieless(EMPTY, ts))
    ensures Tieless(EMPTY, ts) ==> Shape(Reach(ts)) && AllLast(Reach(ts))
  {
    EmptyInv();
    hide InvBut, CanRun, Run;
    LastFrom(EMPTY, ts);
  }

  // ---------- finish times ----------

  /** F_i = S_i + budget / weight. */
  predicate Timed(e: Ent) { e.place == Active ==> e.weight >= 1 && e.finish == e.start + Delta(e.budget, e.weight) }

  ghost predicate AllTimed(s: State) { forall i :: 0 <= i < |s.ents| ==> Timed(s.ents[i]) }

  /** Who is active now was so before, and has not changed. */
  ghost predicate Calm(s: State, s': State) {
    |s'.ents| == |s.ents| && forall i :: 0 <= i < |s.ents| && s'.ents[i].place == Active ==> s'.ents[i] == s.ents[i]
  }

  lemma CalmTimed(s: State, s': State)
    requires Calm(s, s') && AllTimed(s)
    ensures AllTimed(s')
  {
    hide Delta;
  }

  lemma ActivateTimed(s: State, i: nat)
    requires Inv(s) && i < |s.ents| && AllTimed(Put(s, i, s.ents[i].(place := Off))) && !FatalUpdate(s.ents[i])
    ensures OnIdleTree(s, i) && Shape(Detach(s, i)) && AllTimed(Activate(s, i))
  {
    ActivateFrame(s, i);
    ActivationWeighs(s, i);
    hide InvBut, Activate, Detach, Reweighed, Delta;
    var s', s0 := Activate(s, i), Put(s, i, s.ents[i].(place := Off));
    forall j | 0 <= j < |s'.ents| && j != i
      ensures Timed(s'.ents[j])
    {
      assert s0.ents[j] == s'.ents[j];
    }
  }

  lemma SelectCalm(s: State, i: nat, m: int)
    requires Inv(s) && Enabled(s, DoSelect(i, m))
    ensures Calm(s, Select(s, i, m))
  {
    var c := s.ents[i].cls;
    UpdateVtimeKeeps(s, c, m);
    if m > s.vtime[c] {
      VtimeKeeps(s, c, m);
      ForgetIdleFrame(s.(vtime := s.vtime[c := m]), c);
    }
    hide InvBut, ForgetIdle;
  }

  lemma ServeCalm(s: State, amount: nat)
    requires Inv(s) && s.inService.Some?
    ensures Calm(s, Serve(s, amount))
  {
    var c := s.ents[s.inService.value].cls;
    var dv := if s.wsum[c] > 0 then Delta(amount, s.wsum[c]) else 0;
    assert s.ents[s.inService.value].place == Off;
    ServedKeepsInv(s, amount, dv);
    ForgetIdleFrame(Served(s, amount, dv), c);
    hide InvBut, ForgetIdle;
  }

  lemma StepTimed(s: State, t: Step)
    requires Inv(s) && Enabled(s, t) && Shape(s) && !Fatal(s, t) && AllTimed(s)
    ensures AllTimed(Next(s, t))
  {
    hide InvBut, Delta, Shape, NoneActive, LeastStart, Activate, Deactivate, Select, Serve, Decay, ForgetIdle,
      Detach, Withdraw;
    match t
    case Create(_, _) =>
    case Request(_, _) =>
    case DoActivate(i) => ActivateTimed(s, i);
    case DoRebudget(i, b) =>
      RebudgetKeeps(s, i, b);
      ActivateTimed(Put(s, i, s.ents[i].(budget := b)), i);
    case DoDeactivate(i, requeue) => DeactivateFrame(s, i, requeue); CalmTimed(s, Next(s, t));
    case DoSelect(i, m) => SelectCalm(s, i, m); CalmTimed(s, Next(s, t));
    case DoServe(amount) => ServeCalm(s, amount); CalmTimed(s, Next(s, t));
    case DoDecay(amount, timely) => DecayFrame(s, amount, timely); CalmTimed(s, Next(s, t));
    case DoForget(c) => ForgetIdleFrame(s, c); CalmTimed(s, Next(s, t));
  }

  lemma {:induction false} TimedFrom(s: State, ts: seq<Step>)
    requires Inv(s) && AllTimed(s) && CanRun(s, ts)
    ensures AllTimed(Run(s, ts))
    decreases |ts|
  {
    hide InvBut, Enabled, Fatal, AllTimed, Next;
    if ts != [] {
      Wide(s);
      StepTimed(s, ts[0]);
      TimedFrom(Next(s, ts[0]), ts[1..]);
    }
  }

  /** In every reachable state the finish time of an active entity is its start time plus its budget over its
      weight. */
  lemma FinishTimes(ts: seq<Step>, i: nat)
    requires CanReach(ts) && i < |Reach(ts).ents| && Reach(ts).ents[i].place == Active
    ensures var e := Reach(ts).ents[i]; e.weight >= 1 && e.finish == e.start + Delta(e.budget, e.weight)
  {
    EmptyInv();
    hide InvBut, CanRun, Run;
    TimedFrom(EMPTY, ts);
  }

  // ---------- fatal updates ----------

  /** A weight is on record, or none was ever given and the priority is the first one. */
  predicate Mild(e: Ent) { e.newWeight >= 1 || (e.origWeight == 0 && e.newIoprio == e.ioprio) }

  ghost predicate AllMild(s: State) { forall i :: 0 <= i < |s.ents| ==> Mild(s.ents[i]) }

  /** The priority is changed while no weight is on record. */
  predicate Early(t: Step) { t.Request? && t.e.newWeight == 0 && t.e.newIoprio != t.e.ioprio }

  lemma MildUpdate(e: Ent)
    requires InRange(e) && Mild(e)
    ensures Mild(Reweighed(e))
  {
  }

  /** Whoever differs from before does so in other fields, or was updated. */
  ghost predicate Tamely(s: State, s': State) {
    |s'.ents| == |s.ents| && forall i :: 0 <= i < |s.ents| && Mild(s.ents[i]) ==> Mild(s'.ents[i])
  }

  lemma ActivateMild(s: State, i: nat)
    requires Inv(s) && i < |s.ents|
    ensures OnIdleTree(s, i) && Shape(Detach(s, i)) && Tamely(s, Activate(s, i))
  {
    ActivateFrame(s, i);
    ActivationWeighs(s, i);
    assert InRange(s.ents[i]);
    hide InvBut, Activate, Detach, Reweighed, InRange;
    if Mild(s.ents[i]) {
      MildUpdate(s.ents[i]);
    }
  }

  lemma DeactivateMild(s: State, i: nat, requeue: bool)
    requires Inv(s) && i < |s.ents|
    ensures OnIdleTree(s, i) && Shape(Withdraw(s, i)) && Tamely(s, Deactivate(s, i, requeue))
  {
    DeactivateFrame(s, i, requeue);
    hide InvBut;
  }

  lemma ForgetIdleMild(s: State, c: nat)
    requires Inv(s) && c < CLASSES
    ensures Tamely(s, ForgetIdle(s, c))
  {
    hide InvBut, PutIdle, PulledVtime;
    Wide(s);
    VtimeKeeps(s, c, PulledVtime(s, c));
    var s1 := s.(vtime := s.vtime[c := PulledVtime(s, c)]);
    var first := s1.firstIdle[c];
    if first.Some? && s1.ents[first.value].finish <= s1.vtime[c] {
      FirstIsIdle(s1, c);
      PutIdleFrame(s1, first.value);
    }
  }

  lemma SelectMild(s: State, i: nat, m: int)
    requires Inv(s) && Enabled(s, DoSelect(i, m))
    ensures Tamely(s, Select(s, i, m))
  {
    var c := s.ents[i].cls;
    UpdateVtimeKeeps(s, c, m);
    if m > s.vtime[c] {
      VtimeKeeps(s, c, m);
      ForgetIdleMild(s.(vtime := s.vtime[c := m]), c);
    }
    hide InvBut, ForgetIdle;
  }

  lemma ServeMild(s: State, amount: nat)
    requires Inv(s) && s.inService.Some?
    ensures Tamely(s, Serve(s, amount))
  {
    var c := s.ents[s.inService.value].cls;
    var dv := if s.wsum[c] > 0 then Delta(amount, s.wsum[c]) else 0;
    ServedKeepsInv(s, amount, dv);
    ForgetIdleMild(Served(s, amount, dv), c);
    hide InvBut, ForgetIdle;
  }

  lemma DecayMild(s: State, amount: nat, timely: bool)
    requires Inv(s) && s.inService.Some?
    ensures Tamely(s, Decay(s, amount, timely))
  {
    DecayFrame(s, amount, timely);
    var i := s.inService.value;
    if s.ents[i].boost > 0 && Mild(s.ents[i]) {
      var e := Decayed(s.ents[i], amount, timely);
      assert InRange(e) && Mild(e);
      MildUpdate(e);
      UpdatedOnly(Put(s, i, e), i);
      hide InvBut, UpdateWeight, Reweighed;
    }
  }

  lemma StepMild(s: State, t: Step)
    requires Inv(s) && Shape(s) && Enabled(s, t) && AllMild(s) && !Early(t)
    ensures !Fatal(s, t) && AllMild(Next(s, t))
  {
    hide InvBut, InRange, NoneActive, LeastStart, Activate, Deactivate, Select, Serve, Decay, ForgetIdle, Detach,
      Withdraw;
    match t
    case Create(_, _) =>
    case Request(_, _) =>
    case DoActivate(i) => ActivateMild(s, i);
    case DoRebudget(i, b) =>
      RebudgetKeeps(s, i, b);
      ActivateMild(Put(s, i, s.ents[i].(budget := b)), i);
    case DoDeactivate(i, requeue) => DeactivateMild(s, i, requeue);
    case DoSelect(i, m) => SelectMild(s, i, m);
    case DoServe(amount) => ServeMild(s, amount);
    case DoDecay(amount, timely) => DecayMild(s, amount, timely);
    case DoForget(c) => ForgetIdleMild(s, c);
  }

  /** Steps that are possible one after the other, up to the first fatal one if there is one. */
  ghost predicate Follows(s: State, ts: seq<Step>)
    requires Inv(s)
    decreases |ts|
  {
    Wide(s);
    ts == [] || (Enabled(s, ts[0]) && (!Fatal(s, ts[0]) ==> Follows(Next(s, ts[0]), ts[1..])))
  }

  lemma {:induction false} MildFrom(s: State, ts: seq<Step>)
    requires Inv(s) && AllMild(s) && Follows(s, ts) && forall k :: 0 <= k < |ts| ==> !Early(ts[k])
    ensures CanRun(s, ts)
    decreases |ts|
  {
    hide InvBut, Enabled, Fatal, AllMild, Next;
    if ts != [] {
      Wide(s);
      StepMild(s, ts[0]);
      MildFrom(Next(s, ts[0]), ts[1..]);
    }
  }

  ghost predicate CanFollow(ts: seq<Step>) { EmptyInv(); Follows(EMPTY, ts) }

  /** No update is fatal in a run that changes no priority while the entity has no weight on record. */
  lemma LatePriorityChangesAreSafe(ts: seq<Step>)
    requires CanFollow(ts) && forall k :: 0 <= k < |ts| ==> !Early(ts[k])
    ensures CanReach(ts)
  {
    EmptyInv();
    hide InvBut;
    MildFrom(EMPTY, ts);
  }
}
