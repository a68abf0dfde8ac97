/** Runs of the B-WF2Q+ engine that show what does not hold of it: virtual time goes back, last_idle is not the
    last idle entity, and a priority changed too early ends in a BUG_ON.  All queues here are of the best-effort
    class and have weight 8, except where said otherwise. */
module BfqTraces {
  import opened SeqUtil
  import opened BfqSched
  import opened BfqRuns
  import E = BfqEngine
  import T = BfqTree

  /** A queue that has been weighed. */
  function Q(start: int, finish: int, service: nat, budget: nat, onSt: bool, place: Place): Ent {
    Ent(start, finish, service, budget, 8, 8, 8, 0, 0, 1, 1, false, 0, onSt, place)
  }

  function New(budget: nat): Ent { NewEnt(0, 1).(budget := budget) }

  /** A state with entities of one class only. */
  function One(ents: seq<Ent>, inService: Option<nat>, idle: seq<nat>, first: Option<nat>, last: Option<nat>, v: int,
               w: int): State {
    State(ents, inService, [[], idle, []], [None, first, None], [None, last, None], [0, v, 0], [0, w, 0], false)
  }

  lemma {:induction false} RunMore(s: State, ts: seq<Step>, t: Step)
    requires Inv(s) && CanRun(s, ts)
    requires Shape(Run(s, ts)) && Enabled(Run(s, ts), t) && !Fatal(Run(s, ts), t)
    ensures CanRun(s, ts + [t]) && Run(s, ts + [t]) == Next(Run(s, ts), t)
    decreases |ts|
  {
    hide InvBut, Enabled, Fatal, Next, Shape;
    if ts == [] {
      assert ts + [t] == [t] && [t][1..] == [];
    } else {
      RunMore(Next(s, ts[0]), ts[1..], t);
      assert (ts + [t])[1..] == ts[1..] + [t] && (ts + [t])[0] == ts[0];
    }
  }

  /** The run `ts` leads to `s`. */
  ghost predicate Leads(ts: seq<Step>, s: State) { CanReach(ts) && Reach(ts) == s }

  lemma Go(ts: seq<Step>, s: State, t: Step, s': State)
    requires Leads(ts, s) && Shape(s) && Enabled(s, t) && !Fatal(s, t) && Next(s, t) == s'
    ensures Leads(ts + [t], s')
  {
    EmptyInv();
    hide InvBut, Enabled, Fatal, Next, Shape, CanRun, Run;
    RunMore(EMPTY, ts, t);
  }

  lemma Sound(ts: seq<Step>, s: State)
    requires Leads(ts, s)
    ensures Inv(s) && Shape(s)
  {
    hide CanReach;
    Wide(s);
  }

  // ---------- steps ----------

  lemma Born(ts: seq<Step>, s: State, budget: nat) returns (ts': seq<Step>)
    requires Leads(ts, s)
    ensures Leads(ts', s.(ents := s.ents + [New(budget)]))
  {
    Sound(ts, s);
    hide InvBut, Leads;
    var s1 := s.(ents := s.ents + [NewEnt(0, 1)]);
    Go(ts, s, Create(0, 1), s1);
    Sound(ts + [Create(0, 1)], s1);
    var t := Request(|s.ents|, New(budget));
    assert s1.ents[|s.ents|] == NewEnt(0, 1);
    Go(ts + [Create(0, 1)], s1, t, Put(s1, |s.ents|, New(budget)));
    assert Put(s1, |s.ents|, New(budget)) == s.(ents := s.ents + [New(budget)]);
    ts' := ts + [Create(0, 1)] + [t];
  }

  lemma Entered(s: State, i: nat)
    requires Shape(s) && i < |s.ents| && s.ents[i] == New(s.ents[i].budget) && s.inService != Some(i) && !s.bug
    ensures OnIdleTree(s, i) && Detach(s, i) == Put(s, i, s.ents[i].(start := s.vtime[1], onSt := true))
  {
    assert s.wsum[1 := s.wsum[1] + 0] == s.wsum;
  }

  lemma Weighs(s: State, i: nat, v: int, budget: nat)
    requires Shape(s) && i < |s.ents| && s.ents[i] == New(budget).(start := v, onSt := true) && s.wsum[1] >= 0 && !s.bug
    ensures UpdateWeight(s, i) == Put(s, i, Q(v, 0, 0, budget, true, Off)).(wsum := s.wsum[1 := s.wsum[1] + 8])
  {
    assert Reweighed(s.ents[i]) == Q(v, 0, 0, budget, true, Off);
    hide Reweighed;
    assert s.wsum[1 := s.wsum[1] - 0][1 := s.wsum[1] + 8] == s.wsum[1 := s.wsum[1] + 8];
  }

  lemma Attached(s: State, i: nat, v: int, budget: nat)
    requires i < |s.ents| && s.ents[i] == Q(v, 0, 0, budget, true, Off) && !s.bug
    ensures Attach(s, i) == Put(s, i, Q(v, v + Delta(budget, 8), 0, budget, true, Active))
  {
    hide Delta;
  }

  lemma PutTwice(s: State, i: nat, e: Ent, f: Ent)
    requires i < |s.ents|
    ensures Put(Put(s, i, e), i, f) == Put(s, i, f)
  {
    assert s.ents[i := e][i := f] == s.ents[i := f];
  }

  lemma SumsKnown(s: State)
    requires Inv(s)
    ensures Shape(s) && s.wsum[1] >= 0 && !s.bug
  {
    assert s.wsum[1] == SumW(s.ents, 1);
  }

  lemma NextActivate(s: State, i: nat)
    requires Inv(s) && i < |s.ents| && !FatalUpdate(s.ents[i])
    ensures Shape(s) && OnIdleTree(s, i) && Shape(Detach(s, i))
    ensures Enabled(s, DoActivate(i)) && !Fatal(s, DoActivate(i)) && Next(s, DoActivate(i)) == Activate(s, i)
  {
    ActivateKeeps(s, i);
    hide InvBut, Detach, Activate;
  }

  lemma Joined(ts: seq<Step>, s: State, i: nat) returns (ts': seq<Step>)
    requires Leads(ts, s) && i < |s.ents| && s.ents[i] == New(s.ents[i].budget) && s.inService != Some(i)
    ensures |s.vtime| == |s.wsum| == CLASSES
    ensures
      var b, v := s.ents[i].budget, s.vtime[1];
      Leads(ts', Put(s, i, Q(v, v + Delta(b, 8), 0, b, true, Active)).(wsum := s.wsum[1 := s.wsum[1] + 8]))
  {
    hide Leads, Inv, Delta, Detach, UpdateWeight, Attach, Q, Next, Enabled, Fatal;
    Sound(ts, s);
    SumsKnown(s);
    var b, v := s.ents[i].budget, s.vtime[1];
    NextActivate(s, i);
    Entered(s, i);
    var s1 := Detach(s, i);
    Weighs(s1, i, v, b);
    var s2 := UpdateWeight(s1, i);
    PutTwice(s, i, s1.ents[i], Q(v, 0, 0, b, true, Off));
    Attached(s2, i, v, b);
    PutTwice(s, i, Q(v, 0, 0, b, true, Off), Q(v, v + Delta(b, 8), 0, b, true, Active));
    Go(ts, s, DoActivate(i), Attach(s2, i));
    ts' := ts + [DoActivate(i)];
  }

  lemma Least(s: State, j: nat, m: int)
    requires j < |s.ents| && s.ents[j].place == Active && s.ents[j].start == m
    requires forall k :: 0 <= k < |s.ents| ==>
             s.ents[k].cls == 1 && (s.ents[k].place == Active ==> m <= s.ents[k].start)
    ensures LeastStart(s, 1, m) && NoneActive(s, 0)
  {
  }

  lemma Picked(ts: seq<Step>, s: State, i: nat, m: int) returns (ts': seq<Step>)
    requires Leads(ts, s) && s.inService.None? && i < |s.ents| && s.ents[i].place == Active && s.ents[i].cls == 1
    requires LeastStart(s, 1, m) && NoneActive(s, 0) && |s.vtime| == CLASSES && m <= s.vtime[1] &&
             s.ents[i].start <= s.vtime[1]
    ensures Leads(ts', Put(s, i, s.ents[i].(place := Off, service := 0)).(inService := Some(i)))
  {
    Sound(ts, s);
    hide InvBut, LeastStart, NoneActive;
    var s' := Put(s, i, s.ents[i].(place := Off, service := 0)).(inService := Some(i));
    assert Select(s, i, m) == s';
    Go(ts, s, DoSelect(i, m), s');
    ts' := ts + [DoSelect(i, m)];
  }

  lemma NothingForgotten(s: State, c: nat, j: nat)
    requires Inv(s) && Shape(s) && c < CLASSES && j < |s.ents| && s.ents[j].place == Active && s.ents[j].cls == c
    requires s.firstIdle[c].Some? ==> s.ents[s.firstIdle[c].value].finish > s.vtime[c]
    ensures ForgetIdle(s, c) == s
  {
    hide InvBut;
    assert !NoneActive(s, c);
    assert s.(vtime := s.vtime[c := s.vtime[c]]) == s;
  }

  function Given(s: State, amount: nat, v: int): State
    requires s.inService.Some? && s.inService.value < |s.ents| && |s.vtime| == CLASSES
  {
    var i := s.inService.value;
    Put(s, i, s.ents[i].(service := s.ents[i].service + amount)).(vtime := s.vtime[1 := v])
  }

  lemma ServedIs(s: State, amount: nat, v: int)
    requires Inv(s) && Shape(s) && s.inService.Some? && s.ents[s.inService.value].cls == 1
    requires s.wsum[1] > 0 && v == s.vtime[1] + Delta(amount, s.wsum[1])
    ensures Inv(Given(s, amount, v)) && Shape(Given(s, amount, v)) &&
            Serve(s, amount) == ForgetIdle(Given(s, amount, v), 1)
  {
    assert !s.bug;
    ServedKeepsInv(s, amount, Delta(amount, s.wsum[1]));
    hide InvBut, Delta;
    assert Served(s, amount, Delta(amount, s.wsum[1])) == Given(s, amount, v);
    Wide(Given(s, amount, v));
  }

  lemma Worked(ts: seq<Step>, s: State, amount: nat, v: int) returns (ts': seq<Step>)
    requires Leads(ts, s) && s.inService.Some? && s.inService.value < |s.ents| && s.ents[s.inService.value].cls == 1
    requires |s.vtime| == |s.wsum| == CLASSES && s.wsum[1] > 0 && v == s.vtime[1] + Delta(amount, s.wsum[1])
    ensures Inv(Given(s, amount, v)) && Shape(Given(s, amount, v)) && Leads(ts', ForgetIdle(Given(s, amount, v), 1))
  {
    Sound(ts, s);
    ServedIs(s, amount, v);
    hide InvBut, Delta, ForgetIdle, Shape;
    Go(ts, s, DoServe(amount), Serve(s, amount));
    ts' := ts + [DoServe(amount)];
  }

  lemma WithdrawIs(s: State, i: nat, f: int)
    requires Shape(s) && i < |s.ents| && OnIdleTree(s, i) && s.inService == Some(i) && s.ents[i].place == Off && !s.bug
    requires s.ents[i].weight == 8 && f == s.ents[i].start + Delta(s.ents[i].service, 8)
    ensures Withdraw(s, i) == Put(s, i, s.ents[i].(finish := f)).(inService := None)
  {
    hide Shape, Delta;
  }

  lemma InServiceIs(s: State, i: nat)
    requires Inv(s) && i < |s.ents| && s.inService == Some(i)
    ensures s.ents[i].onSt && s.ents[i].place == Off && !s.bug
  {
  }

  /** The queue in service expires without requests and is ahead of virtual time. */
  lemma Rested(ts: seq<Step>, s: State, i: nat, f: int) returns (ts': seq<Step>)
    requires Leads(ts, s) && i < |s.ents| && s.inService == Some(i) && s.ents[i].cls == 1 && s.ents[i].weight == 8
    requires |s.vtime| == CLASSES && f == s.ents[i].start + Delta(s.ents[i].service, 8) && f > s.vtime[1]
    ensures
      var s1 := Put(s, i, s.ents[i].(finish := f)).(inService := None);
      Shape(s1) && Leads(ts', IdleInsert(s1, i))
  {
    Sound(ts, s);
    InServiceIs(s, i);
    DeactivateKeeps(s, i, true);
    WithdrawIs(s, i, f);
    hide InvBut, Delta, IdleInsert, Withdraw, Shape;
    Go(ts, s, DoDeactivate(i, true), IdleInsert(Withdraw(s, i), i));
    ts' := ts + [DoDeactivate(i, true)];
  }

  lemma ForgottenIs(s: State, i: nat)
    requires Shape(s) && i < |s.ents| && OnIdleTree(s, i) && s.inService != Some(i) && s.ents[i].place == Active
    requires s.ents[i].cls == 1 && s.ents[i].onSt && !s.bug
    ensures Withdraw(s, i) == Put(s, i, s.ents[i].(place := Off)) && Shape(Withdraw(s, i))
    ensures ForgetEntity(Withdraw(s, i), i)
         == Put(s, i, s.ents[i].(place := Off, onSt := false)).(wsum := s.wsum[1 := s.wsum[1] - s.ents[i].weight])
  {
  }

  /** The last request of an active queue is taken away, and virtual time has passed it. */
  lemma Emptied(ts: seq<Step>, s: State, i: nat) returns (ts': seq<Step>)
    requires Leads(ts, s) && i < |s.ents| && s.inService != Some(i) && s.ents[i].place == Active && s.ents[i].cls == 1
    requires |s.vtime| == |s.wsum| == CLASSES && s.ents[i].finish <= s.vtime[1] && s.ents[i].onSt && !s.bug
    ensures Leads(ts', Put(s, i, s.ents[i].(place := Off, onSt := false))
                       .(wsum := s.wsum[1 := s.wsum[1] - s.ents[i].weight]))
  {
    Sound(ts, s);
    DeactivateKeeps(s, i, true);
    ForgottenIs(s, i);
    hide InvBut, Shape, Withdraw, ForgetEntity;
    Go(ts, s, DoDeactivate(i, true), ForgetEntity(Withdraw(s, i), i));
    ts' := ts + [DoDeactivate(i, true)];
  }

  lemma FirstForgotten(s: State, j: nat)
    requires Inv(s) && Shape(s) && j < |s.ents| && s.ents[j].place == Active && s.ents[j].cls == 1
    requires s.firstIdle[1].Some? && s.ents[s.firstIdle[1].value].finish <= s.vtime[1]
    ensures
      var k := s.firstIdle[1].value;
      && s.ents[k].cls == 1 && k in s.idle[1] && Shape(IdleExtract(s, k))
      && ForgetIdle(s, 1) == ForgetEntity(IdleExtract(s, k), k)
  {
    var k := s.firstIdle[1].value;
    FirstIsIdle(s, 1);
    IdleExtractKeeps(s, k);
    assert Shape(IdleExtract(s, k));
    assert !NoneActive(s, 1);
    assert s.(vtime := s.vtime[1 := s.vtime[1]]) == s;
    hide InvBut, IdleExtract, ForgetEntity;
  }

  // ---------- the runs ----------

  const U: nat := SERVICE_SHIFT

  /** Three queues have joined; the first was served and is idle; the second is in service. */
  lemma SecondInService() returns (ts: seq<Step>)
    ensures Leads(ts, One([Q(0, U, 8, 64, true, Idle), Q(0, 8 * U, 0, 64, true, Off),
                           Q(0, 8 * U, 0, 64, true, Active), New(8)],
                          Some(1), [0], Some(0), Some(0), 1398101, 24))
  {
    hide Leads, Delta, LeastStart, NoneActive;
    ts := ThreeJoin(64, 64, 64, 8);
    assert First(64) == Q(0, 8 * U, 0, 64, true, Active) by { DeltaIs(); }
    ts := FirstServed(ts);
    var a, b, c, d := Q(0, U, 8, 64, true, Idle), Q(0, 8 * U, 0, 64, true, Active), Q(0, 8 * U, 0, 64, true, Active),
      New(8);
    var s := One([a, b, c, d], None, [0], Some(0), Some(0), 1398101, 24);
    Least(s, 1, 0);
    ts := Picked(ts, s, 1, 0);
    assert Put(s, 1, b.(place := Off, service := 0)).(inService := Some(1)) ==
      One([a, Q(0, 8 * U, 0, 64, true, Off), c, d], Some(1), [0], Some(0), Some(0), 1398101, 24);
  }

  lemma StartsEmpty()
    ensures Leads([], EMPTY)
  {
    EmptyInv();
    hide InvBut;
  }

  lemma FourBorn(a: nat, b: nat, c: nat, d: nat) returns (ts: seq<Step>)
    ensures Leads(ts, One([New(a), New(b), New(c), New(d)], None, [], None, None, 0, 0))
  {
    hide Leads, New;
    ts := [];
    StartsEmpty();
    assert EMPTY.ents + [New(a)] == [New(a)];
    ts := Born(ts, EMPTY, a);
    assert [New(a)] + [New(b)] == [New(a), New(b)];
    ts := Born(ts, One([New(a)], None, [], None, None, 0, 0), b);
    assert [New(a), New(b)] + [New(c)] == [New(a), New(b), New(c)];
    ts := Born(ts, One([New(a), New(b)], None, [], None, None, 0, 0), c);
    assert [New(a), New(b), New(c)] + [New(d)] == [New(a), New(b), New(c), New(d)];
    ts := Born(ts, One([New(a), New(b), New(c)], None, [], None, None, 0, 0), d);
  }

  lemma JoinedIs(ts: seq<Step>, ents: seq<Ent>, i: nat, budget: nat, v: int, w: int) returns (ts': seq<Step>)
    requires i < |ents| && Leads(ts, One(ents, None, [], None, None, v, w)) && ents[i] == New(budget)
    ensures
      var q := Q(v, v + Delta(budget, 8), 0, budget, true, Active);
      Leads(ts', One(ents[i := q], None, [], None, None, v, w + 8))
  {
    hide Leads, Delta;
    ts' := Joined(ts, One(ents, None, [], None, None, v, w), i);
    assert [0, w, 0][1 := w + 8] == [0, w + 8, 0];
  }

  /** Three of four new queues join an empty tree. */
  lemma ThreeJoin(a: nat, b: nat, c: nat, d: nat) returns (ts: seq<Step>)
    ensures
      var p, q, r := First(a), First(b), First(c);
      Leads(ts, One([p, q, r, New(d)], None, [], None, None, 0, 24))
  {
    hide Leads, First;
    var p, q, r, n := First(a), First(b), First(c), New(d);
    ts := FourBorn(a, b, c, d);
    FirstIs(a);
    FirstIs(b);
    FirstIs(c);
    ts := JoinedIs(ts, [New(a), New(b), New(c), n], 0, a, 0, 0);
    assert [New(a), New(b), New(c), n][0 := p] == [p, New(b), New(c), n];
    ts := JoinedIs(ts, [p, New(b), New(c), n], 1, b, 0, 8);
    assert [p, New(b), New(c), n][1 := q] == [p, q, New(c), n];
    ts := JoinedIs(ts, [p, q, New(c), n], 2, c, 0, 16);
    assert [p, q, New(c), n][2 := r] == [p, q, r, n];
  }

  /** A queue that has joined at time zero. */
  function First(budget: nat): Ent { Q(0, Delta(budget, 8), 0, budget, true, Active) }

  lemma FirstIs(budget: nat)
    ensures First(budget) == Q(0, 0 + Delta(budget, 8), 0, budget, true, Active)
  {
  }

  lemma FirstServed(ts: seq<Step>) returns (ts': seq<Step>)
    requires
      var q := Q(0, 8 * U, 0, 64, true, Active);
      Leads(ts, One([q, q, q, New(8)], None, [], None, None, 0, 24))
    ensures
      var q := Q(0, 8 * U, 0, 64, true, Active);
      Leads(ts', One([Q(0, U, 8, 64, true, Idle), q, q, New(8)], None, [0], Some(0), Some(0), 1398101, 24))
  {
    hide Leads, InvBut, Shape, ForgetIdle, LeastStart, NoneActive;
    var q, d := Q(0, 8 * U, 0, 64, true, Active), New(8);
    var s0 := One([q, q, q, d], None, [], None, None, 0, 24);
    Least(s0, 0, 0);
    ts' := Picked(ts, s0, 0, 0);
    var s1 := One([Q(0, 8 * U, 0, 64, true, Off), q, q, d], Some(0), [], None, None, 0, 24);
    assert Put(s0, 0, q.(place := Off, service := 0)).(inService := Some(0)) == s1;
    ts' := Worked(ts', s1, 8, 1398101);
    var s2 := One([Q(0, 8 * U, 8, 64, true, Off), q, q, d], Some(0), [], None, None, 1398101, 24);
    assert Given(s1, 8, 1398101) == s2;
    NothingForgotten(s2, 1, 1);
    ts' := Rested(ts', s2, 0, U);
    var s3 := One([Q(0, U, 8, 64, true, Off), q, q, d], None, [], None, None, 1398101, 24);
    assert Put(s2, 0, s2.ents[0].(finish := U)).(inService := None) == s3;
    assert IdleInsert(s3, 0) == One([Q(0, U, 8, 64, true, Idle), q, q, d], None, [0], Some(0), Some(0), 1398101, 24);
  }

  /** The second queue serves `amount` and goes idle with finish time `f`. */
  lemma SecondIdle(amount: nat, v: int, f: int, last: nat) returns (ts: seq<Step>)
    requires v == 1398101 + Delta(amount, 24) && v < U <= f == Delta(amount, 8) && last == if f > U then 1 else 0
    ensures Leads(ts, One([Q(0, U, 8, 64, true, Idle), Q(0, f, amount, 64, true, Idle),
                           Q(0, 8 * U, 0, 64, true, Active), New(8)],
                          None, [0, 1], Some(0), Some(last), v, 24))
  {
    hide Leads, InvBut, Shape, ForgetIdle, Delta;
    ts := SecondInService();
    var a, c, d := Q(0, U, 8, 64, true, Idle), Q(0, 8 * U, 0, 64, true, Active), New(8);
    var s1 := One([a, Q(0, 8 * U, 0, 64, true, Off), c, d], Some(1), [0], Some(0), Some(0), 1398101, 24);
    ts := Worked(ts, s1, amount, v);
    var s2 := One([a, Q(0, 8 * U, amount, 64, true, Off), c, d], Some(1), [0], Some(0), Some(0), v, 24);
    assert Given(s1, amount, v) == s2;
    NothingForgotten(s2, 1, 2);
    ts := Rested(ts, s2, 1, f);
    var s3 := One([a, Q(0, f, amount, 64, true, Off), c, d], None, [0], Some(0), Some(0), v, 24);
    assert Put(s2, 1, s2.ents[1].(finish := f)).(inService := None) == s3;
    assert InsertIdle(s3.ents, [0], 1) == [0, 1] by {
      assert [0][1..] == [] && [0] + [1] == [0, 1];
    }
    hide InsertIdle;
    assert IdleInsert(s3, 1) == One([a, Q(0, f, amount, 64, true, Idle), c, d], None, [0, 1], Some(0), Some(last), v,
                                    24);
  }

  /** A tie: two queues go idle with the same finish time, and last_idle stays with the first. */
  lemma LastIdleCanMiss() returns (ts: seq<Step>)
    ensures CanReach(ts) && Shape(Reach(ts)) && Reach(ts).idle[1] == [0, 1] && Reach(ts).lastIdle[1] == Some(0)
  {
    ts := SecondIdle(8, 2796202, U, 0);
    Sound(ts, Reach(ts));
    hide CanReach, Reach, Shape;
  }

  /** The third queue is in service and a fourth one has joined. */
  lemma FourthJoins() returns (ts: seq<Step>)
    ensures Leads(ts, One([Q(0, U, 8, 64, true, Idle), Q(0, 2 * U, 16, 64, true, Idle), Q(0, 8 * U, 0, 64, true, Off),
                           Q(U - 1, 2 * U - 1, 0, 8, true, Active)], Some(2), [0, 1], Some(0), Some(1), U - 1, 32))
  {
    hide Leads, InvBut, Shape, LeastStart, NoneActive;
    ts := SecondIdle(16, U - 1, 2 * U, 1);
    var a, b, c, d := Q(0, U, 8, 64, true, Idle), Q(0, 2 * U, 16, 64, true, Idle), Q(0, 8 * U, 0, 64, true, Active),
      New(8);
    var s1 := One([a, b, c, d], None, [0, 1], Some(0), Some(1), U - 1, 24);
    Least(s1, 2, 0);
    ts := Picked(ts, s1, 2, 0);
    var c' := Q(0, 8 * U, 0, 64, true, Off);
    var s2 := One([a, b, c', d], Some(2), [0, 1], Some(0), Some(1), U - 1, 24);
    assert Put(s1, 2, c.(place := Off, service := 0)).(inService := Some(2)) == s2;
    ts := Joined(ts, s2, 3);
    var d' := Q(U - 1, 2 * U - 1, 0, 8, true, Active);
    assert Put(s2, 3, d').(wsum := s2.wsum[1 := 32])
           == One([a, b, c', d'], Some(2), [0, 1], Some(0), Some(1), U - 1, 32);
  }

  /** Virtual time passes both idle queues, only the first is forgotten, and the fourth one goes. */
  lemma SecondIsLeft() returns (ts: seq<Step>)
    ensures Leads(ts, One([Q(0, U, 8, 64, false, Off), Q(0, 2 * U, 16, 64, true, Idle), Q(0, 8 * U, 48, 64, true, Off),
                           Q(U - 1, 2 * U - 1, 0, 8, false, Off)], Some(2), [1], Some(1), Some(1), 10485759, 16))
  {
    hide Leads, InvBut, Shape, ForgetIdle;
    ts := FourthJoins();
    var a, b, c, d := Q(0, U, 8, 64, true, Idle), Q(0, 2 * U, 16, 64, true, Idle), Q(0, 8 * U, 0, 64, true, Off),
      Q(U - 1, 2 * U - 1, 0, 8, true, Active);
    var s1 := One([a, b, c, d], Some(2), [0, 1], Some(0), Some(1), U - 1, 32);
    ts := Worked(ts, s1, 48, 10485759);
    var c' := Q(0, 8 * U, 48, 64, true, Off);
    var s2 := One([a, b, c', d], Some(2), [0, 1], Some(0), Some(1), 10485759, 32);
    assert Given(s1, 48, 10485759) == s2;
    FirstForgotten(s2, 3);
    var s3 := One([Q(0, U, 8, 64, false, Off), b, c', d], Some(2), [1], Some(1), Some(1), 10485759, 24);
    Extracted(s2, s3);
    ts := Emptied(ts, s3, 3);
    assert Put(s3, 3, d.(place := Off, onSt := false)).(wsum := s3.wsum[1 := 16]) ==
      One([Q(0, U, 8, 64, false, Off), b, c', Q(U - 1, 2 * U - 1, 0, 8, false, Off)], Some(2), [1], Some(1), Some(1),
          10485759, 16);
  }

  lemma DeltaIs()
    ensures Delta(64, 8) == 8 * U
  {
  }

  lemma Extracted(s: State, s': State)
    requires Shape(s) && |s.ents| == 4 && s.idle[1] == [0, 1] && s.ents[0].cls == 1 && Shape(IdleExtract(s, 0)) &&
             s.ents[0].onSt
    requires s.firstIdle[1] == Some(0) && s.lastIdle[1] == Some(1)
    requires s' == s.(ents := s.ents[0 := s.ents[0].(place := Off, onSt := false)], idle := s.idle[1 := [1]],
                      firstIdle := s.firstIdle[1 := Some(1)], wsum := s.wsum[1 := s.wsum[1] - s.ents[0].weight])
    ensures ForgetEntity(IdleExtract(s, 0), 0) == s'
  {
    hide Without, IndexOf, Shape;
    FirstOfTwo();
    Sizes(s);
    var s1 := IdleExtract(s, 0);
    assert s1.idle == s.idle[1 := [1]] && s1.firstIdle == s.firstIdle[1 := Some(1)] && s1.lastIdle == s.lastIdle;
    assert s.ents[0 := s.ents[0].(place := Off)][0 := s.ents[0].(place := Off, onSt := false)] == s'.ents;
  }

  lemma Sizes(s: State)
    requires Shape(s)
    ensures |s.idle| == |s.firstIdle| == |s.lastIdle| == CLASSES
  {
  }

  lemma FirstOfTwo()
    ensures var l: seq<nat> := [0, 1]; 0 in l && IndexOf(l, 0) == 0 && Without(l, 0) == [1]
  {
  }

  /** Virtual time goes back: the next service takes it below what it was. */
  lemma VtimeGoesBack() returns (ts: seq<Step>, t: Step)
    ensures CanReach(ts) && Enabled(Reach(ts), t) && |Next(Reach(ts), t).vtime| == |Reach(ts).vtime| == CLASSES
    ensures Next(Reach(ts), t).vtime[1] < Reach(ts).vtime[1]
  {
    ts := SecondIsLeft();
    t := DoServe(8);
    var s := Reach(ts);
    Sound(ts, s);
    hide InvBut, Leads, CanReach, Reach, Next, LeastStart, Requested;
    VtimeFalls(s, t, 1);
    PulledBack(s);
  }

  lemma PulledBack(s: State)
    requires s == One([Q(0, U, 8, 64, false, Off), Q(0, 2 * U, 16, 64, true, Idle), Q(0, 8 * U, 48, 64, true, Off),
                       Q(U - 1, 2 * U - 1, 0, 8, false, Off)], Some(2), [1], Some(1), Some(1), 10485759, 16)
    requires Shape(s)
    ensures Forgets(s, DoServe(8), 1) && NoneActive(s, 1)
    ensures s.lastIdle[1].Some? && s.ents[s.lastIdle[1].value].finish < s.vtime[1]
  {
  }

  /** A priority changed between creation and first activation: the queue gets its weight then, and the next
      update takes it away and runs into the BUG_ON of bfq_calc_finish. */
  lemma EarlyPriorityChangeIsFatal(p: nat, q: nat, c: nat) returns (ts: seq<Step>, t: Step)
    requires p < IOPRIO_BE_NR && q < IOPRIO_BE_NR && p != q && c < CLASSES
    ensures CanReach(ts) && |Reach(ts).ents| == 1 && Reach(ts).ents[0].weight == IOPRIO_BE_NR - q
    ensures Enabled(Reach(ts), t) && Shape(Reach(ts)) && Fatal(Reach(ts), t) && Next(Reach(ts), t).bug
  {
    var s, e := EarlyChange(p, q, c);
    ts := s;
    var s1 := Reach(ts);
    Sound(ts, s1);
    t := DoActivate(0);
    hide InvBut, Reach, CanReach, Detach, Activate, Reweighed, Shape;
    var u := Request(0, e.(changed := true));
    var s2 := Put(s1, 0, e.(changed := true));
    Go(ts, s1, u, s2);
    ts := ts + [u];
    Sound(ts, s2);
    ActivationWeighs(s2, 0);
  }

  lemma EarlyChange(p: nat, q: nat, c: nat) returns (ts: seq<Step>, e: Ent)
    requires p < IOPRIO_BE_NR && q < IOPRIO_BE_NR && p != q && c < CLASSES
    ensures CanReach(ts) && Leads(ts, Reach(ts)) && Reach(ts).ents == [e] && InRange(e) && e.newCls < CLASSES
    ensures e.weight == IOPRIO_BE_NR - q && Spoilt(e)
  {
    EmptyInv();
    var s0, n := EMPTY, NewEnt(p, c);
    Sound([], s0);
    var s1 := s0.(ents := s0.ents + [n]);
    hide InvBut, Detach, Activate, Reweighed, Shape, Leads;
    Go([], s0, Create(p, c), s1);
    ts := [] + [Create(p, c)];
    Sound(ts, s1);
    var m := n.(newIoprio := q);
    var s2 := Put(s1, 0, m);
    Go(ts, s1, Request(0, m), s2);
    ts := ts + [Request(0, m)];
    Sound(ts, s2);
    ActivationWeighs(s2, 0);
    Reweigh(p, q, c);
    var s3 := Activate(s2, 0);
    Go(ts, s2, DoActivate(0), s3);
    ts := ts + [DoActivate(0)];
    e := s3.ents[0];
    LeadsTo(ts, s3);
  }

  lemma LeadsTo(ts: seq<Step>, s: State)
    requires Leads(ts, s)
    ensures CanReach(ts) && Reach(ts) == s
  {
  }

  lemma Reweigh(p: nat, q: nat, c: nat)
    requires p < IOPRIO_BE_NR && q < IOPRIO_BE_NR && p != q && c < CLASSES
    ensures Reweighed(NewEnt(p, c).(newIoprio := q))
         == NewEnt(p, c).(newIoprio := q, ioprio := q, weight := IOPRIO_BE_NR - q, origWeight := IOPRIO_BE_NR - q,
                          changed := false)
  {
  }

  // ---------- the walk ----------

  /** The queue in service is requeued with a new budget. */
  lemma Requeued(ts: seq<Step>, s: State, i: nat, budget: nat) returns (ts': seq<Step>)
    requires Leads(ts, s) && i < |s.ents| && s.inService == Some(i) && s.ents[i].weight == 8 && !s.ents[i].changed
    ensures
      var e := s.ents[i];
      var v := e.start + Delta(e.service, 8);
      var f := e.(start := v, finish := v + Delta(budget, 8), budget := budget, place := Active);
      Leads(ts', Put(s, i, f).(inService := None))
  {
    hide Leads, Inv, Delta, Next, Enabled, Fatal, Activate;
    Sound(ts, s);
    InServiceIs(s, i);
    var e := s.ents[i].(budget := budget);
    var t, s1 := Request(i, e), Put(s, i, e);
    NextRequest(s, i, e);
    Go(ts, s, t, s1);
    ts' := ts + [t];
    Sound(ts', s1);
    NextActivate(s1, i);
    BackToTree(s1, i);
    PutTwice(s, i, e, Activate(s1, i).ents[i]);
    Go(ts', s1, DoActivate(i), Activate(s1, i));
    ts' := ts' + [DoActivate(i)];
  }

  lemma NextRequest(s: State, i: nat, e: Ent)
    requires Inv(s) && i < |s.ents| && s.ents[i].place != Active && e == s.ents[i].(budget := e.budget)
    ensures Shape(s) && Enabled(s, Request(i, e)) && !Fatal(s, Request(i, e)) && Next(s, Request(i, e)) == Put(s, i, e)
  {
    hide IdleOk, CachesOk, Summed, Placed;
  }

  lemma BackToTree(s: State, i: nat)
    requires Shape(s) && i < |s.ents| && OnIdleTree(s, i) && Shape(Detach(s, i)) && s.inService == Some(i)
    requires s.ents[i].weight == 8 && !s.ents[i].changed && s.ents[i].place == Off && !s.bug
    ensures
      var e := s.ents[i];
      var v := e.start + Delta(e.service, 8);
      Activate(s, i) == Put(s, i, e.(start := v, finish := v + Delta(e.budget, 8), place := Active)).(inService := None)
  {
    hide Delta;
    var e := s.ents[i];
    var v := e.start + Delta(e.service, 8);
    PutTwice(s, i, e.(start := v, finish := v), e.(start := v, finish := v + Delta(e.budget, 8), place := Active));
  }

  const V: int := 1398101

  /** Four active queues: the second was served and requeued, and the fourth joined after that. */
  function Queues(): seq<Ent> {
    [Q(0, 10 * U, 0, 80, true, Active), Q(U, 6 * U, 8, 40, true, Active), Q(0, 20 * U, 0, 160, true, Active),
     Q(V, V + 8 * U, 0, 64, true, Active)]
  }

  lemma Times()
    ensures Delta(80, 8) == 10 * U && Delta(8, 8) == U && Delta(160, 8) == 20 * U && Delta(64, 8) == 8 * U
    ensures Delta(40, 8) == 5 * U && Delta(8, 24) == V
  {
  }

  lemma FourActive() returns (ts: seq<Step>)
    ensures Leads(ts, One(Queues(), None, [], None, None, V, 32))
  {
    hide Leads, Inv, Shape, ForgetIdle, Delta, LeastStart, NoneActive;
    Times();
    ts := ThreeJoin(80, 8, 160, 64);
    var a, b, d, n := First(80), First(8), First(160), New(64);
    var s0 := One([a, b, d, n], None, [], None, None, 0, 24);
    Least(s0, 1, 0);
    ts := Picked(ts, s0, 1, 0);
    var s1 := One([a, Q(0, U, 0, 8, true, Off), d, n], Some(1), [], None, None, 0, 24);
    assert Put(s0, 1, b.(place := Off, service := 0)).(inService := Some(1)) == s1;
    ts := Worked(ts, s1, 8, V);
    var s2 := One([a, Q(0, U, 8, 8, true, Off), d, n], Some(1), [], None, None, V, 24);
    assert Given(s1, 8, V) == s2;
    NothingForgotten(s2, 1, 0);
    ts := Requeued(ts, s2, 1, 40);
    var ents := [a, Q(U, 6 * U, 8, 40, true, Active), d, n];
    assert Put(s2, 1, Q(U, 6 * U, 8, 40, true, Active)).(inService := None) == One(ents, None, [], None, None, V, 24);
    ts := JoinedIs(ts, ents, 3, 64, V, 24);
    assert ents[3 := Q(V, V + 8 * U, 0, 64, true, Active)] == Queues();
  }

  function Key(i: nat): T.Entity
    requires i < 4
  {
    E.Key(i, Queues()[i])
  }

  /** The tree that the insertions of these queues make; none of them turns it. */
  function MissingTree(): T.Tree { T.Hung(T.Hung(T.Hung(T.Hung(T.Nil, Key(0)), Key(2)), Key(1)), Key(3)) }

  lemma MissingTreeIs()
    ensures MissingTree() ==
      T.Node(T.Node(T.Nil, Key(1), V, T.Node(T.Nil, Key(3), V, T.Nil)), Key(0), 0, T.Node(T.Nil, Key(2), 0, T.Nil))
    ensures T.InOrder(MissingTree()) == [Key(1), Key(3), Key(0), Key(2)]
  {
    var c, d := T.Node(T.Nil, Key(3), V, T.Nil), T.Node(T.Nil, Key(2), 0, T.Nil);
    var t1 := T.Node(T.Nil, Key(0), 0, d);
    assert T.Hung(T.Hung(T.Nil, Key(0)), Key(2)) == t1;
    var b := T.Node(T.Nil, Key(1), U, T.Nil);
    var t2 := T.Node(b, Key(0), 0, d);
    assert T.Hung(t1, Key(1)) == t2;
    assert T.Hung(b, Key(3)) == T.Node(T.Nil, Key(1), V, c);
    assert T.Hung(t2, Key(3)) == T.Node(T.Node(T.Nil, Key(1), V, c), Key(0), 0, d);
    assert T.InOrder(c) == [Key(3)] && T.InOrder(d) == [Key(2)];
    assert T.InOrder(T.Node(T.Nil, Key(1), V, c)) == [Key(1), Key(3)];
  }

  lemma MissingTreeHolds()
    ensures E.TreeOk(MissingTree(), Queues(), 1) && T.BlackRoot(MissingTree(), 2) &&
            T.Different(T.InOrder(MissingTree()))
  {
    hide MissingTree, T.InOrder, E.Listed, T.Sorted, T.Different;
    MissingTreeIs();
    MissingTreeLists();
    var t := MissingTree();
    assert T.Exact(t.left) && T.Exact(t.right);
    assert T.BlackRoot(t.left, 1) && T.BlackRoot(t.right, 1);
  }

  lemma MissingTreeLists()
    ensures
      var l := [Key(1), Key(3), Key(0), Key(2)];
      T.Sorted(l) && T.Different(l) && E.Listed(l, Queues(), 1)
  {
    hide E.Listed, T.Sorted, T.Different;
    FourSorted(Key(1), Key(3), Key(0), Key(2));
    FourListed(Queues());
  }

  lemma FourSorted(a: T.Entity, b: T.Entity, c: T.Entity, d: T.Entity)
    requires a.finish < b.finish < c.finish < d.finish
    ensures T.Sorted([a, b, c, d]) && T.Different([a, b, c, d])
  {
  }

  lemma FourListed(ents: seq<Ent>)
    requires |ents| == 4 && forall i :: 0 <= i < 4 ==> E.On(ents[i], 1)
    ensures E.Listed([E.Key(1, ents[1]), E.Key(3, ents[3]), E.Key(0, ents[0]), E.Key(2, ents[2])], ents, 1)
  {
    hide E.On;
    var l := [E.Key(1, ents[1]), E.Key(3, ents[3]), E.Key(0, ents[0]), E.Key(2, ents[2])];
    assert l[0].id == 1 && l[1].id == 3 && l[2].id == 0 && l[3].id == 2;
    forall i | 0 <= i < 4
      ensures E.Key(i, ents[i]) in l
    {
      assert i == 0 || i == 1 || i == 2 || i == 3;
    }
  }

  lemma MissingTreeWalk()
    ensures
      var t := MissingTree();
      t.Node? && t.min <= V && T.Walk(t, V, None).0 == Some(Key(0)) && T.Best(Key(3), t, V)
  {
    MissingTreeIs();
    hide T.Hung, T.InOrder;
    var t := MissingTree();
    assert T.Walk(t.left, V, Some(t.e)) == (Some(t.e), t.left);
    assert Key(3) in [Key(1), Key(3), Key(0), Key(2)];
  }

  /** The comment above the walk promises the eligible entity that finishes first.  After a run from an empty
      scheduler, on the tree that its insertions make, it is passed over: the root is eligible, so once the
      walk has gone left it no longer looks to the right. */
  lemma WalkCanMissBest() returns (ts: seq<Step>, t: T.Tree)
    ensures CanReach(ts) && Shape(Reach(ts)) && Reach(ts).vtime[1] == V && |Reach(ts).ents| == 4
    ensures E.TreeOk(t, Reach(ts).ents, 1) && T.BlackRoot(t, 2) && t == MissingTree() && t.Node? && t.min <= V
    ensures T.Different(T.InOrder(t)) && T.Walk(t, V, None).0 == Some(Key(0)) && T.Best(Key(3), t, V)
  {
    ts := FourActive();
    LeadsTo(ts, One(Queues(), None, [], None, None, V, 32));
    Sound(ts, One(Queues(), None, [], None, None, V, 32));
    hide Leads, CanReach, Reach, Inv;
    t := MissingTree();
    MissingTreeHolds();
    MissingTreeWalk();
  }
}
