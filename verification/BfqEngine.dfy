/** struct bfq_sched_data and its service trees as the functions of common/block/bfq-sched.c update them,
    in the flat configuration.  Each active tree is an augmented search tree (module BfqTree); the rest of
    the state is that of module BfqSched, and every method is proved to take a step of that module, so that
    what is proved there of all runs holds here.  Where balancing turns the tree is left open. */
module BfqEngine {
  import opened SeqUtil
  import T = BfqTree
  import S = BfqSched

  /** What the active tree knows of an entity. */
  function Key(i: nat, e: S.Ent): T.Entity { T.Entity(i, e.start, e.finish) }

  predicate On(e: S.Ent, c: nat) { e.place == S.Active && e.cls == c }

  /** The list holds exactly the active entities of class `c`, each once, with their times. */
  ghost predicate Listed(l: seq<T.Entity>, ents: seq<S.Ent>, c: nat) {
    && (forall j, k :: 0 <= j < k < |l| ==> l[j].id != l[k].id)
    && (forall x :: x in l ==> x.id < |ents| && On(ents[x.id], c) && x == Key(x.id, ents[x.id]))
    && (forall i :: 0 <= i < |ents| && On(ents[i], c) ==> Key(i, ents[i]) in l)
  }

  ghost predicate TreeOk(t: T.Tree, ents: seq<S.Ent>, c: nat) {
    T.Exact(t) && T.Sorted(T.InOrder(t)) && Listed(T.InOrder(t), ents, c)
  }

  ghost predicate TreesOk(trees: seq<T.Tree>, ents: seq<S.Ent>) {
    |trees| == S.CLASSES && forall c :: 0 <= c < S.CLASSES ==> TreeOk(trees[c], ents, c)
  }

  // ---------- lists under change ----------

  lemma ListedSame(l: seq<T.Entity>, ents: seq<S.Ent>, now: seq<S.Ent>, c: nat)
    requires Listed(l, ents, c) && |ents| <= |now|
    requires forall i :: 0 <= i < |ents| && (On(ents[i], c) || On(now[i], c)) ==>
               On(ents[i], c) && On(now[i], c) && Key(i, ents[i]) == Key(i, now[i])
    requires forall i :: |ents| <= i < |now| ==> !On(now[i], c)
    ensures Listed(l, now, c)
  {
  }

  lemma ListedInsert(a: seq<T.Entity>, b: seq<T.Entity>, ents: seq<S.Ent>, i: nat, e: S.Ent, c: nat)
    requires i < |ents| && Listed(a + b, ents, c) && !On(ents[i], c) && On(e, c)
    ensures Listed(a + [Key(i, e)] + b, ents[i := e], c)
  {
    var l, r, now := a + b, a + [Key(i, e)] + b, ents[i := e];
    InsertedHas(a, Key(i, e), b);
    forall j, k | 0 <= j < k < |r|
      ensures r[j].id != r[k].id
    {
      var m, n := if j < |a| then j else j - 1, if k < |a| then k else k - 1;
      assert j != |a| ==> r[j] == l[m] && l[m] in l;
      assert k != |a| ==> r[k] == l[n] && l[n] in l;
    }
    forall k | 0 <= k < |now| && On(now[k], c)
      ensures Key(k, now[k]) in r
    {
      assert k != i ==> Key(k, ents[k]) in l;
    }
  }

  lemma InsertedHas(a: seq<T.Entity>, x: T.Entity, b: seq<T.Entity>)
    ensures forall y :: y in a + [x] + b <==> y in a + b || y == x
  {
  }

  lemma ListedRemove(a: seq<T.Entity>, x: T.Entity, b: seq<T.Entity>, ents: seq<S.Ent>, e: S.Ent, c: nat)
    requires x.id < |ents| && Listed(a + [x] + b, ents, c) && !On(e, c)
    ensures Listed(a + b, ents[x.id := e], c)
  {
    var l, r := a + [x] + b, a + b;
    assert l[|a|] == x;
    assert forall j :: 0 <= j < |r| ==> r[j] == l[if j < |a| then j else j + 1];
    forall y | y in l && y.id != x.id
      ensures y in r
    {
      var j :| 0 <= j < |l| && l[j] == y;
      assert r[if j < |a| then j else j - 1] == y;
    }
  }

  lemma TreesElsewhere(trees: seq<T.Tree>, ents: seq<S.Ent>, i: nat, e: S.Ent)
    requires TreesOk(trees, ents) && i < |ents| && ents[i].place != S.Active && e.place != S.Active
    ensures TreesOk(trees, ents[i := e])
  {
    forall c | 0 <= c < S.CLASSES
      ensures TreeOk(trees[c], ents[i := e], c)
    {
      assert TreeOk(trees[c], ents, c);
      ListedSame(T.InOrder(trees[c]), ents, ents[i := e], c);
    }
  }

  lemma EmptyTree(t: T.Tree, ents: seq<S.Ent>, c: nat)
    requires TreeOk(t, ents, c)
    ensures t == T.Nil <==> forall i :: 0 <= i < |ents| ==> !On(ents[i], c)
  {
    if t.Node? {
      assert t.e in T.InOrder(t);
    }
  }

  /** The value cached at the root is the least start time. */
  lemma RootIsLeast(t: T.Tree)
    requires t.Node? && T.Exact(t)
    ensures forall x :: x in T.InOrder(t) ==> t.min <= x.start
    ensures exists x :: x in T.InOrder(t) && x.start == t.min
  {
    forall x | x in T.InOrder(t)
      ensures t.min <= x.start
    {
      T.MinTellsEligible(t, x.start);
      assert T.Eligible(x, x.start);
    }
    T.MinTellsEligible(t, t.min);
    var x :| x in T.InOrder(t) && T.Eligible(x, t.min);
    assert x.start == t.min;
  }

  /** The node of an entity, and the way to it. */
  method Locate(t: T.Tree, up: T.Path, x: T.Entity) returns (node: T.Tree, p: T.Path)
    requires x in T.InOrder(t)
    ensures node.Node? && node.e == x && T.Plug(node, p) == T.Plug(t, up)
    decreases t
  {
    if t.e == x {
      return t, up;
    }
    if x in T.InOrder(t.left) {
      node, p := Locate(t.left, T.Step(T.Left, t.e, t.min, t.right, up), x);
    } else {
      node, p := Locate(t.right, T.Step(T.Right, t.e, t.min, t.left, up), x);
    }
  }

  class Engine {
    var ents: seq<S.Ent>
    var inService: Option<nat>
    var trees: seq<T.Tree>
    var idle: seq<seq<nat>>
    var firstIdle: seq<Option<nat>>
    var lastIdle: seq<Option<nat>>
    var vtime: seq<int>
    var wsum: seq<int>

    function Abs(): S.State
      reads this
    {
      S.State(ents, inService, idle, firstIdle, lastIdle, vtime, wsum, false)
    }

    ghost predicate Valid()
      reads this
    {
      S.Inv(Abs()) && TreesOk(trees, ents)
    }

    constructor ()
      ensures Valid() && Abs() == S.EMPTY
    {
      ents, inService, trees := [], None, [T.Nil, T.Nil, T.Nil];
      idle, firstIdle, lastIdle := [[], [], []], [None, None, None], [None, None, None];
      vtime, wsum := [0, 0, 0], [0, 0, 0];
      S.EmptyInv();
    }

    // ---------- trees ----------

    /** bfq_active_insert; `turn` is where balancing turns. */
    method ActiveInsert(i: nat, turn: int)
      requires TreesOk(trees, ents) && i < |ents| && ents[i].place == S.Off && ents[i].cls < S.CLASSES
      modifies `trees, `ents
      ensures ents == old(ents)[i := old(ents[i]).(place := S.Active)] && TreesOk(trees, ents)
    {
      var c := ents[i].cls;
      var e := ents[i].(place := S.Active);
      ghost var was, before := ents, trees;
      assert TreeOk(trees[c], ents, c);
      var t := T.ActiveInsert(trees[c], Key(i, e), turn);
      InsertedTrees(was, before, i, t);
      trees := trees[c := t];
      ents := ents[i := e];
    }

    /** bfq_active_extract; balancing turns at `depths` and `last`. */
    method ActiveExtract(i: nat, depths: seq<nat>, last: int)
      requires TreesOk(trees, ents) && i < |ents| && ents[i].place == S.Active && ents[i].cls < S.CLASSES
      modifies `trees, `ents
      ensures ents == old(ents)[i := old(ents[i]).(place := S.Off)] && TreesOk(trees, ents)
    {
      var c := ents[i].cls;
      ghost var was, before := ents, trees;
      assert TreeOk(trees[c], ents, c);
      var node, p := Locate(trees[c], T.Top, Key(i, ents[i]));
      var t := T.ActiveExtract(node, p, depths, last);
      ExtractedTrees(was, before, i, t);
      trees := trees[c := t];
      ents := ents[i := ents[i].(place := S.Off)];
    }

    // ---------- parts of activation ----------

    /** bfq_idle_extract. */
    method IdleExtract(i: nat)
      requires S.Shape(Abs()) && i < |ents| && i in idle[ents[i].cls] && ents[i].place == S.Idle && TreesOk(trees, ents)
      modifies `ents, `idle, `firstIdle, `lastIdle
      ensures Abs() == S.IdleExtract(old(Abs()), i) && TreesOk(trees, ents)
    {
      hide TreesOk;
      var c := ents[i].cls;
      var k := IndexOf(idle[c], i);
      if firstIdle[c] == Some(i) {
        firstIdle := firstIdle[c := if k + 1 < |idle[c]| then Some(idle[c][k + 1]) else None];
      }
      if lastIdle[c] == Some(i) {
        lastIdle := lastIdle[c := if k > 0 then Some(idle[c][k - 1]) else None];
      }
      idle := idle[c := Without(idle[c], i)];
      TreesElsewhere(trees, ents, i, ents[i].(place := S.Off));
      ents := ents[i := ents[i].(place := S.Off)];
    }

    /** bfq_idle_insert. */
    method IdleInsert(i: nat)
      requires S.Shape(Abs()) && i < |ents| && ents[i].place == S.Off && TreesOk(trees, ents)
      modifies `ents, `idle, `firstIdle, `lastIdle
      ensures Abs() == S.IdleInsert(old(Abs()), i) && TreesOk(trees, ents)
    {
      hide TreesOk, S.InsertIdle;
      var c := ents[i].cls;
      if firstIdle[c] == None || ents[firstIdle[c].value].finish > ents[i].finish {
        firstIdle := firstIdle[c := Some(i)];
      }
      if lastIdle[c] == None || ents[i].finish > ents[lastIdle[c].value].finish {
        lastIdle := lastIdle[c := Some(i)];
      }
      idle := idle[c := S.InsertIdle(ents, idle[c], i)];
      TreesElsewhere(trees, ents, i, ents[i].(place := S.Idle));
      ents := ents[i := ents[i].(place := S.Idle)];
    }

    /** __bfq_entity_update_weight_prio, for an entity that is on no tree. */
    method UpdateWeight(i: nat)
      requires S.Shape(Abs()) && i < |ents| && ents[i].place == S.Off && TreesOk(trees, ents)
      requires !S.UpdateWeight(Abs(), i).bug
      modifies `ents, `wsum
      ensures Abs() == S.UpdateWeight(old(Abs()), i) && TreesOk(trees, ents)
    {
      hide TreesOk, S.Reweighed;
      SameNewClass(ents[i]);
      var e := ents[i];
      if !e.changed {
        return;
      }
      wsum := wsum[e.cls := wsum[e.cls] - e.weight];
      var e1 := S.Reweighed(e);
      wsum := wsum[e1.cls := wsum[e1.cls] + e1.weight];
      if e1.cls != e.cls {
        e1 := e1.(start := vtime[e1.cls]);
      }
      TreesElsewhere(trees, ents, i, e1);
      ents := ents[i := e1];
    }

    /** The beginning of __bfq_activate_entity. */
    method Detach(i: nat, depths: seq<nat>, last: int)
      requires Valid() && i < |ents|
      modifies this
      ensures S.OnIdleTree(old(Abs()), i) && S.Shape(old(Abs()))
      ensures Abs() == S.Detach(old(Abs()), i) && S.InvBut(Abs(), i) && TreesOk(trees, ents)
      ensures |ents| == old(|ents|)
    {
      hide TreesOk, S.InvBut, S.Placed, S.IdleExtract;
      ghost var s := Abs();
      S.DetachKeeps(s, i);
      Known(s, i);
      var e := ents[i];
      if inService == Some(i) {
        var (f, b) := S.CalcFinish(e, e.service);
        inService := None;
        TreesElsewhere(trees, ents, i, f.(start := f.finish));
        ents := ents[i := f.(start := f.finish)];
      } else if e.place == S.Active {
        ActiveExtract(i, depths, last);
      } else if e.place == S.Idle {
        IdleExtract(i);
        ExtractedOnly(s, i);
        var f := ents[i].(start := if vtime[e.cls] > e.finish then vtime[e.cls] else e.finish);
        TreesElsewhere(trees, ents, i, f);
        ents := ents[i := f];
      } else {
        wsum := wsum[e.cls := wsum[e.cls] + e.weight];
        TreesElsewhere(trees, ents, i, e.(start := vtime[e.cls], onSt := true));
        ents := ents[i := e.(start := vtime[e.cls], onSt := true)];
      }
    }

    /** __bfq_activate_entity. */
    method Activate(i: nat, depths: seq<nat>, last: int, turn: int)
      requires Valid() && i < |ents| && !S.FatalUpdate(ents[i])
      modifies this
      ensures Valid() && Abs() == S.Next(old(Abs()), S.DoActivate(i))
    {
      hide TreesOk, S.InvBut, S.Detach, S.UpdateWeight;
      ghost var s := Abs();
      S.ActivateKeeps(s, i);
      Detached(s, i);
      Detach(i, depths, last);
      S.UpdateKeeps(Abs(), i);
      InTransit(Abs(), i);
      UpdatedSize(Abs(), i);
      InTransit(S.UpdateWeight(Abs(), i), i);
      UpdateWeight(i);
      ghost var was := ents;
      var (e, b) := S.CalcFinish(ents[i], ents[i].budget);
      TreesElsewhere(trees, ents, i, e);
      ents := ents[i := e];
      ActiveInsert(i, turn);
      assert ents == was[i := e.(place := S.Active)];
    }

    /** bfq_updated_next_req: a new budget for an active queue. */
    method Rebudget(i: nat, budget: nat, depths: seq<nat>, last: int, turn: int)
      requires Valid() && i < |ents| && ents[i].place == S.Active && !S.FatalUpdate(ents[i])
      modifies this
      ensures Valid() && Abs() == S.Next(old(Abs()), S.DoRebudget(i, budget))
    {
      hide TreesOk, S.InvBut, S.Activate;
      ghost var s := Abs();
      S.RebudgetKeeps(s, i, budget);
      NewBudget(s, i, budget);
      RequestedTrees(trees, ents, i, ents[i].(budget := budget));
      ents := ents[i := ents[i].(budget := budget)];
      Activate(i, depths, last, turn);
    }

    // ---------- leaving ----------

    /** bfq_forget_entity. */
    method Forget(i: nat)
      requires S.Shape(Abs()) && i < |ents| && ents[i].place == S.Off && TreesOk(trees, ents) && ents[i].onSt
      modifies `ents, `wsum
      ensures Abs() == S.ForgetEntity(old(Abs()), i) && TreesOk(trees, ents)
    {
      hide TreesOk;
      wsum := wsum[ents[i].cls := wsum[ents[i].cls] - ents[i].weight];
      TreesElsewhere(trees, ents, i, ents[i].(onSt := false));
      ents := ents[i := ents[i].(onSt := false)];
    }

    /** The beginning of __bfq_deactivate_entity. */
    method Withdraw(i: nat, depths: seq<nat>, last: int)
      requires Valid() && i < |ents| && ents[i].onSt
      modifies this
      ensures S.OnIdleTree(old(Abs()), i) && S.Shape(old(Abs()))
      ensures Abs() == S.Withdraw(old(Abs()), i) && S.InvBut(Abs(), i) && TreesOk(trees, ents)
      ensures |ents| == old(|ents|)
    {
      hide TreesOk, S.InvBut, S.Placed, S.IdleExtract;
      ghost var s := Abs();
      S.WithdrawKeeps(s, i);
      Known(s, i);
      var e := ents[i];
      if inService == Some(i) {
        var (f, b) := S.CalcFinish(e, e.service);
        inService := None;
        TreesElsewhere(trees, ents, i, f);
        ents := ents[i := f];
      } else if e.place == S.Active {
        ActiveExtract(i, depths, last);
      } else if e.place == S.Idle {
        ExtractedOnly(s, i);
        IdleExtract(i);
      }
    }

    /** __bfq_deactivate_entity. */
    method Deactivate(i: nat, requeue: bool, depths: seq<nat>, last: int)
      requires Valid() && i < |ents|
      modifies this
      ensures Valid() && Abs() == S.Next(old(Abs()), S.DoDeactivate(i, requeue))
    {
      hide TreesOk, S.InvBut, S.Withdraw, S.IdleInsert, S.ForgetEntity;
      ghost var s := Abs();
      S.DeactivateKeeps(s, i, requeue);
      if !ents[i].onSt {
        return;
      }
      Withdraw(i, depths, last);
      InTransit(Abs(), i);
      if !requeue || ents[i].finish <= vtime[ents[i].cls] {
        Forget(i);
      } else {
        IdleInsert(i);
      }
    }

    // ---------- time ----------

    /** bfq_forget_idle. */
    method ForgetIdle(c: nat)
      requires Valid() && c < S.CLASSES
      modifies `ents, `idle, `firstIdle, `lastIdle, `vtime, `wsum
      ensures Valid() && Abs() == S.Next(old(Abs()), S.DoForget(c)) && |ents| == old(|ents|)
    {
      hide TreesOk, S.InvBut, S.IdleExtract, S.ForgetEntity;
      ghost var s := Abs();
      S.Wide(s);
      S.ForgetIdleKeeps(s, c);
      S.ForgetIdleFrame(s, c);
      S.VtimeKeeps(s, c, S.PulledVtime(s, c));
      EmptyClass(trees, ents, c);
      var first, last := firstIdle[c], lastIdle[c];
      if trees[c] == T.Nil && last.Some? && ents[last.value].finish <= vtime[c] {
        vtime := vtime[c := ents[last.value].finish];
      }
      assert vtime == s.vtime[c := S.PulledVtime(s, c)];
      if first.Some? && ents[first.value].finish <= vtime[c] {
        ghost var m := Abs();
        S.FirstIsIdle(m, c);
        S.IdleExtractKeeps(m, first.value);
        Known(m, first.value);
        ExtractedOnly(m, first.value);
        IdleExtract(first.value);
        InTransit(Abs(), first.value);
        Forget(first.value);
      }
    }

    /** bfq_bfqq_served. */
    method Serve(amount: nat)
      requires Valid() && inService.Some?
      modifies this
      ensures Valid() && Abs() == S.Next(old(Abs()), S.DoServe(amount))
    {
      hide TreesOk, S.InvBut, S.ForgetIdle, S.Delta;
      ghost var s := Abs();
      S.Wide(s);
      var i := inService.value;
      Known(s, i);
      S.ServeKeeps(s, amount);
      S.ServiceKeeps(s, 0, 0);
      var c := ents[i].cls;
      var dv := S.Delta(amount, wsum[c]);
      S.ServedKeepsInv(s, amount, dv);
      TreesElsewhere(trees, ents, i, ents[i].(service := ents[i].service + amount));
      ents := ents[i := ents[i].(service := ents[i].service + amount)];
      vtime := vtime[c := vtime[c] + dv];
      ForgetIdle(c);
    }

    // ---------- selection ----------

    /** bfq_update_vtime. */
    method UpdateVtime(c: nat)
      requires Valid() && c < S.CLASSES && |trees| == S.CLASSES && trees[c].Node?
      modifies `ents, `idle, `firstIdle, `lastIdle, `vtime, `wsum
      ensures Valid() && Abs() == S.UpdateVtime(old(Abs()), c, trees[c].min)
    {
      hide TreesOk, S.InvBut, S.ForgetIdle;
      ghost var s := Abs();
      S.Wide(s);
      var m := trees[c].min;
      if m > vtime[c] {
        S.VtimeKeeps(s, c, m);
        vtime := vtime[c := m];
        ForgetIdle(c);
      }
    }

    /** __bfq_lookup_next_entity on the tree of class `c`, and what bfq_lookup_next_entity and
        bfq_get_next_queue do with the entity it finds. */
    method Take(c: nat, depths: seq<nat>, last: int) returns (i: nat)
      requires Valid() && inService.None? && c < S.CLASSES && |trees| == S.CLASSES && trees[c].Node?
      requires forall d :: 0 <= d < c ==> S.NoneActive(Abs(), d)
      modifies this
      ensures Valid()
      ensures S.Enabled(old(Abs()), S.DoSelect(i, old(trees[c].min)))
      ensures Abs() == S.Next(old(Abs()), S.DoSelect(i, old(trees[c].min)))
    {
      hide TreesOk, S.InvBut, S.UpdateVtime, S.LeastStart, S.NoneActive, S.Enabled, S.Next;
      ghost var s, m := Abs(), trees[c].min;
      LeastIs(s, trees, c);
      S.UpdateVtimeKeeps(s, c, m);
      VtimeAfter(s, c, m);
      UpdateVtime(c);
      TreeIs(trees, ents, c);
      var first, stop := T.FirstActive(trees[c], vtime[c]);
      i := first.value.id;
      Chosen(s, Abs(), trees, c, first.value);
      SelectedIs(s, i, m);
      PutInService(i, depths, last);
    }

    method PutInService(i: nat, depths: seq<nat>, last: int)
      requires TreesOk(trees, ents) && i < |ents| && ents[i].place == S.Active && ents[i].cls < S.CLASSES
      modifies `trees, `ents, `inService
      ensures ents == old(ents)[i := old(ents[i]).(place := S.Off, service := 0)] && inService == Some(i) &&
              TreesOk(trees, ents)
    {
      hide TreesOk;
      ActiveExtract(i, depths, last);
      TreesElsewhere(trees, ents, i, ents[i].(service := 0));
      ents := ents[i := ents[i].(service := 0)];
      inService := Some(i);
    }

    /** bfq_get_next_queue: the first class with an active entity gives the next one. */
    method GetNext(depths: seq<nat>, last: int) returns (r: Option<nat>)
      requires Valid() && inService.None?
      modifies this
      ensures Valid()
      ensures r.None? <==> forall d :: 0 <= d < S.CLASSES ==> S.NoneActive(old(Abs()), d)
      ensures r.None? ==> Abs() == old(Abs())
      ensures r.Some? ==> exists m :: S.Enabled(old(Abs()), S.DoSelect(r.value, m))
                                      && Abs() == S.Next(old(Abs()), S.DoSelect(r.value, m))
    {
      hide TreesOk, S.Inv, S.Next;
      var c := 0;
      while c < S.CLASSES
        invariant c <= S.CLASSES && Valid() && Abs() == old(Abs()) && inService.None?
        invariant forall d :: 0 <= d < c ==> S.NoneActive(Abs(), d)
      {
        EmptyClass(trees, ents, c);
        if trees[c].Node? {
          ghost var m := trees[c].min;
          assert !S.NoneActive(Abs(), c);
          var i := Take(c, depths, last);
          assert S.Enabled(old(Abs()), S.DoSelect(i, m));
          return Some(i);
        }
        c := c + 1;
      }
      return None;
    }

    // ---------- requests from outside ----------

    /** A queue is allocated. */
    method Create(ioprio: nat, cls: nat)
      requires Valid() && ioprio < S.IOPRIO_BE_NR && cls < S.CLASSES
      modifies `ents
      ensures Valid() && Abs() == S.Next(old(Abs()), S.Create(ioprio, cls))
    {
      hide TreesOk, S.InvBut;
      S.CreateKeeps(Abs(), ioprio, cls);
      MoreEnts(trees, ents, S.NewEnt(ioprio, cls));
      ents := ents + [S.NewEnt(ioprio, cls)];
    }

    /** Other code sets the fields that the next update of entity `i` looks at. */
    method Request(i: nat, e: S.Ent)
      requires Valid() && S.Enabled(Abs(), S.Request(i, e))
      modifies `ents
      ensures Valid() && Abs() == S.Next(old(Abs()), S.Request(i, e))
    {
      hide TreesOk, S.InvBut;
      S.RequestKeeps(Abs(), i, e);
      RequestedTrees(trees, ents, i, e);
      ents := ents[i := e];
    }

    /** The end of an iteration of __bfq_dispatch_requests for a boosted queue. */
    method Decay(amount: nat, timely: bool)
      requires Valid() && inService.Some? && !S.Fatal(Abs(), S.DoDecay(amount, timely))
      modifies `ents, `wsum
      ensures Valid() && Abs() == S.Next(old(Abs()), S.DoDecay(amount, timely))
    {
      hide TreesOk, S.InvBut, S.UpdateWeight;
      ghost var s := Abs();
      S.Wide(s);
      S.DecayKeeps(s, amount, timely);
      var i := inService.value;
      Known(s, i);
      if ents[i].boost > 0 {
        TreesElsewhere(trees, ents, i, S.Decayed(ents[i], amount, timely));
        ents := ents[i := S.Decayed(ents[i], amount, timely)];
        NoBug(S.Decay(s, amount, timely));
        UpdateWeight(i);
      }
    }
  }

  lemma MoreEnts(trees: seq<T.Tree>, ents: seq<S.Ent>, e: S.Ent)
    requires TreesOk(trees, ents) && e.place == S.Off
    ensures TreesOk(trees, ents + [e])
  {
    hide T.Exact, T.Sorted, T.InOrder;
    forall c | 0 <= c < S.CLASSES
      ensures TreeOk(trees[c], ents + [e], c)
    {
      assert TreeOk(trees[c], ents, c);
      ListedSame(T.InOrder(trees[c]), ents, ents + [e], c);
    }
  }

  lemma RequestedTrees(trees: seq<T.Tree>, ents: seq<S.Ent>, i: nat, e: S.Ent)
    requires TreesOk(trees, ents) && i < |ents| && S.Requested(ents[i], e)
    ensures TreesOk(trees, ents[i := e])
  {
    hide T.Exact, T.Sorted, T.InOrder, S.InRange;
    forall c | 0 <= c < S.CLASSES
      ensures TreeOk(trees[c], ents[i := e], c)
    {
      assert TreeOk(trees[c], ents, c);
      ListedSame(T.InOrder(trees[c]), ents, ents[i := e], c);
    }
  }

  lemma NoBug(s: S.State)
    requires S.Inv(s)
    ensures !s.bug
  {
  }

  lemma TreeIs(trees: seq<T.Tree>, ents: seq<S.Ent>, c: nat)
    requires TreesOk(trees, ents) && c < S.CLASSES
    ensures |trees| == S.CLASSES && T.Exact(trees[c]) && T.Sorted(T.InOrder(trees[c])) &&
            Listed(T.InOrder(trees[c]), ents, c)
  {
    assert TreeOk(trees[c], ents, c);
  }

  lemma LeastIs(s: S.State, trees: seq<T.Tree>, c: nat)
    requires TreesOk(trees, s.ents) && c < S.CLASSES && trees[c].Node?
    ensures S.LeastStart(s, c, trees[c].min)
  {
    TreeIs(trees, s.ents, c);
    hide TreesOk, T.Exact, T.Sorted;
    RootIsLeast(trees[c]);
    hide T.InOrder;
    var x :| x in T.InOrder(trees[c]) && x.start == trees[c].min;
    assert On(s.ents[x.id], c) && s.ents[x.id].start == trees[c].min;
    forall i | 0 <= i < |s.ents| && On(s.ents[i], c)
      ensures trees[c].min <= s.ents[i].start
    {
      assert Key(i, s.ents[i]) in T.InOrder(trees[c]);
    }
  }

  lemma VtimeAfter(s: S.State, c: nat, m: int)
    requires S.Inv(s) && c < S.CLASSES && S.LeastStart(s, c, m)
    ensures S.Shape(s) && S.Shape(S.UpdateVtime(s, c, m))
    ensures S.UpdateVtime(s, c, m).vtime[c] == if m > s.vtime[c] then m else s.vtime[c]
  {
    hide S.ForgetIdle, S.InvBut;
    S.Wide(s);
    S.UpdateVtimeKeeps(s, c, m);
    S.Wide(S.UpdateVtime(s, c, m));
    if m > s.vtime[c] {
      S.VtimeKeeps(s, c, m);
      S.ForgetIdleFrame(s.(vtime := s.vtime[c := m]), c);
    }
  }

  /** The entity the walk returns may be selected. */
  lemma Chosen(s: S.State, t: S.State, trees: seq<T.Tree>, c: nat, x: T.Entity)
    requires S.Inv(s) && c < S.CLASSES && |trees| == S.CLASSES && trees[c].Node? && s.inService.None?
    requires S.LeastStart(s, c, trees[c].min) && t == S.UpdateVtime(s, c, trees[c].min) && S.Shape(s) && S.Shape(t)
    requires |t.ents| == |s.ents|
    requires forall i :: 0 <= i < |s.ents| && s.ents[i].place == S.Active ==> t.ents[i] == s.ents[i]
    requires t.vtime[c] == if trees[c].min > s.vtime[c] then trees[c].min else s.vtime[c]
    requires TreesOk(trees, s.ents) && x in T.InOrder(trees[c]) && T.Eligible(x, t.vtime[c])
    requires forall d :: 0 <= d < c ==> S.NoneActive(s, d)
    ensures x.id < |s.ents| && s.ents[x.id].place == S.Active && s.ents[x.id].cls == c && t.ents[x.id] == s.ents[x.id]
    ensures S.Enabled(s, S.DoSelect(x.id, trees[c].min))
  {
    hide S.InvBut, S.UpdateVtime, T.Exact, T.Sorted, T.InOrder;
    TreeIs(trees, s.ents, c);
  }

  lemma SelectedIs(s: S.State, i: nat, m: int)
    requires S.Inv(s) && S.Enabled(s, S.DoSelect(i, m))
    ensures S.LeastStart(s, s.ents[i].cls, m) && S.Inv(S.Next(s, S.DoSelect(i, m))) &&
            |S.UpdateVtime(s, s.ents[i].cls, m).ents| == |s.ents|
    ensures
      var t := S.UpdateVtime(s, s.ents[i].cls, m);
      S.Next(s, S.DoSelect(i, m)) == S.Put(t, i, t.ents[i].(place := S.Off, service := 0)).(inService := Some(i))
  {
    hide S.InvBut, S.UpdateVtime, S.LeastStart, S.NoneActive;
    S.SelectKeeps(s, i, m);
    S.Wide(s);
    S.UpdateVtimeKeeps(s, s.ents[i].cls, m);
  }

  lemma EmptyClass(trees: seq<T.Tree>, ents: seq<S.Ent>, c: nat)
    requires TreesOk(trees, ents) && c < S.CLASSES
    ensures |trees| == S.CLASSES && (trees[c] == T.Nil <==> forall i :: 0 <= i < |ents| ==> !On(ents[i], c))
  {
    EmptyTree(trees[c], ents, c);
  }

  lemma SameNewClass(e: S.Ent)
    ensures S.Reweighed(e).cls == e.newCls && S.Reweighed(e).place == e.place && S.Reweighed(e).start == e.start
  {
  }

  lemma Known(s: S.State, i: nat)
    requires S.Inv(s) && i < |s.ents|
    ensures S.Shape(s) && s.ents[i].cls < S.CLASSES && (s.inService == Some(i) ==> s.ents[i].place == S.Off)
    ensures s.ents[i].place == S.Idle ==> i in s.idle[s.ents[i].cls]
  {
    S.IdleIsListed(s, i);
  }

  lemma ExtractedOnly(s: S.State, i: nat)
    requires S.Shape(s) && i < |s.ents| && i in s.idle[s.ents[i].cls]
    ensures var t := S.IdleExtract(s, i);
            t.ents == s.ents[i := s.ents[i].(place := S.Off)] && t.vtime == s.vtime && t.inService == s.inService &&
              t.wsum == s.wsum
            && t.bug == s.bug
  {
  }

  lemma Detached(s: S.State, i: nat)
    requires S.Inv(s) && i < |s.ents|
    ensures S.Shape(s) && S.OnIdleTree(s, i) && |S.Detach(s, i).ents| == |s.ents|
    ensures S.FatalUpdate(S.Detach(s, i).ents[i]) == S.FatalUpdate(s.ents[i])
  {
    S.DetachKeeps(s, i);
    S.DetachedOnly(s, i);
  }

  lemma NewBudget(s: S.State, i: nat, budget: nat)
    requires S.Inv(s) && i < |s.ents|
    ensures S.Requested(s.ents[i], s.ents[i].(budget := budget))
  {
  }

  lemma UpdatedSize(s: S.State, i: nat)
    requires S.Shape(s) && i < |s.ents|
    ensures |S.UpdateWeight(s, i).ents| == |s.ents|
  {
  }

  lemma InTransit(s: S.State, i: nat)
    requires S.InvBut(s, i) && i < |s.ents|
    ensures S.Shape(s) && !s.bug && s.ents[i].place == S.Off && s.ents[i].cls < S.CLASSES && s.ents[i].onSt
  {
  }

  lemma InsertedTrees(ents: seq<S.Ent>, trees: seq<T.Tree>, i: nat, t: T.Tree)
    requires TreesOk(trees, ents) && i < |ents| && ents[i].place == S.Off && ents[i].cls < S.CLASSES
    requires T.Exact(t) && T.Sorted(T.InOrder(t))
    requires exists a, b ::
               T.InOrder(trees[ents[i].cls]) == a + b
               && T.InOrder(t) == a + [Key(i, ents[i].(place := S.Active))] + b
    ensures TreesOk(trees[ents[i].cls := t], ents[i := ents[i].(place := S.Active)])
  {
    hide T.Exact, T.Sorted, T.InOrder;
    var e := ents[i].(place := S.Active);
    var a, b :| T.InOrder(trees[ents[i].cls]) == a + b && T.InOrder(t) == a + [Key(i, e)] + b;
    assert TreeOk(trees[e.cls], ents, e.cls);
    ListedInsert(a, b, ents, i, e, e.cls);
    OtherTrees(ents, trees, i, e);
  }

  lemma ExtractedTrees(ents: seq<S.Ent>, trees: seq<T.Tree>, i: nat, t: T.Tree)
    requires TreesOk(trees, ents) && i < |ents| && ents[i].place == S.Active && ents[i].cls < S.CLASSES
    requires T.Exact(t) && T.Sorted(T.InOrder(t))
    requires exists a, b :: T.InOrder(trees[ents[i].cls]) == a + [Key(i, ents[i])] + b && T.InOrder(t) == a + b
    ensures TreesOk(trees[ents[i].cls := t], ents[i := ents[i].(place := S.Off)])
  {
    hide T.Exact, T.Sorted, T.InOrder;
    var e := ents[i].(place := S.Off);
    var a, b :| T.InOrder(trees[ents[i].cls]) == a + [Key(i, ents[i])] + b && T.InOrder(t) == a + b;
    assert TreeOk(trees[e.cls], ents, e.cls);
    ListedRemove(a, Key(i, ents[i]), b, ents, e, e.cls);
    OtherTrees(ents, trees, i, e);
  }

  /** Moving an entity on or off the tree of its class leaves the other trees alone. */
  lemma OtherTrees(ents: seq<S.Ent>, trees: seq<T.Tree>, i: nat, e: S.Ent)
    requires TreesOk(trees, ents) && i < |ents| && e.cls == ents[i].cls
    ensures forall c :: 0 <= c < S.CLASSES && c != e.cls ==> TreeOk(trees[c], ents[i := e], c)
  {
    hide T.Exact, T.Sorted, T.InOrder;
    forall c | 0 <= c < S.CLASSES && c != e.cls
      ensures TreeOk(trees[c], ents[i := e], c)
    {
      assert TreeOk(trees[c], ents, c);
      ListedSame(T.InOrder(trees[c]), ents, ents[i := e], c);
    }
  }
}
