/**
 * struct vr_data and the functions that update it
 * (common/block/vr-iosched.c:73-306), proved to take the steps of VrRuns.
 */
module VrQueue {
  import opened SeqUtil
  import opened SortedTree
  import opened Vr
  import opened VrRuns

  class VrData {
    const conf: Conf
    var pos: map<nat, int>
    var due: map<nat, int>
    var sort: seq<nat>
    var sync: seq<nat>
    var async: seq<nat>
    var next: Option<nat>
    var prev: Option<nat>
    var last: int
    var forward: bool
    var nbatched: nat
    var now: int
    var out: seq<nat>

    function Abs(): State
      reads this
    {
      State(pos, due, sort, sync, async, next, prev, last, forward, nbatched, now, out)
    }

    ghost predicate Valid()
      reads this
    {
      Whole(Abs(), conf)
    }

    constructor (conf: Conf, now: int)
      ensures Valid() && this.conf == conf && Abs() == Init(now)
    {
      this.conf, this.now := conf, now;
      pos, due, sort, sync, async, out := map[], map[], [], [], [], [];
      next, prev, last, forward, nbatched := None, None, 0, true, 0;
      InitWhole(conf, now);
    }

    // The BUG_ONs about the two caches: both stay silent.
    method BugOn()
      requires Apart(Abs())
    {
      if next.Some? && next == prev {
        assert false;
      }
      if next.Some? && prev.Some? && pos[next.value] < pos[prev.value] {
        assert false;
      }
    }

    // vr_del_rq_rb
    method DelRqRb(x: nat)
      requires x in sort && Apart(Deleted(Abs(), x))
      modifies `next, `prev, `sort
      ensures Abs() == Deleted(old(Abs()), x)
    {
      hide Latter, Former, Without;
      if next == Some(x) {
        next := Latter(sort, x);
      } else if prev == Some(x) {
        prev := Former(sort, x);
      }
      BugOn();
      sort := Without(sort, x);
    }

    // vr_remove_request
    method RemoveRequest(x: nat)
      requires x in sort && Apart(Removed(Abs(), x))
      modifies `next, `prev, `sort, `sync, `async
      ensures Abs() == Removed(old(Abs()), x)
    {
      hide Deleted, Without;
      if x in sync {
        sync := Without(sync, x);
      }
      if x in async {
        async := Without(async, x);
      }
      DelRqRb(x);
    }

    method Turn(x: nat)
      requires x in sort && x in pos && Apart(Turned(Abs(), x))
      modifies `next, `prev, `last, `forward
      ensures Abs() == Turned(old(Abs()), x)
    {
      forward := pos[x] > last;
      last := pos[x];
      next := Latter(sort, x);
      prev := Former(sort, x);
      BugOn();
    }

    // vr_move_request
    method MoveRequest(x: nat)
      requires x in sort && Rising(sort, pos)
      modifies `next, `prev, `sort, `sync, `async, `last, `forward, `out, `nbatched
      ensures Abs() == Moved(old(Abs()), x)
    {
      MovedApart(Abs(), x);
      hide Removed, Turned, Rising, Apart;
      Turn(x);
      RemoveRequest(x);
      out := out + [x];
      nbatched := nbatched + 1;
    }

    // The beginning of vr_add_rq_rb: an alias is sent, and then there is none.
    method Settle(p: int, ghost extra: set<nat>)
      requires Ok(Abs(), extra)
      modifies `next, `prev, `sort, `sync, `async, `last, `forward, `out, `nbatched
      ensures forall y :: y in old(sort) ==> y in pos
      ensures Abs() == Settled(old(Abs()), p)
    {
      hide Ok, Alias, Moved, Rising;
      ghost var s := Abs();
      OkParts(s, extra);
      SettledOk(s, p, extra);
      OkParts(Settled(s, p), extra);
      AliasKnown(sort, pos, p);
      var alias := Alias(sort, pos, p);
      if alias.Some? {
        MoveRequest(alias.value);
        AliasGone(sort, pos, p);
        if Alias(sort, pos, p).Some? {
          assert false;
        }
      }
    }

    // The rest of it: into the tree, and into the cache if nearest.
    method Insert(x: nat)
      requires x in pos && forall y :: y in sort ==> y in pos
      requires (next.Some? ==> next.value in pos) && (prev.Some? ==> prev.value in pos)
      requires Apart(Inserted(Abs(), x))
      modifies `next, `prev, `sort
      ensures Abs() == Inserted(old(Abs()), x)
    {
      hide Rank, InsertAt, Apart;
      sort := InsertAt(sort, Rank(sort, pos, pos[x]), x);
      if pos[x] >= last {
        if next.None? || pos[next.value] > pos[x] {
          next := Some(x);
        }
      } else if prev.None? || pos[prev.value] < pos[x] {
        prev := Some(x);
      }
      BugOn();
    }

    // vr_add_rq_rb
    method AddRqRb(x: nat, ghost extra: set<nat>)
      requires Ok(Abs(), extra) && x in pos && x !in sort && x !in out
      modifies `next, `prev, `sort, `sync, `async, `last, `forward, `out, `nbatched
      ensures Abs() == AddedRb(old(Abs()), x, extra)
    {
      hide Ok, Settled, Inserted, Apart;
      AddedApart(Abs(), x, extra);
      Settle(pos[x], extra);
      Insert(x);
    }

    // vr_add_request
    method AddRequest(x: nat, p: int, isSync: bool)
      requires Valid() && x !in pos
      modifies this
      ensures Valid() && Abs() == Next(old(Abs()), conf, Add(x, p, isSync))
    {
      hide Ok, AddedRb, Whole;
      ghost var s := Abs();
      WholeOk(s, conf);
      StepKeeps(s, conf, Add(x, p, isSync));
      FreshOk(s, x, p);
      pos := pos[x := p];
      AddedRbOk(Abs(), x, {});
      AddRqRb(x, {} + {x});
      if (if isSync then conf.syncExpire else conf.asyncExpire) != 0 {
        if isSync {
          due := due[x := now + conf.syncExpire];
          sync := sync + [x];
        } else {
          due := due[x := now + conf.asyncExpire];
          async := async + [x];
        }
      }
    }

    // vr_merged_request, the start of x having moved to p
    method MergedRequest(x: nat, p: int)
      requires Valid() && x in sort
      modifies this
      ensures Valid() && Abs() == Next(old(Abs()), conf, Front(x, p))
    {
      hide Ok, AddedRb, Whole, Deleted, Apart;
      ghost var s := Abs();
      WholeOk(s, conf);
      StepKeeps(s, conf, Front(x, p));
      PulledOk(s, x, p);
      OkApart(Deleted(s.(pos := s.pos[x := p]), x), {} + {x});
      pos := pos[x := p];
      DelRqRb(x);
      AddRqRb(x, {} + {x});
    }

    // vr_merged_requests
    method MergedRequests(x: nat, y: nat)
      requires Valid() && x in sort && y in sort && x != y
      modifies this
      ensures Valid() && Abs() == Next(old(Abs()), conf, Swallow(x, y))
    {
      hide Ok, Whole, PutBehind, Removed, Apart;
      ghost var s := Abs();
      FifosDue(s, conf);
      StepKeeps(s, conf, Swallow(x, y));
      WholeOk(Next(s, conf, Swallow(x, y)), conf);
      OkApart(Next(s, conf, Swallow(x, y)), {});
      if x in sync + async && y in sync + async {
        if due[y] < due[x] {
          sync, async := PutBehind(sync, x, y), PutBehind(async, x, y);
          due := due[x := due[y]];
        }
      }
      RemoveRequest(y);
    }

    // vr_dispatch_requests
    method DispatchRequests() returns (sent: bool)
      requires Valid()
      modifies this
      ensures Valid() && Abs() == Next(old(Abs()), conf, Dispatch)
      ensures sent <==> old(sort) != []
    {
      hide Ok, Whole, CheckFifo, Choose, Moved, Rising;
      ghost var s := Abs();
      FifosDue(s, conf);
      WholeOk(s, conf);
      OkParts(s, {});
      CachesKnown(s, {});
      PickedQueued(s, conf);
      StepKeeps(s, conf, Dispatch);
      var rq := None;
      if nbatched > conf.fifoBatch {
        rq := CheckFifo(Abs());
        nbatched := 0;
      }
      if rq.None? {
        SameChoice(s, Abs(), conf);
        rq := Choose(Abs(), conf);
        if rq.None? {
          return false;
        }
      }
      MoveRequest(rq.value);
      return true;
    }
  }

  // The two cached requests differ, and next is not below prev.
  predicate Apart(s: State) {
    && (s.next.Some? ==> s.next != s.prev)
    && (s.next.Some? && s.prev.Some? ==>
          s.next.value in s.pos && s.prev.value in s.pos && s.pos[s.next.value] >= s.pos[s.prev.value])
  }

  lemma OkApart(s: State, extra: set<nat>)
    requires Ok(s, extra)
    ensures Apart(s)
  {
    OkParts(s, extra);
    hide Ok, Rising, FifoOk, OutOk;
  }

  lemma MovedApart(s: State, x: nat)
    requires Rising(s.sort, s.pos) && x in s.sort
    ensures x in s.pos && Apart(Turned(s, x)) && Apart(Removed(Turned(s, x), x))
  {
    MovedNearest(s, x);
    Neighbours(s.sort, s.pos, x);
    hide Latter, Former, Without, Cleared;
    var t := Moved(s, x);
    assert Nearest(t);
  }

  lemma AliasGone(sort: seq<nat>, pos: map<nat, int>, p: int)
    requires Rising(sort, pos) && forall y :: y in sort ==> pos[y] != p
    ensures Alias(sort, pos, p) == None
  {
    AliasIs(sort, pos, p);
    hide Alias;
  }

  lemma AddedApart(s: State, x: nat, extra: set<nat>)
    requires Ok(s, extra) && x in s.pos && x !in s.sort && x !in s.out
    ensures forall y :: y in s.sort ==> y in s.pos
    ensures var m := Settled(s, s.pos[x]);
            && m.pos == s.pos && (forall y :: y in m.sort ==> y in m.pos)
            && (m.next.Some? ==> m.next.value in m.pos) && (m.prev.Some? ==> m.prev.value in m.pos)
            && Apart(Inserted(m, x)) && AddedRb(s, x, extra) == Inserted(m, x)
  {
    hide Ok, Settled, Inserted, Apart;
    SettledOk(s, s.pos[x], extra);
    var m := Settled(s, s.pos[x]);
    OkMore(m, extra, extra + {x});
    InsertedOk(m, x, extra);
    OkApart(Inserted(m, x), extra);
    OkParts(m, extra);
  }

  lemma SameChoice(s: State, t: State, c: Conf)
    requires (s.next.Some? ==> s.next.value in s.pos) && (s.prev.Some? ==> s.prev.value in s.pos) &&
             t == s.(nbatched := t.nbatched)
    ensures Choose(t, c) == Choose(s, c)
  {
  }
}
