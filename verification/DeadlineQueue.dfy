/**
 * struct deadline_data and the functions that update it
 * (common/block/deadline-iosched.c:77-327), proved to take the steps of module
 * Deadline and so to keep what DeadlineRuns proves of every run.
 */
module DeadlineQueue {
  import opened SeqUtil
  import opened SortedTree
  import opened Deadline
  import opened DeadlineRuns

  class DeadlineData {
    const conf: Conf
    var pos: map<nat, int>
    var due: map<nat, int>
    var rd: Side
    var wr: Side
    var batching: nat
    var starved: nat
    var now: int
    var out: seq<nat>

    function Abs(): State
      reads this
    {
      State(pos, due, rd, wr, batching, starved, now, out)
    }

    ghost predicate Valid()
      reads this
    {
      Whole(Abs(), conf)
    }

    constructor (conf: Conf, now: int)
      ensures Valid() && this.conf == conf && Abs() == Init(now)
    {
      this.conf, this.now := conf, now;
      pos, due, rd, wr := map[], map[], Side([], [], None), Side([], [], None);
      batching, starved, out := 0, 0, [];
      InitWhole(conf, now);
    }

    method Set(d: Dir, side: Side)
      modifies `rd, `wr
      ensures Abs() == With(old(Abs()), d, side)
    {
      if d.Read? {
        rd := side;
      } else {
        wr := side;
      }
    }

    // deadline_remove_request
    method Remove(d: Dir, x: nat)
      requires x in Of(Abs(), d).sort && x in Of(Abs(), d).fifo
      modifies `rd, `wr
      ensures Abs() == With(old(Abs()), d, Taken(Of(old(Abs()), d), x))
    {
      hide Without, Latter;
      var side := if d.Read? then rd else wr;
      side := side.(fifo := Without(side.fifo, x));
      if side.next == Some(x) {
        side := side.(next := Latter(side.sort, x));
      }
      side := side.(sort := Without(side.sort, x));
      Set(d, side);
    }

    // deadline_move_request
    method MoveRequest(d: Dir, x: nat)
      requires x in Of(Abs(), d).sort && x in Of(Abs(), d).fifo
      modifies `rd, `wr, `out
      ensures Abs() == Move(old(Abs()), d, x)
    {
      hide Without, Latter, Taken;
      rd, wr := rd.(next := None), wr.(next := None);
      var side := if d.Read? then rd else wr;
      Set(d, side.(next := Latter(side.sort, x)));
      Remove(d, x);
      out := out + [x];
    }

    // The loop of deadline_add_rq_rb, which an alias makes turn at most once.
    method Settle(d: Dir, p: int, ghost extra: set<nat>, ghost limit: int)
      requires Ok(Abs(), d, extra, limit)
      modifies `rd, `wr, `out
      ensures forall y :: y in Of(old(Abs()), d).sort ==> y in old(pos) && y in Of(old(Abs()), d).fifo
      ensures Abs() == Settled(old(Abs()), d, p)
      ensures Ok(Abs(), d, extra, limit)
    {
      hide Ok, Alias, Move;
      ghost var s := Abs();
      SortKnown(s, d, extra, limit);
      SettledOk(s, d, p, extra, limit);
      SettledOk(Settled(s, d, p), d, p, extra, limit);
      NoAliasLeft(s, d, p, extra, limit);
      var side := if d.Read? then rd else wr;
      var alias := Alias(side.sort, pos, p);
      ghost var turns := 0;
      while alias.Some?
        invariant side == Of(Abs(), d) && Ok(Abs(), d, extra, limit) && pos == s.pos
        invariant turns == 0 || turns == 1
        invariant turns == 0 ==> Abs() == s
        invariant turns == 1 ==> Abs() == Settled(s, d, p)
        invariant (forall y :: y in side.sort ==> y in pos) && alias == Alias(side.sort, pos, p)
        invariant turns == 1 ==> alias == None
        decreases 1 - turns
      {
        AliasQueued(Abs(), d, p, extra, limit);
        MoveRequest(d, alias.value);
        side := if d.Read? then rd else wr;
        SortKnown(Abs(), d, extra, limit);
        alias := Alias(side.sort, pos, p);
        turns := turns + 1;
      }
    }

    method Place(d: Dir, x: nat)
      requires x in pos && forall y :: y in Of(Abs(), d).sort ==> y in pos
      modifies `rd, `wr
      ensures Abs() == Placed(old(Abs()), d, x)
    {
      hide InsertAt;
      var side := if d.Read? then rd else wr;
      Set(d, side.(sort := InsertAt(side.sort, Rank(side.sort, pos, pos[x]), x)));
    }

    // deadline_add_request
    method AddRequest(d: Dir, x: nat, p: int)
      requires Valid() && Fresh(Abs(), x)
      modifies this
      ensures Valid() && Abs() == Next(old(Abs()), conf, Add(d, x, p))
    {
      hide Whole, Settled, Ok, InsertAt;
      ghost var s := Abs();
      WholeOk(s, conf);
      StepKeeps(s, conf, Add(d, x, p));
      ghost var limit := s.now + Expire(conf, d);
      NewPos(s, d, x, p, limit);
      pos := pos[x := p];
      Settle(d, p, {}, limit);
      SortKnown(Abs(), d, {}, limit);
      Place(d, x);
      due := due[x := now + Expire(conf, d)];
      var side := if d.Read? then rd else wr;
      Set(d, side.(fifo := side.fifo + [x]));
    }

    // deadline_merged_request
    method MergedRequest(d: Dir, x: nat, p: int)
      requires Valid() && x in Of(Abs(), d).sort
      modifies this
      ensures Valid() && Abs() == Next(old(Abs()), conf, Front(d, x, p))
    {
      hide Whole, Settled, Ok, Without, InsertAt;
      ghost var s := Abs();
      WholeOk(s, conf);
      StepKeeps(s, conf, Front(d, x, p));
      ghost var limit := s.now + Expire(conf, d);
      PulledOk(s, d, x, p, limit);
      pos := pos[x := p];
      var side := if d.Read? then rd else wr;
      Set(d, side.(sort := Without(side.sort, x)));
      Settle(d, p, {x}, limit);
      SortKnown(Abs(), d, {x}, limit);
      Place(d, x);
    }

    // deadline_merged_requests
    method MergedRequests(d: Dir, x: nat, y: nat)
      requires Valid() && x in Of(Abs(), d).sort && y in Of(Abs(), d).sort && x != y
      modifies this
      ensures Valid() && Abs() == Next(old(Abs()), conf, Swallow(d, x, y))
    {
      hide Whole, Ok, Taken, MovedAfter;
      ghost var s := Abs();
      WholeOk(s, conf);
      StepKeeps(s, conf, Swallow(d, x, y));
      SwallowedOk(s, d, x, y, s.now + Expire(conf, d));
      if due[y] < due[x] {
        var side := if d.Read? then rd else wr;
        Set(d, side.(fifo := MovedAfter(side.fifo, x, y)));
        due := due[x := due[y]];
      }
      Remove(d, y);
    }

    // deadline_dispatch_requests
    method DispatchRequests() returns (sent: bool)
      requires Valid()
      modifies this
      ensures Valid() && Abs() == Next(old(Abs()), conf, Dispatch)
      ensures sent <==> old(rd.fifo != [] || wr.fifo != [])
    {
      hide Whole, Move, BatchStart;
      ghost var s := Abs();
      WholeKnown(s, conf);
      PickedIsQueued(s, conf);
      StepKeeps(s, conf, Dispatch);
      DispatchIs(s, conf);
      var anyReads, anyWrites := rd.fifo != [], wr.fifo != [];
      var d := if wr.next.Some? then Write else Read;
      var rq := if d.Read? then rd.next else wr.next;
      if rq.Some? && batching < conf.fifoBatch {
        batching := batching + 1;
        MoveRequest(d, rq.value);
        return true;
      }
      if anyReads && !(anyWrites && starved >= conf.writesStarved) {
        starved := if anyWrites then starved + 1 else starved;
        d := Read;
      } else if anyWrites {
        starved := 0;
        d := Write;
      } else {
        return false;
      }
      SameStart(s, Abs(), d);
      var x := BatchStart(Abs(), d);
      batching := 1;
      MoveRequest(d, x);
      return true;
    }
  }

  lemma SameStart(s: State, t: State, d: Dir)
    requires t == s.(starved := t.starved) && Of(s, d).fifo != [] && forall x :: x in Of(s, d).fifo ==> x in s.due
    ensures BatchStart(t, d) == BatchStart(s, d)
  {
  }

  lemma AliasQueued(s: State, d: Dir, p: int, extra: set<nat>, limit: int)
    requires Ok(s, d, extra, limit) && forall y :: y in Of(s, d).sort ==> y in s.pos
    ensures match Alias(Of(s, d).sort, s.pos, p)
            case None => true
            case Some(y) => y in Of(s, d).sort && y in Of(s, d).fifo
  {
    AliasIs(Of(s, d).sort, s.pos, p);
  }

  lemma NoAliasLeft(s: State, d: Dir, p: int, extra: set<nat>, limit: int)
    requires Ok(s, d, extra, limit)
    requires forall x :: x in Of(s, d).sort ==> x in s.pos && x in Of(s, d).fifo
    ensures var t := Settled(s, d, p);
            (forall x :: x in Of(t, d).sort ==> x in t.pos) && Alias(Of(t, d).sort, t.pos, p) == None
  {
    hide Alias, Settled;
    SettledOk(s, d, p, extra, limit);
    var t := Settled(s, d, p);
    SortKnown(t, d, extra, limit);
    AliasIs(Of(t, d).sort, t.pos, p);
  }
}
