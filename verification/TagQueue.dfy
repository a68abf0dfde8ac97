/**
 * The tag map of a queue as the arrays that blk-tag.c updates in place
 * (common/block/blk-tag.c:220-405), proved against module Tags.
 */
module TagQueue {
  import opened SeqUtil
  import opened Tags

  class TagMap {
    var depth: nat
    var bits: array<bool>
    var index: array<Option<nat>>
    var busy: seq<nat>
    var tag: map<nat, nat>
    var queue: seq<nat>
    var began: map<nat, nat>
    var clock: nat

    function Abs(): State
      reads this, bits, index
    {
      State(depth, bits[..], index[..], busy, tag, queue, began, clock)
    }

    ghost predicate Valid()
      reads this, bits, index
    {
      Inv(Abs())
    }

    // init_tag_map
    constructor (depth: nat)
      ensures Valid() && Abs() == Init(depth) && fresh(bits) && fresh(index)
    {
      this.depth := depth;
      bits := new bool[depth](i => false);
      index := new Option<nat>[depth](i => None);
      busy, tag, queue, began, clock := [], map[], [], map[], 0;
      new;
      assert Abs() == Init(depth);
      InitInv(depth);
    }

    // find_first_zero_bit
    method FindFree(limit: nat) returns (t: nat)
      requires limit <= bits.Length
      ensures t == FirstFree(bits[..], limit)
    {
      t := 0;
      while t < limit && bits[t]
        invariant t <= limit && forall i :: 0 <= i < t ==> bits[i]
      {
        t := t + 1;
      }
    }

    // The tag blk_queue_start_tag finds: asynchronous requests leave two alone.
    method FindTag(sync: bool, inFlight: nat) returns (t: Option<nat>)
      requires depth <= bits.Length
      ensures t.Some? <==> Starts(Abs(), sync, inFlight)
      ensures t.Some? ==> t.value == FirstFree(bits[..], Limit(depth, sync))
    {
      hide FirstFree;
      var limit := depth;
      if !sync && limit > 1 {
        limit := limit - 2;
        if limit == 0 {
          limit := 1;
        }
        if inFlight > limit {
          return None;
        }
      }
      var k := FindFree(limit);
      return if k < limit then Some(k) else None;
    }

    // blk_queue_start_tag
    method StartTag(x: nat, sync: bool, inFlight: nat) returns (ok: bool)
      requires Valid() && x in queue
      modifies this, bits, index
      ensures Valid() && bits == old(bits) && index == old(index)
      ensures Abs() == Next(old(Abs()), Start(x, sync, inFlight))
      ensures ok <==> x in busy
    {
      hide Inv, FirstFree, Without, Started, Next, Enabled;
      ghost var s := Abs();
      NextStart(s, x, sync, inFlight);
      QueuedIsNotBusy(s, x);
      var free := FindTag(sync, inFlight);
      if free.None? {
        return false;
      }
      var t := free.value;
      StartedIs(s, x, sync, t);
      bits[t] := true;
      index[t] := Some(x);
      tag := tag[x := t];
      queue := Without(queue, x);
      began, clock := began[x := clock], clock + 1;
      busy := [x] + busy;
      assert bits[..] == s.bits[t := true] && index[..] == s.index[t := Some(x)];
      return true;
    }

    // blk_queue_end_tag; its complaints about a foreign, missing or idle tag stay silent
    method EndTag(x: nat)
      requires Valid() && x in busy
      modifies this, bits, index
      ensures Valid() && bits == old(bits) && index == old(index)
      ensures Abs() == Next(old(Abs()), Complete(x))
    {
      hide Inv, Without;
      ghost var s := Abs();
      StepKeeps(s, Complete(x));
      EndedInv(s, x);
      BusyTag(s, x);
      var t := tag[x];
      if t >= bits.Length || index[t] == None || !bits[t] {
        assert false;
      }
      busy := Without(busy, x);
      tag := tag - {x};
      index[t] := None;
      bits[t] := false;
      assert Abs() == Ended(s, x);
    }

    // blk_requeue_request
    method RequeueRequest(x: nat)
      requires Valid() && x in busy
      modifies this, bits, index
      ensures Valid() && bits == old(bits) && index == old(index)
      ensures Abs() == Next(old(Abs()), Requeue(x))
    {
      hide Inv, Ended;
      ghost var s := Abs();
      RequeuedInv(s, x);
      EndTag(x);
      queue := [x] + queue;
    }

    // blk_queue_invalidate_tags
    method InvalidateTags()
      requires Valid()
      modifies this, bits, index
      ensures Valid() && bits == old(bits) && index == old(index)
      ensures Abs() == Next(old(Abs()), Invalidate)
    {
      hide Inv, Requeued;
      ghost var s := Abs();
      while busy != []
        invariant Valid() && bits == old(bits) && index == old(index)
        invariant Invalidated(Abs()) == Invalidated(s)
        decreases |busy|
      {
        var x := busy[0];
        assert x in busy;
        InvalidateOnce(Abs());
        RequeueRequest(x);
      }
    }

    // blk_queue_resize_tags, for a map that is not shared
    method ResizeTags(newDepth: nat)
      requires Valid()
      modifies this
      ensures Valid()
      ensures Abs() == Next(old(Abs()), Resize(newDepth))
    {
      hide Inv;
      ghost var s := Abs();
      ResizedInv(s, newDepth);
      SameSize(s);
      if newDepth <= bits.Length {
        depth := newDepth;
        return;
      }
      var oldBits, oldIndex := bits, index;
      bits := new bool[newDepth](i requires 0 <= i < newDepth reads oldBits => i < oldBits.Length && oldBits[i]);
      index := new Option<nat>[newDepth](i requires 0 <= i < newDepth reads oldIndex =>
        if i < oldIndex.Length then oldIndex[i] else None);
      depth := newDepth;
      assert bits[..] == s.bits + seq(newDepth - |s.bits|, i => false);
      assert index[..] == s.index + seq(newDepth - |s.bits|, i => None);
    }
  }

  lemma NextStart(s: State, x: nat, sync: bool, inFlight: nat)
    requires Inv(s) && x in s.queue
    ensures s.depth <= |s.bits| == |s.index| && Enabled(s, Start(x, sync, inFlight)) &&
            Inv(Next(s, Start(x, sync, inFlight)))
    ensures Next(s, Start(x, sync, inFlight)) == if Starts(s, sync, inFlight) then Started(s, x, sync) else s
  {
    SameSize(s);
    hide Inv, Started;
    StepKeeps(s, Start(x, sync, inFlight));
  }

  lemma StartedIs(s: State, x: nat, sync: bool, t: nat)
    requires s.depth <= |s.bits| && |s.index| == |s.bits| && x in s.queue &&
             t == FirstFree(s.bits, Limit(s.depth, sync)) < Limit(s.depth, sync)
    ensures Started(s, x, sync) ==
            State(s.depth, s.bits[t := true], s.index[t := Some(x)], [x] + s.busy, s.tag[x := t], Without(s.queue, x),
                  s.began[x := s.clock], s.clock + 1)
  {
    hide FirstFree, Without;
  }

  lemma QueuedIsNotBusy(s: State, x: nat)
    requires Inv(s) && x in s.queue
    ensures x !in s.busy
  {
  }

  lemma BusyTag(s: State, x: nat)
    requires Inv(s) && x in s.busy
    ensures x in s.tag && s.tag[x] < |s.bits| == |s.index| && s.index[s.tag[x]] == Some(x) && s.bits[s.tag[x]]
  {
  }

  lemma SameSize(s: State)
    requires Inv(s)
    ensures s.depth <= |s.bits| == |s.index|
  {
  }

  lemma InvalidateOnce(s: State)
    requires Inv(s) && s.busy != []
    ensures s.busy[0] in s.busy && Inv(Next(s, Requeue(s.busy[0])))
    ensures Invalidated(s) == Invalidated(Next(s, Requeue(s.busy[0])))
    ensures |Next(s, Requeue(s.busy[0])).busy| < |s.busy|
  {
    hide Agree, Placed;
    assert s.busy[0] in s.busy;
    RequeuedInv(s, s.busy[0]);
  }
}
