/**
 * The loops of blk-merge.c over bios and vectors, and the request fields that
 * merging updates (common/block/blk-merge.c:12-86, 118-170, 203-305), proved
 * against module Segments.
 */
module SegmentLoops {
  import opened SeqUtil
  import opened Segments

  lemma CountedStep(q: Limits, vs: seq<Vec>, v: Vec)
    requires q.block > 0
    ensures var s, w := Counted(q, vs), vs + [v];
            && Counted(q, w) == Extended(s, Opens(q, w, v.high || (vs != [] && vs[|vs| - 1].high), s.size), v.len)
            && (vs != [] ==> s.groups > 0)
            && (s.groups == 1 ==> s.front == s.size)
  {
    hide Group, Opens;
    var w := vs + [v];
    GroupOneMore(q, w, HighCuts(w));
    assert w[..|vs|] == vs && HighCuts(w)[..|vs|] == HighCuts(vs);
    GroupSane(q, vs, HighCuts(vs));
  }

  lemma NothingCounted(q: Limits)
    requires q.block > 0
    ensures Counted(q, []) == Scan(0, 0, 0)
  {
  }

  // The registers of the counting loop.
  datatype Regs = Regs(nr: nat, size: nat, highprv: bool, prv: Vec, front: nat)

  ghost predicate Agrees(q: Limits, r: Regs, vs: seq<Vec>, front: nat)
    requires q.block > 0
  {
    var s := Counted(q, vs);
    && r.nr == s.groups && r.size == s.size
    && r.highprv == (vs == [] || vs[|vs| - 1].high)
    && (vs != [] ==> r.prv == vs[|vs| - 1])
    && r.front == if s.groups > 1 then Max(front, s.front) else front
  }

  // One vector: joined to the segment before it, or the start of a new one.
  method CountVec(q: Limits, r: Regs, v: Vec, ghost vs: seq<Vec>, ghost front: nat) returns (t: Regs)
    requires q.block > 0 && Agrees(q, r, vs, front)
    ensures Agrees(q, t, vs + [v], front)
  {
    hide Counted, Joins;
    CountedStep(q, vs, v);
    NothingCounted(q);
    if !v.high && !r.highprv && q.cluster && r.size + v.len <= q.maxSize && Joins(q, r.prv, v) {
      return r.(size := r.size + v.len, prv := v);
    }
    var f := if r.nr == 1 && r.size > r.front then r.size else r.front;
    return Regs(r.nr + 1, v.len, v.high, v, f);
  }

  // __blk_recalc_rq_segments
  method Recalc(q: Limits, bios: seq<seq<Vec>>, front0: nat, back0: nat) returns (nr: nat, front: nat, back: nat)
    requires q.block > 0
    ensures Rq(Flat(bios), nr, front, back) == Recounted(q, Flat(bios), front0, back0)
  {
    hide Counted, Agrees;
    NothingCounted(q);
    if bios == [] {
      return 0, front0, back0;
    }
    var r := Regs(0, 0, true, Vec(0, 0, false), front0);
    AgreesAtFirst(q, r, front0);
    var i := 0;
    while i < |bios|
      invariant i <= |bios| && Agrees(q, r, Flat(bios[..i]), front0)
    {
      var j := 0;
      assert Flat(bios[..i]) + bios[i][..0] == Flat(bios[..i]);
      while j < |bios[i]|
        invariant j <= |bios[i]| && Agrees(q, r, Flat(bios[..i]) + bios[i][..j], front0)
      {
        assert bios[i][..j + 1] == bios[i][..j] + [bios[i][j]];
        assert Flat(bios[..i]) + bios[i][..j + 1] == Flat(bios[..i]) + bios[i][..j] + [bios[i][j]];
        r := CountVec(q, r, bios[i][j], Flat(bios[..i]) + bios[i][..j], front0);
        j := j + 1;
      }
      assert bios[..i + 1][..i] == bios[..i] && bios[i][..j] == bios[i];
      i := i + 1;
    }
    assert bios[..i] == bios;
    AgreesAtLast(q, r, Flat(bios), front0);
    nr := r.nr;
    front := if nr == 1 && r.size > r.front then r.size else r.front;
    back := if r.size > back0 then r.size else back0;
  }

  lemma AgreesAtFirst(q: Limits, r: Regs, front: nat)
    requires q.block > 0 && r.nr == 0 && r.size == 0 && r.highprv && r.front == front
    ensures Agrees(q, r, Flat([]), front)
  {
  }

  lemma AgreesAtLast(q: Limits, r: Regs, vs: seq<Vec>, front: nat)
    requires q.block > 0 && Agrees(q, r, vs, front)
    ensures var s := Counted(q, vs);
            && r.nr == s.groups && r.size == s.size
            && (if r.nr == 1 && r.size > r.front then r.size else r.front) == Max(front, s.front)
  {
    hide Group;
    GroupSane(q, vs, HighCuts(vs));
    NoGroups(q, vs, HighCuts(vs));
    EmptyFront(q, vs);
  }

  lemma EmptyFront(q: Limits, vs: seq<Vec>)
    requires q.block > 0
    ensures Counted(q, vs).groups == 0 ==> Counted(q, vs).front == 0
  {
    GroupSane(q, vs, HighCuts(vs));
  }

  // blk_rq_map_sg, data entries only; the list has room for at least the mapped groups.
  method MapSg(q: Limits, vs: seq<Vec>, sglist: array<Entry>) returns (nsegs: nat)
    requires q.block > 0 && Mapped(q, vs).groups <= sglist.Length
    modifies sglist
    ensures nsegs == Mapped(q, vs).groups && sglist[..nsegs] == Entries(q, vs)
    ensures sglist[nsegs..] == old(sglist[nsegs..])
  {
    hide Entries, Mapped, Joins;
    nsegs := 0;
    NothingMapped(q);
    var i := 0;
    while i < |vs|
      invariant i <= |vs| && nsegs == Mapped(q, vs[..i]).groups <= sglist.Length
      invariant sglist[..nsegs] == Entries(q, vs[..i])
      invariant sglist[nsegs..] == old(sglist[..])[nsegs..]
    {
      var v := vs[i];
      MappedSoFar(q, vs, i);
      assert i > 0 ==> sglist[nsegs - 1] == sglist[..nsegs][nsegs - 1];
      if i > 0 && q.cluster && sglist[nsegs - 1].len + v.len <= q.maxSize && Joins(q, vs[i - 1], v) {
        sglist[nsegs - 1] := Entry(sglist[nsegs - 1].addr, sglist[nsegs - 1].len + v.len);
      } else {
        sglist[nsegs] := Entry(v.addr, v.len);
        nsegs := nsegs + 1;
      }
      i := i + 1;
    }
    assert vs[..i] == vs;
  }

  lemma NothingMapped(q: Limits)
    requires q.block > 0
    ensures Mapped(q, []) == Scan(0, 0, 0) && Entries(q, []) == []
  {
  }

  // What the next vector does to the entries so far, and that there is room for it.
  lemma MappedSoFar(q: Limits, vs: seq<Vec>, i: nat)
    requires q.block > 0 && i < |vs|
    ensures var s, es, w, v := Mapped(q, vs[..i]), Entries(q, vs[..i]), vs[..i + 1], vs[i];
            && Mapped(q, w).groups <= Mapped(q, vs).groups
            && (i > 0 ==> |es| > 0)
            && if i > 0 && q.cluster && es[|es| - 1].len + v.len <= q.maxSize && Joins(q, vs[i - 1], v)
               then Mapped(q, w).groups == s.groups
                    && Entries(q, w) == es[|es| - 1 := Entry(es[|es| - 1].addr, es[|es| - 1].len + v.len)]
               else Mapped(q, w).groups == s.groups + 1 && Entries(q, w) == es + [Entry(v.addr, v.len)]
  {
    hide Mapped, Joins;
    var w := vs[..i + 1];
    assert w[..i] == vs[..i];
    MappedStep(q, w);
    NothingMapped(q);
    MappedGrows(q, vs, i + 1);
  }

  lemma {:induction false} MappedGrows(q: Limits, vs: seq<Vec>, i: nat)
    requires q.block > 0 && i <= |vs|
    ensures Mapped(q, vs[..i]).groups <= Mapped(q, vs).groups
    decreases |vs|
  {
    hide Mapped, Joins;
    if i == |vs| {
      assert vs[..i] == vs;
    } else {
      MappedStep(q, vs);
      MappedGrows(q, vs[..|vs| - 1], i);
      assert vs[..|vs| - 1][..i] == vs[..i];
    }
  }

  // A request that carries data, with the fields that merging keeps.
  class Request {
    const q: Limits
    var vecs: seq<Vec>
    var nr: nat
    var front: nat
    var back: nat
    var noMerge: bool

    function State(): Rq
      reads this
    {
      Rq(vecs, nr, front, back)
    }

    ghost predicate Valid()
      reads this
    {
      q.block > 0 && Sound(q, State()) && nr <= q.maxSegments
    }

    constructor (q: Limits, bio: seq<Vec>)
      requires q.block > 0 && bio != [] && Counted(q, bio).groups <= q.maxSegments
      ensures Valid() && this.q == q && State() == Recounted(q, bio, 0, 0)
    {
      hide Counted, Sound;
      var n, f, b := Recalc(q, [bio], 0, 0);
      this.q, vecs, nr, front, back, noMerge := q, bio, n, f, b, false;
      Single(bio);
      RecountedSound(q, bio, 0, 0);
    }

    // ll_new_hw_segment: the count of the bio is added if the queue allows it.
    method NewSegments(n: nat) returns (ok: bool)
      modifies `nr, `noMerge
      ensures ok <==> old(nr) + n <= q.maxSegments
      ensures nr == if ok then old(nr) + n else old(nr)
      ensures noMerge == (old(noMerge) || !ok)
    {
      if nr + n > q.maxSegments {
        noMerge := true;
        return false;
      }
      nr := nr + n;
      return true;
    }

    method BackMerge(bio: seq<Vec>) returns (ok: bool)
      requires Valid() && bio != []
      modifies this
      ensures Valid()
      ensures ok <==> old(nr) + Counted(q, bio).groups <= q.maxSegments
      ensures State() == if ok then BackMerged(old(State()), Recounted(q, bio, 0, 0)) else old(State())
    {
      hide Counted, Sound;
      var n, f, b := Recalc(q, [bio], 0, 0);
      Single(bio);
      RecountedSound(q, bio, 0, 0);
      BackMergedSound(q, State(), Recounted(q, bio, 0, 0));
      ok := NewSegments(n);
      if ok {
        vecs, back := vecs + bio, b;
      }
    }

    method FrontMerge(bio: seq<Vec>) returns (ok: bool)
      requires Valid() && bio != []
      modifies this
      ensures Valid()
      ensures ok <==> old(nr) + Counted(q, bio).groups <= q.maxSegments
      ensures State() == if ok then FrontMerged(old(State()), Recounted(q, bio, 0, 0)) else old(State())
    {
      hide Counted, Sound;
      var n, f, b := Recalc(q, [bio], 0, 0);
      Single(bio);
      RecountedSound(q, bio, 0, 0);
      FrontMergedSound(q, State(), Recounted(q, bio, 0, 0));
      ok := NewSegments(n);
      if ok {
        vecs, front := bio + vecs, f;
      }
    }

    // ll_merge_requests_fn; the sizes are recorded before the limit is tested
    method MergeNext(next: Request) returns (ok: bool)
      requires Valid() && next.Valid() && next != this && next.q == q
      modifies this, next`back
      ensures Valid() && vecs != [] && old(nr) + next.nr > 0
      ensures var m := RequestsMerged(q, old(State()), old(next.State()));
              (ok <==> m.nr <= q.maxSegments) && State() == if ok then m else old(State())
      ensures !ok ==> next.back == old(next.back)
    {
      SoundIsBusy(q, State());
      RequestsMergedSound(q, State(), next.State());
      NotEmpty(q, State());
      NotEmpty(q, next.State());
      hide Sound, Joins;
      var size, total := back + next.front, nr + next.nr;
      if q.cluster && size <= q.maxSize && Joins(q, vecs[|vecs| - 1], next.vecs[0]) {
        if nr == 1 {
          front := size;
        }
        if next.nr == 1 {
          next.back := size;
        }
        total := total - 1;
      }
      if total > q.maxSegments {
        return false;
      }
      vecs, nr, back := vecs + next.vecs, total, next.back;
      return true;
    }

    // A list with room for nr_phys_segments entries is long enough.
    method Map(sglist: array<Entry>) returns (nsegs: nat)
      requires Valid() && nr <= sglist.Length
      modifies sglist
      ensures nsegs <= nr && sglist[..nsegs] == Entries(q, vecs)
    {
      SoundIsEnough(q, State());
      hide Sound, Entries, Mapped;
      nsegs := MapSg(q, vecs, sglist);
    }
  }

  lemma Single(bio: seq<Vec>)
    ensures Flat([bio]) == bio
  {
    assert [bio][..0] == [];
    assert Flat([bio]) == Flat([bio][..0]) + bio;
  }

  lemma NotEmpty(q: Limits, r: Rq)
    requires q.block > 0 && Sound(q, r)
    ensures r.vecs != []
  {
  }
}
