/**
 * Physical segments: how __blk_recalc_rq_segments counts them, how
 * blk_rq_map_sg builds them, and how merging keeps the count of a request an
 * upper bound (common/block/blk-merge.c:12-170, 203-305).
 *
 * All of these group a list of vectors greedily; they differ in the places
 * where a group is cut short on purpose.  Greedy grouping with fewer such cuts
 * never needs more groups, and that orders the numbers.
 */
module Segments {
  import opened SeqUtil

  // addr: the physical address; high: the page lies above the bounce limit
  datatype Vec = Vec(addr: nat, len: nat, high: bool)

  // block: one more than the segment boundary mask
  datatype Limits = Limits(cluster: bool, maxSize: nat, block: nat, maxSegments: nat)

  // BIOVEC_PHYS_MERGEABLE and BIOVEC_SEG_BOUNDARY
  predicate Joins(q: Limits, a: Vec, b: Vec)
    requires q.block > 0
  {
    a.addr + a.len == b.addr && a.addr / q.block == (b.addr + b.len - 1) / q.block
  }

  // ---------------------------------------------------------------- greedy grouping

  // The number of groups and the sizes of the first and of the last one.
  datatype Scan = Scan(groups: nat, front: nat, size: nat)

  predicate Opens(q: Limits, vs: seq<Vec>, cut: bool, size: nat)
    requires q.block > 0 && vs != []
  {
    var i := |vs| - 1;
    i == 0 || cut || !q.cluster || size + vs[i].len > q.maxSize || !Joins(q, vs[i - 1], vs[i])
  }

  function Extended(s: Scan, open: bool, len: nat): Scan {
    if open then Scan(s.groups + 1, if s.groups == 0 then len else s.front, len)
    else Scan(s.groups, if s.groups == 1 then s.size + len else s.front, s.size + len)
  }

  // Greedy grouping with a forced cut before every vector i with cut[i].
  function Group(q: Limits, vs: seq<Vec>, cut: seq<bool>): Scan
    requires q.block > 0 && |vs| == |cut|
  {
    if vs == [] then Scan(0, 0, 0)
    else
      var i := |vs| - 1;
      var s := Group(q, vs[..i], cut[..i]);
      Extended(s, Opens(q, vs, cut[i], s.size), vs[i].len)
  }

  // Fewer forced cuts, no more groups; with as many groups, the last is no longer.
  lemma {:induction false} FewerCuts(q: Limits, vs: seq<Vec>, few: seq<bool>, many: seq<bool>)
    requires q.block > 0 && |vs| == |few| == |many|
    requires forall i :: 0 <= i < |vs| && few[i] ==> many[i]
    ensures var a, b := Group(q, vs, few), Group(q, vs, many);
            a.groups < b.groups || (a.groups == b.groups && a.size <= b.size)
  {
    hide Joins;
    if vs != [] {
      var i := |vs| - 1;
      FewerCuts(q, vs[..i], few[..i], many[..i]);
    }
  }

  lemma {:induction false} FirstCutIsFree(q: Limits, vs: seq<Vec>, cut: seq<bool>, first: bool)
    requires q.block > 0 && 0 < |vs| == |cut|
    ensures Group(q, vs, cut) == Group(q, vs, cut[0 := first])
  {
    var i := |vs| - 1;
    if i > 0 {
      FirstCutIsFree(q, vs[..i], cut[..i], first);
      assert cut[0 := first][..i] == cut[..i][0 := first];
    }
  }

  lemma {:induction false} GroupSane(q: Limits, vs: seq<Vec>, cut: seq<bool>)
    requires q.block > 0 && |vs| == |cut|
    ensures var s := Group(q, vs, cut);
            && (vs != [] ==> s.groups > 0)
            && (s.groups == 1 ==> s.front == s.size)
  {
    hide Joins;
    if vs != [] {
      GroupSane(q, vs[..|vs| - 1], cut[..|vs| - 1]);
    }
  }

  lemma NoGroups(q: Limits, vs: seq<Vec>, cut: seq<bool>)
    requires q.block > 0 && |vs| == |cut|
    ensures vs == [] ==> Group(q, vs, cut) == Scan(0, 0, 0)
  {
  }

  lemma GroupOneMore(q: Limits, vs: seq<Vec>, cut: seq<bool>)
    requires q.block > 0 && 0 < |vs| == |cut|
    ensures var i := |vs| - 1;
            var s := Group(q, vs[..i], cut[..i]);
            Group(q, vs, cut) == Extended(s, Opens(q, vs, cut[i], s.size), vs[i].len)
  {
  }

  // A forced cut separates: the groups before it and the groups after it add up.
  lemma {:induction false} CutSeparates(q: Limits, vs: seq<Vec>, c: seq<bool>, ws: seq<Vec>, d: seq<bool>)
    requires q.block > 0 && |vs| == |c| && 0 < |ws| == |d| && d[0]
    ensures var a, b, s := Group(q, vs, c), Group(q, ws, d), Group(q, vs + ws, c + d);
            s.groups == a.groups + b.groups && s.size == b.size && s.front == if vs == [] then b.front else a.front
  {
    hide Joins, Group;
    var i := |ws| - 1;
    GroupSane(q, vs, c);
    NoGroups(q, vs, c);
    GroupOneMore(q, ws, d);
    GroupOneMore(q, vs + ws, c + d);
    assert (vs + ws)[..|vs| + i] == vs + ws[..i] && (c + d)[..|vs| + i] == c + d[..i];
    assert (vs + ws)[|vs| + i] == ws[i] && (c + d)[|vs| + i] == d[i];
    if i > 0 {
      assert (vs + ws)[|vs| + i - 1] == ws[i - 1];
      CutSeparates(q, vs, c, ws[..i], d[..i]);
      GroupSane(q, ws[..i], d[..i]);
    } else {
      assert vs + ws[..0] == vs && c + d[..0] == c;
      NoGroups(q, ws[..0], d[..0]);
    }
  }

  // Without the cut the last group and the first one grow together, if they may.
  lemma {:induction false} JoinedGroups(q: Limits, vs: seq<Vec>, c: seq<bool>, ws: seq<Vec>, d: seq<bool>)
    requires q.block > 0 && q.cluster && 0 < |vs| == |c| && 0 < |ws| == |d| && !d[0]
    requires Joins(q, vs[|vs| - 1], ws[0])
    requires Group(q, vs, c).size + Group(q, ws, d).front <= q.maxSize
    ensures var a, b, s := Group(q, vs, c), Group(q, ws, d), Group(q, vs + ws, c + d);
            && s.groups == a.groups + b.groups - 1
            && s.size == (if b.groups == 1 then a.size + b.size else b.size)
            && s.front == (if a.groups == 1 then a.size + b.front else a.front)
  {
    hide Joins, Group;
    var i := |ws| - 1;
    GroupSane(q, vs, c);
    GroupOneMore(q, ws, d);
    GroupOneMore(q, vs + ws, c + d);
    assert (vs + ws)[..|vs| + i] == vs + ws[..i] && (c + d)[..|vs| + i] == c + d[..i];
    if i > 0 {
      GroupSane(q, ws[..i], d[..i]);
      JoinedGroups(q, vs, c, ws[..i], d[..i]);
    } else {
      assert vs + ws[..0] == vs && c + d[..0] == c;
      NoGroups(q, ws[..0], d[..0]);
      NoGroups(q, vs, c);
    }
  }

  // ---------------------------------------------------------------- counted and mapped

  // The counting loop never joins a high page to anything.
  function HighCuts(vs: seq<Vec>): (c: seq<bool>)
    ensures |c| == |vs|
    ensures forall i :: 0 <= i < |vs| ==> c[i] == (vs[i].high || (i > 0 && vs[i - 1].high))
  {
    seq(|vs|, i requires 0 <= i < |vs| => vs[i].high || (i > 0 && vs[i - 1].high))
  }

  function NoCuts(vs: seq<Vec>): (c: seq<bool>)
    ensures |c| == |vs| && forall i :: 0 <= i < |vs| ==> !c[i]
  {
    seq(|vs|, i => false)
  }

  function Counted(q: Limits, vs: seq<Vec>): Scan
    requires q.block > 0
  {
    Group(q, vs, HighCuts(vs))
  }

  function Mapped(q: Limits, vs: seq<Vec>): Scan
    requires q.block > 0
  {
    Group(q, vs, NoCuts(vs))
  }

  function Flat(bios: seq<seq<Vec>>): seq<Vec> {
    if bios == [] then [] else Flat(bios[..|bios| - 1]) + bios[|bios| - 1]
  }

  // What ll_new_hw_segment adds up: every bio counted on its own.
  function SumCounted(q: Limits, bios: seq<seq<Vec>>): nat
    requires q.block > 0
  {
    if bios == [] then 0 else SumCounted(q, bios[..|bios| - 1]) + Counted(q, bios[|bios| - 1]).groups
  }

  function FirstCut(c: seq<bool>): (d: seq<bool>)
    ensures |d| == |c|
  {
    if c == [] then [] else c[0 := true]
  }

  // The cuts of counting bio by bio.
  function BioCuts(bios: seq<seq<Vec>>): (c: seq<bool>)
    ensures |c| == |Flat(bios)|
  {
    if bios == [] then [] else BioCuts(bios[..|bios| - 1]) + FirstCut(HighCuts(bios[|bios| - 1]))
  }

  lemma {:induction false} BioCutsCount(q: Limits, bios: seq<seq<Vec>>)
    requires q.block > 0
    ensures Group(q, Flat(bios), BioCuts(bios)).groups == SumCounted(q, bios)
  {
    hide Group, HighCuts;
    if bios == [] {
      NoGroups(q, [], []);
    } else {
      var k := |bios| - 1;
      var vs, c, ws := Flat(bios[..k]), BioCuts(bios[..k]), bios[k];
      BioCutsCount(q, bios[..k]);
      if ws == [] {
        assert vs + ws == vs && c + FirstCut(HighCuts(ws)) == c;
        NoGroups(q, ws, HighCuts(ws));
      } else {
        FirstCutIsFree(q, ws, HighCuts(ws), true);
        CutSeparates(q, vs, c, ws, FirstCut(HighCuts(ws)));
      }
    }
  }

  lemma {:induction false} BioCutsMore(bios: seq<seq<Vec>>, i: nat)
    requires i < |Flat(bios)| && HighCuts(Flat(bios))[i]
    ensures BioCuts(bios)[i]
  {
    var k := |bios| - 1;
    var vs, ws := Flat(bios[..k]), bios[k];
    if i < |vs| {
      BioCutsMore(bios[..k], i);
    }
  }

  // The scatterlist never needs more entries than were counted, and counting
  // the whole chain never gives more than adding up the bios.
  lemma MappedWithinCounts(q: Limits, bios: seq<seq<Vec>>)
    requires q.block > 0
    ensures Mapped(q, Flat(bios)).groups <= Counted(q, Flat(bios)).groups <= SumCounted(q, bios)
  {
    hide Group;
    var vs := Flat(bios);
    FewerCuts(q, vs, NoCuts(vs), HighCuts(vs));
    forall i | 0 <= i < |vs| && HighCuts(vs)[i]
      ensures BioCuts(bios)[i]
    {
      BioCutsMore(bios, i);
    }
    FewerCuts(q, vs, HighCuts(vs), BioCuts(bios));
    BioCutsCount(q, bios);
  }

  lemma MappedIsCounted(q: Limits, vs: seq<Vec>)
    requires q.block > 0 && forall i :: 0 <= i < |vs| ==> !vs[i].high
    ensures Mapped(q, vs) == Counted(q, vs)
  {
    assert NoCuts(vs) == HighCuts(vs);
  }

  // Three pages in a row of which the last two are above the bounce limit: three
  // segments counted, one entry needed.
  lemma HighPagesCountApart()
    ensures var q := Limits(true, 65536, 65536, 128);
            var vs := [Vec(0, 4096, false), Vec(4096, 4096, true), Vec(8192, 4096, true)];
            Mapped(q, vs).groups == 1 && Counted(q, vs).groups == 3
  {
    var q := Limits(true, 65536, 65536, 128);
    var vs := [Vec(0, 4096, false), Vec(4096, 4096, true), Vec(8192, 4096, true)];
    var n, h := NoCuts(vs), HighCuts(vs);
    NoGroups(q, vs[..1][..0], n[..1][..0]);
    NoGroups(q, vs[..1][..0], h[..1][..0]);
    GroupOneMore(q, vs[..1], n[..1]);
    GroupOneMore(q, vs[..1], h[..1]);
    assert vs[..2][..1] == vs[..1] && n[..2][..1] == n[..1] && h[..2][..1] == h[..1];
    GroupOneMore(q, vs[..2], n[..2]);
    GroupOneMore(q, vs[..2], h[..2]);
    GroupOneMore(q, vs, n);
    GroupOneMore(q, vs, h);
  }

  // ---------------------------------------------------------------- merging

  // A request: its vectors, nr_phys_segments, bi_seg_front_size of its first
  // bio and bi_seg_back_size of its last.
  datatype Rq = Rq(vecs: seq<Vec>, nr: nat, front: nat, back: nat)

  // The count belongs to a grouping whose end groups are within the recorded sizes.
  ghost predicate Sound(q: Limits, r: Rq)
    requires q.block > 0
  {
    && r.vecs != []
    && exists c: seq<bool> :: |c| == |r.vecs| && Witness(q, r, c)
  }

  predicate Witness(q: Limits, r: Rq, c: seq<bool>)
    requires q.block > 0 && |c| == |r.vecs|
  {
    var s := Group(q, r.vecs, c);
    s.groups == r.nr && s.front <= r.front && s.size <= r.back
  }

  // The count of a sound request is enough for its scatterlist.
  lemma SoundIsEnough(q: Limits, r: Rq)
    requires q.block > 0 && Sound(q, r)
    ensures Mapped(q, r.vecs).groups <= r.nr
  {
    var c: seq<bool> :| |c| == |r.vecs| && Witness(q, r, c);
    FewerCuts(q, r.vecs, NoCuts(r.vecs), c);
  }

  // blk_recount_segments on a bio of its own, or blk_recalc_rq_segments on a
  // request; front and back are the sizes recorded before.
  function Recounted(q: Limits, vs: seq<Vec>, front: nat, back: nat): Rq
    requires q.block > 0
  {
    var s := Counted(q, vs);
    Rq(vs, s.groups, if s.front > front then s.front else front, if s.size > back then s.size else back)
  }

  lemma RecountedSound(q: Limits, vs: seq<Vec>, front: nat, back: nat)
    requires q.block > 0 && vs != []
    ensures Sound(q, Recounted(q, vs, front, back))
  {
    hide Group;
    assert Witness(q, Recounted(q, vs, front, back), HighCuts(vs));
  }

  // ll_new_hw_segment for a bio appended to or put before the request.
  function BackMerged(r: Rq, bio: Rq): Rq { Rq(r.vecs + bio.vecs, r.nr + bio.nr, r.front, bio.back) }

  function FrontMerged(r: Rq, bio: Rq): Rq { Rq(bio.vecs + r.vecs, r.nr + bio.nr, bio.front, r.back) }

  // blk_phys_contig_segment for requests that carry data
  predicate Contiguous(q: Limits, r: Rq, next: Rq)
    requires q.block > 0 && r.vecs != [] && next.vecs != []
  {
    q.cluster && r.back + next.front <= q.maxSize && Joins(q, r.vecs[|r.vecs| - 1], next.vecs[0])
  }

  // ll_merge_requests_fn, when the sum of the counts is allowed.
  function RequestsMerged(q: Limits, r: Rq, next: Rq): Rq
    requires q.block > 0 && r.vecs != [] && next.vecs != [] && r.nr + next.nr > 0
  {
    var size := r.back + next.front;
    if Contiguous(q, r, next) then
      Rq(r.vecs + next.vecs, r.nr + next.nr - 1, if r.nr == 1 then size else r.front,
         if next.nr == 1 then size else next.back)
    else Rq(r.vecs + next.vecs, r.nr + next.nr, r.front, next.back)
  }

  lemma BackMergedSound(q: Limits, r: Rq, bio: Rq)
    requires q.block > 0 && Sound(q, r) && Sound(q, bio)
    ensures Sound(q, BackMerged(r, bio))
  {
    hide Group;
    var c: seq<bool> :| |c| == |r.vecs| && Witness(q, r, c);
    var d: seq<bool> :| |d| == |bio.vecs| && Witness(q, bio, d);
    FirstCutIsFree(q, bio.vecs, d, true);
    CutSeparates(q, r.vecs, c, bio.vecs, d[0 := true]);
    assert Witness(q, BackMerged(r, bio), c + d[0 := true]);
  }

  lemma FrontMergedSound(q: Limits, r: Rq, bio: Rq)
    requires q.block > 0 && Sound(q, r) && Sound(q, bio)
    ensures Sound(q, FrontMerged(r, bio))
  {
    BackMergedSound(q, bio, r);
  }

  lemma RequestsMergedSound(q: Limits, r: Rq, next: Rq)
    requires q.block > 0 && Sound(q, r) && Sound(q, next) && r.nr + next.nr > 0
    ensures Sound(q, RequestsMerged(q, r, next))
  {
    hide Group;
    if Contiguous(q, r, next) {
      var c: seq<bool> :| |c| == |r.vecs| && Witness(q, r, c);
      var d: seq<bool> :| |d| == |next.vecs| && Witness(q, next, d);
      FirstCutIsFree(q, next.vecs, d, false);
      JoinedGroups(q, r.vecs, c, next.vecs, d[0 := false]);
      GroupSane(q, r.vecs, c);
      GroupSane(q, next.vecs, d);
      assert Witness(q, RequestsMerged(q, r, next), c + d[0 := false]);
    } else {
      BackMergedSound(q, r, next);
    }
  }

  // Requests built by any sequence of merges, refused ones included.
  datatype Built =
    | FromBio(vecs: seq<Vec>)
    | Back(to: Built, bio: seq<Vec>)
    | Front(to: Built, bio: seq<Vec>)
    | Both(to: Built, next: Built)

  ghost predicate Plausible(q: Limits, b: Built)
    requires q.block > 0
  {
    match b
    case FromBio(vs) => vs != [] && Counted(q, vs).groups <= q.maxSegments
    case Back(to, vs) => vs != [] && Plausible(q, to)
    case Front(to, vs) => vs != [] && Plausible(q, to)
    case Both(to, next) => Plausible(q, to) && Plausible(q, next)
  }

  function Allowed(q: Limits, merged: Rq, otherwise: Rq): Rq {
    if merged.nr <= q.maxSegments then merged else otherwise
  }

  function Make(q: Limits, b: Built): (r: Rq)
    requires q.block > 0
    ensures Plausible(q, b) ==> Sound(q, r) && r.nr <= q.maxSegments
  {
    match b
    case FromBio(vs) =>
      assert vs != [] ==> Sound(q, Recounted(q, vs, 0, 0)) by { if vs != [] { RecountedSound(q, vs, 0, 0); } }
      Recounted(q, vs, 0, 0)
    case Back(to, vs) =>
      var r, bio := Make(q, to), Recounted(q, vs, 0, 0);
      assert Plausible(q, b) ==> Sound(q, BackMerged(r, bio)) by {
        if Plausible(q, b) { RecountedSound(q, vs, 0, 0); BackMergedSound(q, r, bio); }
      }
      Allowed(q, BackMerged(r, bio), r)
    case Front(to, vs) =>
      var r, bio := Make(q, to), Recounted(q, vs, 0, 0);
      assert Plausible(q, b) ==> Sound(q, FrontMerged(r, bio)) by {
        if Plausible(q, b) { RecountedSound(q, vs, 0, 0); FrontMergedSound(q, r, bio); }
      }
      Allowed(q, FrontMerged(r, bio), r)
    case Both(to, next) =>
      var r, n := Make(q, to), Make(q, next);
      assert Plausible(q, b) ==> r.vecs != [] && n.vecs != [] && r.nr + n.nr > 0 by {
        if Plausible(q, b) { SoundIsBusy(q, r); }
      }
      if r.vecs != [] && n.vecs != [] && r.nr + n.nr > 0 then
        assert Plausible(q, b) ==> Sound(q, RequestsMerged(q, r, n)) by {
          if Plausible(q, b) { RequestsMergedSound(q, r, n); }
        }
        Allowed(q, RequestsMerged(q, r, n), r)
      else r
  }

  lemma SoundIsBusy(q: Limits, r: Rq)
    requires q.block > 0 && Sound(q, r)
    ensures r.nr > 0
  {
    var c: seq<bool> :| |c| == |r.vecs| && Witness(q, r, c);
    GroupSane(q, r.vecs, c);
  }

  // However a request came about, its scatterlist fits its count, which fits the queue.
  lemma MergedRequestsFit(q: Limits, b: Built)
    requires q.block > 0 && Plausible(q, b)
    ensures var r := Make(q, b); Mapped(q, r.vecs).groups <= r.nr <= q.maxSegments
  {
    SoundIsEnough(q, Make(q, b));
  }

  // ---------------------------------------------------------------- the scatterlist

  datatype Entry = Entry(addr: nat, len: nat)

  // The entries closed so far, and the one sg points at.
  datatype Sg = Sg(closed: seq<Entry>, cur: Entry)

  function SgAfter(q: Limits, vs: seq<Vec>): (sg: Sg)
    requires q.block > 0 && vs != []
    ensures |sg.closed| + 1 == Mapped(q, vs).groups && sg.cur.len == Mapped(q, vs).size
  {
    var i := |vs| - 1;
    var v := vs[i];
    MappedStep(q, vs);
    if i == 0 then
      NoGroups(q, vs[..i], NoCuts(vs[..i]));
      Sg([], Entry(v.addr, v.len))
    else
      var sg := SgAfter(q, vs[..i]);
      if Opens(q, vs, false, sg.cur.len) then Sg(sg.closed + [sg.cur], Entry(v.addr, v.len))
      else Sg(sg.closed, Entry(sg.cur.addr, sg.cur.len + v.len))
  }

  function Entries(q: Limits, vs: seq<Vec>): (es: seq<Entry>)
    requires q.block > 0
    ensures |es| == Mapped(q, vs).groups
  {
    if vs == [] then
      NoGroups(q, vs, NoCuts(vs));
      []
    else
      var sg := SgAfter(q, vs);
      sg.closed + [sg.cur]
  }

  function Span(addr: nat, len: nat): (s: seq<nat>)
    ensures |s| == len
  {
    seq(len, i requires 0 <= i < len => addr + i)
  }

  function VecBytes(vs: seq<Vec>): seq<nat> {
    if vs == [] then [] else VecBytes(vs[..|vs| - 1]) + Span(vs[|vs| - 1].addr, vs[|vs| - 1].len)
  }

  function EntryBytes(es: seq<Entry>): seq<nat> {
    if es == [] then [] else EntryBytes(es[..|es| - 1]) + Span(es[|es| - 1].addr, es[|es| - 1].len)
  }

  lemma MappedStep(q: Limits, vs: seq<Vec>)
    requires q.block > 0 && vs != []
    ensures var i := |vs| - 1;
            var s := Mapped(q, vs[..i]);
            && Mapped(q, vs) == Extended(s, Opens(q, vs, false, s.size), vs[i].len)
            && (i > 0 ==> s.groups > 0)
  {
    hide Joins, Group, Opens;
    var i := |vs| - 1;
    GroupOneMore(q, vs, NoCuts(vs));
    assert NoCuts(vs)[..i] == NoCuts(vs[..i]);
    GroupSane(q, vs[..i], NoCuts(vs[..i]));
  }

  // The entry sg points at ends where the last vector ends.
  lemma {:induction false} EndsTogether(q: Limits, vs: seq<Vec>)
    requires q.block > 0 && vs != []
    ensures var e, v := SgAfter(q, vs).cur, vs[|vs| - 1]; e.addr + e.len == v.addr + v.len && e.len >= v.len
  {
    hide Mapped;
    if |vs| > 1 {
      EndsTogether(q, vs[..|vs| - 1]);
    }
  }

  lemma SpanJoins(addr: nat, m: nat, n: nat)
    ensures Span(addr, m + n) == Span(addr, m) + Span(addr + m, n)
  {
  }

  lemma EntryBytesStep(es: seq<Entry>, e: Entry)
    ensures EntryBytes(es + [e]) == EntryBytes(es) + Span(e.addr, e.len)
  {
    assert (es + [e])[..|es|] == es;
  }

  lemma VecBytesStep(vs: seq<Vec>)
    requires vs != []
    ensures var i := |vs| - 1; VecBytes(vs) == VecBytes(vs[..i]) + Span(vs[i].addr, vs[i].len)
  {
  }

  lemma SgStep(q: Limits, vs: seq<Vec>)
    requires q.block > 0 && |vs| > 1
    ensures var i := |vs| - 1;
            var sg, v := SgAfter(q, vs[..i]), vs[i];
            SgAfter(q, vs) == if Opens(q, vs, false, sg.cur.len) then Sg(sg.closed + [sg.cur], Entry(v.addr, v.len))
                              else Sg(sg.closed, Entry(sg.cur.addr, sg.cur.len + v.len))
  {
    hide Mapped, Opens;
  }

  function SgBytes(sg: Sg): seq<nat> { EntryBytes(sg.closed) + Span(sg.cur.addr, sg.cur.len) }

  lemma SgOpened(sg: Sg, e: Entry)
    ensures SgBytes(Sg(sg.closed + [sg.cur], e)) == SgBytes(sg) + Span(e.addr, e.len)
  {
    hide Span, EntryBytes;
    EntryBytesStep(sg.closed, sg.cur);
  }

  lemma SgGrown(sg: Sg, n: nat)
    ensures SgBytes(Sg(sg.closed, Entry(sg.cur.addr, sg.cur.len + n)))
            == SgBytes(sg) + Span(sg.cur.addr + sg.cur.len, n)
  {
    SpanJoins(sg.cur.addr, sg.cur.len, n);
    hide Span, EntryBytes;
    Regrouped(EntryBytes(sg.closed), Span(sg.cur.addr, sg.cur.len), Span(sg.cur.addr + sg.cur.len, n));
  }

  lemma SgFirst(q: Limits, vs: seq<Vec>)
    requires q.block > 0 && |vs| == 1
    ensures SgBytes(SgAfter(q, vs)) == Span(vs[0].addr, vs[0].len)
  {
    hide Mapped, Span;
    assert EntryBytes([]) == [];
  }

  lemma NoBytes()
    ensures VecBytes([]) == [] && EntryBytes([]) == []
  {
  }

  lemma {:induction false} SgKeepsData(q: Limits, vs: seq<Vec>)
    requires q.block > 0 && vs != []
    ensures SgBytes(SgAfter(q, vs)) == VecBytes(vs)
  {
    hide SgAfter, SgBytes, Span, VecBytes;
    var i := |vs| - 1;
    VecBytesStep(vs);
    NoBytes();
    if i == 0 {
      SgFirst(q, vs);
      assert vs[..0] == [];
    } else {
      var p := vs[..i];
      var sg, v := SgAfter(q, p), vs[i];
      SgKeepsData(q, p);
      EndsTogether(q, p);
      SgStep(q, vs);
      SgOpened(sg, Entry(v.addr, v.len));
      SgGrown(sg, v.len);
    }
  }

  // The entries, spelled out byte by byte, are the vectors spelled out byte by byte.
  lemma EntriesKeepData(q: Limits, vs: seq<Vec>)
    requires q.block > 0
    ensures EntryBytes(Entries(q, vs)) == VecBytes(vs)
  {
    hide Span, SgAfter, VecBytes;
    NoBytes();
    if vs != [] {
      SgKeepsData(q, vs);
      EntryBytesStep(SgAfter(q, vs).closed, SgAfter(q, vs).cur);
    }
  }

  // ---------------------------------------------------------------- the limits of an entry

  // The vectors of each entry.
  function Parts(q: Limits, vs: seq<Vec>): (ps: seq<seq<Vec>>)
    requires q.block > 0 && vs != []
    ensures ps != []
  {
    var i := |vs| - 1;
    if i == 0 then [[vs[i]]]
    else
      var ps, k := Parts(q, vs[..i]), |Parts(q, vs[..i])| - 1;
      if Opens(q, vs, false, SgAfter(q, vs[..i]).cur.len) then ps + [[vs[i]]] else ps[..k] + [ps[k] + [vs[i]]]
  }

  function Length(g: seq<Vec>): nat {
    if g == [] then 0 else Length(g[..|g| - 1]) + g[|g| - 1].len
  }

  // Each vector of a group was joined to the one before it.
  predicate Chained(q: Limits, g: seq<Vec>)
    requires q.block > 0
  {
    forall k :: 0 < k < |g| ==> Joins(q, g[k - 1], g[k])
  }

  predicate InBlock(q: Limits, e: Entry)
    requires q.block > 0
  {
    e.addr / q.block == (e.addr + e.len - 1) / q.block
  }

  predicate Limited(q: Limits, e: Entry)
    requires q.block > 0
  {
    e.len <= q.maxSize && InBlock(q, e)
  }

  // The entry starts where the group does, is as long, and unless the group is a
  // single vector no longer than the queue allows.
  predicate Spans(q: Limits, g: seq<Vec>, e: Entry)
    requires q.block > 0
  {
    g != [] && Chained(q, g) && e == Entry(g[0].addr, Length(g)) && (|g| == 1 || e.len <= q.maxSize)
  }

  ghost predicate AllSpan(q: Limits, ps: seq<seq<Vec>>, es: seq<Entry>)
    requires q.block > 0
  {
    |ps| == |es| && forall j :: 0 <= j < |ps| ==> Spans(q, ps[j], es[j])
  }

  lemma SpansOne(q: Limits, v: Vec)
    requires q.block > 0
    ensures Spans(q, [v], Entry(v.addr, v.len))
  {
    assert Length([v][..0]) == 0;
  }

  lemma SpansMore(q: Limits, g: seq<Vec>, e: Entry, v: Vec)
    requires q.block > 0 && Spans(q, g, e) && Joins(q, g[|g| - 1], v) && e.len + v.len <= q.maxSize
    ensures Spans(q, g + [v], Entry(e.addr, e.len + v.len))
  {
    hide Joins;
    assert (g + [v])[..|g|] == g;
  }

  lemma FlatMore(ps: seq<seq<Vec>>, g: seq<Vec>)
    ensures Flat(ps + [g]) == Flat(ps) + g
  {
    assert (ps + [g])[..|ps|] == ps;
  }

  // The groups are the vectors, in order, and the entries are the groups.
  lemma {:induction false} PartsSpan(q: Limits, vs: seq<Vec>)
    requires q.block > 0 && vs != []
    ensures Flat(Parts(q, vs)) == vs
    ensures var ps := Parts(q, vs); var g := ps[|ps| - 1]; g != [] && g[|g| - 1] == vs[|vs| - 1]
    ensures var sg := SgAfter(q, vs); AllSpan(q, Parts(q, vs), sg.closed + [sg.cur])
  {
    hide Joins, Spans, Flat;
    var i := |vs| - 1;
    if i == 0 {
      hide Mapped;
      SpansOne(q, vs[0]);
      FlatMore([], [vs[0]]);
      NoParts();
      assert [] + [[vs[0]]] == [[vs[0]]];
    } else {
      var p := vs[..i];
      PartsSpan(q, p);
      PartsStep(q, vs, Parts(q, p), SgAfter(q, p));
    }
  }

  lemma NoParts()
    ensures Flat([]) == []
  {
  }

  lemma PartsMore(q: Limits, vs: seq<Vec>)
    requires q.block > 0 && |vs| > 1
    ensures var i := |vs| - 1;
            var ps := Parts(q, vs[..i]);
            var k := |ps| - 1;
            Parts(q, vs) == (if Opens(q, vs, false, SgAfter(q, vs[..i]).cur.len) then ps + [[vs[i]]]
                             else ps[..k] + [ps[k] + [vs[i]]])
  {
    hide Opens, SgAfter;
  }

  lemma PartOpened(q: Limits, ps: seq<seq<Vec>>, sg: Sg, v: Vec)
    requires q.block > 0 && AllSpan(q, ps, sg.closed + [sg.cur])
    ensures Flat(ps + [[v]]) == Flat(ps) + [v]
    ensures AllSpan(q, ps + [[v]], sg.closed + [sg.cur] + [Entry(v.addr, v.len)])
  {
    hide Spans, Flat;
    SpansOne(q, v);
    FlatMore(ps, [v]);
  }

  lemma PartGrown(q: Limits, ps: seq<seq<Vec>>, sg: Sg, v: Vec)
    requires q.block > 0 && ps != [] && AllSpan(q, ps, sg.closed + [sg.cur])
    requires var g := ps[|ps| - 1]; g != [] && Joins(q, g[|g| - 1], v) && sg.cur.len + v.len <= q.maxSize
    ensures var k := |ps| - 1;
            && Flat(ps[..k] + [ps[k] + [v]]) == Flat(ps) + [v]
            && AllSpan(q, ps[..k] + [ps[k] + [v]], sg.closed + [Entry(sg.cur.addr, sg.cur.len + v.len)])
  {
    hide Joins, Spans, Flat;
    var k := |ps| - 1;
    assert Spans(q, ps[k], (sg.closed + [sg.cur])[k]);
    SpansMore(q, ps[k], sg.cur, v);
    FlatMore(ps[..k], ps[k]);
    FlatMore(ps[..k], ps[k] + [v]);
    assert ps == ps[..k] + [ps[k]];
    Regrouped(Flat(ps[..k]), ps[k], [v]);
    assert forall j :: 0 <= j < k ==> Spans(q, ps[j], (sg.closed + [sg.cur])[j]);
  }

  lemma PartsStep(q: Limits, vs: seq<Vec>, ps: seq<seq<Vec>>, sg: Sg)
    requires q.block > 0 && |vs| > 1 && ps == Parts(q, vs[..|vs| - 1]) && sg == SgAfter(q, vs[..|vs| - 1])
    requires Flat(ps) == vs[..|vs| - 1] && AllSpan(q, ps, sg.closed + [sg.cur])
    requires var g := ps[|ps| - 1]; g != [] && g[|g| - 1] == vs[|vs| - 2]
    ensures Flat(Parts(q, vs)) == vs
    ensures var ps := Parts(q, vs); var g := ps[|ps| - 1]; g != [] && g[|g| - 1] == vs[|vs| - 1]
    ensures var sg := SgAfter(q, vs); AllSpan(q, Parts(q, vs), sg.closed + [sg.cur])
  {
    hide Joins, AllSpan, Flat, SgAfter, Parts;
    SgStep(q, vs);
    PartsMore(q, vs);
    var v := vs[|vs| - 1];
    assert vs == vs[..|vs| - 1] + [v];
    if Opens(q, vs, false, sg.cur.len) {
      PartOpened(q, ps, sg, v);
    } else {
      PartGrown(q, ps, sg, v);
    }
  }

  // One join moves from block to block only over an empty vector at a boundary.
  lemma JoinStays(b: nat, x: nat, y: nat, len: nat)
    requires b > 0 && x <= y && x / b == (y + len - 1) / b
    ensures x / b <= y / b && (x / b == y / b <==> !(len == 0 && y % b == 0))
  {
    Quotients(b, x, y);
    if len > 0 {
      Quotients(b, y, y + len - 1);
    } else if y > 0 {
      Predecessor(b, y);
    }
  }

  lemma Predecessor(b: nat, y: nat)
    requires b > 0 && y > 0
    ensures (y - 1) / b == if y % b == 0 then y / b - 1 else y / b
  {
    var i, r := y / b, y % b;
    assert y == b * i + r;
    if r == 0 {
      assert b * (i - 1) == b * i - b;
      Quotient(b, y - 1, i - 1);
    } else {
      Quotient(b, y - 1, i);
    }
  }

  lemma Quotient(b: nat, x: nat, i: int)
    requires b > 0 && b * i <= x < b * i + b
    ensures x / b == i
  {
    var j := x / b;
    Multiples(b, j + 1, i);
    Multiples(b, i + 1, j);
    assert b * (j + 1) == b * j + b && b * (i + 1) == b * i + b;
  }

  lemma Quotients(b: nat, x: nat, y: nat)
    requires b > 0 && x <= y
    ensures x / b <= y / b
  {
    var i, j := x / b, y / b;
    assert b * (j + 1) == b * j + b;
    Multiples(b, j + 1, i);
  }

  lemma {:induction false} Multiples(b: nat, i: int, j: int)
    ensures i <= j ==> b * i <= b * j
    decreases j - i
  {
    if i < j {
      Multiples(b, i + 1, j);
      assert b * (i + 1) == b * i + b;
    }
  }

  // An empty vector at a boundary.
  predicate Blind(q: Limits, v: Vec)
    requires q.block > 0
  {
    v.len == 0 && v.addr % q.block == 0
  }

  lemma {:induction false} BlocksKept(q: Limits, g: seq<Vec>, m: nat)
    requires q.block > 0 && Chained(q, g) && m < |g|
    ensures g[0].addr <= g[m].addr && g[0].addr / q.block <= g[m].addr / q.block
    ensures g[0].addr / q.block == g[m].addr / q.block <==> forall k :: 0 < k <= m ==> !Blind(q, g[k])
  {
    if m > 0 {
      BlocksKept(q, g, m - 1);
      assert Joins(q, g[m - 1], g[m]);
      JoinStays(q.block, g[m - 1].addr, g[m].addr, g[m].len);
      hide Chained, Joins;
      assert (forall k :: 0 < k <= m ==> !Blind(q, g[k])) <==>
             !Blind(q, g[m]) && forall k :: 0 < k <= m - 1 ==> !Blind(q, g[k]);
    }
  }

  lemma {:induction false} ChainEnd(q: Limits, g: seq<Vec>)
    requires q.block > 0 && Chained(q, g) && g != []
    ensures var v := g[|g| - 1]; g[0].addr + Length(g) == v.addr + v.len
  {
    if |g| > 1 {
      var i := |g| - 1;
      assert Joins(q, g[i - 1], g[i]);
      ChainEnd(q, g[..i]);
    } else {
      assert Length(g[..0]) == 0;
    }
  }

  // An entry of several vectors stays within a boundary exactly when none of them
  // but the first and the last is an empty vector at a boundary.
  lemma EntryInBlock(q: Limits, g: seq<Vec>, e: Entry)
    requires q.block > 0 && Spans(q, g, e) && |g| > 1
    ensures InBlock(q, e) <==> forall k :: 0 < k < |g| - 1 ==> !Blind(q, g[k])
  {
    var n := |g|;
    ChainEnd(q, g);
    assert Joins(q, g[n - 2], g[n - 1]);
    BlocksKept(q, g, n - 2);
  }

  // For every list of vectors: an entry is one vector, or is as long as its vectors
  // together, no longer than the queue allows, and within a boundary exactly when
  // no empty vector lies at a boundary inside it.
  lemma EntriesWithin(q: Limits, vs: seq<Vec>, j: nat)
    requires q.block > 0 && vs != [] && j < |Entries(q, vs)|
    ensures Flat(Parts(q, vs)) == vs && |Parts(q, vs)| == |Entries(q, vs)|
    ensures var g, e := Parts(q, vs)[j], Entries(q, vs)[j];
            && g != [] && e == Entry(g[0].addr, Length(g))
            && (|g| == 1 || e.len <= q.maxSize)
            && (|g| > 1 ==> (InBlock(q, e) <==> forall k :: 0 < k < |g| - 1 ==> !Blind(q, g[k])))
  {
    hide SgAfter, Mapped, Parts, Flat, InBlock, Blind;
    PartsSpan(q, vs);
    var g, e := Parts(q, vs)[j], Entries(q, vs)[j];
    assert Spans(q, g, e);
    if |g| > 1 {
      EntryInBlock(q, g, e);
    }
  }

  // An empty vector at a boundary lets an entry go across it.
  lemma EmptyVectorHidesBoundary()
    ensures var q := Limits(true, 65536, 4096, 128);
            var vs := [Vec(0, 4096, false), Vec(4096, 0, false), Vec(4096, 512, false)];
            SgAfter(q, vs) == Sg([], Entry(0, 4608)) && !Limited(q, Entry(0, 4608))
  {
    hide Mapped;
    var q := Limits(true, 65536, 4096, 128);
    var vs := [Vec(0, 4096, false), Vec(4096, 0, false), Vec(4096, 512, false)];
    assert vs[..2][..1] == vs[..1];
    assert SgAfter(q, vs[..1]) == Sg([], Entry(0, 4096));
    assert SgAfter(q, vs[..2]) == Sg([], Entry(0, 4096));
  }
}
