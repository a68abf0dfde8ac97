/**
 * Partial completion of a request: blk_update_request and req_bio_endio
 * (common/block/blk-core.c:134-172, 1975-2105).
 *
 * A request carries a chain of bios and each bio a list of vectors, of which
 * those from idx on are still to be transferred.  The data of a request is the
 * list of the byte addresses still to be transferred.
 */
module BioChain {
  import opened SeqUtil

  datatype Vec = Vec(page: nat, offset: nat, len: nat)

  datatype Bio = Bio(id: nat, sector: nat, size: nat, idx: nat, vecs: seq<Vec>, uptodate: bool)

  // proxy: the request is the queue's own barrier request
  datatype Req = Req(bios: seq<Bio>, dataLen: int, sector: nat, errors: int, orderr: int, ended: seq<(nat, int)>,
                     fs: bool, discard: bool, proxy: bool)

  const EIO := -5

  type Address = (nat, nat)

  function VecBytes(v: Vec): (s: seq<Address>)
    ensures |s| == v.len
  {
    seq(v.len, i requires 0 <= i < v.len => (v.page, v.offset + i))
  }

  function VecsBytes(vs: seq<Vec>): seq<Address> {
    if vs == [] then [] else VecBytes(vs[0]) + VecsBytes(vs[1..])
  }

  function BioBytes(b: Bio): seq<Address> {
    if b.idx <= |b.vecs| then VecsBytes(b.vecs[b.idx..]) else []
  }

  function Data(bios: seq<Bio>): seq<Address> {
    if bios == [] then [] else BioBytes(bios[0]) + Data(bios[1..])
  }

  // The size field is the number of bytes in the remaining vectors.
  predicate Sized(b: Bio) {
    && (b.vecs == [] || b.idx < |b.vecs|)
    && b.size == |BioBytes(b)|
  }

  predicate AllSized(bios: seq<Bio>) { forall i :: 0 <= i < |bios| ==> Sized(bios[i]) }

  // ---------------------------------------------------------------- one completion

  // Where the loop stops: bios unlinked, vectors of the next bio passed over,
  // bytes done in that bio, bytes done in all, bytes into the vector it stopped in.
  datatype Stop = Stop(bios: nat, vecs: nat, part: nat, total: nat, left: nat, bug: bool)

  function Walk(bios: seq<Bio>, vecs: nat, part: nat, total: nat, left: nat): (s: Stop)
    ensures s.bios <= |bios|
    decreases |bios|, if bios == [] then 0 else |bios[0].vecs| - bios[0].idx - vecs
  {
    if bios == [] then Stop(0, 0, 0, total, left, false)
    else
      var b := bios[0];
      if left >= b.size then
        if |bios| > 1 && left == b.size then Stop(1, 0, 0, total + b.size, 0, false)
        else
          var s := Walk(bios[1..], 0, 0, total + b.size, left - b.size);
          s.(bios := s.bios + 1)
      else if b.idx + vecs >= |b.vecs| then Stop(0, vecs, part, total, left, false)
      else
        var len := b.vecs[b.idx + vecs].len;
        if len > b.size then Stop(0, vecs, part, total, left, true)
        else if len > left then Stop(0, vecs, part + left, total + left, left, false)
        else if len == left then Stop(0, vecs + 1, part + len, total + len, 0, false)
        else Walk(bios, vecs + 1, part + len, total + len, left - len)
  }

  // What end_io is told about a bio.
  function Seen(b: Bio, error: int): int {
    if error != 0 then error else if !b.uptodate then EIO else 0
  }

  function Reports(bios: seq<Bio>, error: int): (s: seq<(nat, int)>)
    ensures |s| == |bios|
    ensures forall i :: 0 <= i < |bios| ==> s[i] == (bios[i].id, Seen(bios[i], error))
  {
    seq(|bios|, i requires 0 <= i < |bios| => (bios[i].id, Seen(bios[i], error)))
  }

  // The vector the walk stopped at loses what was done of it; past the last vector
  // there is none.
  function Shortened(vecs: seq<Vec>, i: nat, left: nat): seq<Vec> {
    if i < |vecs| then
      vecs[i := vecs[i].(offset := vecs[i].offset + left, len := if left <= vecs[i].len then vecs[i].len - left else 0)]
    else vecs
  }

  // req_bio_endio short of the end of the bio, then the step to the next vector.
  function Advanced(b: Bio, s: Stop, error: int, proxy: bool): Bio {
    var i := b.idx + s.vecs;
    var vecs := Shortened(b.vecs, i, s.left);
    if proxy then b.(idx := i, vecs := vecs)
    else b.(idx := i, vecs := vecs, uptodate := b.uptodate && error == 0,
            size := if s.part <= b.size then b.size - s.part else 0, sector := b.sector + s.part / 512)
  }

  function CurBytes(b: Bio): nat {
    if b.vecs != [] && b.idx < |b.vecs| then b.vecs[b.idx].len else b.size
  }

  // blk_update_request: the request afterwards, and whether it has more data.
  // Nothing is said of what comes after a BUG_ON.
  function Updated(r: Req, error: int, n: nat): (Req, bool) {
    var s := Walk(r.bios, 0, 0, 0, n);
    if r.bios == [] then (r, false)
    else if s.bug then (r, true)
    else
      var ended := if r.proxy then r.ended else r.ended + Reports(r.bios[..s.bios], error);
      var touched := s.bios > 0 || s.part > 0;
      var orderr := if r.proxy && touched && error != 0 && r.orderr == 0 then error else r.orderr;
      var q := r.(errors := if r.fs then 0 else r.errors, ended := ended, orderr := orderr);
      if s.bios == |r.bios| then (q.(bios := [], dataLen := 0), false)
      else
        var bios := Remaining(r.bios, s, error, r.proxy);
        var len := r.dataLen - s.total;
        var cur := CurBytes(bios[0]);
        (q.(bios := bios, dataLen := if len < cur then cur else len,
            sector := if r.fs || r.discard then r.sector + s.total / 512 else r.sector), true)
  }

  function Remaining(bios: seq<Bio>, s: Stop, error: int, proxy: bool): (rest: seq<Bio>)
    requires s.bios < |bios|
    ensures |rest| == |bios| - s.bios
  {
    if s.part > 0 then [Advanced(bios[s.bios], s, error, proxy)] + bios[s.bios + 1..] else bios[s.bios..]
  }

  // ---------------------------------------------------------------- where the walk stops

  lemma VecsHead(v: Vec, vs: seq<Vec>)
    ensures VecsBytes([v] + vs) == VecBytes(v) + VecsBytes(vs)
  {
    assert ([v] + vs)[1..] == vs;
  }

  lemma DataHead(b: Bio, bios: seq<Bio>)
    ensures Data([b] + bios) == BioBytes(b) + Data(bios)
  {
    hide BioBytes;
    assert ([b] + bios)[1..] == bios;
  }

  lemma {:induction false} VecsConcat(a: seq<Vec>, b: seq<Vec>)
    ensures VecsBytes(a + b) == VecsBytes(a) + VecsBytes(b)
  {
    hide VecBytes, VecsBytes;
    if a == [] {
      assert a + b == b;
      NoVecs();
    } else {
      VecsConcat(a[1..], b);
      assert a + b == [a[0]] + (a[1..] + b) && a == [a[0]] + a[1..];
      VecsHead(a[0], a[1..]);
      VecsHead(a[0], a[1..] + b);
    }
  }

  lemma {:induction false} DataConcat(a: seq<Bio>, b: seq<Bio>)
    ensures Data(a + b) == Data(a) + Data(b)
  {
    hide BioBytes, Data;
    if a == [] {
      assert a + b == b;
      NoBios();
    } else {
      DataConcat(a[1..], b);
      assert a + b == [a[0]] + (a[1..] + b) && a == [a[0]] + a[1..];
      DataHead(a[0], a[1..]);
      DataHead(a[0], a[1..] + b);
    }
  }

  lemma VecsSplit(vs: seq<Vec>, lo: nat, mid: nat)
    requires lo <= mid <= |vs|
    ensures VecsBytes(vs[lo..]) == VecsBytes(vs[lo..mid]) + VecsBytes(vs[mid..])
  {
    assert vs[lo..] == vs[lo..mid] + vs[mid..];
    VecsConcat(vs[lo..mid], vs[mid..]);
  }

  lemma VecsNext(vs: seq<Vec>, lo: nat, mid: nat)
    requires lo <= mid < |vs|
    ensures VecsBytes(vs[lo..mid + 1]) == VecsBytes(vs[lo..mid]) + VecBytes(vs[mid])
  {
    assert vs[lo..mid + 1] == vs[lo..mid] + [vs[mid]];
    VecsConcat(vs[lo..mid], [vs[mid]]);
    assert VecsBytes([vs[mid]]) == VecBytes(vs[mid]) + VecsBytes([]);
  }

  // The walk stopped c bytes into the remaining data of b, at a vector that exists.
  predicate StopsIn(b: Bio, s: Stop, c: nat) {
    && b.idx + s.vecs < |b.vecs|
    && s.left <= b.vecs[b.idx + s.vecs].len
    && |VecsBytes(b.vecs[b.idx..b.idx + s.vecs])| + s.left == c
  }

  lemma WalkStep(bios: seq<Bio>, vecs: nat, part: nat, total: nat, left: nat)
    requires bios != [] && left < bios[0].size && bios[0].idx + vecs < |bios[0].vecs|
    requires bios[0].vecs[bios[0].idx + vecs].len <= bios[0].size
    ensures var len := bios[0].vecs[bios[0].idx + vecs].len;
            Walk(bios, vecs, part, total, left) ==
            if len > left then Stop(0, vecs, part + left, total + left, left, false)
            else if len == left then Stop(0, vecs + 1, part + len, total + len, 0, false)
            else Walk(bios, vecs + 1, part + len, total + len, left - len)
  {
  }

  // Short of the end of a bio there is a vector, it fits, and past it the same.
  lemma VecFits(b: Bio, i: nat)
    requires Sized(b) && b.idx <= i <= |b.vecs|
    requires |VecsBytes(b.vecs[b.idx..i])| < b.size
    ensures i < |b.vecs|
    ensures |VecsBytes(b.vecs[b.idx..i + 1])| == |VecsBytes(b.vecs[b.idx..i])| + b.vecs[i].len <= b.size
  {
    hide VecsBytes, VecBytes;
    VecsSplit(b.vecs, b.idx, i);
    NoVecs();
    assert b.vecs[|b.vecs|..] == [];
    VecsNext(b.vecs, b.idx, i);
    VecsSplit(b.vecs, b.idx, i + 1);
  }

  lemma {:induction false} WalkInBio(bios: seq<Bio>, vecs: nat, part: nat, total: nat, left: nat)
    requires bios != [] && Sized(bios[0]) && bios[0].idx + vecs <= |bios[0].vecs|
    requires part == |VecsBytes(bios[0].vecs[bios[0].idx..bios[0].idx + vecs])|
    requires part + left < bios[0].size
    ensures var s := Walk(bios, vecs, part, total, left);
            && s.bios == 0 && !s.bug && s.part == part + left && s.total == total + left
            && StopsIn(bios[0], s, part + left)
    decreases |bios[0].vecs| - vecs
  {
    hide VecsBytes, Walk, Sized;
    var b := bios[0];
    var i := b.idx + vecs;
    VecFits(b, i);
    WalkStep(bios, vecs, part, total, left);
    var len := b.vecs[i].len;
    if len == left {
      VecFits(b, i + 1);
    } else if len < left {
      WalkInBio(bios, vecs + 1, part + len, total + len, left - len);
    }
  }

  lemma HasVecs(b: Bio)
    requires Sized(b) && b.size > 0
    ensures b.idx < |b.vecs|
  {
  }

  lemma NoVecs()
    ensures VecsBytes([]) == []
  {
  }

  // Everything is done, or n bytes are: whole bios, and a part of the next one.
  ghost predicate StopsAt(bios: seq<Bio>, s: Stop, total: nat, n: nat) {
    && !s.bug
    && s.bios <= |bios|
    && (s.bios == |bios| ==> |Data(bios)| <= n)
    && (s.bios < |bios| ==>
          && |Data(bios[..s.bios])| + s.part == n
          && s.total == total + n
          && s.part <= bios[s.bios].size
          && (s.part > 0 ==> s.part < bios[s.bios].size && StopsIn(bios[s.bios], s, s.part)))
  }

  lemma WalkWithin(bios: seq<Bio>, total: nat, n: nat)
    requires bios != [] && Sized(bios[0]) && n < bios[0].size
    ensures StopsAt(bios, Walk(bios, 0, 0, total, n), total, n)
  {
    hide Walk, Data, VecsBytes;
    var b := bios[0];
    HasVecs(b);
    assert b.vecs[b.idx..b.idx] == [];
    NoVecs();
    WalkInBio(bios, 0, 0, total, n);
    assert bios[..0] == [];
    NoBios();
  }

  lemma WalkExactly(bios: seq<Bio>, total: nat)
    requires |bios| > 1 && Sized(bios[0])
    ensures StopsAt(bios, Walk(bios, 0, 0, total, bios[0].size), total, bios[0].size)
  {
    hide Data, BioBytes, VecsBytes;
    assert bios[..1] == [bios[0]] + [];
    DataHead(bios[0], []);
    NoBios();
  }

  lemma WalkOn(bios: seq<Bio>, s: Stop, total: nat, n: nat)
    requires bios != [] && Sized(bios[0]) && n >= bios[0].size
    requires StopsAt(bios[1..], s, total + bios[0].size, n - bios[0].size)
    ensures StopsAt(bios, s.(bios := s.bios + 1), total, n)
  {
    hide Data, BioBytes, VecsBytes;
    var b, tail := bios[0], bios[1..];
    assert bios == [b] + tail && bios[..s.bios + 1] == [b] + tail[..s.bios];
    DataHead(b, tail);
    DataHead(b, tail[..s.bios]);
  }

  lemma {:induction false} WalkStops(bios: seq<Bio>, total: nat, n: nat)
    requires AllSized(bios)
    ensures StopsAt(bios, Walk(bios, 0, 0, total, n), total, n)
  {
    hide Sized, StopsAt;
    if bios == [] {
      NothingStops(total, n);
    } else if n < bios[0].size {
      WalkWithin(bios, total, n);
    } else if |bios| > 1 && n == bios[0].size {
      WalkExactly(bios, total);
    } else {
      WalkStops(bios[1..], total + bios[0].size, n - bios[0].size);
      WalkOn(bios, Walk(bios[1..], 0, 0, total + bios[0].size, n - bios[0].size), total, n);
    }
  }

  lemma NothingStops(total: nat, n: nat)
    ensures StopsAt([], Walk([], 0, 0, total, n), total, n)
  {
  }

  lemma NoBios()
    ensures Data([]) == []
  {
  }

  // ---------------------------------------------------------------- what is left

  function Drop<T>(s: seq<T>, n: nat): seq<T> { if n <= |s| then s[n..] else [] }

  lemma AdvancedBytes(b: Bio, s: Stop, error: int, proxy: bool, c: nat)
    requires StopsIn(b, s, c)
    ensures c <= |BioBytes(b)| && BioBytes(Advanced(b, s, error, proxy)) == BioBytes(b)[c..]
  {
    hide VecsBytes;
    var i := b.idx + s.vecs;
    var v := b.vecs[i];
    var w := v.(offset := v.offset + s.left, len := v.len - s.left);
    var rest := b.vecs[i + 1..];
    assert b.vecs[i..] == [v] + rest && b.vecs[i := w][i..] == [w] + rest;
    VecsHead(v, rest);
    VecsHead(w, rest);
    VecsSplit(b.vecs, b.idx, i);
    assert VecBytes(w) == VecBytes(v)[s.left..];
    DropTwo(VecsBytes(b.vecs[b.idx..i]), VecBytes(v), VecsBytes(rest), s.left);
  }

  lemma AdvancedSize(b: Bio, s: Stop, error: int, proxy: bool)
    requires Sized(b) && 0 < s.part < b.size && StopsIn(b, s, s.part)
    ensures Sized(Advanced(b, s, error, proxy)) <==> !proxy
  {
    AdvancedBytes(b, s, error, proxy, s.part);
    hide BioBytes, VecsBytes;
  }

  lemma DropTwo<T>(a: seq<T>, b: seq<T>, c: seq<T>, n: nat)
    requires n <= |b|
    ensures (a + (b + c))[|a| + n..] == b[n..] + c
  {
  }

  lemma DropOne<T>(a: seq<T>, b: seq<T>, c: seq<T>, n: nat)
    requires n <= |b|
    ensures Drop(a + (b + c), |a| + n) == b[n..] + c
  {
  }

  lemma SizedHead(a: Bio, tail: seq<Bio>)
    ensures AllSized([a] + tail) <==> Sized(a) && AllSized(tail)
  {
    hide Sized;
    var s := [a] + tail;
    assert s[0] == a && s[1..] == tail;
    assert forall i :: 0 <= i < |tail| ==> s[i + 1] == tail[i];
  }

  lemma RemainingData(bios: seq<Bio>, s: Stop, error: int, proxy: bool, total: nat, n: nat)
    requires AllSized(bios) && StopsAt(bios, s, total, n) && s.bios < |bios|
    ensures var rest := Remaining(bios, s, error, proxy);
            Data(rest) == Drop(Data(bios), n) && (AllSized(rest) <==> !(proxy && s.part > 0))
  {
    hide Data, BioBytes, StopsIn, Advanced, AllSized, Drop, Sized;
    var k := s.bios;
    var b, tail := bios[k], bios[k + 1..];
    SizedPart(bios, k);
    assert bios == bios[..k] + ([b] + tail);
    DataConcat(bios[..k], [b] + tail);
    DataHead(b, tail);
    SizeOf(b);
    DropOne(Data(bios[..k]), BioBytes(b), Data(tail), s.part);
    if s.part > 0 {
      var a := Advanced(b, s, error, proxy);
      AdvancedBytes(b, s, error, proxy, s.part);
      AdvancedSize(b, s, error, proxy);
      DataHead(a, tail);
      SizedHead(a, tail);
    } else {
      assert bios[k..] == [b] + tail;
      SizedHead(b, tail);
      assert BioBytes(b)[0..] == BioBytes(b);
    }
  }

  lemma SizedPart(bios: seq<Bio>, k: nat)
    requires AllSized(bios) && k < |bios|
    ensures Sized(bios[k]) && AllSized(bios[k + 1..])
  {
    hide Sized;
  }

  lemma SizeOf(b: Bio)
    requires Sized(b)
    ensures b.size == |BioBytes(b)|
  {
  }

  // Completing n bytes leaves the old data without its first n bytes.
  lemma CompletionDropsBytes(r: Req, error: int, n: nat)
    requires AllSized(r.bios)
    ensures Data(Updated(r, error, n).0.bios) == Drop(Data(r.bios), n)
  {
    hide Data, AllSized, Walk, Remaining;
    WalkStops(r.bios, 0, n);
    var s := Walk(r.bios, 0, 0, 0, n);
    NoBios();
    if r.bios != [] && s.bios < |r.bios| {
      RemainingData(r.bios, s, error, r.proxy, 0, n);
    }
  }

  // n bytes end inside a bio.
  ghost predicate EndsInside(bios: seq<Bio>, n: nat) {
    exists k :: 0 <= k < |bios| && |Data(bios[..k])| < n < |Data(bios[..k])| + bios[k].size
  }

  // The size fields stay right unless the queue's own barrier request is cut inside a bio.
  lemma CompletionKeepsSizes(r: Req, error: int, n: nat)
    requires AllSized(r.bios)
    ensures AllSized(Updated(r, error, n).0.bios) <==> !(r.proxy && EndsInside(r.bios, n))
  {
    hide Data, Walk, Remaining, Sized, StopsIn;
    WalkStops(r.bios, 0, n);
    var s := Walk(r.bios, 0, 0, 0, n);
    if r.bios != [] {
      CutIsInside(r.bios, s, n);
      if s.bios < |r.bios| {
        RemainingData(r.bios, s, error, r.proxy, 0, n);
      }
    }
  }

  lemma {:induction false} DataGrows(bios: seq<Bio>, i: nat, j: nat)
    requires i <= j <= |bios|
    ensures |Data(bios[..i])| <= |Data(bios[..j])|
    ensures i < j && Sized(bios[i]) ==> |Data(bios[..i])| + bios[i].size <= |Data(bios[..j])|
  {
    hide Data, BioBytes;
    if i < j {
      assert bios[..j] == bios[..i] + ([bios[i]] + bios[i + 1..j]);
      DataConcat(bios[..i], [bios[i]] + bios[i + 1..j]);
      DataHead(bios[i], bios[i + 1..j]);
    }
  }

  lemma CutIsInside(bios: seq<Bio>, s: Stop, n: nat)
    requires AllSized(bios) && StopsAt(bios, s, 0, n)
    ensures EndsInside(bios, n) <==> s.bios < |bios| && s.part > 0
  {
    hide Data, Sized, StopsIn;
    assert bios[..|bios|] == bios;
    if EndsInside(bios, n) {
      var k :| 0 <= k < |bios| && |Data(bios[..k])| < n < |Data(bios[..k])| + bios[k].size;
      if s.bios <= k {
        DataGrows(bios, s.bios, k);
      } else {
        DataGrows(bios, k, s.bios);
      }
    }
  }

  // The length field stays the number of bytes left, and the repair of a
  // "botched" length never changes it.
  lemma CompletionKeepsLength(r: Req, error: int, n: nat)
    requires AllSized(r.bios) && r.dataLen == |Data(r.bios)|
    ensures var q := Updated(r, error, n).0; q.dataLen == |Data(q.bios)|
  {
    hide Data, AllSized, Walk, Remaining, CurBytes, StopsIn;
    CompletionDropsBytes(r, error, n);
    WalkStops(r.bios, 0, n);
    var s := Walk(r.bios, 0, 0, 0, n);
    NoBios();
    if r.bios != [] && s.bios < |r.bios| {
      DataGrows(r.bios, s.bios + 1, |r.bios|);
      StopBeforeEnd(r.bios, s, n);
      FirstVecFits(r.bios, s, error, r.proxy, n);
    }
  }

  lemma StopBeforeEnd(bios: seq<Bio>, s: Stop, n: nat)
    requires AllSized(bios) && StopsAt(bios, s, 0, n) && s.bios < |bios|
    ensures n <= |Data(bios)|
  {
    hide Data, Sized, StopsIn;
    DataGrows(bios, s.bios, |bios|);
    assert bios[..|bios|] == bios;
  }

  lemma CurBytesFit(b: Bio)
    requires b.vecs == [] ==> b.size == 0
    requires b.vecs != [] ==> b.idx < |b.vecs|
    ensures CurBytes(b) <= |BioBytes(b)|
  {
    hide VecsBytes, VecBytes;
    if b.vecs != [] {
      assert b.vecs[b.idx..] == [b.vecs[b.idx]] + b.vecs[b.idx + 1..];
      VecsHead(b.vecs[b.idx], b.vecs[b.idx + 1..]);
    }
  }

  lemma SizedHasNoGap(b: Bio)
    requires Sized(b)
    ensures b.vecs == [] ==> b.size == 0
    ensures b.vecs != [] ==> b.idx < |b.vecs|
  {
  }

  lemma FirstVecFits(bios: seq<Bio>, s: Stop, error: int, proxy: bool, n: nat)
    requires AllSized(bios) && StopsAt(bios, s, 0, n) && s.bios < |bios|
    ensures var rest := Remaining(bios, s, error, proxy); CurBytes(rest[0]) <= |Data(rest)|
  {
    hide Data, BioBytes, Sized, CurBytes;
    var rest := Remaining(bios, s, error, proxy);
    SizedHasNoGap(bios[s.bios]);
    CurBytesFit(rest[0]);
    assert rest == [rest[0]] + rest[1..];
    DataHead(rest[0], rest[1..]);
  }

  // ---------------------------------------------------------------- what is ended

  lemma WalkFirst(bios: seq<Bio>, total: nat, n: nat)
    requires bios != []
    ensures Walk(bios, 0, 0, total, n).bios ==
            if n < bios[0].size then 0
            else if |bios| > 1 && n == bios[0].size then 1
            else 1 + Walk(bios[1..], 0, 0, total + bios[0].size, n - bios[0].size).bios
  {
    if n < bios[0].size {
      StaysInBio(bios, 0, 0, total, n);
    }
  }

  lemma {:induction false} WalkCounts(bios: seq<Bio>, total: nat, n: nat, i: nat)
    requires AllSized(bios) && i < |bios|
    ensures i < Walk(bios, 0, 0, total, n).bios
       <==> |Data(bios[..i])| + bios[i].size <= n && (i == 0 || |Data(bios[..i])| < n)
  {
    hide Data, BioBytes, Sized, Walk;
    var b := bios[0];
    assert bios == [b] + bios[1..];
    WalkFirst(bios, total, n);
    NoBios();
    SizeOf(b);
    if i > 0 {
      assert bios[..i] == [b] + bios[1..][..i - 1];
      DataHead(b, bios[1..][..i - 1]);
    } else {
      assert bios[..0] == [];
    }
    if i > 0 && n > b.size {
      SizedPart(bios, 0);
      WalkCounts(bios[1..], total + b.size, n - b.size, i - 1);
      assert bios[1..][..0] == [];
    }
  }

  lemma {:induction false} StaysInBio(bios: seq<Bio>, vecs: nat, part: nat, total: nat, left: nat)
    requires bios != [] && left < bios[0].size
    ensures Walk(bios, vecs, part, total, left).bios == 0
    decreases |bios[0].vecs| - bios[0].idx - vecs
  {
    if bios[0].idx + vecs < |bios[0].vecs| {
      var len := bios[0].vecs[bios[0].idx + vecs].len;
      if len < left {
        StaysInBio(bios, vecs + 1, part + len, total + len, left - len);
      }
    }
  }

  function Ids(bios: seq<Bio>): (s: seq<nat>)
    ensures |s| == |bios| && forall i :: 0 <= i < |bios| ==> s[i] == bios[i].id
  {
    seq(|bios|, i requires 0 <= i < |bios| => bios[i].id)
  }

  // Exactly the bios that the n bytes cover, and that the loop reached with
  // bytes to spare, are ended, once each and in order; the others stay.
  lemma CompletionEndsCovered(r: Req, error: int, n: nat)
    requires AllSized(r.bios) && !r.proxy
    ensures var q := Updated(r, error, n).0;
            && |q.bios| <= |r.bios|
            && var k := |r.bios| - |q.bios|;
            && q.ended == r.ended + Reports(r.bios[..k], error)
            && Ids(q.bios) == Ids(r.bios[k..])
            && (q.bios != [] ==> q.bios[1..] == r.bios[k + 1..])
            && forall i :: 0 <= i < |r.bios| ==>
                 (i < k <==> |Data(r.bios[..i])| + r.bios[i].size <= n && (i == 0 || |Data(r.bios[..i])| < n))
  {
    hide Data, Sized, Walk, Updated;
    WalkStops(r.bios, 0, n);
    var s := Walk(r.bios, 0, 0, 0, n);
    if r.bios != [] {
      StoppedQuietly(r.bios, s, 0, n);
      UpdatedKeeps(r, error, n);
      forall i | 0 <= i < |r.bios|
        ensures i < s.bios <==> |Data(r.bios[..i])| + r.bios[i].size <= n && (i == 0 || |Data(r.bios[..i])| < n)
      {
        WalkCounts(r.bios, 0, n, i);
      }
    } else {
      NothingUpdated(r, error, n);
    }
  }

  lemma StoppedQuietly(bios: seq<Bio>, s: Stop, total: nat, n: nat)
    requires StopsAt(bios, s, total, n)
    ensures !s.bug
  {
  }

  lemma NothingUpdated(r: Req, error: int, n: nat)
    requires r.bios == []
    ensures Updated(r, error, n).0 == r && r.ended == r.ended + Reports([], error)
  {
    assert r.ended + Reports([], error) == r.ended;
  }

  // The bios passed are reported, and of those left the first may have changed.
  lemma UpdatedKeeps(r: Req, error: int, n: nat)
    requires r.bios != [] && !r.proxy && !Walk(r.bios, 0, 0, 0, n).bug
    ensures var q, k := Updated(r, error, n).0, Walk(r.bios, 0, 0, 0, n).bios;
            && |q.bios| == |r.bios| - k
            && q.ended == r.ended + Reports(r.bios[..k], error)
            && Ids(q.bios) == Ids(r.bios[k..])
            && (q.bios != [] ==> q.bios[1..] == r.bios[k + 1..])
  {
    hide Walk, CurBytes, Shortened;
  }

  // Completing every byte finishes the request, except when an empty bio is
  // left at the end of a longer chain.
  lemma WholeCompletionFinishes(r: Req, error: int)
    requires AllSized(r.bios)
    ensures Updated(r, error, |Data(r.bios)|).1 == false
       <==> |r.bios| <= 1 || r.bios[|r.bios| - 1].size > 0
  {
    hide Data, Sized, Walk, StopsIn, CurBytes, Remaining, BioBytes;
    if r.bios != [] {
      var n, last := |Data(r.bios)|, |r.bios| - 1;
      WalkStops(r.bios, 0, n);
      WalkCounts(r.bios, 0, n, last);
      assert r.bios == r.bios[..last] + ([r.bios[last]] + []);
      DataConcat(r.bios[..last], [r.bios[last]] + []);
      DataHead(r.bios[last], []);
      NoBios();
      SizeOf(r.bios[last]);
      assert last == 0 ==> r.bios[..last] == [];
    }
  }

  // A chain of which completing every byte leaves a bio behind.
  lemma EmptyBioIsLeftBehind()
    ensures var full := Bio(0, 0, 512, 0, [Vec(7, 0, 512)], true);
            var empty := Bio(1, 1, 0, 0, [], true);
            var r := Req([full, empty], 512, 0, 0, 0, [], true, false, false);
            AllSized(r.bios) && |Data(r.bios)| == 512 && Updated(r, 0, 512).1
  {
    var full := Bio(0, 0, 512, 0, [Vec(7, 0, 512)], true);
    var empty := Bio(1, 1, 0, 0, [], true);
    var r := Req([full, empty], 512, 0, 0, 0, [], true, false, false);
    assert VecsBytes([Vec(7, 0, 512)]) == VecBytes(Vec(7, 0, 512)) + VecsBytes([]);
    assert [Vec(7, 0, 512)][0..] == [Vec(7, 0, 512)];
    assert AllSized(r.bios);
    hide Updated, Data, Sized;
    SizedSizes(r.bios);
    assert r.bios == [full] + [empty] && [empty] == [empty] + [];
    SizesHead(full, [empty]);
    SizesHead(empty, []);
    WholeCompletionFinishes(r, 0);
  }

  // ---------------------------------------------------------------- runs of completions

  function Run(r: Req, calls: seq<(int, nat)>): Req
    decreases |calls|
  {
    if calls == [] then r else Run(Updated(r, calls[0].0, calls[0].1).0, calls[1..])
  }

  function Bytes(calls: seq<(int, nat)>): nat {
    if calls == [] then 0 else calls[0].1 + Bytes(calls[1..])
  }

  function Who(ended: seq<(nat, int)>): (s: seq<nat>)
    ensures |s| == |ended| && forall i :: 0 <= i < |ended| ==> s[i] == ended[i].0
  {
    seq(|ended|, i requires 0 <= i < |ended| => ended[i].0)
  }

  // Whatever the pieces, the data left is the old data without as many bytes as
  // were completed, and the bios ended and the bios left are the old chain.
  lemma {:induction false} RunsConserve(r: Req, calls: seq<(int, nat)>)
    requires AllSized(r.bios) && !r.proxy && r.dataLen == |Data(r.bios)|
    ensures var q := Run(r, calls);
            && Data(q.bios) == Drop(Data(r.bios), Bytes(calls))
            && q.dataLen == |Data(q.bios)|
            && Who(q.ended) + Ids(q.bios) == Who(r.ended) + Ids(r.bios)
    decreases |calls|
  {
    hide Updated, Data, AllSized;
    if calls != [] {
      var error, n := calls[0].0, calls[0].1;
      var m := Updated(r, error, n).0;
      CompletionKeepsSizes(r, error, n);
      CompletionDropsBytes(r, error, n);
      CompletionKeepsLength(r, error, n);
      CompletionConserves(r, error, n);
      RunsConserve(m, calls[1..]);
    }
  }

  lemma CompletionConserves(r: Req, error: int, n: nat)
    requires AllSized(r.bios) && !r.proxy
    ensures var q := Updated(r, error, n).0;
            !q.proxy && Who(q.ended) + Ids(q.bios) == Who(r.ended) + Ids(r.bios)
  {
    CompletionEndsCovered(r, error, n);
    SameKind(r, error, n);
    hide Data, AllSized, Updated;
    var q := Updated(r, error, n).0;
    var k := |r.bios| - |q.bios|;
    Accounted(r.ended, Reports(r.bios[..k], error), r.bios, k);
  }

  lemma SameKind(r: Req, error: int, n: nat)
    requires AllSized(r.bios)
    ensures var q := Updated(r, error, n).0; q.proxy == r.proxy && q.fs == r.fs
  {
    hide Data, AllSized, Walk, Remaining, CurBytes;
  }

  lemma Accounted(before: seq<(nat, int)>, now: seq<(nat, int)>, bios: seq<Bio>, k: nat)
    requires k <= |bios| && Who(now) == Ids(bios[..k])
    ensures Who(before + now) + Ids(bios[k..]) == Who(before) + Ids(bios)
  {
    WhoConcat(before, now);
    IdsSplit(bios, k);
    hide Who, Ids;
    Regrouped(Who(before), Ids(bios[..k]), Ids(bios[k..]));
  }

  lemma WhoConcat(a: seq<(nat, int)>, b: seq<(nat, int)>)
    ensures Who(a + b) == Who(a) + Who(b)
  {
  }

  lemma IdsSplit(bios: seq<Bio>, k: nat)
    requires k <= |bios|
    ensures Ids(bios) == Ids(bios[..k]) + Ids(bios[k..])
  {
  }

  // ---------------------------------------------------------------- the queue's own barrier request

  // A bio of that request that was cut: its vectors moved on, its size did not.
  ghost predicate Stale(b: Bio) { b.idx <= |b.vecs| && b.size > |BioBytes(b)| }

  // The walk stopped c bytes into the bio, or past its last vector.
  ghost predicate StopsStale(b: Bio, s: Stop, c: nat) {
    && s.bios == 0 && !s.bug
    && (StopsIn(b, s, c) || (b.idx + s.vecs == |b.vecs| && |BioBytes(b)| <= c))
    && (s.part == 0 ==> c == 0 || BioBytes(b) == [])
  }

  lemma VecWithin(b: Bio, i: nat)
    requires b.idx <= i < |b.vecs|
    ensures |VecsBytes(b.vecs[b.idx..i + 1])| == |VecsBytes(b.vecs[b.idx..i])| + b.vecs[i].len <= |BioBytes(b)|
  {
    hide VecsBytes, VecBytes;
    VecsNext(b.vecs, b.idx, i);
    VecsSplit(b.vecs, b.idx, i + 1);
  }

  lemma {:induction false} WalkInStale(bios: seq<Bio>, vecs: nat, part: nat, total: nat, left: nat)
    requires bios != [] && Stale(bios[0]) && bios[0].idx + vecs <= |bios[0].vecs|
    requires part == |VecsBytes(bios[0].vecs[bios[0].idx..bios[0].idx + vecs])| && part + left < bios[0].size
    ensures StopsStale(bios[0], Walk(bios, vecs, part, total, left), part + left)
    decreases |bios[0].vecs| - vecs
  {
    hide VecsBytes, BioBytes, Walk;
    var b := bios[0];
    var i := b.idx + vecs;
    if i == |b.vecs| {
      WalkPastVecs(bios, vecs, part, total, left);
      AllVecs(b);
    } else {
      VecWithin(b, i);
      WalkStep(bios, vecs, part, total, left);
      var len := b.vecs[i].len;
      if len == left {
        if i + 1 == |b.vecs| {
          AllVecs(b);
        }
      } else if len < left {
        WalkInStale(bios, vecs + 1, part + len, total + len, left - len);
      }
    }
  }

  lemma WalkPastVecs(bios: seq<Bio>, vecs: nat, part: nat, total: nat, left: nat)
    requires bios != [] && left < bios[0].size && bios[0].idx + vecs == |bios[0].vecs|
    ensures Walk(bios, vecs, part, total, left) == Stop(0, vecs, part, total, left, false)
  {
  }

  lemma AllVecs(b: Bio)
    requires b.idx <= |b.vecs|
    ensures VecsBytes(b.vecs[b.idx..|b.vecs|]) == BioBytes(b)
  {
    assert b.vecs[b.idx..|b.vecs|] == b.vecs[b.idx..];
  }

  lemma StaleAdvanced(b: Bio, s: Stop, error: int, c: nat)
    requires Stale(b) && StopsStale(b, s, c)
    ensures var a := if s.part > 0 then Advanced(b, s, error, true) else b;
            Stale(a) && a.size == b.size && BioBytes(a) == Drop(BioBytes(b), c)
  {
    hide VecsBytes;
    if s.part > 0 && StopsIn(b, s, c) {
      AdvancedBytes(b, s, error, true, c);
    } else if s.part > 0 {
      assert b.vecs[|b.vecs|..] == [];
      NoVecs();
    }
  }

  // Short of its size a cut bio stays, and loses what it has of the bytes.
  lemma StaleStays(r: Req, error: int, n: nat)
    requires r.proxy && r.bios != [] && Stale(r.bios[0]) && n < r.bios[0].size
    ensures var q := Updated(r, error, n).0;
            && q.proxy && q.bios != [] && Stale(q.bios[0]) && q.bios[0].size == r.bios[0].size
            && q.bios[1..] == r.bios[1..]
            && BioBytes(q.bios[0]) == Drop(BioBytes(r.bios[0]), n)
  {
    var b := r.bios[0];
    assert b.vecs[b.idx..b.idx + 0] == [];
    NoVecs();
    WalkInStale(r.bios, 0, 0, 0, n);
    hide Walk, Stale, StopsStale, BioBytes, VecsBytes, CurBytes, Advanced;
    var s := Walk(r.bios, 0, 0, 0, n);
    StaleAdvanced(b, s, error, n);
    StoppedFirst(b, s, n);
    StoppedInFirst(r, error, n);
  }

  lemma StoppedInFirst(r: Req, error: int, n: nat)
    requires r.proxy && r.bios != []
    requires var s := Walk(r.bios, 0, 0, 0, n); s.bios == 0 && !s.bug
    ensures var q, s := Updated(r, error, n).0, Walk(r.bios, 0, 0, 0, n);
            && q.proxy && q.bios != [] && q.bios[1..] == r.bios[1..]
            && q.bios[0] == if s.part > 0 then Advanced(r.bios[0], s, error, true) else r.bios[0]
  {
    hide Walk, CurBytes, Advanced;
  }

  lemma StoppedFirst(b: Bio, s: Stop, c: nat)
    requires StopsStale(b, s, c)
    ensures s.bios == 0 && !s.bug
  {
  }

  // With as many bytes as its size says it goes, though it had fewer.
  lemma StaleGoes(r: Req, error: int, n: nat)
    requires r.proxy && r.bios != [] && n >= r.bios[0].size && AllSized(r.bios[1..])
    ensures Data(Updated(r, error, n).0.bios) == Drop(Data(r.bios[1..]), n - r.bios[0].size)
  {
    hide Data, Sized, Remaining, CurBytes;
    var b, tail := r.bios[0], r.bios[1..];
    NoBios();
    if |r.bios| > 1 && n == b.size {
      assert Remaining(r.bios, Walk(r.bios, 0, 0, 0, n), error, true) == tail by { FirstGone(r.bios, n, error); }
      assert Drop(Data(tail), 0) == Data(tail);
    } else {
      WalkStops(tail, b.size, n - b.size);
      var s := Walk(tail, 0, 0, b.size, n - b.size);
      assert Walk(r.bios, 0, 0, 0, n) == s.(bios := s.bios + 1);
      hide Walk;
      if s.bios < |tail| {
        RemainingData(tail, s, error, true, b.size, n - b.size);
        RemainingLater(r.bios, s, error);
      }
    }
  }

  lemma FirstGone(bios: seq<Bio>, n: nat, error: int)
    requires |bios| > 1 && n == bios[0].size
    ensures Remaining(bios, Walk(bios, 0, 0, 0, n), error, true) == bios[1..]
  {
  }

  lemma RemainingLater(bios: seq<Bio>, s: Stop, error: int)
    requires bios != [] && s.bios < |bios| - 1
    ensures Remaining(bios, s.(bios := s.bios + 1), error, true) == Remaining(bios[1..], s, error, true)
  {
    hide Advanced;
    TailLater(bios, s.bios);
    TailLater(bios, s.bios + 1);
    assert bios[s.bios + 1] == bios[1..][s.bios];
    AdvancedAlike(bios[s.bios + 1], s, error);
  }

  lemma AdvancedAlike(b: Bio, s: Stop, error: int)
    ensures Advanced(b, s.(bios := s.bios + 1), error, true) == Advanced(b, s, error, true)
  {
  }

  lemma TailLater(bios: seq<Bio>, k: nat)
    requires bios != [] && k <= |bios| - 1
    ensures bios[k + 1..] == bios[1..][k..]
  {
  }

  // The first call has cut the barrier request inside a bio.
  lemma CutLeaves(r: Req, error: int, n: nat)
    requires AllSized(r.bios) && r.proxy && EndsInside(r.bios, n)
    ensures var q := Updated(r, error, n).0;
            q.proxy && q.bios != [] && Stale(q.bios[0]) && AllSized(q.bios[1..])
  {
    hide Data, Walk, Sized, CurBytes, StopsIn;
    WalkStops(r.bios, 0, n);
    var s := Walk(r.bios, 0, 0, 0, n);
    CutIsInside(r.bios, s, n);
    SizedPart(r.bios, s.bios);
    CutIsStale(r.bios[s.bios], s, error);
    assert Updated(r, error, n).0.bios[1..] == r.bios[s.bios + 1..];
  }

  lemma CutIsStale(b: Bio, s: Stop, error: int)
    requires Sized(b) && 0 < s.part < b.size && StopsIn(b, s, s.part)
    ensures Stale(Advanced(b, s, error, true))
  {
    AdvancedBytes(b, s, error, true, s.part);
    hide BioBytes, VecsBytes;
  }

  lemma DropsAgree<T>(b: seq<T>, t: seq<T>, size: nat, n: nat)
    requires size > |b|
    ensures n <= |b| ==> Drop(b, n) + t == Drop(b + t, n)
    ensures |b| < n < size ==> (Drop(b, n) + t == Drop(b + t, n) <==> t == [])
    ensures n >= size ==> (Drop(t, n - size) == Drop(b + t, n) <==> t == [] || n >= size + |t|)
  {
    if |b| < n {
      assert Drop(b + t, n) == Drop(t, n - |b|);
      assert |t| > 0 ==> |Drop(t, n - |b|)| < |t|;
      if n >= size && |t| > 0 && n < size + |t| {
        assert |Drop(t, n - size)| == |t| - (n - size) > |Drop(t, n - |b|)|;
      }
    }
  }

  // Completing n1 bytes and then n2 leaves the data that completing n1 + n2 at once
  // leaves; once the barrier request is cut inside a bio, exactly if the second call
  // stays in that bio, or nothing is behind it, or the call covers all that is
  // behind it besides the size the bio had.
  lemma CompletionsCompose(r: Req, e1: int, n1: nat, e2: int, n2: nat, e: int)
    requires AllSized(r.bios)
    ensures var q := Updated(r, e1, n1).0;
            Data(Updated(q, e2, n2).0.bios) == Data(Updated(r, e, n1 + n2).0.bios) <==>
              || !(r.proxy && EndsInside(r.bios, n1))
              || q.bios == []
              || n2 <= |BioBytes(q.bios[0])|
              || Data(q.bios[1..]) == []
              || n2 >= q.bios[0].size + |Data(q.bios[1..])|
  {
    hide Updated, Data, BioBytes, EndsInside, AllSized;
    CompletionDropsBytes(r, e1, n1);
    CompletionDropsBytes(r, e, n1 + n2);
    var q := Updated(r, e1, n1).0;
    if r.proxy && EndsInside(r.bios, n1) {
      CutLeaves(r, e1, n1);
      var b, tail := q.bios[0], q.bios[1..];
      assert q.bios == [b] + tail;
      DataHead(b, tail);
      DropsAgree(BioBytes(b), Data(tail), b.size, n2);
      if n2 < b.size {
        StaleStays(q, e2, n2);
        var u := Updated(q, e2, n2).0;
        assert u.bios == [u.bios[0]] + tail;
        DataHead(u.bios[0], tail);
      } else {
        StaleGoes(q, e2, n2);
      }
      DropDrop(Data(r.bios), n1, n2);
    } else {
      CompletionKeepsSizes(r, e1, n1);
      CompletionDropsBytes(q, e2, n2);
      DropDrop(Data(r.bios), n1, n2);
    }
  }

  lemma DropDrop<T>(s: seq<T>, m: nat, n: nat)
    ensures Drop(Drop(s, m), n) == Drop(s, m + n)
  {
  }

  function Sizes(bios: seq<Bio>): nat {
    if bios == [] then 0 else bios[0].size + Sizes(bios[1..])
  }

  lemma {:induction false} SizesConcat(a: seq<Bio>, b: seq<Bio>)
    ensures Sizes(a + b) == Sizes(a) + Sizes(b)
  {
    if a == [] {
      assert a + b == b;
    } else {
      assert (a + b)[1..] == a[1..] + b;
      SizesConcat(a[1..], b);
    }
  }

  lemma {:induction false} SizedSizes(bios: seq<Bio>)
    requires AllSized(bios)
    ensures Sizes(bios) == |Data(bios)|
  {
    hide BioBytes;
    if bios != [] {
      SizeOf(bios[0]);
      SizedSizes(bios[1..]);
    }
  }

  // The bios a walk passes have no more bytes, by their sizes, than it was given.
  lemma {:induction false} WalkSizes(bios: seq<Bio>, vecs: nat, part: nat, total: nat, left: nat)
    ensures Sizes(bios[..Walk(bios, vecs, part, total, left).bios]) <= left
    decreases |bios|, if bios == [] then 0 else |bios[0].vecs| - bios[0].idx - vecs
  {
    var s := Walk(bios, vecs, part, total, left);
    if bios != [] {
      var b := bios[0];
      if left >= b.size {
        if |bios| > 1 && left == b.size {
          assert bios[..1] == [b] && [b][1..] == [];
        } else {
          WalkSizes(bios[1..], 0, 0, total + b.size, left - b.size);
          assert bios[..s.bios][1..] == bios[1..][..s.bios - 1];
        }
      } else {
        StaysInBio(bios, vecs, part, total, left);
      }
    }
  }

  lemma ProxyStep(r: Req, error: int, n: nat)
    requires r.proxy
    ensures var q := Updated(r, error, n).0; q.proxy && Sizes(q.bios) + n >= Sizes(r.bios)
  {
    hide Walk, Sizes, CurBytes, Shortened;
    var s := Walk(r.bios, 0, 0, 0, n);
    WalkSizes(r.bios, 0, 0, 0, n);
    assert r.bios == r.bios[..s.bios] + r.bios[s.bios..];
    SizesConcat(r.bios[..s.bios], r.bios[s.bios..]);
    NoSizes();
    if s.bios < |r.bios| {
      var b, tail := r.bios[s.bios], r.bios[s.bios + 1..];
      assert r.bios[s.bios..] == [b] + tail;
      SizesHead(b, tail);
      SizesHead(Advanced(b, s, error, true), tail);
    }
  }

  lemma NoSizes()
    ensures Sizes([]) == 0
  {
  }

  lemma SizesHead(b: Bio, tail: seq<Bio>)
    ensures Sizes([b] + tail) == b.size + Sizes(tail)
  {
    assert ([b] + tail)[1..] == tail;
  }

  lemma {:induction false} ProxyRun(r: Req, calls: seq<(int, nat)>)
    requires r.proxy
    ensures Sizes(Run(r, calls).bios) + Bytes(calls) >= Sizes(r.bios)
    decreases |calls|
  {
    hide Updated, Sizes;
    if calls != [] {
      ProxyStep(r, calls[0].0, calls[0].1);
      ProxyRun(Updated(r, calls[0].0, calls[0].1).0, calls[1..]);
    }
  }

  // Once the barrier request is cut inside a bio, it is not finished by completing
  // the bytes that are left, however they are divided among further calls.
  lemma CutBarrierNeverFinishes(r: Req, e1: int, n1: nat, calls: seq<(int, nat)>)
    requires AllSized(r.bios) && r.proxy && EndsInside(r.bios, n1)
    requires n1 + Bytes(calls) <= |Data(r.bios)|
    ensures Run(Updated(r, e1, n1).0, calls).bios != []
  {
    hide Data, Walk, Sized, CurBytes, StopsIn, Sizes, Run;
    WalkStops(r.bios, 0, n1);
    var s := Walk(r.bios, 0, 0, 0, n1);
    CutIsInside(r.bios, s, n1);
    var k := s.bios;
    var b, tail := r.bios[k], r.bios[k + 1..];
    var q := Updated(r, e1, n1).0;
    assert q.bios == [Advanced(b, s, e1, true)] + tail;
    SizesHead(Advanced(b, s, e1, true), tail);
    assert r.bios == r.bios[..k] + ([b] + tail);
    SizesConcat(r.bios[..k], [b] + tail);
    SizesHead(b, tail);
    SizedSizes(r.bios);
    SizedSizes(r.bios[..k]);
    ProxyRun(q, calls);
    NoSizes();
  }

  // Within the bio that was cut, further calls do complete the bytes they are given.
  lemma {:induction false} CutBarrierKeepsData(r: Req, calls: seq<(int, nat)>)
    requires r.proxy && r.bios != [] && Stale(r.bios[0]) && Bytes(calls) <= |BioBytes(r.bios[0])|
    ensures Data(Run(r, calls).bios) == Drop(Data(r.bios), Bytes(calls))
    decreases |calls|
  {
    hide Updated, Data, BioBytes;
    if calls != [] {
      var n := calls[0].1;
      StaleStays(r, calls[0].0, n);
      var q := Updated(r, calls[0].0, n).0;
      CutBarrierKeepsData(q, calls[1..]);
      var b, tail := r.bios[0], r.bios[1..];
      assert r.bios == [b] + tail && q.bios == [q.bios[0]] + tail;
      DataHead(b, tail);
      DataHead(q.bios[0], tail);
      DropsAgree(BioBytes(b), Data(tail), b.size, n);
      DropDrop(Data(r.bios), n, Bytes(calls[1..]));
    }
  }

  // ---------------------------------------------------------------- errors

  // Every report about bio x is, or will be, a failure.
  ghost predicate Failed(r: Req, x: nat) {
    && (forall i :: 0 <= i < |r.bios| && r.bios[i].id == x ==> !r.bios[i].uptodate)
    && (forall i :: 0 <= i < |r.ended| && r.ended[i].0 == x ==> r.ended[i].1 != 0)
  }

  lemma FailedKept(r: Req, error: int, n: nat, x: nat)
    requires AllSized(r.bios) && Failed(r, x)
    ensures Failed(Updated(r, error, n).0, x)
  {
    hide Data, AllSized, Walk, CurBytes, StopsIn;
    if r.bios != [] {
      WalkStops(r.bios, 0, n);
    }
  }

  lemma {:induction false} FailedStays(r: Req, calls: seq<(int, nat)>, x: nat)
    requires AllSized(r.bios) && !r.proxy && Failed(r, x)
    ensures Failed(Run(r, calls), x)
    decreases |calls|
  {
    hide Updated, AllSized, Failed;
    if calls != [] {
      CompletionKeepsSizes(r, calls[0].0, calls[0].1);
      CompletionConserves(r, calls[0].0, calls[0].1);
      FailedKept(r, calls[0].0, calls[0].1, x);
      FailedStays(Updated(r, calls[0].0, calls[0].1).0, calls[1..], x);
    }
  }

  ghost predicate DistinctIds(bios: seq<Bio>) {
    forall i, j :: 0 <= i < j < |bios| ==> bios[i].id != bios[j].id
  }

  // A bio of which one piece failed is reported failed, however well the rest goes.
  lemma FailedPieceIsReported(r: Req, error: int, n: nat, k: nat, calls: seq<(int, nat)>)
    requires AllSized(r.bios) && !r.proxy && DistinctIds(r.bios) && error != 0
    requires k < |r.bios| && |Data(r.bios[..k])| < n < |Data(r.bios[..k])| + r.bios[k].size
    requires forall i :: 0 <= i < |r.ended| ==> r.ended[i].0 != r.bios[k].id
    ensures AllSized(Updated(r, error, n).0.bios) && !Updated(r, error, n).0.proxy
    ensures forall i :: var e := Run(Updated(r, error, n).0, calls).ended;
              0 <= i < |e| && e[i].0 == r.bios[k].id ==> e[i].1 != 0
  {
    hide Updated, AllSized, Data;
    var q := Updated(r, error, n).0;
    CompletionKeepsSizes(r, error, n);
    CompletionConserves(r, error, n);
    CutBioFailed(r, error, n, k);
    FailedStays(q, calls, r.bios[k].id);
  }

  lemma CutBioFailed(r: Req, error: int, n: nat, k: nat)
    requires AllSized(r.bios) && !r.proxy && DistinctIds(r.bios) && error != 0
    requires k < |r.bios| && |Data(r.bios[..k])| < n < |Data(r.bios[..k])| + r.bios[k].size
    requires forall i :: 0 <= i < |r.ended| ==> r.ended[i].0 != r.bios[k].id
    ensures Failed(Updated(r, error, n).0, r.bios[k].id)
  {
    hide Data, Sized, Walk, CurBytes, StopsIn;
    WalkStops(r.bios, 0, n);
    var s := Walk(r.bios, 0, 0, 0, n);
    CutIsHere(r.bios, s, n, k);
    forall i | k < i < |r.bios|
      ensures r.bios[i].id != r.bios[k].id
    {
    }
  }

  lemma CutIsHere(bios: seq<Bio>, s: Stop, n: nat, k: nat)
    requires AllSized(bios) && StopsAt(bios, s, 0, n)
    requires k < |bios| && |Data(bios[..k])| < n < |Data(bios[..k])| + bios[k].size
    ensures s.bios == k && s.part > 0
  {
    hide Data, Sized, StopsIn;
    assert bios[..|bios|] == bios;
    if s.bios < k {
      DataGrows(bios, s.bios, k);
    } else {
      DataGrows(bios, k, s.bios);
    }
  }

  // ---------------------------------------------------------------- sectors

  // Whole sectors, one bio after the other on the disk, the request at the first.
  ghost predicate InStep(r: Req) {
    && r.fs && !r.proxy
    && OneAfterTheOther(r.bios)
    && (r.bios != [] ==> r.sector == r.bios[0].sector)
  }

  lemma {:induction false} SectorOf(bios: seq<Bio>, k: nat)
    requires AllSized(bios) && k < |bios| && OneAfterTheOther(bios)
    ensures |Data(bios[..k])| % 512 == 0
    ensures bios[k].sector == bios[0].sector + |Data(bios[..k])| / 512
  {
    hide Data, Sized, BioBytes;
    if k == 0 {
      assert bios[..0] == [];
      NoBios();
    } else {
      SectorOf(bios, k - 1);
      assert bios[..k] == bios[..k - 1] + ([bios[k - 1]] + []);
      DataConcat(bios[..k - 1], [bios[k - 1]] + []);
      DataHead(bios[k - 1], []);
      NoBios();
      SizeOf(bios[k - 1]);
    }
  }

  lemma SectorsAdd(a: nat, p: nat)
    requires a % 512 == 0 && (a + p) % 512 == 0
    ensures p % 512 == 0 && (a + p) / 512 == a / 512 + p / 512
  {
  }

  ghost predicate OneAfterTheOther(bios: seq<Bio>) {
    && (forall i :: 0 <= i < |bios| ==> bios[i].size % 512 == 0)
    && (forall i :: 0 < i < |bios| ==> bios[i].sector == bios[i - 1].sector + bios[i - 1].size / 512)
  }

  lemma RemainingInStep(bios: seq<Bio>, s: Stop, error: int)
    requires s.bios < |bios| && OneAfterTheOther(bios)
    requires s.part > 0 ==> s.part < bios[s.bios].size && bios[s.bios].idx + s.vecs < |bios[s.bios].vecs|
    requires s.part % 512 == 0
    ensures var rest := Remaining(bios, s, error, false);
            OneAfterTheOther(rest) && rest[0].sector == bios[s.bios].sector + s.part / 512
  {
    var b, rest := bios[s.bios], Remaining(bios, s, error, false);
    assert forall i :: 0 < i < |rest| ==> rest[i] == bios[s.bios + i];
    if s.part > 0 {
      SectorsAdd(s.part, b.size - s.part);
      assert rest[0].size == b.size - s.part;
    }
  }

  lemma CompletionStaysInStep(r: Req, error: int, n: nat)
    requires AllSized(r.bios) && InStep(r) && n % 512 == 0
    ensures InStep(Updated(r, error, n).0)
  {
    hide Data, Sized, Walk, CurBytes, Remaining, OneAfterTheOther, AllSized;
    if r.bios != [] {
      WalkStops(r.bios, 0, n);
      var s := Walk(r.bios, 0, 0, 0, n);
      if s.bios < |r.bios| {
        SectorOf(r.bios, s.bios);
        SectorsAdd(|Data(r.bios[..s.bios])|, s.part);
        RemainingInStep(r.bios, s, error);
      } else {
        NothingInStep();
      }
    }
  }

  lemma NothingInStep()
    ensures OneAfterTheOther([])
  {
  }
}
