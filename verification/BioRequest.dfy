/**
 * blk_update_request as a loop over the fields of the request it completes
 * (common/block/blk-core.c:134-172, 1975-2105), proved to do what
 * BioChain.Updated says, whose consequences that module proves.  It is called
 * for chains that do not run into its BUG_ON, right sizes or not.
 */
module BioRequest {
  import opened BioChain

  class Request {
    var bios: seq<Bio>
    var dataLen: int
    var sector: nat
    var errors: int
    var orderr: int
    var ended: seq<(nat, int)>
    const fs: bool
    const discard: bool
    const proxy: bool

    function State(): Req
      reads this
    {
      Req(bios, dataLen, sector, errors, orderr, ended, fs, discard, proxy)
    }

    constructor (bios: seq<Bio>, dataLen: nat, sector: nat, fs: bool, discard: bool, proxy: bool)
      ensures State() == Req(bios, dataLen, sector, 0, 0, [], fs, discard, proxy)
    {
      this.bios, this.dataLen, this.sector := bios, dataLen, sector;
      this.fs, this.discard, this.proxy := fs, discard, proxy;
      errors, orderr, ended := 0, 0, [];
    }

    // req_bio_endio
    method EndBio(bio: Bio, nbytes: nat, error: int) returns (b: Bio)
      modifies `ended, `orderr
      ensures proxy ==> b == bio && ended == old(ended) && orderr == Recorded(old(orderr), error)
      ensures !proxy ==>
                && orderr == old(orderr)
                && b == bio.(uptodate := bio.uptodate && error == 0,
                             size := if nbytes > bio.size then 0 else bio.size - nbytes,
                             sector := bio.sector + (if nbytes > bio.size then bio.size else nbytes) / 512)
                && ended == old(ended) + if b.size == 0 then [(bio.id, Seen(bio, error))] else []
    {
      b := bio;
      if !proxy {
        var report, n := error, nbytes;
        if error != 0 {
          b := b.(uptodate := false);
        } else if !b.uptodate {
          report := EIO;
        }
        if n > b.size {
          n := b.size;
        }
        b := b.(size := b.size - n, sector := b.sector + n / 512);
        if b.size == 0 {
          ended := ended + [(b.id, report)];
        }
      } else if error != 0 && orderr == 0 {
        orderr := error;
      }
    }

    method Unlink(error: int)
      requires bios != []
      modifies `bios, `ended, `orderr
      ensures bios == old(bios)[1..]
      ensures (ended, orderr) == Told(proxy, old(ended), old(orderr), old(bios), 1, error)
    {
      var bio := bios[0];
      assert Reports(bios[..1], error) == [(bio.id, Seen(bio, error))];
      bios := bios[1..];
      var _ := EndBio(bio, bio.size, error);
    }

    // The walk over the chain: everything covered is unlinked and ended.
    method EndCovered(error: int, n: nat) returns (s: Stop)
      requires !Walk(bios, 0, 0, 0, n).bug
      modifies `bios, `ended, `orderr
      ensures s == Walk(old(bios), 0, 0, 0, n)
      ensures s.bios <= |old(bios)| && bios == old(bios)[s.bios..]
      ensures (ended, orderr) == Told(proxy, old(ended), old(orderr), old(bios), s.bios, error)
    {
      hide Walk, Told;
      ToldNothing(proxy, ended, orderr, bios, error);
      ghost var chain := bios;
      var vecs: nat, part: nat, total: nat, left: nat := 0, 0, 0, n;
      var k: nat := 0;
      while bios != []
        invariant k <= |chain| && bios == chain[k..]
        invariant Walk(chain, 0, 0, 0, n) == Later(Walk(bios, vecs, part, total, left), k)
        invariant (ended, orderr) == Told(proxy, old(ended), old(orderr), chain, k, error)
        decreases |bios|, if bios == [] then 0 else |bios[0].vecs| - bios[0].idx - vecs
      {
        var bio := bios[0];
        WalkOnce(bios, vecs, part, total, left);
        if left >= bio.size {
          ToldOneMore(proxy, old(ended), old(orderr), chain, k, error);
          Unlink(error);
          total, left := total + bio.size, left - bio.size;
          vecs, part, k := 0, 0, k + 1;
          if bios != [] && left == 0 {
            return Stop(k, vecs, part, total, left, false);
          }
        } else {
          var i := bio.idx + vecs;
          if i >= |bio.vecs| {
            return Stop(k, vecs, part, total, left, false);
          }
          var nbytes := bio.vecs[i].len;
          if nbytes > bio.size {
            assert false;
          }
          if nbytes > left {
            return Stop(k, vecs, part + left, total + left, left, false);
          }
          vecs, part, total, left := vecs + 1, part + nbytes, total + nbytes, left - nbytes;
          if left == 0 {
            return Stop(k, vecs, part, total, left, false);
          }
        }
      }
      WalkOver(vecs, part, total, left);
      return Stop(k, 0, 0, total, left, false);
    }

    // The bio the walk stopped in: its size, its place and its first vector move on.
    method Cut(s: Stop, error: int)
      requires bios != [] && 0 < s.part < bios[0].size
      requires var i := bios[0].idx + s.vecs; i < |bios[0].vecs| ==> s.left <= bios[0].vecs[i].len
      modifies `bios, `ended, `orderr
      ensures bios == [Advanced(old(bios)[0], s, error, proxy)] + old(bios)[1..]
      ensures ended == old(ended)
      ensures orderr == if proxy then Recorded(old(orderr), error) else old(orderr)
    {
      var i := bios[0].idx + s.vecs;
      var b := EndBio(bios[0], s.part, error);
      b := b.(idx := i);
      if i < |b.vecs| {
        var v := b.vecs[i];
        b := b.(vecs := b.vecs[i := v.(offset := v.offset + s.left, len := v.len - s.left)]);
      }
      bios := [b] + bios[1..];
    }

    method Shorten(total: nat)
      requires bios != []
      modifies `dataLen, `sector
      ensures sector == if fs || discard then old(sector) + total / 512 else old(sector)
      ensures dataLen == var len := old(dataLen) - total; if len < CurBytes(bios[0]) then CurBytes(bios[0]) else len
    {
      hide CurBytes;
      dataLen := dataLen - total;
      if fs || discard {
        sector := sector + total / 512;
      }
      if dataLen < CurBytes(bios[0]) {
        dataLen := CurBytes(bios[0]);
      }
    }

    method Update(error: int, n: nat) returns (more: bool)
      requires !Walk(bios, 0, 0, 0, n).bug
      modifies this
      ensures (State(), more) == Updated(old(State()), error, n)
    {
      hide Walk, Advanced, CurBytes, Reports;
      if bios == [] {
        return false;
      }
      WalkFits(bios, 0, 0, 0, n);
      if fs {
        errors := 0;
      }
      var s := EndCovered(error, n);
      if bios == [] {
        dataLen := 0;
        return false;
      }
      if s.part > 0 {
        Cut(s, error);
      }
      Shorten(s.total);
      return true;
    }
  }

  // The reports and the recorded error once k bios of the chain are ended.
  function Told(proxy: bool, ended: seq<(nat, int)>, orderr: int, chain: seq<Bio>, k: nat,
                error: int): (seq<(nat, int)>, int)
    requires k <= |chain|
  {
    if proxy then (ended, if k > 0 then Recorded(orderr, error) else orderr)
    else (ended + Reports(chain[..k], error), orderr)
  }

  lemma ToldNothing(proxy: bool, ended: seq<(nat, int)>, orderr: int, chain: seq<Bio>, error: int)
    ensures Told(proxy, ended, orderr, chain, 0, error) == (ended, orderr)
  {
    assert ended + Reports(chain[..0], error) == ended;
  }

  lemma ToldOneMore(proxy: bool, ended: seq<(nat, int)>, orderr: int, chain: seq<Bio>, k: nat, error: int)
    requires k < |chain|
    ensures var t := Told(proxy, ended, orderr, chain, k, error);
            Told(proxy, t.0, t.1, chain[k..], 1, error) == Told(proxy, ended, orderr, chain, k + 1, error)
  {
    var a, b := Reports(chain[..k], error), Reports(chain[k..][..1], error);
    assert Reports(chain[..k + 1], error) == a + b;
    assert ended + (a + b) == ended + a + b;
  }

  // One turn of the loop.
  lemma WalkOnce(bios: seq<Bio>, vecs: nat, part: nat, total: nat, left: nat)
    requires bios != []
    ensures var b, s := bios[0], Walk(bios, vecs, part, total, left);
            s == if left >= b.size then
                   if |bios| > 1 && left == b.size then Stop(1, 0, 0, total + b.size, 0, false)
                   else Later(Walk(bios[1..], 0, 0, total + b.size, left - b.size), 1)
                 else if b.idx + vecs >= |b.vecs| then Stop(0, vecs, part, total, left, false)
                 else
                   var len := b.vecs[b.idx + vecs].len;
                   if len > b.size then Stop(0, vecs, part, total, left, true)
                   else if len > left then Stop(0, vecs, part + left, total + left, left, false)
                   else if len == left then Stop(0, vecs + 1, part + len, total + len, 0, false)
                   else Walk(bios, vecs + 1, part + len, total + len, left - len)
  {
  }

  // A bio that is cut has more bytes than were done, and so has the vector.
  lemma {:induction false} WalkFits(bios: seq<Bio>, vecs: nat, part: nat, total: nat, left: nat)
    requires part > 0 ==> bios != [] && part + left < bios[0].size
    ensures var s := Walk(bios, vecs, part, total, left);
            !s.bug && s.bios < |bios| && s.part > 0 ==>
              && s.part < bios[s.bios].size
              && var i := bios[s.bios].idx + s.vecs; i < |bios[s.bios].vecs| ==> s.left <= bios[s.bios].vecs[i].len
    decreases |bios|, if bios == [] then 0 else |bios[0].vecs| - bios[0].idx - vecs
  {
    hide Walk;
    if bios == [] {
      WalkOver(vecs, part, total, left);
    } else {
      WalkOnce(bios, vecs, part, total, left);
      var b := bios[0];
      if left >= b.size {
        WalkFits(bios[1..], 0, 0, total + b.size, left - b.size);
      } else if b.idx + vecs < |b.vecs| && b.vecs[b.idx + vecs].len < left {
        var len := b.vecs[b.idx + vecs].len;
        WalkFits(bios, vecs + 1, part + len, total + len, left - len);
      }
    }
  }

  lemma WalkOver(vecs: nat, part: nat, total: nat, left: nat)
    ensures Walk([], vecs, part, total, left) == Stop(0, 0, 0, total, left, false)
  {
  }

  function Recorded(orderr: int, error: int): int {
    if error != 0 && orderr == 0 then error else orderr
  }

  function Later(s: Stop, k: nat): Stop { s.(bios := s.bios + k) }
}
