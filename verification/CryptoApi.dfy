/**
 * The big-endian counter increment and the request queue of the crypto API
 * (common/crypto/algapi.c:794-889).
 */
module CryptoApi {
  import opened SeqUtil

  type u8 = x: nat | x < 256

  // ---------------------------------------------------------------- crypto_inc

  // The number a buffer holds, most significant byte first.
  function Value(s: seq<u8>): nat {
    if s == [] then 0 else 256 * Value(s[..|s| - 1]) + s[|s| - 1]
  }

  function Power(n: nat): nat { if n == 0 then 1 else 256 * Power(n - 1) }

  // Adding one, with carry from the last byte on.
  function Inc(s: seq<u8>): (r: seq<u8>)
    ensures |r| == |s|
  {
    if s == [] then []
    else
      var front, b := s[..|s| - 1], s[|s| - 1];
      if b < 255 then front + [b + 1] else Inc(front) + [0]
  }

  lemma ValueStep(s: seq<u8>, b: u8)
    ensures Value(s + [b]) == 256 * Value(s) + b
  {
    assert (s + [b])[..|s|] == s;
  }

  lemma {:induction false} ValueBound(s: seq<u8>)
    ensures Value(s) < Power(|s|)
  {
    if s != [] {
      ValueBound(s[..|s| - 1]);
    }
  }

  // Adding one with carry is adding one, modulo 256 to the length.
  lemma {:induction false} IncAddsOne(s: seq<u8>)
    ensures Value(Inc(s)) == if Value(s) + 1 < Power(|s|) then Value(s) + 1 else 0
  {
    if s != [] {
      var front, b := s[..|s| - 1], s[|s| - 1];
      ValueBound(front);
      IncAddsOne(front);
      ValueStep(front, if b < 255 then b + 1 else 0);
      ValueStep(Inc(front), 0);
    }
  }

  lemma IncIsModular(s: seq<u8>)
    ensures Power(|s|) > 0 && Value(Inc(s)) == (Value(s) + 1) % Power(|s|)
  {
    hide Value, Power, Inc;
    ValueBound(s);
    IncAddsOne(s);
    Modulo(Value(s) + 1, Power(|s|));
  }

  lemma Modulo(a: nat, m: nat)
    requires 0 < a <= m
    ensures a % m == if a < m then a else 0
  {
  }

  // be32_to_cpu and cpu_to_be32
  function Word(a: u8, b: u8, c: u8, d: u8): nat { ((a * 256 + b) * 256 + c) * 256 + d }

  function WordBytes(w: nat): seq<u8>
    requires w < 0x1_0000_0000
  {
    [w / 256 / 256 / 256 % 256, w / 256 / 256 % 256, w / 256 % 256, w % 256]
  }

  lemma WordValue(s: seq<u8>)
    requires |s| == 4
    ensures Word(s[0], s[1], s[2], s[3]) == Value(s) && Power(4) == 0x1_0000_0000
  {
    assert s == [s[0]] + [s[1]] + [s[2]] + [s[3]];
    ValueStep([], s[0]);
    assert [] + [s[0]] == [s[0]];
    ValueStep([s[0]], s[1]);
    ValueStep([s[0]] + [s[1]], s[2]);
    ValueStep([s[0]] + [s[1]] + [s[2]], s[3]);
    assert Power(1) == 256 && Power(2) == 0x1_0000 && Power(3) == 0x100_0000;
  }

  lemma WordRoundTrip(a: u8, b: u8, c: u8, d: u8)
    ensures Word(a, b, c, d) < 0x1_0000_0000 && WordBytes(Word(a, b, c, d)) == [a, b, c, d]
  {
    Shifted((a * 256 + b) * 256 + c, d);
    Shifted(a * 256 + b, c);
    Shifted(a, b);
  }

  lemma Shifted(q: nat, r: u8)
    ensures (q * 256 + r) / 256 == q && (q * 256 + r) % 256 == r
  {
  }

  // The 32-bit word plus one, modulo 2 to the 32, is the four bytes incremented.
  lemma WordInc(s: seq<u8>)
    requires |s| == 4
    ensures var w := (Word(s[0], s[1], s[2], s[3]) + 1) % 0x1_0000_0000;
            WordBytes(w) == Inc(s) && (w == 0 <==> AllOnes(s))
  {
    hide Inc, Word;
    WordValue(s);
    WordValue(Inc(s));
    IncIsModular(s);
    var r := Inc(s);
    WordRoundTrip(r[0], r[1], r[2], r[3]);
    WordZero(s);
  }

  lemma WordZero(s: seq<u8>)
    requires |s| == 4
    ensures (Word(s[0], s[1], s[2], s[3]) + 1) % 0x1_0000_0000 == 0 <==> AllOnes(s)
  {
    WordRoundTrip(s[0], s[1], s[2], s[3]);
    assert s == [s[0], s[1], s[2], s[3]];
    assert Word(255, 255, 255, 255) == 0xffff_ffff;
    if Word(s[0], s[1], s[2], s[3]) == 0xffff_ffff {
      WordRoundTrip(255, 255, 255, 255);
    }
  }

  ghost predicate AllOnes(s: seq<u8>) { forall i :: 0 <= i < |s| ==> s[i] == 255 }

  lemma IncStep(p: seq<u8>, b: u8)
    ensures Inc(p + [b]) == if b < 255 then p + [b + 1] else Inc(p) + [0]
  {
    assert (p + [b])[..|p|] == p;
  }

  lemma OnesStep(p: seq<u8>, b: u8)
    ensures AllOnes(p + [b]) <==> AllOnes(p) && b == 255
  {
    assert (p + [b])[..|p|] == p && (p + [b])[|p|] == b;
  }

  // Bytes that do not overflow stop the carry; bytes that do pass it on.
  lemma {:induction false} IncSplits(p: seq<u8>, w: seq<u8>)
    ensures Inc(p + w) == if AllOnes(w) then Inc(p) + Inc(w) else p + Inc(w)
  {
    hide Inc, AllOnes;
    if w == [] {
      assert p + w == p && Inc(p) + Inc(w) == Inc(p);
      NoOnes();
    } else {
      var v, b := w[..|w| - 1], w[|w| - 1];
      assert w == v + [b] && p + w == (p + v) + [b];
      IncSplits(p, v);
      IncStep(p + v, b);
      IncStep(v, b);
      OnesStep(v, b);
      if b == 255 {
        assert Inc(p) + Inc(v) + [0] == Inc(p) + (Inc(v) + [0]);
        assert p + Inc(v) + [0] == p + (Inc(v) + [0]);
      } else {
        assert (p + v) + [b + 1] == p + (v + [b + 1]);
      }
    }
  }

  lemma NoOnes()
    ensures AllOnes([])
  {
  }

  function Zeros(k: nat): seq<u8> { seq(k, i => 0) }

  lemma IncLast(s: seq<u8>, n: nat)
    requires 0 < n <= |s|
    ensures Inc(s[..n]) == if s[n - 1] < 255 then s[..n - 1] + [s[n - 1] + 1] else Inc(s[..n - 1]) + [0]
  {
    hide Inc;
    IncStep(s[..n - 1], s[n - 1]);
    assert s[..n] == s[..n - 1] + [s[n - 1]];
  }

  // Writing the last byte of the front; a zero joins those behind it.
  lemma Written(s: seq<u8>, n: nat, k: nat, rest: seq<u8>, c: u8)
    requires 0 < n <= |s|
    ensures (s[..n] + Zeros(k) + rest)[n - 1 := c] == s[..n - 1] + [c] + Zeros(k) + rest
    ensures s[..n - 1] + [0] + Zeros(k) + rest == s[..n - 1] + Zeros(k + 1) + rest
    ensures Inc(s[..n - 1]) + [0] + Zeros(k) == Inc(s[..n - 1]) + Zeros(k + 1)
  {
    hide Inc;
    assert [0] + Zeros(k) == Zeros(k + 1);
  }

  // crypto_inc_byte on the first size bytes
  method IncByte(a: array<u8>, size: nat)
    requires size <= a.Length
    modifies a
    ensures a[..size] == Inc(old(a[..size])) && a[size..] == old(a[size..])
  {
    hide Inc, Zeros;
    ghost var s, rest := a[..], a[size..];
    Untouched(s, size);
    var n: nat := size;
    while n > 0
      invariant n <= size && a[..] == s[..n] + Zeros(size - n) + rest
      invariant Inc(s[..size]) == Inc(s[..n]) + Zeros(size - n)
    {
      var was: int := a[n - 1];
      assert was == (s[..n] + Zeros(size - n) + rest)[n - 1] == s[n - 1];
      var c: u8 := (was + 1) % 256;
      IncLast(s, n);
      Written(s, n, size - n, rest, c);
      a[n - 1] := c;
      assert a[..] == (s[..n] + Zeros(size - n) + rest)[n - 1 := c];
      if c != 0 {
        Parts(a[..], s[..n - 1] + [c] + Zeros(size - n), rest, size);
        return;
      }
      n := n - 1;
    }
    NothingToInc();
    Parts(a[..], Zeros(size), rest, size);
  }

  lemma NothingToInc()
    ensures Inc([]) == []
  {
  }

  lemma Untouched(s: seq<u8>, size: nat)
    requires size <= |s|
    ensures s == s[..size] + Zeros(0) + s[size..] && Inc(s[..size]) == Inc(s[..size]) + Zeros(0)
  {
    hide Inc;
  }

  lemma Parts(s: seq<u8>, front: seq<u8>, rest: seq<u8>, size: nat)
    requires |front| == size && s == front + rest
    ensures s[..size] == front && s[size..] == rest
  {
  }

  // crypto_inc: words from the end while they overflow, then the bytes left over
  method CryptoInc(a: array<u8>)
    modifies a
    ensures a[..] == Inc(old(a[..]))
    ensures Power(a.Length) > 0 && Value(a[..]) == (old(Value(a[..])) + 1) % Power(a.Length)
  {
    hide Inc, Value, Word, WordBytes;
    IncIsModular(a[..]);
    var size := a.Length;
    assert a[..size] == a[..] && a[size..] == [];
    while size >= 4
      invariant size <= a.Length
      invariant a[..size] == old(a[..size])
      invariant Inc(old(a[..])) == Inc(old(a[..size])) + a[size..]
    {
      var w := [a[size - 4], a[size - 3], a[size - 2], a[size - 1]];
      ghost var p := old(a[..size - 4]);
      assert old(a[..size]) == p + w;
      WordInc(w);
      IncSplits(p, w);
      var c := (Word(w[0], w[1], w[2], w[3]) + 1) % 0x1_0000_0000;
      var b := WordBytes(c);
      ghost var rest := a[size..];
      StoreWord(a, size, b);
      if c != 0 {
        assert a[..] == p + b + rest;
        return;
      }
      assert a[size - 4..] == b + rest;
      size := size - 4;
    }
    ghost var tail := a[size..];
    IncByte(a, size);
    assert a[..] == a[..size] + tail;
  }

  method StoreWord(a: array<u8>, size: nat, b: seq<u8>)
    requires 4 <= size <= a.Length && |b| == 4
    modifies a
    ensures a[..size - 4] == old(a[..size - 4]) && a[size - 4..size] == b && a[size..] == old(a[size..])
  {
    a[size - 4], a[size - 3], a[size - 2], a[size - 1] := b[0], b[1], b[2], b[3];
  }

  // ---------------------------------------------------------------- the request queue

  datatype Answer = InProgress | Busy

  // list: the requests in order; backlog: None while it points at the list head
  datatype Queue = Queue(list: seq<nat>, backlog: Option<nat>, qlen: nat, maxQlen: nat)

  // crypto_enqueue_request
  function Enqueued(q: Queue, x: nat, mayBacklog: bool): (Queue, Answer) {
    if q.qlen >= q.maxQlen then
      if !mayBacklog then (q, Busy)
      else (q.(backlog := if q.backlog == None then Some(x) else q.backlog, qlen := q.qlen + 1,
               list := q.list + [x]), Busy)
    else (q.(qlen := q.qlen + 1, list := q.list + [x]), InProgress)
  }

  // queue->backlog->next
  function After(list: seq<nat>, x: nat): Option<nat>
    requires x in list
  {
    var i := IndexOf(list, x);
    if i + 1 < |list| then Some(list[i + 1]) else None
  }

  // __crypto_dequeue_request; the request given out, if any
  function Dequeued(q: Queue): (Queue, Option<nat>)
    requires q.backlog.Some? ==> q.backlog.value in q.list
    requires q.qlen == |q.list|
  {
    if q.qlen == 0 then (q, None)
    else (Queue(q.list[1..], if q.backlog.Some? then After(q.list, q.backlog.value) else None, q.qlen - 1,
                q.maxQlen), Some(q.list[0]))
  }

  // qlen is the length of the list, and the backlog begins right behind the
  // first maxQlen requests, if the list is longer than that.
  ghost predicate Ok(q: Queue) {
    && Distinct(q.list)
    && q.qlen == |q.list|
    && q.backlog == if |q.list| > q.maxQlen then Some(q.list[q.maxQlen]) else None
  }

  lemma EnqueuedOk(q: Queue, x: nat, mayBacklog: bool)
    requires Ok(q) && x !in q.list
    ensures Ok(Enqueued(q, x, mayBacklog).0)
  {
  }

  lemma IndexIs(s: seq<nat>, i: nat)
    requires Distinct(s) && i < |s|
    ensures s[i] in s && IndexOf(s, s[i]) == i
  {
  }

  lemma DequeuedOk(q: Queue)
    requires Ok(q)
    ensures q.backlog.Some? ==> q.backlog.value in q.list
    ensures Ok(Dequeued(q).0)
  {
    if |q.list| > q.maxQlen {
      IndexIs(q.list, q.maxQlen);
    }
  }

  datatype Call = Enqueue(x: nat, mayBacklog: bool) | Dequeue

  // The calls of a run, with the requests accepted and given out on the way.
  datatype Trace = Trace(q: Queue, accepted: seq<nat>, given: seq<nat>)

  ghost predicate Allowed(t: Trace, c: Call) { c.Enqueue? ==> c.x !in t.q.list }

  ghost function Step(t: Trace, c: Call): Trace
    requires Ok(t.q) && Allowed(t, c)
  {
    match c
    case Enqueue(x, may) =>
      var q := Enqueued(t.q, x, may).0;
      t.(q := q, accepted := if q == t.q then t.accepted else t.accepted + [x])
    case Dequeue =>
      DequeuedOk(t.q);
      var r := Dequeued(t.q);
      t.(q := r.0, given := if r.1.Some? then t.given + [r.1.value] else t.given)
  }

  lemma StepOk(t: Trace, c: Call)
    requires Ok(t.q) && Allowed(t, c)
    ensures Ok(Step(t, c).q) && Step(t, c).q.maxQlen == t.q.maxQlen
    ensures t.accepted == t.given + t.q.list ==> Step(t, c).accepted == Step(t, c).given + Step(t, c).q.list
  {
    match c
    case Enqueue(x, may) =>
      EnqueuedOk(t.q, x, may);
      assert t.given + t.q.list + [x] == t.given + (t.q.list + [x]);
    case Dequeue =>
      DequeuedOk(t.q);
      if t.q.list != [] {
        assert t.given + t.q.list == t.given + [t.q.list[0]] + t.q.list[1..];
      }
  }

  ghost predicate CanRun(t: Trace, calls: seq<Call>)
    requires Ok(t.q)
    decreases |calls|
  {
    calls == [] || (Allowed(t, calls[0]) && (StepOk(t, calls[0]); CanRun(Step(t, calls[0]), calls[1..])))
  }

  ghost function Run(t: Trace, calls: seq<Call>): (r: Trace)
    requires Ok(t.q) && CanRun(t, calls)
    decreases |calls|
  {
    if calls == [] then t
    else
      StepOk(t, calls[0]);
      Run(Step(t, calls[0]), calls[1..])
  }

  // Over every run: first in, first out; the length is right; and the backlog
  // pointer is at index maxQlen, or at the list head if there is no such index.
  lemma {:induction false} QueueIsFifo(t: Trace, calls: seq<Call>)
    requires Ok(t.q) && CanRun(t, calls) && t.accepted == t.given + t.q.list
    ensures var r := Run(t, calls);
            && r.accepted == r.given + r.q.list
            && r.q.qlen == |r.q.list| && r.q.maxQlen == t.q.maxQlen
            && r.q.backlog == if |r.q.list| > t.q.maxQlen then Some(r.q.list[t.q.maxQlen]) else None
    decreases |calls|
  {
    hide Distinct;
    if calls != [] {
      StepOk(t, calls[0]);
      QueueIsFifo(Step(t, calls[0]), calls[1..]);
    }
  }

  class CryptoQueue {
    var list: seq<nat>
    var backlog: Option<nat>
    var qlen: nat
    var maxQlen: nat

    function Abs(): Queue
      reads this
    {
      Queue(list, backlog, qlen, maxQlen)
    }

    ghost predicate Valid()
      reads this
    {
      Ok(Abs())
    }

    // crypto_init_queue
    constructor (max: nat)
      ensures Valid() && Abs() == Queue([], None, 0, max)
    {
      list, backlog, qlen, maxQlen := [], None, 0, max;
    }

    method Enqueue(x: nat, mayBacklog: bool) returns (err: Answer)
      requires Valid() && x !in list
      modifies this
      ensures Valid() && (Abs(), err) == Enqueued(old(Abs()), x, mayBacklog)
    {
      EnqueuedOk(Abs(), x, mayBacklog);
      err := InProgress;
      if qlen >= maxQlen {
        err := Busy;
        if !mayBacklog {
          return;
        }
        if backlog == None {
          backlog := Some(x);
        }
      }
      qlen := qlen + 1;
      list := list + [x];
    }

    method Dequeue() returns (rq: Option<nat>)
      requires Valid()
      modifies this
      ensures Valid() && (Abs(), rq) == Dequeued(old(Abs()))
    {
      DequeuedOk(Abs());
      if qlen == 0 {
        return None;
      }
      qlen := qlen - 1;
      if backlog != None {
        backlog := After(list, backlog.value);
      }
      rq := Some(list[0]);
      list := list[1..];
    }
  }
}
