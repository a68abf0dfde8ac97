/**
 * Requests in a tree sorted by sector (elv_rb_add, elv_rb_del, elv_rb_find and
 * the neighbours of a node, common/block/elevator.c:354-405) and in a fifo.
 * A tree is the list of its requests in order; pos gives their sectors.
 */
module SortedTree {
  import opened SeqUtil

  // How many requests of the tree lie below sector p.
  function Rank(sort: seq<nat>, pos: map<nat, int>, p: int): (i: nat)
    requires forall x :: x in sort ==> x in pos
    ensures i <= |sort|
    ensures forall j :: 0 <= j < i ==> pos[sort[j]] < p
    ensures i < |sort| ==> pos[sort[i]] >= p
  {
    if sort == [] || pos[sort[0]] >= p then 0 else 1 + Rank(sort[1..], pos, p)
  }

  // The request already at sector p, if any.
  function Alias(sort: seq<nat>, pos: map<nat, int>, p: int): Option<nat>
    requires forall x :: x in sort ==> x in pos
  {
    var i := Rank(sort, pos, p);
    if i < |sort| && pos[sort[i]] == p then Some(sort[i]) else None
  }

  lemma AliasIs(sort: seq<nat>, pos: map<nat, int>, p: int)
    requires Rising(sort, pos)
    ensures match Alias(sort, pos, p)
            case None => forall x :: x in sort ==> pos[x] != p
            case Some(y) => y in sort && pos[y] == p && forall x :: x in sort && x != y ==> pos[x] != p
  {
    var i := Rank(sort, pos, p);
    forall x | x in sort && pos[x] == p
      ensures i < |sort| && x == sort[i]
    {
      var j :| 0 <= j < |sort| && sort[j] == x;
    }
  }

  function Latter(sort: seq<nat>, x: nat): Option<nat>
    requires x in sort
  {
    var i := IndexOf(sort, x);
    if i + 1 < |sort| then Some(sort[i + 1]) else None
  }

  function Former(sort: seq<nat>, x: nat): Option<nat>
    requires x in sort
  {
    var i := IndexOf(sort, x);
    if i > 0 then Some(sort[i - 1]) else None
  }

  lemma LatterIsOther(sort: seq<nat>, x: nat)
    requires x in sort && Distinct(sort)
    ensures Latter(sort, x).Some? ==> Latter(sort, x).value in sort && Latter(sort, x).value != x
  {
  }

  lemma PlacedRising(sort: seq<nat>, pos: map<nat, int>, x: nat)
    requires Rising(sort, pos) && x in pos && forall y :: y in sort ==> pos[y] != pos[x]
    ensures Rising(InsertAt(sort, Rank(sort, pos, pos[x]), x), pos)
  {
    var i := Rank(sort, pos, pos[x]);
    var r := InsertAt(sort, i, x);
    assert forall j :: i <= j < |sort| ==> pos[sort[j]] > pos[x];
  }

  lemma InsertedHas(s: seq<nat>, i: nat, x: nat)
    requires i <= |s|
    ensures forall y :: y in InsertAt(s, i, x) <==> y in s || y == x
  {
    var r := InsertAt(s, i, x);
    forall y | y in s
      ensures y in r
    {
      var j :| 0 <= j < |s| && s[j] == y;
      assert j < i ==> r[j] == y;
      assert j >= i ==> r[j + 1] == y;
    }
  }

  lemma RisingElsewhere(s: seq<nat>, key: map<nat, int>, x: nat, v: int)
    requires Rising(s, key) && x !in s
    ensures Rising(s, key[x := v])
  {
  }

  // list_move: x is taken out and put right behind y
  function MovedAfter(fifo: seq<nat>, x: nat, y: nat): (r: seq<nat>)
    requires x in fifo && y in fifo && x != y
    ensures y in r
  {
    var rest := Without(fifo, x);
    WithoutStill(fifo, x, y);
    var i := IndexOf(rest, y);
    var r := InsertAt(rest, i + 1, x);
    assert r[i] == y;
    r
  }

  lemma WithoutStill(s: seq<nat>, x: nat, y: nat)
    requires x in s && y in s && x != y
    ensures y in Without(s, x)
  {
    var i := IndexOf(s, x);
    var r := Without(s, x);
    var j :| 0 <= j < |s| && s[j] == y;
    assert j < i ==> r[j] == y;
    assert j > i ==> r[j - 1] == y;
  }

  lemma MovedAfterOk(fifo: seq<nat>, due: map<nat, int>, x: nat, y: nat)
    requires Ordered(fifo, due) && Distinct(fifo) && x in fifo && y in fifo && x != y
    ensures var r := MovedAfter(fifo, x, y);
            Ordered(r, due[x := due[y]]) && Distinct(r) && forall z :: z in r <==> z in fifo
  {
    var rest := Without(fifo, x);
    WithoutKeeps(fifo, x);
    WithoutOrdered(fifo, x, due);
    WithoutStill(fifo, x, y);
    var i := IndexOf(rest, y);
    InsertedHas(rest, i + 1, x);
    InsertedBehind(rest, due, i, x);
  }

  lemma InsertedBehind(rest: seq<nat>, due: map<nat, int>, i: nat, x: nat)
    requires Ordered(rest, due) && Distinct(rest) && i < |rest| && x !in rest
    ensures Ordered(InsertAt(rest, i + 1, x), due[x := due[rest[i]]]) && Distinct(InsertAt(rest, i + 1, x))
  {
    var r, key := InsertAt(rest, i + 1, x), due[x := due[rest[i]]];
    assert forall j :: 0 <= j < |rest| ==> key[rest[j]] == due[rest[j]];
  }

  // The neighbours of a request in the tree are the nearest ones on either side.
  lemma Neighbours(sort: seq<nat>, pos: map<nat, int>, x: nat)
    requires Rising(sort, pos) && x in sort
    ensures match Latter(sort, x)
            case None => forall y :: y in sort ==> pos[y] <= pos[x]
            case Some(z) =>
              z in sort && pos[z] > pos[x] &&
              forall y :: y in sort && pos[y] > pos[x] ==> pos[z] <= pos[y]
    ensures match Former(sort, x)
            case None => forall y :: y in sort ==> pos[y] >= pos[x]
            case Some(z) =>
              z in sort && pos[z] < pos[x] &&
              forall y :: y in sort && pos[y] < pos[x] ==> pos[y] <= pos[z]
  {
    var i := IndexOf(sort, x);
    forall y | y in sort
      ensures pos[y] > pos[x] ==> i + 1 < |sort| && pos[sort[i + 1]] <= pos[y]
      ensures pos[y] < pos[x] ==> i > 0 && pos[y] <= pos[sort[i - 1]]
    {
      var j :| 0 <= j < |sort| && sort[j] == y;
    }
  }

  lemma SamePlace(sort: seq<nat>, pos: map<nat, int>, x: nat, y: nat)
    requires Rising(sort, pos) && x in sort && y in sort && pos[x] == pos[y]
    ensures x == y
  {
  }
}
