/**
 * The search tree of requests as elv_rb_add, elv_rb_find, rb_next and rb_prev
 * walk it (common/block/elevator.c:354-405, 1120-1141; common/lib/rbtree.c),
 * proved to do on its list in order what module SortedTree says.  Rebalancing
 * turns the tree without changing that list, so that its colours do not matter.
 */
module RbTree {
  import opened SeqUtil
  import opened SortedTree

  datatype Tree = Leaf | Node(left: Tree, x: nat, right: Tree)

  // The way up from a node: it is the left, or the right, child of x.
  datatype Path = Top | OnLeft(x: nat, right: Tree, up: Path) | OnRight(x: nat, left: Tree, up: Path)

  function InOrder(t: Tree): seq<nat> {
    if t == Leaf then [] else InOrder(t.left) + [t.x] + InOrder(t.right)
  }

  function Plug(t: Tree, p: Path): Tree
    decreases p
  {
    match p
    case Top => t
    case OnLeft(x, right, up) => Plug(Node(t, x, right), up)
    case OnRight(x, left, up) => Plug(Node(left, x, t), up)
  }

  function Before(p: Path): seq<nat> {
    match p
    case Top => []
    case OnLeft(_, _, up) => Before(up)
    case OnRight(x, left, up) => Before(up) + InOrder(left) + [x]
  }

  function Behind(p: Path): seq<nat> {
    match p
    case Top => []
    case OnLeft(x, right, up) => [x] + InOrder(right) + Behind(up)
    case OnRight(_, _, up) => Behind(up)
  }

  lemma {:induction false} PlugOrder(t: Tree, p: Path)
    ensures InOrder(Plug(t, p)) == Before(p) + InOrder(t) + Behind(p)
    decreases p
  {
    match p
    case Top =>
    case OnLeft(x, right, up) =>
      PlugOrder(Node(t, x, right), up);
      Regroup(Before(up), InOrder(t), [x], InOrder(right), Behind(up));
    case OnRight(x, left, up) =>
      PlugOrder(Node(left, x, t), up);
      Regroup(Before(up), InOrder(left), [x], InOrder(t), Behind(up));
  }

  lemma Regroup(a: seq<nat>, b: seq<nat>, c: seq<nat>, d: seq<nat>, e: seq<nat>)
    ensures a + (b + c + d) + e == a + b + (c + d + e)
    ensures a + (b + c + d) + e == (a + b + c) + d + e
  {
  }

  // A turn, as rebalancing makes it.
  lemma TurnKeepsOrder(a: Tree, x: nat, b: Tree, y: nat, c: Tree)
    ensures InOrder(Node(Node(a, x, b), y, c)) == InOrder(Node(a, x, Node(b, y, c)))
  {
    NodeOrder(Node(a, x, b), y, c);
    NodeOrder(a, x, b);
    NodeOrder(a, x, Node(b, y, c));
    NodeOrder(b, y, c);
    hide InOrder;
    Around5(InOrder(a), x, InOrder(b), y, InOrder(c));
  }

  lemma NodeOrder(l: Tree, x: nat, r: Tree)
    ensures InOrder(Node(l, x, r)) == InOrder(l) + [x] + InOrder(r)
  {
  }

  lemma Around5(a: seq<nat>, x: nat, b: seq<nat>, y: nat, c: seq<nat>)
    ensures (a + [x] + b) + [y] + c == a + [x] + (b + [y] + c)
  {
  }

  // ---------------------------------------------------------------- searching

  // The sector lies between what is before and what is behind.
  ghost predicate Around(before: seq<nat>, behind: seq<nat>, pos: map<nat, int>, p: int) {
    && (forall y :: y in before ==> y in pos && pos[y] < p)
    && (forall y :: y in behind ==> y in pos && pos[y] > p)
  }

  lemma RankBetween(before: seq<nat>, behind: seq<nat>, pos: map<nat, int>, p: int)
    requires Around(before, behind, pos, p)
    ensures Rank(before + behind, pos, p) == |before| && Alias(before + behind, pos, p) == None
  {
    var s := before + behind;
    var i := Rank(s, pos, p);
    assert forall j :: 0 <= j < |before| ==> s[j] in before;
    assert forall j :: |before| <= j < |s| ==> s[j] in behind;
    if |before| < |s| {
      assert s[|before|] in behind;
    }
  }

  lemma Found(before: seq<nat>, x: nat, behind: seq<nat>, pos: map<nat, int>)
    requires Rising(before + [x] + behind, pos)
    ensures Alias(before + [x] + behind, pos, pos[x]) == Some(x)
  {
    var s := before + [x] + behind;
    AliasIs(s, pos, pos[x]);
    assert s[|before|] == x && x in s;
  }

  lemma SearchStep(t: Tree, p: Path, pos: map<nat, int>, s: int)
    requires t.Node? && Rising(InOrder(Plug(t, p)), pos) && Around(Before(p), Behind(p), pos, s)
    ensures t.x in pos
    ensures pos[t.x] < s ==> Around(Before(OnRight(t.x, t.left, p)), Behind(p), pos, s)
    ensures pos[t.x] > s ==> Around(Before(p), Behind(OnLeft(t.x, t.right, p)), pos, s)
    ensures pos[t.x] == s ==> Alias(InOrder(Plug(t, p)), pos, s) == Some(t.x)
  {
    hide InOrder, Rising, Alias, Plug;
    var l, r := Before(p) + InOrder(t.left), InOrder(t.right) + Behind(p);
    PlugNode(t, p);
    Split(l, t.x, r, pos);
    if pos[t.x] == s {
      Found(l, t.x, r, pos);
    }
  }

  lemma PlugNode(t: Tree, p: Path)
    requires t.Node?
    ensures InOrder(Plug(t, p)) == (Before(p) + InOrder(t.left)) + [t.x] + (InOrder(t.right) + Behind(p))
  {
    hide InOrder, Plug, Before, Behind;
    PlugOrder(t, p);
    NodeOrder(t.left, t.x, t.right);
    Rejoined(Before(p), InOrder(t.left), t.x, InOrder(t.right), Behind(p));
  }

  lemma Rejoined(a: seq<nat>, l: seq<nat>, x: nat, r: seq<nat>, b: seq<nat>)
    ensures a + (l + [x] + r) + b == (a + l) + [x] + (r + b)
  {
  }

  lemma Split(l: seq<nat>, x: nat, r: seq<nat>, pos: map<nat, int>)
    requires Rising(l + [x] + r, pos)
    ensures x in pos && (forall y :: y in l ==> y in pos && pos[y] < pos[x]) &&
            (forall y :: y in r ==> y in pos && pos[y] > pos[x])
  {
    var s := l + [x] + r;
    assert s[|l|] == x;
    forall y | y in l
      ensures y in pos && pos[y] < pos[x]
    {
      var j :| 0 <= j < |l| && l[j] == y;
      assert s[j] == y;
    }
    forall y | y in r
      ensures y in pos && pos[y] > pos[x]
    {
      var j :| 0 <= j < |r| && r[j] == y;
      assert s[|l| + 1 + j] == y;
    }
  }

  // elv_rb_find
  method Find(root: Tree, pos: map<nat, int>, sector: int) returns (r: Option<nat>)
    requires Rising(InOrder(root), pos)
    ensures r == Alias(InOrder(root), pos, sector)
  {
    hide Rising, Alias, InOrder;
    var n, p := Descend(root, pos, sector);
    return if n == Leaf then None else Some(n.x);
  }

  // The descent of elv_rb_find and elv_rb_add: to the request at the sector, or
  // to the place where it belongs.
  method Descend(root: Tree, pos: map<nat, int>, sector: int) returns (n: Tree, p: Path)
    requires Rising(InOrder(root), pos)
    ensures Plug(n, p) == root
    ensures Alias(InOrder(root), pos, sector) == if n == Leaf then None else Some(n.x)
    ensures n == Leaf ==> Around(Before(p), Behind(p), pos, sector) && InOrder(root) == Before(p) + Behind(p)
  {
    hide Rising, Alias;
    n, p := root, Top;
    while n.Node?
      invariant Plug(n, p) == root && Around(Before(p), Behind(p), pos, sector)
      decreases n
    {
      SearchStep(n, p, pos, sector);
      if sector < pos[n.x] {
        n, p := n.left, OnLeft(n.x, n.right, p);
      } else if sector > pos[n.x] {
        n, p := n.right, OnRight(n.x, n.left, p);
      } else {
        return;
      }
    }
    PlugOrder(n, p);
    RankBetween(Before(p), Behind(p), pos, sector);
    assert Before(p) + InOrder(n) + Behind(p) == Before(p) + Behind(p);
  }

  // elv_rb_add: the request that is at the sector already, or a new leaf
  method Add(root: Tree, pos: map<nat, int>, x: nat) returns (alias: Option<nat>, t: Tree)
    requires Rising(InOrder(root), pos) && x in pos
    ensures alias == Alias(InOrder(root), pos, pos[x])
    ensures alias.Some? ==> t == root
    ensures alias.None? ==>
              && (forall y :: y in InOrder(root) ==> y in pos)
              && InOrder(t) == InsertAt(InOrder(root), Rank(InOrder(root), pos, pos[x]), x)
  {
    assert forall y :: y in InOrder(root) ==> y in pos;
    hide Rising, Alias, Rank;
    var n, p := Descend(root, pos, pos[x]);
    if n.Node? {
      return Some(n.x), root;
    }
    t := Plug(Node(Leaf, x, Leaf), p);
    PlugOrder(Node(Leaf, x, Leaf), p);
    RankBetween(Before(p), Behind(p), pos, pos[x]);
    assert InOrder(Node(Leaf, x, Leaf)) == [x];
    assert Before(p) + [x] + Behind(p) == InsertAt(Before(p) + Behind(p), |Before(p)|, x);
    alias := None;
  }

  // ---------------------------------------------------------------- neighbours

  lemma Middle(l: seq<nat>, x: nat, r: seq<nat>)
    requires Distinct(l + [x] + r)
    ensures x in l + [x] + r
    ensures Latter(l + [x] + r, x) == if r == [] then None else Some(r[0])
    ensures Former(l + [x] + r, x) == if l == [] then None else Some(l[|l| - 1])
  {
    var s := l + [x] + r;
    assert s[|l|] == x;
    var i := IndexOf(s, x);
    assert i == |l|;
  }

  lemma NodeHas(t: Tree)
    requires t.Node?
    ensures InOrder(t) == InOrder(t.left) + [t.x] + InOrder(t.right) && InOrder(t) != []
  {
  }

  lemma NoNodes()
    ensures InOrder(Leaf) == []
  {
  }

  // rb_next, for a node and the way up from it
  method Next(node: Tree, path: Path) returns (r: Option<nat>)
    requires node.Node? && Distinct(InOrder(Plug(node, path)))
    ensures node.x in InOrder(Plug(node, path)) && r == Latter(InOrder(Plug(node, path)), node.x)
  {
    hide Distinct, Latter, Former, Plug, InOrder;
    ghost var l, after := Before(path) + InOrder(node.left), InOrder(node.right) + Behind(path);
    PlugNode(node, path);
    Middle(l, node.x, after);
    if node.right.Node? {
      NodeHas(node.right);
      var m := node.right;
      while m.left.Node?
        invariant m.Node? && InOrder(m) != [] && InOrder(m)[0] == InOrder(node.right)[0]
        decreases m
      {
        NodeHas(m);
        NodeHas(m.left);
        m := m.left;
      }
      NodeHas(m);
      NoNodes();
      return Some(m.x);
    }
    NoNodes();
    var p := path;
    while p.OnRight?
      invariant Behind(p) == Behind(path)
      decreases p
    {
      p := p.up;
    }
    r := if p == Top then None else Some(p.x);
  }

  // rb_prev
  method Prev(node: Tree, path: Path) returns (r: Option<nat>)
    requires node.Node? && Distinct(InOrder(Plug(node, path)))
    ensures node.x in InOrder(Plug(node, path)) && r == Former(InOrder(Plug(node, path)), node.x)
  {
    hide Distinct, Latter, Former, Plug, InOrder;
    ghost var before, rest := Before(path) + InOrder(node.left), InOrder(node.right) + Behind(path);
    PlugNode(node, path);
    Middle(before, node.x, rest);
    if node.left.Node? {
      NodeHas(node.left);
      var m := node.left;
      while m.right.Node?
        invariant m.Node? && InOrder(m) != [] && Last(InOrder(m)) == Last(InOrder(node.left))
        decreases m
      {
        NodeHas(m);
        NodeHas(m.right);
        m := m.right;
      }
      NodeHas(m);
      NoNodes();
      return Some(m.x);
    }
    NoNodes();
    var p := path;
    while p.OnLeft?
      invariant Before(p) == Before(path)
      decreases p
    {
      p := p.up;
    }
    r := if p == Top then None else Some(p.x);
  }

  function Last(s: seq<nat>): nat
    requires s != []
  {
    s[|s| - 1]
  }
}
