/** The active tree of a BFQ service tree (common/block/bfq-sched.c): a search tree ordered by
    finish time whose nodes cache the minimum start time of their subtrees.

    The parent links of the source are represented by the path from a node to the root, so that
    "walk up" is a walk along a path.  Rotations of the red-black tree are those of
    common/lib/rbtree.c; the colours that decide where they happen are left open, so what is
    proved holds wherever they happen. */
module BfqTree {
  import opened SeqUtil

  datatype Entity = Entity(id: nat, start: int, finish: int)

  /** `min` is the cached min_start. */
  datatype Tree = Nil | Node(left: Tree, e: Entity, min: int, right: Tree)

  datatype Side = Left | Right
  {
    function Other(): Side { if this == Left then Right else Left }
  }

  /** The node with subtree `a` on side `s` and `b` on the other one. */
  function Build(s: Side, a: Tree, e: Entity, min: int, b: Tree): Tree {
    if s == Left then Node(a, e, min, b) else Node(b, e, min, a)
  }

  function Child(t: Tree, s: Side): Tree
    requires t.Node?
  {
    if s == Left then t.left else t.right
  }

  /** From a position up to the root: it hangs on side `side` of `e`, with `sibling` on the other. */
  datatype Path = Top | Step(side: Side, e: Entity, min: int, sibling: Tree, up: Path)

  function Plug(t: Tree, p: Path): Tree
    decreases p
  {
    match p
    case Top => t
    case Step(s, e, m, sib, up) => Plug(Build(s, t, e, m, sib), up)
  }

  // ---------- what the cache should hold ----------

  /** The least start time of a non-empty tree. */
  function TrueMin(t: Tree): int
    requires t.Node?
  {
    var a := if t.left.Node? then Min(t.e.start, TrueMin(t.left)) else t.e.start;
    if t.right.Node? then Min(a, TrueMin(t.right)) else a
  }

  /** The same tree with every cached value recomputed from scratch. */
  function Fix(t: Tree): Tree {
    match t
    case Nil => Nil
    case Node(l, e, _, r) => Node(Fix(l), e, TrueMin(t), Fix(r))
  }

  predicate Exact(t: Tree) {
    t.Node? ==> t.min == TrueMin(t) && Exact(t.left) && Exact(t.right)
  }

  lemma {:induction false} FixIsExact(t: Tree)
    ensures Exact(Fix(t)) && Fix(Fix(t)) == Fix(t) && (Exact(t) <==> Fix(t) == t)
    ensures t.Node? ==> TrueMin(Fix(t)) == TrueMin(t)
  {
    match t
    case Nil =>
    case Node(l, e, m, r) =>
      FixIsExact(l);
      FixIsExact(r);
  }

  /** Everything below the root is exact. */
  predicate Kids(t: Tree) {
    t.Node? ==> Exact(t.left) && Exact(t.right)
  }

  /** Stale values only on the path or at the roots of its siblings. */
  predicate Tidy(p: Path) {
    p.Step? ==> Kids(p.sibling) && Tidy(p.up)
  }

  /** Stale values only on the path. */
  predicate Fresh(p: Path) {
    p.Step? ==> Exact(p.sibling) && Fresh(p.up)
  }

  // ---------- bfq_update_active_tree ----------

  function UpdateMin(m: int, t: Tree): int {
    if t.Node? && m > t.min then t.min else m
  }

  /** bfq_update_active_node. */
  function UpdateNode(t: Tree): Tree {
    match t
    case Nil => Nil
    case Node(l, e, _, r) => Node(l, e, UpdateMin(UpdateMin(e.start, r), l), r)
  }

  lemma UpdateNodeFixes(t: Tree)
    requires Kids(t)
    ensures UpdateNode(t) == Fix(t)
  {
    if t.Node? {
      FixIsExact(t.left);
      FixIsExact(t.right);
    }
  }

  lemma {:induction false} FixPlug(t: Tree, p: Path)
    ensures Fix(Plug(Fix(t), p)) == Fix(Plug(t, p))
    decreases p
  {
    match p
    case Top => FixIsExact(t);
    case Step(s, e, m, sib, up) =>
      FixIsExact(t);
      var a := Build(s, t, e, m, sib);
      var b := Build(s, Fix(t), e, m, sib);
      FixIsExact(a);
      assert Fix(a) == Fix(b);
      FixPlug(a, up);
      FixPlug(b, up);
  }

  /** The upward walk of bfq_update_active_tree makes every cached value of the whole tree right. */
  method UpdateActiveTree(node: Tree, path: Path) returns (t: Tree)
    requires node.Node? && Kids(node) && Tidy(path)
    ensures t == Fix(Plug(node, path))
  {
    UpdateNodeFixes(node);
    FixPlug(node, path);
    t := UpdateNode(node);
    FixIsExact(node);
    var p := path;
    while p.Step?
      invariant t.Node? && Exact(t) && Tidy(p)
      invariant Fix(Plug(t, p)) == Fix(Plug(node, path))
      decreases p
    {
      // the sibling, if there is one; a left child without sibling is itself updated again
      var sib := UpdateNode(p.sibling);
      if p.side == Left && p.sibling == Nil {
        UpdateNodeFixes(t);
        FixIsExact(t);
        t := UpdateNode(t);
      }
      UpdateNodeFixes(p.sibling);
      FixIsExact(p.sibling);
      var above := Build(p.side, t, p.e, p.min, sib);
      var stale := Build(p.side, t, p.e, p.min, p.sibling);
      UpdateNodeFixes(above);
      FixIsExact(above);
      FixIsExact(stale);
      FixPlug(stale, p.up);
      FixPlug(above, p.up);
      assert Fix(stale) == Fix(above);
      t := UpdateNode(above);
      p := p.up;
    }
    FixIsExact(t);
  }

  // ---------- contents ----------

  /** The entities in tree order. */
  function InOrder(t: Tree): seq<Entity> {
    match t
    case Nil => []
    case Node(l, e, _, r) => InOrder(l) + [e] + InOrder(r)
  }

  /** What stands before, and after, a position in tree order. */
  function Before(p: Path): seq<Entity> {
    match p
    case Top => []
    case Step(s, e, _, sib, up) => if s == Left then Before(up) else Before(up) + InOrder(sib) + [e]
  }

  function After(p: Path): seq<Entity> {
    match p
    case Top => []
    case Step(s, e, _, sib, up) => if s == Left then [e] + InOrder(sib) + After(up) else After(up)
  }

  lemma {:induction false} PlugInOrder(t: Tree, p: Path)
    ensures InOrder(Plug(t, p)) == Before(p) + InOrder(t) + After(p)
    decreases p
  {
    match p
    case Top =>
    case Step(s, e, m, sib, up) => PlugInOrder(Build(s, t, e, m, sib), up);
  }

  lemma {:induction false} FixInOrder(t: Tree)
    ensures InOrder(Fix(t)) == InOrder(t)
  {
    match t
    case Nil =>
    case Node(l, _, _, r) =>
      FixInOrder(l);
      FixInOrder(r);
  }

  ghost predicate Sorted(s: seq<Entity>) {
    forall i, j :: 0 <= i < j < |s| ==> s[i].finish <= s[j].finish
  }

  // ---------- insertion ----------

  /** The descent of bfq_insert: the leaf position for finish time `f`. */
  method FindLeaf(t: Tree, f: int) returns (p: Path)
    requires Exact(t) && Sorted(InOrder(t))
    ensures Fresh(p) && Plug(Nil, p) == t
    ensures forall x :: x in Before(p) ==> x.finish <= f
    ensures forall x :: x in After(p) ==> f < x.finish
  {
    p := Top;
    var node := t;
    while node.Node?
      invariant Exact(node) && Fresh(p) && Plug(node, p) == t
      invariant forall x :: x in Before(p) ==> x.finish <= f
      invariant forall x :: x in After(p) ==> f < x.finish
      decreases node
    {
      PlugInOrder(node, p);
      SortedNode(Before(p), node, After(p));
      if node.e.finish > f {
        p := Step(Left, node.e, node.min, node.right, p);
        node := node.left;
      } else {
        p := Step(Right, node.e, node.min, node.left, p);
        node := node.right;
      }
    }
  }

  lemma SortedAround(u: seq<Entity>, x: Entity, v: seq<Entity>)
    requires Sorted(u + [x] + v)
    ensures forall y :: y in u ==> y.finish <= x.finish
    ensures forall y :: y in v ==> x.finish <= y.finish
  {
    var s := u + [x] + v;
    assert s[|u|] == x;
    assert forall i :: 0 <= i < |u| ==> s[i] == u[i];
    assert forall i :: 0 <= i < |v| ==> s[|u| + 1 + i] == v[i];
  }

  lemma SortedNode(a: seq<Entity>, t: Tree, b: seq<Entity>)
    requires t.Node? && Sorted(a + InOrder(t) + b)
    ensures forall x :: x in InOrder(t.left) ==> x.finish <= t.e.finish
    ensures forall x :: x in InOrder(t.right) ==> t.e.finish <= x.finish
  {
    var l, r := InOrder(t.left), InOrder(t.right);
    assert InOrder(t) == l + [t.e] + r;
    hide Sorted, InOrder;
    NodeBetween(a, l, t.e, r, b);
    SortedAround(a + l, t.e, r + b);
    assert forall x :: x in l ==> x in a + l;
    assert forall x :: x in r ==> x in r + b;
  }

  lemma NodeBetween(a: seq<Entity>, l: seq<Entity>, x: Entity, r: seq<Entity>, b: seq<Entity>)
    ensures a + (l + [x] + r) + b == (a + l) + [x] + (r + b)
  {
  }

  // ---------- turns ----------

  /** The entities of `t` in order, in front of `s`.  With it, trees that differ by a turn have
      contents that are equal by definition. */
  ghost function Flat(t: Tree, s: seq<Entity>): seq<Entity> {
    match t
    case Nil => s
    case Node(l, e, _, r) => Flat(l, [e] + Flat(r, s))
  }

  lemma {:induction false} FlatIsInOrder(t: Tree, s: seq<Entity>)
    ensures Flat(t, s) == InOrder(t) + s
  {
    match t
    case Nil =>
    case Node(l, e, _, r) =>
      FlatIsInOrder(r, s);
      FlatIsInOrder(l, [e] + Flat(r, s));
  }

  ghost predicate SameContents(a: Tree, b: Tree) {
    forall s :: Flat(a, s) == Flat(b, s)
  }

  lemma SameInOrder(a: Tree, b: Tree)
    requires SameContents(a, b)
    ensures InOrder(a) == InOrder(b)
  {
    FlatIsInOrder(a, []);
    FlatIsInOrder(b, []);
    assert InOrder(a) + [] == InOrder(a) && InOrder(b) + [] == InOrder(b);
  }

  lemma {:induction false} SamePlug(a: Tree, b: Tree, p: Path)
    requires SameContents(a, b)
    ensures SameContents(Plug(a, p), Plug(b, p))
    decreases p
  {
    match p
    case Top =>
    case Step(side, e, m, sib, up) =>
      assert SameContents(Build(side, a, e, m, sib), Build(side, b, e, m, sib));
      SamePlug(Build(side, a, e, m, sib), Build(side, b, e, m, sib), up);
  }

  /** Where rb_insert_color can turn: at the node found `depth` steps above the new one, whose parent
      and grandparent exist.  The turn is single when both hang on the same side, else double. */
  predicate CanTurn(p: Path, depth: nat) {
    if depth == 0 then p.Step? && p.up.Step? else p.Step? && CanTurn(p.up, depth - 1)
  }

  /** The turn on node, parent and grandparent, for a position below the node: its path afterwards. */
  function TurnThree(p: Path): Path
    requires p.Step? && p.up.Step? && p.up.up.Step?
  {
    var Step(sn, n, mn, nx, Step(sp, e, m, px, Step(sg, g, mg, gx, up))) := p;
    if sp == sg then
      Step(sn, n, mn, nx, Step(sp, e, m, Build(sg, px, g, mg, gx), up))
    else if sn == sg then
      Step(sp, e, m, px, Step(sg, n, mn, Build(sg, nx, g, mg, gx), up))
    else
      Step(sg, g, mg, gx, Step(sp, n, mn, Build(sp, nx, e, m, px), up))
  }

  function TurnPath(p: Path, depth: nat): Path
    requires depth > 0 && CanTurn(p, depth)
  {
    if depth > 1 then p.(up := TurnPath(p.up, depth - 1)) else assert CanTurn(p.up, 0); TurnThree(p)
  }

  /** The turn when the new node itself goes up: its tree and path afterwards. */
  function TurnTop(t: Tree, p: Path): (Tree, Path)
    requires t.Node? && p.Step? && p.up.Step?
  {
    var Step(sp, e, m, px, Step(sg, g, mg, gx, up)) := p;
    if sp == sg then
      (t, Step(sp, e, m, Build(sg, px, g, mg, gx), up))
    else
      (Build(sg, Build(sp, Child(t, sg), e, m, px), t.e, t.min, Build(sg, Child(t, sp), g, mg, gx)), up)
  }

  lemma FlatBuild(side: Side, a: Tree, e: Entity, m: int, b: Tree)
    ensures forall s :: Flat(Build(side, a, e, m, b), s)
                     == if side == Left then Flat(a, [e] + Flat(b, s)) else Flat(b, [e] + Flat(a, s))
  {
  }

  lemma SingleKeepsOrder(s: Side, x: Tree, e: Entity, m: int, px: Tree, g: Entity, mg: int, gx: Tree)
    ensures SameContents(Build(s, x, e, m, Build(s, px, g, mg, gx)), Build(s, Build(s, x, e, m, px), g, mg, gx))
  {
    FlatBuild(s, x, e, m, px);
    FlatBuild(s, px, g, mg, gx);
    FlatBuild(s, x, e, m, Build(s, px, g, mg, gx));
    FlatBuild(s, Build(s, x, e, m, px), g, mg, gx);
  }

  /** `u` and `v` are the subtrees of the node that goes up between `e` and `g`. */
  lemma DoubleKeepsOrder(sg: Side, n: Entity, mn: int, u: Tree, v: Tree, e: Entity, m: int, px: Tree, g: Entity,
                         mg: int, gx: Tree)
    ensures
      var sp := sg.Other();
      SameContents(Build(sg, Build(sp, u, e, m, px), n, mn, Build(sg, v, g, mg, gx)),
                   Build(sg, Build(sp, Build(sg, u, n, mn, v), e, m, px), g, mg, gx))
  {
    var sp := sg.Other();
    var pn := Build(sg, u, n, mn, v);
    FlatBuild(sg, u, n, mn, v);
    FlatBuild(sp, pn, e, m, px);
    FlatBuild(sg, Build(sp, pn, e, m, px), g, mg, gx);
    FlatBuild(sp, u, e, m, px);
    FlatBuild(sg, v, g, mg, gx);
    FlatBuild(sg, Build(sp, u, e, m, px), n, mn, Build(sg, v, g, mg, gx));
  }

  /** A turn leaves the entities in their order. */
  lemma TurnThreeKeepsOrder(t: Tree, p: Path)
    requires p.Step? && p.up.Step? && p.up.up.Step?
    ensures SameContents(Plug(t, TurnThree(p)), Plug(t, p))
  {
    var Step(sn, n, mn, nx, Step(sp, e, m, px, Step(sg, g, mg, gx, up))) := p;
    var x := Build(sn, t, n, mn, nx);
    var y := Build(sp, x, e, m, px);
    var a := Build(sg, y, g, mg, gx);
    assert Plug(t, p) == Plug(a, up) by {
      assert Plug(t, p) == Plug(x, p.up) && Plug(x, p.up) == Plug(y, p.up.up);
    }
    var p' := TurnThree(p);
    if sp == sg {
      SingleKeepsOrder(sg, x, e, m, px, g, mg, gx);
      SamePlug(Build(sp, x, e, m, Build(sg, px, g, mg, gx)), a, up);
      assert Plug(t, p') == Plug(x, p'.up);
    } else if sn == sg {
      DoubleKeepsOrder(sg, n, mn, t, nx, e, m, px, g, mg, gx);
      SamePlug(Build(sg, Build(sp, t, e, m, px), n, mn, Build(sg, nx, g, mg, gx)), a, up);
      assert Plug(t, p') == Plug(Build(sp, t, e, m, px), p'.up);
    } else {
      DoubleKeepsOrder(sg, n, mn, nx, t, e, m, px, g, mg, gx);
      SamePlug(Build(sp, Build(sg, t, g, mg, gx), n, mn, Build(sp, nx, e, m, px)), a, up);
      assert Plug(t, p') == Plug(Build(sg, t, g, mg, gx), p'.up);
    }
  }

  lemma {:induction false} TurnPathKeepsOrder(t: Tree, p: Path, depth: nat)
    requires depth > 0 && CanTurn(p, depth)
    ensures SameContents(Plug(t, TurnPath(p, depth)), Plug(t, p))
    decreases depth
  {
    if depth > 1 {
      TurnPathKeepsOrder(Build(p.side, t, p.e, p.min, p.sibling), p.up, depth - 1);
    } else {
      assert CanTurn(p.up, 0);
      TurnThreeKeepsOrder(t, p);
    }
  }

  lemma TurnTopKeepsOrder(t: Tree, p: Path)
    requires t.Node? && p.Step? && p.up.Step?
    ensures var (t', p') := TurnTop(t, p); SameContents(Plug(t', p'), Plug(t, p))
  {
    var Step(sp, e, m, px, Step(sg, g, mg, gx, up)) := p;
    var y := Build(sp, t, e, m, px);
    var a := Build(sg, y, g, mg, gx);
    assert Plug(t, p) == Plug(y, p.up) && Plug(y, p.up) == Plug(a, up);
    if sp == sg {
      SingleKeepsOrder(sg, t, e, m, px, g, mg, gx);
      SamePlug(Build(sp, t, e, m, Build(sg, px, g, mg, gx)), a, up);
    } else {
      DoubleKeepsOrder(sg, t.e, t.min, Child(t, sg), Child(t, sp), e, m, px, g, mg, gx);
      SamePlug(TurnTop(t, p).0, a, up);
    }
  }

  lemma {:induction false} FreshIsTidy(p: Path)
    requires Fresh(p)
    ensures Tidy(p)
  {
    if p.Step? {
      FreshIsTidy(p.up);
    }
  }

  lemma TurnThreeIsTidy(p: Path)
    requires p.Step? && p.up.Step? && p.up.up.Step? && Fresh(p)
    ensures Tidy(TurnThree(p))
  {
    assert Fresh(p.up) && Fresh(p.up.up) && Fresh(p.up.up.up);
    FreshIsTidy(p.up.up.up);
    assert Tidy(TurnThree(p).up);
  }

  /** A turn on a path without stale siblings makes at most the roots of siblings stale. */
  lemma {:induction false} TurnPathIsTidy(p: Path, depth: nat)
    requires depth > 0 && CanTurn(p, depth) && Fresh(p)
    ensures Tidy(TurnPath(p, depth))
  {
    if depth > 1 {
      TurnPathIsTidy(p.up, depth - 1);
    } else {
      assert CanTurn(p.up, 0);
      TurnThreeIsTidy(p);
    }
  }

  /** The node at which bfq_active_insert starts to update: a child of the new one, if any. */
  function StartAt(t: Tree, p: Path): (r: (Tree, Path))
    requires t.Node?
    ensures r.0.Node? && Plug(r.0, r.1) == Plug(t, p)
  {
    if t.left.Node? then (t.left, Step(Left, t.e, t.min, t.right, p))
    else if t.right.Node? then (t.right, Step(Right, t.e, t.min, t.left, p))
    else (t, p)
  }

  /** A new node in place, after at most one turn. */
  function Rebalanced(t: Tree, p: Path, turn: int): (r: (Tree, Path))
    requires t.Node?
    ensures r.0.Node?
  {
    if turn == 0 && CanTurn(p, 0) then TurnTop(t, p)
    else if turn > 0 && CanTurn(p, turn) then (t, TurnPath(p, turn))
    else (t, p)
  }

  lemma TurnTopIsTidy(t: Tree, p: Path)
    requires t.Node? && t.left == Nil && t.right == Nil && p.Step? && p.up.Step? && Fresh(p)
    ensures
      var (t', p') := TurnTop(t, p);
      var (start, path) := StartAt(t', p');
      Kids(start) && Tidy(path)
  {
    assert Fresh(p.up) && Fresh(p.up.up);
    FreshIsTidy(p.up.up);
  }

  /** Wherever the turn happens, the update starts from a node all of whose stale relatives are on
      its path or siblings of it. */
  lemma InsertionIsTidy(x: Entity, m: int, p: Path, turn: int)
    requires Fresh(p)
    ensures
      var (t, p') := Rebalanced(Node(Nil, x, m, Nil), p, turn);
      var (start, path) := StartAt(t, p');
      Kids(start) && Tidy(path) && SameContents(Plug(start, path), Plug(Node(Nil, x, m, Nil), p))
  {
    var leaf := Node(Nil, x, m, Nil);
    FreshIsTidy(p);
    if turn == 0 && CanTurn(p, 0) {
      TurnTopKeepsOrder(leaf, p);
      TurnTopIsTidy(leaf, p);
    } else if turn > 0 && CanTurn(p, turn) {
      TurnPathIsTidy(p, turn);
      TurnPathKeepsOrder(leaf, p, turn);
    }
  }

  /** bfq_active_insert: after inserting `x`, with whatever turn balancing makes, every cached value is
      the true minimum and the entities are in order of finish time, `x` behind its equals. */
  method ActiveInsert(t: Tree, x: Entity, turn: int) returns (t': Tree)
    requires Exact(t) && Sorted(InOrder(t))
    ensures Exact(t') && Sorted(InOrder(t'))
    ensures exists a, b :: InOrder(t) == a + b && InOrder(t') == a + [x] + b
  {
    hide Rebalanced, StartAt, Fix, Exact, Tidy, Fresh, Sorted;
    var p := FindLeaf(t, x.finish);
    var m: int :| true;
    var leaf := Node(Nil, x, m, Nil);
    var (t1, p1) := Rebalanced(leaf, p, turn);
    var (start, path) := StartAt(t1, p1);
    InsertionIsTidy(x, m, p, turn);
    t' := UpdateActiveTree(start, path);
    FixIsExact(Plug(start, path));
    FixInOrder(Plug(start, path));
    SameInOrder(Plug(start, path), Plug(leaf, p));
    PlugInOrder(leaf, p);
    PlugInOrder(Nil, p);
    assert InOrder(t) == Before(p) + After(p);
    assert InOrder(t') == Before(p) + [x] + After(p);
    InsertSorted(Before(p), x, After(p));
  }

  lemma InsertSorted(a: seq<Entity>, x: Entity, b: seq<Entity>)
    requires Sorted(a + b)
    requires forall y :: y in a ==> y.finish <= x.finish
    requires forall y :: y in b ==> x.finish <= y.finish
    ensures Sorted(a + [x] + b)
  {
    var s, s' := a + b, a + [x] + b;
    forall i, j | 0 <= i < j < |s'| ensures s'[i].finish <= s'[j].finish {
      assert i != |a| ==> s'[i] == s[if i < |a| then i else i - 1];
      assert j != |a| ==> s'[j] == s[if j < |a| then j else j - 1];
    }
  }

  // ---------- extraction ----------

  lemma {:induction false} PlugExact(t: Tree, p: Path)
    requires Exact(Plug(t, p))
    ensures Exact(t) && Fresh(p)
    decreases p
  {
    if p.Step? {
      PlugExact(Build(p.side, t, p.e, p.min, p.sibling), p.up);
    }
  }

  /** The leftmost node, which rb_erase puts in the place of a node with two children. */
  function First(t: Tree): (f: Tree)
    requires t.Node?
    ensures f.Node? && f.left == Nil
  {
    if t.left == Nil then t else First(t.left)
  }

  /** The tree without its leftmost node. */
  function Cut(t: Tree): Tree
    requires t.Node?
  {
    if t.left == Nil then t.right else Node(Cut(t.left), t.e, t.min, t.right)
  }

  /** The path of the hole that the leftmost node of `t` leaves. */
  function Spine(t: Tree, p: Path): Path
    requires t.Node?
  {
    if t.left == Nil then p else Spine(t.left, Step(Left, t.e, t.min, t.right, p))
  }

  lemma {:induction false} SpinePlug(t: Tree, p: Path)
    requires t.Node?
    ensures Plug(First(t).right, Spine(t, p)) == Plug(Cut(t), p)
    decreases t
  {
    if t.left != Nil {
      SpinePlug(t.left, Step(Left, t.e, t.min, t.right, p));
    }
  }

  lemma {:induction false} SpineIsFresh(t: Tree, p: Path)
    requires t.Node? && Exact(t) && Fresh(p)
    ensures Fresh(Spine(t, p)) && Exact(First(t))
    decreases t
  {
    if t.left != Nil {
      SpineIsFresh(t.left, Step(Left, t.e, t.min, t.right, p));
    }
  }

  lemma {:induction false} CutInOrder(t: Tree)
    requires t.Node?
    ensures InOrder(t) == [First(t).e] + InOrder(Cut(t))
  {
    if t.left == Nil {
      assert InOrder(t) == [] + [t.e] + InOrder(t.right);
    } else {
      CutInOrder(t.left);
    }
  }

  /** rb_erase before balancing: what moves into the hole, and the path of the hole. */
  function Splice(t: Tree, p: Path): (Tree, Path)
    requires t.Node?
  {
    if t.left == Nil then (t.right, p)
    else if t.right == Nil then (t.left, p)
    else (First(t.right).right, Spine(t.right, Step(Right, First(t.right).e, First(t.right).min, t.left, p)))
  }

  lemma SpliceIsFresh(t: Tree, p: Path)
    requires t.Node? && Exact(t) && Fresh(p)
    ensures Exact(Splice(t, p).0) && Fresh(Splice(t, p).1)
  {
    if t.left != Nil && t.right != Nil {
      SpineIsFresh(t.right, Step(Right, First(t.right).e, First(t.right).min, t.left, p));
    }
  }

  /** The removed node's subtrees, joined as rb_erase joins them. */
  function Joined(t: Tree): Tree
    requires t.Node?
  {
    if t.left == Nil then t.right
    else if t.right == Nil then t.left
    else Node(t.left, First(t.right).e, First(t.right).min, Cut(t.right))
  }

  lemma JoinedInOrder(t: Tree)
    requires t.Node?
    ensures InOrder(Joined(t)) == InOrder(t.left) + InOrder(t.right)
  {
    if t.left != Nil && t.right != Nil {
      CutInOrder(t.right);
    }
  }

  /** Removing a node leaves the others in order. */
  lemma SpliceRemoves(t: Tree, p: Path)
    requires t.Node?
    ensures InOrder(Plug(Splice(t, p).0, Splice(t, p).1)) == Before(p) + (InOrder(t.left) + InOrder(t.right)) + After(p)
  {
    if t.left != Nil && t.right != Nil {
      var b := Step(Right, First(t.right).e, First(t.right).min, t.left, p);
      SpinePlug(t.right, b);
      assert Plug(Cut(t.right), b) == Plug(Joined(t), p);
    }
    PlugInOrder(Joined(t), p);
    JoinedInOrder(t);
  }

  /** A turn of __rb_erase_color pulls the node `depth` steps above the hole down towards it, and its
      sibling subtree's root up. */
  predicate CanFall(p: Path, depth: nat) {
    p.Step? && if depth == 0 then p.sibling.Node? else CanFall(p.up, depth - 1)
  }

  function Fall(p: Path, depth: nat): Path
    requires CanFall(p, depth)
  {
    if depth > 0 then p.(up := Fall(p.up, depth - 1))
    else
      var s := p.sibling;
      Step(p.side, p.e, p.min, Child(s, p.side), Step(p.side, s.e, s.min, Child(s, p.side.Other()), p.up))
  }

  /** The double turn brings up the near child of the sibling. */
  predicate CanFallTwice(p: Path, depth: nat) {
    && p.Step?
    && if depth == 0 then p.sibling.Node? && Child(p.sibling, p.side).Node? else CanFallTwice(p.up, depth - 1)
  }

  function FallTwice(p: Path, depth: nat): Path
    requires CanFallTwice(p, depth)
  {
    if depth > 0 then p.(up := FallTwice(p.up, depth - 1))
    else
      var s := p.sibling;
      var n := Child(s, p.side);
      Step(p.side, p.e, p.min, Child(n, p.side),
           Step(p.side, n.e, n.min, Build(p.side, Child(n, p.side.Other()), s.e, s.min, Child(s, p.side.Other())),
                p.up))
  }

  lemma {:induction false} FallKeeps(t: Tree, p: Path, depth: nat)
    requires CanFall(p, depth)
    ensures SameContents(Plug(t, Fall(p, depth)), Plug(t, p))
    ensures Fresh(p) ==> Fresh(Fall(p, depth))
    decreases depth
  {
    if depth > 0 {
      FallKeeps(Build(p.side, t, p.e, p.min, p.sibling), p.up, depth - 1);
    } else {
      var s := p.sibling;
      var near, far := Child(s, p.side), Child(s, p.side.Other());
      var q := Fall(p, 0);
      var a := Build(p.side, Build(p.side, t, p.e, p.min, near), s.e, s.min, far);
      var b := Build(p.side, t, p.e, p.min, Build(p.side, near, s.e, s.min, far));
      assert Build(p.side, near, s.e, s.min, far) == s;
      assert Plug(t, p) == Plug(b, p.up);
      assert Plug(t, q) == Plug(Build(p.side, t, p.e, p.min, near), q.up) && Plug(t, q) == Plug(a, p.up);
      SingleKeepsOrder(p.side, t, p.e, p.min, near, s.e, s.min, far);
      assert SameContents(a, b);
      SamePlug(a, b, p.up);
    }
  }

  /** The double turn on trees: `u` and `v` are the subtrees of the node that comes up. */
  lemma FallTwiceSame(s: Side, t: Tree, e: Entity, m: int, u: Tree, n: Entity, mn: int, v: Tree, o: Entity, mo: int,
                      far: Tree)
    ensures SameContents(Build(s, Build(s, t, e, m, u), n, mn, Build(s, v, o, mo, far)),
                         Build(s, t, e, m, Build(s, Build(s, u, n, mn, v), o, mo, far)))
  {
    SingleKeepsOrder(s, u, n, mn, v, o, mo, far);
    var x, y := Build(s, u, n, mn, Build(s, v, o, mo, far)), Build(s, Build(s, u, n, mn, v), o, mo, far);
    FlatBuild(s, t, e, m, x);
    FlatBuild(s, t, e, m, y);
    assert SameContents(Build(s, t, e, m, x), Build(s, t, e, m, y));
    SingleKeepsOrder(s, t, e, m, u, n, mn, Build(s, v, o, mo, far));
  }

  lemma ExactChild(t: Tree, s: Side)
    requires t.Node? && Exact(t)
    ensures Exact(Child(t, s))
  {
  }

  lemma FallTwiceIsTidy(p: Path)
    requires CanFallTwice(p, 0) && Fresh(p)
    ensures Tidy(FallTwice(p, 0)) && Exact(FallTwice(p, 0).sibling)
  {
    var s := p.sibling;
    var n := Child(s, p.side);
    ExactChild(s, p.side);
    ExactChild(s, p.side.Other());
    ExactChild(n, p.side);
    ExactChild(n, p.side.Other());
    FreshIsTidy(p.up);
    var q := FallTwice(p, 0);
    assert Tidy(q.up) && Kids(q.sibling);
  }

  lemma FallTwiceHere(t: Tree, p: Path)
    requires CanFallTwice(p, 0)
    ensures SameContents(Plug(t, FallTwice(p, 0)), Plug(t, p))
  {
    var s := p.sibling;
    var n := Child(s, p.side);
    var far := Child(s, p.side.Other());
    var u, v := Child(n, p.side), Child(n, p.side.Other());
    var q := FallTwice(p, 0);
    var a := Build(p.side, Build(p.side, t, p.e, p.min, u), n.e, n.min, Build(p.side, v, s.e, s.min, far));
    assert Build(p.side, Build(p.side, u, n.e, n.min, v), s.e, s.min, far) == s;
    assert Plug(t, q) == Plug(Build(p.side, t, p.e, p.min, u), q.up) && Plug(t, q) == Plug(a, p.up);
    FallTwiceSame(p.side, t, p.e, p.min, u, n.e, n.min, v, s.e, s.min, far);
    SamePlug(a, Build(p.side, t, p.e, p.min, s), p.up);
  }

  lemma {:induction false} FallTwiceKeeps(t: Tree, p: Path, depth: nat)
    requires CanFallTwice(p, depth)
    ensures SameContents(Plug(t, FallTwice(p, depth)), Plug(t, p))
    ensures Fresh(p) ==> Tidy(FallTwice(p, depth)) && Exact(FallTwice(p, depth).sibling)
    decreases depth
  {
    if depth > 0 {
      FallTwiceKeeps(Build(p.side, t, p.e, p.min, p.sibling), p.up, depth - 1);
    } else {
      FallTwiceHere(t, p);
      if Fresh(p) {
        FallTwiceIsTidy(p);
      }
    }
  }

  /** Single turns at the given depths, as many as are possible there. */
  function Falls(p: Path, depths: seq<nat>): Path
    decreases |depths|
  {
    if depths == [] then p
    else Falls(if CanFall(p, depths[0]) then Fall(p, depths[0]) else p, depths[1..])
  }

  lemma {:induction false} FallsKeep(t: Tree, p: Path, depths: seq<nat>)
    requires Fresh(p)
    ensures SameContents(Plug(t, Falls(p, depths)), Plug(t, p)) && Fresh(Falls(p, depths))
    decreases |depths|
  {
    if depths != [] {
      var p' := if CanFall(p, depths[0]) then Fall(p, depths[0]) else p;
      if CanFall(p, depths[0]) {
        FallKeeps(t, p, depths[0]);
      }
      FallsKeep(t, p', depths[1..]);
    }
  }

  /** The path of the hole when balancing is over: single turns, then perhaps a double one. */
  function Settled(p: Path, depths: seq<nat>, last: int): Path {
    var q := Falls(p, depths);
    if last >= 0 && CanFallTwice(q, last) then FallTwice(q, last) else q
  }

  lemma SettledKeeps(t: Tree, p: Path, depths: seq<nat>, last: int)
    requires Fresh(p)
    ensures InOrder(Plug(t, Settled(p, depths, last))) == InOrder(Plug(t, p))
    ensures Tidy(Settled(p, depths, last))
    ensures Settled(p, depths, last).Step? ==> Exact(Settled(p, depths, last).sibling)
  {
    var q := Falls(p, depths);
    FallsKeep(t, p, depths);
    SameInOrder(Plug(t, q), Plug(t, p));
    FreshIsTidy(q);
    if last >= 0 && CanFallTwice(q, last) {
      FallTwiceKeeps(t, q, last);
      SameInOrder(Plug(t, FallTwice(q, last)), Plug(t, q));
    }
  }

  /** bfq_active_extract: remove the entity at `node`, reached by path `p`.  The update starts from what
      fills the hole, or from the node above it.  Wherever balancing turns, every cached value is again
      the true minimum and the other entities keep their order. */
  method ActiveExtract(node: Tree, p: Path, depths: seq<nat>, last: int) returns (t: Tree)
    requires node.Node? && Exact(Plug(node, p)) && Sorted(InOrder(Plug(node, p)))
    ensures Exact(t) && Sorted(InOrder(t))
    ensures exists a, b :: InOrder(Plug(node, p)) == a + [node.e] + b && InOrder(t) == a + b
  {
    PlugExact(node, p);
    SpliceIsFresh(node, p);
    var (c, h) := Splice(node, p);
    var q := Settled(h, depths, last);
    SettledKeeps(c, h, depths, last);
    if c.Node? {
      t := UpdateActiveTree(c, q);
    } else if q.Step? {
      t := UpdateActiveTree(Build(q.side, Nil, q.e, q.min, q.sibling), q.up);
    } else {
      t := Nil;
    }
    assert t == Fix(Plug(c, q));
    FixIsExact(Plug(c, q));
    FixInOrder(Plug(c, q));
    RemovedInOrder(node, p, InOrder(t));
  }

  lemma ChildrenBetween(w: seq<Entity>, l: seq<Entity>, r: seq<Entity>, z: seq<Entity>)
    ensures w + (l + r) + z == (w + l) + (r + z)
  {
  }

  lemma RemovedInOrder(node: Tree, p: Path, s: seq<Entity>)
    requires node.Node? && Sorted(InOrder(Plug(node, p))) && s == InOrder(Plug(Splice(node, p).0, Splice(node, p).1))
    ensures Sorted(s) && exists a, b :: InOrder(Plug(node, p)) == a + [node.e] + b && s == a + b
  {
    SpliceRemoves(node, p);
    PlugInOrder(node, p);
    var a, b := Before(p) + InOrder(node.left), InOrder(node.right) + After(p);
    NodeBetween(Before(p), InOrder(node.left), node.e, InOrder(node.right), After(p));
    ChildrenBetween(Before(p), InOrder(node.left), InOrder(node.right), After(p));
    RemovedSorted(a, node.e, b, InOrder(Plug(node, p)), s);
  }

  lemma RemovedSorted(a: seq<Entity>, x: Entity, b: seq<Entity>, s: seq<Entity>, r: seq<Entity>)
    requires s == a + [x] + b && r == a + b && Sorted(s)
    ensures Sorted(r)
  {
    assert forall i :: 0 <= i < |r| ==> r[i] == s[if i < |a| then i else i + 1];
  }

  // ---------- choosing the next entity ----------

  predicate Eligible(e: Entity, vtime: int) { e.start <= vtime }

  /** Some entity is eligible exactly when the cached minimum says so. */
  lemma {:induction false} MinTellsEligible(t: Tree, vtime: int)
    requires t.Node? && Exact(t)
    ensures t.min <= vtime <==> exists x :: x in InOrder(t) && Eligible(x, vtime)
  {
    if t.left.Node? {
      MinTellsEligible(t.left, vtime);
    }
    if t.right.Node? {
      MinTellsEligible(t.right, vtime);
    }
    assert t.e in InOrder(t);
    assert forall x :: x in InOrder(t) <==> x in InOrder(t.left) || x == t.e || x in InOrder(t.right);
  }

  /** `x` has the least finish time of all the eligible entities of `t`. */
  ghost predicate Best(x: Entity, t: Tree, vtime: int) {
    && x in InOrder(t) && Eligible(x, vtime)
    && forall y :: y in InOrder(t) && Eligible(y, vtime) ==> x.finish <= y.finish
  }

  ghost predicate Different(s: seq<Entity>) {
    forall i, j :: 0 <= i < j < |s| ==> s[i].finish != s[j].finish
  }

  lemma SortedParts(a: seq<Entity>, b: seq<Entity>, c: seq<Entity>)
    requires Sorted(a + b + c)
    ensures forall x, y :: x in b && y in c ==> x.finish <= y.finish
    ensures Different(a + b + c) ==> forall x, y :: x in b && y in c ==> x.finish != y.finish
  {
    var s := a + b + c;
    forall x, y | x in b && y in c
      ensures x.finish <= y.finish && (Different(s) ==> x.finish != y.finish)
    {
      var i :| 0 <= i < |b| && b[i] == x;
      var j :| 0 <= j < |c| && c[j] == y;
      assert s[|a| + i] == x && s[|a| + |b| + j] == y;
    }
  }

  /** Where the walk can end. */
  ghost predicate EndsAt(node: Tree, p: Path, vtime: int) {
    && node.Node? && node.min <= vtime && Exact(Plug(node, p)) && Sorted(InOrder(Plug(node, p)))
    && (node.left.Node? ==> node.left.min > vtime)
    && forall y :: y in Before(p) ==> !Eligible(y, vtime)
  }

  lemma WalkEndsOnBest(node: Tree, p: Path, vtime: int)
    requires EndsAt(node, p, vtime) && Eligible(node.e, vtime)
    ensures Best(node.e, Plug(node, p), vtime)
  {
    PlugExact(node, p);
    PlugInOrder(node, p);
    SortedParts(Before(p), InOrder(node), After(p));
    SortedNode(Before(p), node, After(p));
    if node.left.Node? {
      MinTellsEligible(node.left, vtime);
    }
    assert node.e in InOrder(node);
  }

  lemma WalkEndsTooEarly(node: Tree, p: Path, vtime: int, first: Entity)
    requires EndsAt(node, p, vtime) && !Eligible(node.e, vtime) && first in After(p)
    ensures exists x :: x in InOrder(node.right) && Eligible(x, vtime) && x.finish <= first.finish
    ensures Different(InOrder(Plug(node, p))) ==> !Best(first, Plug(node, p), vtime)
  {
    PlugExact(node, p);
    PlugInOrder(node, p);
    SortedParts(Before(p), InOrder(node), After(p));
    assert node.right.Node? && node.right.min <= vtime;
    MinTellsEligible(node.right, vtime);
    var x :| x in InOrder(node.right) && Eligible(x, vtime);
    assert x in InOrder(node);
  }

  /** The walk of bfq_first_active_entity from `node` on: what it has found and where it ends. */
  function Walk(node: Tree, vtime: int, found: Option<Entity>): (Option<Entity>, Tree)
    requires node.Node?
  {
    var first := if Eligible(node.e, vtime) then Some(node.e) else found;
    if node.left.Node? && node.left.min <= vtime then Walk(node.left, vtime, first)
    else if first.Some? || node.right == Nil then (first, node)
    else Walk(node.right, vtime, first)
  }

  /** bfq_first_active_entity.  `stop` is the node the walk ends on.  From any state in which the virtual
      time has reached the least start time, the walk meets only subtrees with an eligible entity, so none
      of its checks fails, and it returns an eligible entity.  The one it returns finishes first among
      the eligible ones if and, when finish times differ, only if the walk ends on an eligible node. */
  method FirstActive(t: Tree, vtime: int) returns (first: Option<Entity>, stop: Tree)
    requires Exact(t) && Sorted(InOrder(t)) && (t.Node? ==> t.min <= vtime)
    ensures t == Nil <==> first.None?
    ensures t.Node? ==> (first, stop) == Walk(t, vtime, None)
    ensures t.Node? ==> first.value in InOrder(t) && Eligible(first.value, vtime) && stop.Node?
    ensures t.Node? && Eligible(stop.e, vtime) ==> first.value == stop.e && Best(first.value, t, vtime)
    ensures t.Node? && !Eligible(stop.e, vtime) && Different(InOrder(t)) ==> !Best(first.value, t, vtime)
  {
    first, stop := None, Nil;
    var node := t;
    ghost var p := Top;
    while node.Node?
      invariant Plug(node, p) == t && (node.Node? ==> node.min <= vtime)
      invariant if t.Node? then node.Node? && Walk(node, vtime, first) == Walk(t, vtime, None) else first.None?
      invariant forall y :: y in Before(p) ==> !Eligible(y, vtime)
      invariant first.Some? ==> first.value in After(p) && Eligible(first.value, vtime)
      decreases node
    {
      PlugExact(node, p);
      PlugInOrder(node, p);
      stop := node;
      if Eligible(node.e, vtime) {
        first := Some(node.e);
      }
      assert node.min <= vtime;  // the first BUG_ON of the walk
      if node.left.Node? && node.left.min <= vtime {
        p := Step(Left, node.e, node.min, node.right, p);
        node := node.left;
      } else if first.Some? {
        if Eligible(node.e, vtime) {
          WalkEndsOnBest(node, p, vtime);
        } else {
          WalkEndsTooEarly(node, p, vtime, first.value);
        }
        return;
      } else {
        if node.left.Node? {
          MinTellsEligible(node.left, vtime);
        }
        p := Step(Right, node.e, node.min, node.left, p);
        node := node.right;
      }
    }
  }

  // ---------- when the walk finds the best ----------

  /** No node of the path is eligible. */
  predicate NoneOn(p: Path, vtime: int) {
    p.Step? ==> !Eligible(p.e, vtime) && NoneOn(p.up, vtime)
  }

  /** The way down makes no right turn below an eligible node. */
  predicate Straight(p: Path, vtime: int) {
    p.Step? ==> Straight(p.up, vtime) && (p.side == Right ==> NoneOn(p.up, vtime))
  }

  /** The last eligible node on the way down. */
  function LastOn(p: Path, vtime: int): Option<Entity> {
    if p == Top then None else if Eligible(p.e, vtime) then Some(p.e) else LastOn(p.up, vtime)
  }

  lemma {:induction false} NoneIsLast(p: Path, vtime: int)
    ensures NoneOn(p, vtime) <==> LastOn(p, vtime).None?
  {
    if p.Step? {
      NoneIsLast(p.up, vtime);
    }
  }

  lemma {:induction false} LastIsAfter(p: Path, vtime: int)
    requires LastOn(p, vtime).Some? && forall y :: y in Before(p) ==> !Eligible(y, vtime)
    ensures LastOn(p, vtime).value in After(p)
  {
    if !Eligible(p.e, vtime) {
      LastIsAfter(p.up, vtime);
    }
  }

  /** The first eligible entity in tree order is that of `node`, or one below it. */
  ghost predicate Leads(node: Tree, p: Path, vtime: int) {
    && node.Node? && Exact(Plug(node, p)) && node.min <= vtime
    && forall y :: y in Before(p) ==> !Eligible(y, vtime)
  }

  lemma LeadsUp(node: Tree, p: Path, vtime: int)
    requires p.Step? && Leads(node, p, vtime)
    ensures Leads(Build(p.side, node, p.e, p.min, p.sibling), p.up, vtime)
    ensures p.side == Right ==> !Eligible(p.e, vtime) && (p.sibling.Node? ==> p.sibling.min > vtime)
  {
    PlugExact(node, p);
    var above := Build(p.side, node, p.e, p.min, p.sibling);
    PlugExact(above, p.up);
    MinTellsEligible(node, vtime);
    MinTellsEligible(above, vtime);
    var x :| x in InOrder(node) && Eligible(x, vtime);
    assert x in InOrder(above);
    if p.side == Right && p.sibling.Node? {
      MinTellsEligible(p.sibling, vtime);
    }
  }

  /** As long as its way is straight the walk comes down to the node; otherwise it ends on the way, on a node
      that is not eligible. */
  lemma {:induction false} WalkComesDown(node: Tree, p: Path, vtime: int)
    requires Leads(node, p, vtime)
    ensures Plug(node, p).Node?
    ensures
      var w := Walk(Plug(node, p), vtime, None);
      if Straight(p, vtime) then w == Walk(node, vtime, LastOn(p, vtime))
      else w.0.Some? && w.0.value in After(p) && w.1.Node? && !Eligible(w.1.e, vtime)
    decreases p
  {
    hide Exact, InOrder;
    if p.Step? {
      if LastOn(p.up, vtime).Some? {
        LastIsAfter(p.up, vtime);
      }
      LeadsUp(node, p, vtime);
      WalkComesDown(Build(p.side, node, p.e, p.min, p.sibling), p.up, vtime);
      NoneIsLast(p.up, vtime);
    }
  }

  /** `node` holds the first eligible entity in tree order. */
  ghost predicate FirstEligible(node: Tree, p: Path, vtime: int) {
    && node.Node? && Eligible(node.e, vtime)
    && (forall y :: y in Before(p) ==> !Eligible(y, vtime))
    && (forall y :: y in InOrder(node.left) ==> !Eligible(y, vtime))
  }

  /** Told before the walk: it ends on an eligible node, and then on the first one, if and only if the way down
      to that makes no right turn below an eligible node; and what it returns finishes first among the
      eligible entities if and, when finish times differ, only if this is so. */
  lemma WalkIsStraight(node: Tree, p: Path, vtime: int)
    requires Exact(Plug(node, p)) && Sorted(InOrder(Plug(node, p))) && FirstEligible(node, p, vtime)
    ensures Plug(node, p).Node?
    ensures
      var (first, stop) := Walk(Plug(node, p), vtime, None);
      && first.Some? && stop.Node? && (Eligible(stop.e, vtime) <==> Straight(p, vtime))
      && (Straight(p, vtime) ==> first == Some(node.e) && stop == node && Best(first.value, Plug(node, p), vtime))
      && (!Straight(p, vtime) && Different(InOrder(Plug(node, p))) ==> !Best(first.value, Plug(node, p), vtime))
  {
    hide Sorted, Different;
    PlugExact(node, p);
    if node.left.Node? {
      MinTellsEligible(node.left, vtime);
    }
    MinTellsEligible(node, vtime);
    assert node.e in InOrder(node);
    WalkComesDown(node, p, vtime);
    WalkEndsOnBest(node, p, vtime);
    PlugInOrder(node, p);
    SortedParts(Before(p), InOrder(node), After(p));
  }

  /** There is such a node whenever the walk is made. */
  lemma {:induction false} FirstEligibleExists(t: Tree, p: Path, vtime: int) returns (node: Tree, q: Path)
    requires t.Node? && Exact(t) && t.min <= vtime && forall y :: y in Before(p) ==> !Eligible(y, vtime)
    ensures FirstEligible(node, q, vtime) && Plug(node, q) == Plug(t, p)
    decreases t
  {
    MinTellsEligible(t, vtime);
    if t.left.Node? && t.left.min <= vtime {
      node, q := FirstEligibleExists(t.left, Step(Left, t.e, t.min, t.right, p), vtime);
    } else {
      if t.left.Node? {
        MinTellsEligible(t.left, vtime);
      }
      if Eligible(t.e, vtime) {
        node, q := t, p;
      } else {
        node, q := FirstEligibleExists(t.right, Step(Right, t.e, t.min, t.left, p), vtime);
      }
    }
  }

  // ---------- red-black trees ----------

  /** The tree can be coloured as a red-black tree with a black root, or with a red one, and `h` black nodes
      on every way down. */
  predicate BlackRoot(t: Tree, h: nat) {
    if t == Nil then h == 0
    else
      && h > 0
      && (BlackRoot(t.left, h - 1) || RedRoot(t.left, h - 1))
      && (BlackRoot(t.right, h - 1) || RedRoot(t.right, h - 1))
  }

  predicate RedRoot(t: Tree, h: nat) { t.Node? && BlackRoot(t.left, h) && BlackRoot(t.right, h) }

  /** An insertion that turns nothing. */
  function Hung(t: Tree, x: Entity): Tree {
    if t == Nil then Node(Nil, x, x.start, Nil)
    else if t.e.finish > x.finish then Node(Hung(t.left, x), t.e, Min(t.min, x.start), t.right)
    else Node(t.left, t.e, Min(t.min, x.start), Hung(t.right, x))
  }

  // ---------- timestamps ----------

  const TWO63 := 0x8000_0000_0000_0000
  const TWO64 := 0x1_0000_0000_0000_0000

  /** bfq_gt on 64-bit timestamps: the signed value of a - b is positive. */
  predicate Gt64(a: int, b: int)
    requires 0 <= a < TWO64 && 0 <= b < TWO64
  {
    var d := if a >= b then a - b else a - b + TWO64;
    0 < d < TWO63
  }

  /** Wrapping does not matter as long as the times compared are less than 2^63 apart. */
  lemma WrappedOrder(a: int, b: int)
    requires -TWO63 < a - b < TWO63
    ensures Gt64(a % TWO64, b % TWO64) <==> a > b
  {
    var qa, qb := a / TWO64, b / TWO64;
    assert a == qa * TWO64 + a % TWO64 && b == qb * TWO64 + b % TWO64;
    assert -1 <= qa - qb <= 1;
  }
}
