/** Linking a new node into the tree, unlinking one, and walking the tree. */
module Linking {
  import opened Tree
  import opened RedBlack
  import opened Rotation
  import opened Insertion
  import opened Deletion

  /** calloc and free. The environment decides which calls, counted from 0, return NULL;
      live is what was allocated and not freed. */
  class Allocator {
    const refused: set<nat>
    var calls: nat
    ghost var live: set<object>

    constructor (refused: set<nat>)
      ensures this.refused == refused && calls == 0 && live == {}
    {
      this.refused, calls, live := refused, 0, {};
    }

    method Grant() returns (ok: bool)
      modifies this`calls
      ensures ok == (old(calls) !in refused) && calls == old(calls) + 1
    {
      ok := calls !in refused;
      calls := calls + 1;
    }

    method CreateNode(key: int, value: int, parent: Node?, left: Node?, right: Node?) returns (node: Node?)
      modifies this
      ensures calls == old(calls) + 1 && (node != null <==> old(calls) !in refused)
      ensures node == null ==> live == old(live)
      ensures node != null ==>
        && fresh(node) && live == old(live) + {node}
        && node.key == key && node.value == value && node.color == Red
        && node.parent == parent && node.left == left && node.right == right
    {
      var ok := Grant();
      node := null;
      if ok {
        node := new Node(key, value, parent, left, right);
        live := live + {node};
      }
    }

    method Free(node: object)
      requires node in live
      modifies this`live
      ensures live == old(live) - {node}
    {
      live := live - {node};
    }
  }

  // ---------- Walking ----------

  method FindTop(node: Node?, ghost w: World, ghost t: Tree) returns (top: Node?)
    requires Holds(w, Top, t)
    requires if node == null then t.Leaf? else node in w.nodes
    ensures top == Root(t)
  {
    if node == null {
      return null;
    }
    top := node;
    ghost var p, s := Locate(t, node, Top);
    HoldsPlug(w, p, s);
    Here(w, p, s);
    while top.parent != null
      invariant Holds(w, p, s) && s.Branch? && s.node == top && top.parent == PathNode(p)
      invariant Plug(p, s) == t
      decreases Depth(p)
    {
      HoldsUp(w, p, s);
      p, s := p.up, Up(p, s);
      Here(w, p, s);
      top := top.parent;
    }
  }

  method FindParent(tree: Node?, key: int, ghost w: World, ghost p: Path, ghost t: Tree)
    returns (parent: Node?, ghost q: Path)
    requires Holds(w, p, t) && tree == Root(t) && Searches(p, key)
    ensures t.Leaf? ==> parent == null && q == p
    ensures t.Branch? ==> parent == PathNode(q) && !q.Top?
    ensures Holds(w, q, Leaf) && Searches(q, key) && Plug(q, Leaf) == Plug(p, t)
    ensures parent == null <==> tree == null
    ensures parent != null ==> parent in w.nodes && (if parent.key > key then parent.left else parent.right) == null
    decreases t
  {
    q := p;
    if tree == null {
      return null, q;
    }
    Here(w, p, t);
    if tree.key > key {
      q := DownLeft(p, t);
      HoldsUp(w, q, t.left);
      if tree.left != null {
        parent, q := FindParent(tree.left, key, w, q, t.left);
      } else {
        parent := tree;
      }
    } else {
      q := DownRight(p, t);
      HoldsUp(w, q, t.right);
      if tree.right != null {
        parent, q := FindParent(tree.right, key, w, q, t.right);
      } else {
        parent := tree;
      }
    }
  }

  ghost function MaxTree(t: Tree): (m: Tree)
    requires t.Branch?
    ensures m.Branch?
  {
    if t.right.Leaf? then t else MaxTree(t.right)
  }

  method FindMin(tree: Node, ghost w: World, ghost p: Path, ghost t: Tree) returns (m: Node)
    requires Holds(w, p, t) && t.Branch? && t.node == tree
    ensures m == MinTree(t).node && m.key == MinTree(t).key && m.value == MinTree(t).value && m in w.nodes
  {
    m := tree;
    ghost var q, s := p, t;
    Here(w, q, s);
    while m.left != null
      invariant Holds(w, q, s) && s.Branch? && s.node == m && m.left == Root(s.left)
      invariant MinTree(s) == MinTree(t)
      decreases s
    {
      q, s := DownLeft(q, s), s.left;
      HoldsUp(w, q, s);
      Here(w, q, s);
      m := m.left;
    }
  }

  method FindMax(tree: Node, ghost w: World, ghost p: Path, ghost t: Tree) returns (m: Node)
    requires Holds(w, p, t) && t.Branch? && t.node == tree
    ensures m == MaxTree(t).node && m.key == MaxTree(t).key && m.value == MaxTree(t).value && m in w.nodes
  {
    m := tree;
    ghost var q, s := p, t;
    Here(w, q, s);
    while m.right != null
      invariant Holds(w, q, s) && s.Branch? && s.node == m && m.right == Root(s.right)
      invariant MaxTree(s) == MaxTree(t)
      decreases s
    {
      q, s := DownRight(q, s), s.right;
      HoldsUp(w, q, s);
      Here(w, q, s);
      m := m.right;
    }
  }

  // ---------- Linking a new node ----------

  ghost function Extended(w: World, p: Path, node: Node, key: int, value: int): World {
    World(w.nodes + {node}, Before(p) + [Pair(key, value)] + After(p))
  }

  lemma LinkedHolds(w: World, h: Heap, g: Heap, p: Path, t: Tree)
    requires Splits(w, p, Leaf) && HoldsIn(h, p, Leaf) && h.Keys == w.nodes
    requires t.Branch? && t.left.Leaf? && t.right.Leaf? && t.node !in w.nodes
    requires t.node in g && g[t.node] == Fields(PathNode(p), null, null, t.color, t.key, t.value)
    requires !p.Top? ==> p.node in g && g[p.node] == WithChild(p, h[p.node], t.node)
    requires Agree(h, g, w.nodes - {PathNode(p)})
    ensures Splits(Extended(w, p, t.node, t.key, t.value), p, t) && HoldsIn(g, p, t)
  {
    ChildReplaced(h, g, p, null, t.node);
    assert Inorder(t) == [Pair(t.key, t.value)];
  }

  method Insert(parent: Node?, node: Node, ghost w: World, ghost p: Path, ghost counter: Counter)
    returns (ghost whole: Tree)
    requires Holds(w, p, Leaf) && FitsPath(p, Black, 0) && parent == PathNode(p)
    requires node !in w.nodes && node.color == Red && node.left == null && node.right == null
    requires parent != null ==> (p.InLeft? <==> parent.key > node.key)
    modifies w.nodes + {node}, counter
    ensures Holds(Extended(w, p, node, old(node.key), old(node.value)), Top, whole)
    ensures Balanced(whole)
    ensures counter.turns <= old(counter.turns) + 2
  {
    ghost var h := Snapshot(w.nodes);
    ghost var t := Branch(Red, Leaf, node, node.key, node.value, Leaf);
    ghost var v := Extended(w, p, node, node.key, node.value);
    node.parent := parent;
    if parent == null {
      LinkedHolds(w, h, Snapshot(v.nodes), p, t);
      whole := InsertCase1(node, v, p, t, 0, counter);
      return;
    }
    OneUp(w, p, Leaf);
    if parent.key > node.key {
      parent.left := node;
    } else {
      parent.right := node;
    }
    LinkedHolds(w, h, Snapshot(v.nodes), p, t);
    whole := InsertCase2(node, v, p, t, 0, counter);
  }

  // ---------- Unlinking a node ----------

  /** The tree without t's root, which has at most a right child. */
  ghost function Reduced(w: World, p: Path, t: Tree): World
    requires t.Branch?
  {
    World(w.nodes - {t.node}, Before(p) + Inorder(t.right) + After(p))
  }

  lemma ReducedHolds(w: World, h: Heap, g: Heap, p: Path, t: Tree)
    requires Splits(w, p, t) && HoldsIn(h, p, t) && h.Keys == w.nodes && t.Branch? && t.left.Leaf?
    requires var c := Root(t.right);
      && (c != null ==> c in g && g[c] == h[c].(parent := PathNode(p)))
      && (!p.Top? ==> p.node in g && g[p.node] == WithChild(p, h[p.node], c))
      && Agree(h, g, w.nodes - {PathNode(p), t.node, c})
    ensures Splits(Reduced(w, p, t), p, t.right) && HoldsIn(g, p, t.right)
  {
    var c := Root(t.right);
    assert c != null ==> c in Nodes(t.right);
    assert !p.Top? ==> p.node in PathNodes(p);
    ChildReplaced(h, g, p, t.node, c);
    Moved(h, g, t.right, t.node, PathNode(p));
  }

  method ReplaceWithChild(node: Node, child: Node, ghost w: World, ghost p: Path, ghost t: Tree)
    requires Holds(w, p, t) && t.Branch? && t.node == node && t.left.Leaf? && !p.Top?
    requires t.right.Branch? && t.right.node == child
    modifies w.nodes - {node}
    ensures Holds(Reduced(w, p, t), p, t.right)
  {
    ghost var h := Snapshot(w.nodes);
    OneUp(w, p, t);
    assert child in Nodes(t.right) && p.node in PathNodes(p);
    child.parent := node.parent;
    if node == node.parent.left {
      node.parent.left := child;
    } else {
      node.parent.right := child;
    }
    ReducedHolds(w, h, Snapshot(w.nodes - {node}), p, t);
  }

  /** A leaf is unlinked where the repaired path says it is. */
  method Unlink(node: Node, ghost w: World, ghost p: Path, ghost t: Tree)
    requires Holds(w, p, t) && t.Branch? && t.node == node && t.left.Leaf? && t.right.Leaf?
    modifies w.nodes - {node}
    ensures Holds(Reduced(w, p, t), p, Leaf)
  {
    ghost var h := Snapshot(w.nodes);
    Here(w, p, t);
    if node.parent == null {
      ReducedHolds(w, h, Snapshot(w.nodes - {node}), p, t);
      return;
    }
    OneUp(w, p, t);
    assert p.node in PathNodes(p);
    if node == node.parent.left {
      node.parent.left := null;
    } else {
      node.parent.right := null;
    }
    ReducedHolds(w, h, Snapshot(w.nodes - {node}), p, t);
  }

  /** A node without left child: its right child, if any, is a red leaf and the node is black. */
  lemma OnlyRedLeaf(t: Tree, h: nat)
    requires RB(t, h) && t.Branch? && t.left.Leaf?
    ensures h == (if t.color.Black? then 1 else 0)
    ensures t.right.Branch? ==> t.color.Black? && t.right.color.Red? && t.right.left.Leaf? && t.right.right.Leaf?
    ensures t.right.Branch? ==> RB(t.right.(color := Black), 1)
  {
    if t.right.Branch? {
      assert RB(t.right, 0);
      assert RB(t.right.left, 0) && RB(t.right.right, 0);
    }
  }

  /** Without right child the left child, if any, is a red leaf. */
  lemma LeftIsRedLeaf(t: Tree, h: nat)
    requires RB(t, h) && t.Branch? && t.right.Leaf? && t.left.Branch?
    ensures t.color.Black? && h == 1 && t.left.color.Red? && t.left.left.Leaf? && t.left.right.Leaf?
  {
    assert RB(t.left, 0);
    assert RB(t.left.left, 0) && RB(t.left.right, 0);
  }

  method DeleteTheOnlyChild(node: Node, memory: Allocator, ghost w: World, ghost p: Path, ghost t: Tree, ghost h: nat,
                            ghost counter: Counter)
    returns (ghost whole: Tree)
    requires Holds(w, p, t) && t.Branch? && t.node == node && t.left.Leaf?
    requires RB(t, h) && FitsPath(p, t.color, h)
    requires t.right.Branch? ==> !p.Top?
    requires node in memory.live
    modifies w.nodes, memory`live, counter
    ensures Holds(Reduced(w, p, t), Top, whole) && Balanced(whole)
    ensures memory.live == old(memory.live) - {node}
    ensures counter.turns <= old(counter.turns) + 3
  {
    OnlyRedLeaf(t, h);
    Here(w, p, t);
    if node.left == null && node.right == null {
      whole := DeleteLeaf(node, w, p, t, h, counter);
      memory.Free(node);
      return;
    }
    var child := node.right;
    whole := ReplaceBlackNode(node, child, w, p, t);
    memory.Free(node);
  }

  method DeleteLeaf(node: Node, ghost w: World, ghost p: Path, ghost t: Tree, ghost h: nat, ghost counter: Counter)
    returns (ghost whole: Tree)
    requires Holds(w, p, t) && t.Branch? && t.node == node && t.left.Leaf? && t.right.Leaf?
    requires RB(t, h) && FitsPath(p, t.color, h)
    modifies w.nodes, counter
    ensures Holds(Reduced(w, p, t), Top, whole) && Balanced(whole)
    ensures counter.turns <= old(counter.turns) + 3
  {
    OnlyRedLeaf(t, h);
    ghost var q := p;
    Here(w, p, t);
    if node.color == Black {
      q := DeleteCase1(node, w, p, t, 0, counter);
    } else {
      FitsBlack(p, Red, 0);
    }
    SamePlace(w, p, q, t);
    Unlink(node, w, q, t);
    whole := Plug(q, Leaf);
    Assembled(Reduced(w, p, t), q, Leaf, 0);
  }

  method ReplaceBlackNode(node: Node, child: Node, ghost w: World, ghost p: Path, ghost t: Tree)
    returns (ghost whole: Tree)
    requires Holds(w, p, t) && t.Branch? && t.node == node && t.left.Leaf? && !p.Top?
    requires t.right.Branch? && t.right.node == child && t.color.Black?
    requires RB(t.right.(color := Black), 1) && FitsPath(p, Black, 1)
    modifies w.nodes
    ensures Holds(Reduced(w, p, t), Top, whole) && Balanced(whole)
  {
    Here(w, p, t);
    ReplaceWithChild(node, child, w, p, t);
    if node.color == Black {
      Paint(child, Black, Reduced(w, p, t), p, t.right);
    }
    whole := Plug(p, t.right.(color := Black));
    Assembled(Reduced(w, p, t), p, t.right.(color := Black), 1);
  }

  // ---------- Deleting a node anywhere ----------

  /** The tree after the data of another node was copied to t's root. */
  ghost function Copied(w: World, p: Path, t: Tree, key: int, value: int): World
    requires t.Branch?
  {
    World(w.nodes, Before(p) + Inorder(t.(key := key, value := value)) + After(p))
  }

  lemma CopiedHolds(w: World, h: Heap, g: Heap, p: Path, t: Tree, key: int, value: int)
    requires Splits(w, p, t) && HoldsIn(h, p, t) && t.Branch?
    requires t.node in g && g[t.node] == h[t.node].(key := key, value := value)
    requires Agree(h, g, w.nodes - {t.node})
    ensures Splits(Copied(w, p, t, key, value), p, t.(key := key, value := value))
    ensures HoldsIn(g, p, t.(key := key, value := value))
  {
    PathUnmoved(h, g, p, t.node);
    Unmoved(h, g, t.left, t.node);
    Unmoved(h, g, t.right, t.node);
  }

  method CopyData(node: Node, source: Node, ghost w: World, ghost p: Path, ghost t: Tree)
    requires Holds(w, p, t) && t.Branch? && t.node == node
    modifies w.nodes
    ensures Holds(Copied(w, p, t, old(source.key), old(source.value)), p,
      t.(key := old(source.key), value := old(source.value)))
  {
    ghost var h := Snapshot(w.nodes);
    node.value := source.value;
    node.key := source.key;
    CopiedHolds(w, h, Snapshot(w.nodes), p, t, node.key, node.value);
  }

  /** The tree with t's root taken out: one of its nodes is gone, and its entry in the listing. */
  ghost predicate Removes(v: World, w: World, p: Path, t: Tree, victim: Node)
    requires t.Branch?
  {
    && victim in w.nodes && v.nodes == w.nodes - {victim}
    && v.listing == Before(p) + Inorder(t.left) + Inorder(t.right) + After(p)
  }

  /** Where the copied-from node hangs once its data is at t's root: it has no left
      child, and taking it out of the listing takes out the old root's entry. */
  ghost predicate IsVictim(w: World, p: Path, t: Tree, q: Path, s: Tree)
    requires t.Branch? && s.Branch?
    reads w.nodes
  {
    && Holds(w, q, s) && s.left.Leaf? && (s.right.Branch? ==> !q.Top?)
    && RB(s, BlackHeight(s)) && FitsPath(q, s.color, BlackHeight(s))
    && Before(q) + Inorder(s.right) + After(q) == Before(p) + Inorder(t.left) + Inorder(t.right) + After(p)
  }

  ghost function CopyOf(t: Tree, m: Tree): Tree
    requires t.Branch? && m.Branch?
  {
    t.(key := m.key, value := m.value)
  }

  lemma SuccessorIsVictim(w: World, p: Path, t: Tree) returns (q: Path, s: Tree)
    requires t.Branch? && t.right.Branch? && Balanced(Plug(p, t))
    requires Holds(w, p, CopyOf(t, MinTree(t.right)))
    ensures s == MinTree(t.right) && IsVictim(w, p, t, q, s)
  {
    s := MinTree(t.right);
    var u := CopyOf(t, s);
    var base := DownRight(p, u);
    q := MinPath(base, t.right);
    MinIsPart(base, t.right);
    HoldsUp(w, base, t.right);
    HoldsPlug(w, base, t.right);
    HoldsPlug(w, q, s);
    CopyKeepsBalance(p, t, s);
    BalancedPlug(q, s);
    SuccessorListing(w, p, t, q, s);
  }

  lemma CopyKeepsBalance(p: Path, t: Tree, m: Tree)
    requires t.Branch? && m.Branch? && Balanced(Plug(p, t))
    ensures Balanced(Plug(p, CopyOf(t, m)))
  {
    BalancedPlug(p, t);
    BalancedPlug(p, CopyOf(t, m));
  }

  lemma SuccessorListing(w: World, p: Path, t: Tree, q: Path, s: Tree)
    requires t.Branch? && s.Branch? && s.left.Leaf?
    requires Splits(w, p, CopyOf(t, s)) && Splits(w, q, s)
    requires Before(q) == Before(p) + Inorder(t.left) + [Pair(s.key, s.value)]
    ensures Before(q) + Inorder(s.right) + After(q) == Before(p) + Inorder(t.left) + Inorder(t.right) + After(p)
  {
    var x := [Pair(s.key, s.value)];
    assert Inorder(s) == x + Inorder(s.right);
    TakeOut(Before(p), Inorder(t.left), x, Inorder(t.right), After(p), Inorder(s.right), After(q));
  }

  lemma TakeOut(a: seq<Pair>, b: seq<Pair>, x: seq<Pair>, c: seq<Pair>, d: seq<Pair>, e: seq<Pair>, f: seq<Pair>)
    requires a + (b + x + c) + d == (a + b + x) + (x + e) + f
    ensures (a + b + x) + e + f == a + b + c + d
  {
    Assoc4(a, b, x, c, d);
    Assoc3(a + b + x, x, e, f);
    Cancel(a + b + x, c + d, x + e + f);
    Assoc3(a + b, x, e, f);
    assert (a + b + x) + e + f == (a + b) + (c + d);
  }

  lemma Assoc3(a: seq<Pair>, x: seq<Pair>, e: seq<Pair>, f: seq<Pair>)
    ensures a + (x + e) + f == a + (x + e + f)
    ensures (a + x) + e + f == a + (x + e + f)
  {
  }

  lemma Assoc4(a: seq<Pair>, b: seq<Pair>, x: seq<Pair>, c: seq<Pair>, d: seq<Pair>)
    ensures a + (b + x + c) + d == (a + b + x) + (c + d)
    ensures (a + b) + (c + d) == a + b + c + d
  {
  }

  lemma Cancel(a: seq<Pair>, b: seq<Pair>, c: seq<Pair>)
    requires a + b == a + c
    ensures b == c
  {
    assert b == (a + b)[|a|..];
    assert c == (a + c)[|a|..];
  }

  lemma PredecessorIsVictim(w: World, p: Path, t: Tree) returns (q: Path, s: Tree)
    requires t.Branch? && t.right.Leaf? && t.left.Branch? && Balanced(Plug(p, t))
    requires Holds(w, p, CopyOf(t, MaxTree(t.left)))
    ensures s == t.left == MaxTree(t.left) && IsVictim(w, p, t, q, s)
  {
    BalancedPlug(p, t);
    LeftIsRedLeaf(t, BlackHeight(t));
    s := t.left;
    var u := CopyOf(t, s);
    q := DownLeft(p, u);
    HoldsUp(w, q, s);
    CopyKeepsBalance(p, t, s);
    BalancedPlug(q, s);
    PredecessorListing(p, t);
  }

  lemma PredecessorListing(p: Path, t: Tree)
    requires t.Branch? && t.right.Leaf? && t.left.Branch? && t.left.left.Leaf? && t.left.right.Leaf?
    ensures var q := DownLeft(p, CopyOf(t, t.left));
      Before(q) + Inorder(t.left.right) + After(q) == Before(p) + Inorder(t.left) + Inorder(t.right) + After(p)
  {
    var s := t.left;
    assert Inorder(s) == [Pair(s.key, s.value)];
    Assoc4(Before(p), Inorder(s), [], [], After(p));
  }

  /** The first part of a deletion: the successor's or predecessor's data moves to the
      node, and m is the node to unlink. */
  method ChooseVictim(node: Node, ghost w: World, ghost p: Path, ghost t: Tree)
    returns (m: Node, ghost u: World, ghost q: Path, ghost s: Tree)
    requires Holds(w, p, t) && t.Branch? && t.node == node && Balanced(Plug(p, t))
    modifies w.nodes
    ensures s.Branch? && s.node == m && IsVictim(u, p, t, q, s) && u.nodes == w.nodes && m in w.nodes
    ensures m == node ==> t.left.Leaf? && t.right.Leaf? && q == p && s == t
    ensures m == node <==> old(node.left) == null && old(node.right) == null
  {
    Here(w, p, t);
    if node.right != null {
      m, u, q, s := CopySuccessor(node, w, p, t);
    } else if node.left != null {
      m, u, q, s := CopyPredecessor(node, w, p, t);
    } else {
      m, u, q, s := node, w, p, t;
      CopyData(node, m, w, p, t);
      BalancedPlug(p, t);
    }
  }

  method CopySuccessor(node: Node, ghost w: World, ghost p: Path, ghost t: Tree)
    returns (m: Node, ghost u: World, ghost q: Path, ghost s: Tree)
    requires Holds(w, p, t) && t.Branch? && t.node == node && Balanced(Plug(p, t)) && t.right.Branch?
    modifies w.nodes
    ensures s.Branch? && s.node == m && IsVictim(u, p, t, q, s) && u.nodes == w.nodes && m in w.nodes && m != node
  {
    Here(w, p, t);
    ghost var r := DownRight(p, t);
    HoldsUp(w, r, t.right);
    m := FindMin(node.right, w, r, t.right);
    u := Copied(w, p, t, m.key, m.value);
    CopyData(node, m, w, p, t);
    q, s := SuccessorIsVictim(u, p, t);
  }

  method CopyPredecessor(node: Node, ghost w: World, ghost p: Path, ghost t: Tree)
    returns (m: Node, ghost u: World, ghost q: Path, ghost s: Tree)
    requires Holds(w, p, t) && t.Branch? && t.node == node && Balanced(Plug(p, t)) && t.right.Leaf? && t.left.Branch?
    modifies w.nodes
    ensures s.Branch? && s.node == m && IsVictim(u, p, t, q, s) && u.nodes == w.nodes && m in w.nodes && m != node
  {
    Here(w, p, t);
    ghost var r := DownLeft(p, t);
    HoldsUp(w, r, t.left);
    m := FindMax(node.left, w, r, t.left);
    u := Copied(w, p, t, m.key, m.value);
    CopyData(node, m, w, p, t);
    q, s := PredecessorIsVictim(u, p, t);
  }

  method DeleteNode(node: Node, memory: Allocator, ghost w: World, ghost p: Path, ghost t: Tree, ghost counter: Counter)
    returns (top: Node?, ghost v: World, ghost whole: Tree, ghost victim: Node)
    requires Holds(w, p, t) && t.Branch? && t.node == node && Balanced(Plug(p, t))
    requires w.nodes <= memory.live
    modifies w.nodes, memory`live, counter
    ensures Holds(v, Top, whole) && Balanced(whole) && top == Root(whole)
    ensures Removes(v, w, p, t, victim) && memory.live == old(memory.live) - {victim}
    ensures counter.turns <= old(counter.turns) + 3
  {
    Here(w, p, t);
    var tmp: Node? := if node.right != null || node.left != null then node else node.parent;
    var m: Node;
    ghost var u, q, s;
    m, u, q, s := ChooseVictim(node, w, p, t);
    victim, v := m, Reduced(u, q, s);
    whole := DeleteTheOnlyChild(m, memory, u, q, s, BlackHeight(s), counter);
    top := FindTop(tmp, v, whole);
  }
}
