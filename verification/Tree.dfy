/** The node record of the red-black map, and the ghost trees and paths that
    describe what a linked structure of such nodes looks like. */
module Tree {

  datatype Color = Black | Red

  datatype Pair = Pair(key: int, value: int)

  class Node {
    var parent: Node?
    var left: Node?
    var right: Node?
    var color: Color
    var key: int
    var value: int

    constructor (key: int, value: int, parent: Node?, left: Node?, right: Node?)
      ensures this.key == key && this.value == value && color == Red
      ensures this.parent == parent && this.left == left && this.right == right
    {
      this.key, this.value, color := key, value, Red;
      this.parent, this.left, this.right := parent, left, right;
    }
  }

  /** A snapshot of a linked subtree: every node with the data it holds. */
  datatype Tree =
    | Leaf
    | Branch(color: Color, left: Tree, node: Node, key: int, value: int, right: Tree)

  /** The rest of a tree around one subtree, from that subtree up to the root. */
  datatype Path =
    | Top
    | InLeft(color: Color, node: Node, key: int, value: int, right: Tree, up: Path)
    | InRight(color: Color, left: Tree, node: Node, key: int, value: int, up: Path)

  // ---------- Shape ----------

  ghost function Root(t: Tree): Node? {
    if t.Leaf? then null else t.node
  }

  ghost function Nodes(t: Tree): set<Node> {
    match t
    case Leaf => {}
    case Branch(_, l, n, _, _, r) => Nodes(l) + {n} + Nodes(r)
  }

  ghost predicate Distinct(t: Tree) {
    t.Branch? ==>
      && t.node !in Nodes(t.left) && t.node !in Nodes(t.right)
      && Nodes(t.left) !! Nodes(t.right)
      && Distinct(t.left) && Distinct(t.right)
  }

  ghost function PathNode(p: Path): Node? {
    if p.Top? then null else p.node
  }

  /** The subtree hanging on the other side of the path's first node. */
  ghost function Sibling(p: Path): Tree
    requires !p.Top?
  {
    if p.InLeft? then p.right else p.left
  }

  ghost function PathNodes(p: Path): set<Node> {
    if p.Top? then {} else {p.node} + Nodes(Sibling(p)) + PathNodes(p.up)
  }

  ghost predicate DistinctPath(p: Path) {
    !p.Top? ==>
      && p.node !in Nodes(Sibling(p)) && p.node !in PathNodes(p.up)
      && Nodes(Sibling(p)) !! PathNodes(p.up)
      && Distinct(Sibling(p)) && DistinctPath(p.up)
  }

  ghost function Depth(p: Path): nat {
    if p.Top? then 0 else 1 + Depth(p.up)
  }

  /** The subtree one level up, with t put back under the first node of p. */
  ghost function Up(p: Path, t: Tree): Tree
    requires !p.Top?
  {
    if p.InLeft? then Branch(p.color, t, p.node, p.key, p.value, p.right)
    else Branch(p.color, p.left, p.node, p.key, p.value, t)
  }

  /** The paths to the two children of t's root. */
  ghost function DownLeft(p: Path, t: Tree): Path
    requires t.Branch?
  {
    InLeft(t.color, t.node, t.key, t.value, t.right, p)
  }

  ghost function DownRight(p: Path, t: Tree): Path
    requires t.Branch?
  {
    InRight(t.color, t.left, t.node, t.key, t.value, p)
  }

  ghost function Plug(p: Path, t: Tree): Tree {
    if p.Top? then t else Plug(p.up, Up(p, t))
  }

  // ---------- Contents ----------

  ghost function Inorder(t: Tree): seq<Pair> {
    match t
    case Leaf => []
    case Branch(_, l, _, k, v, r) => Inorder(l) + [Pair(k, v)] + Inorder(r)
  }

  ghost function Before(p: Path): seq<Pair> {
    match p
    case Top => []
    case InLeft(_, _, _, _, _, up) => Before(up)
    case InRight(_, l, _, k, v, up) => Before(up) + Inorder(l) + [Pair(k, v)]
  }

  ghost function After(p: Path): seq<Pair> {
    match p
    case Top => []
    case InLeft(_, _, k, v, r, up) => [Pair(k, v)] + Inorder(r) + After(up)
    case InRight(_, _, _, _, _, up) => After(up)
  }

  lemma {:induction false} PlugInorder(p: Path, t: Tree)
    ensures Inorder(Plug(p, t)) == Before(p) + Inorder(t) + After(p)
    decreases Depth(p)
  {
    if p.Top? {
    } else {
      PlugInorder(p.up, Up(p, t));
      UpListing(p, Inorder(t));
    }
  }

  /** Moving the focus one level up keeps the listing. */
  lemma UpListing(p: Path, m: seq<Pair>)
    requires !p.Top?
    ensures var x := [Pair(p.key, p.value)];
      Before(p) + m + After(p)
      == Before(p.up) + (if p.InLeft? then m + x + Inorder(p.right) else Inorder(p.left) + x + m) + After(p.up)
  {
    var x := [Pair(p.key, p.value)];
    if p.InLeft? {
      Associate(Before(p), m, x, Inorder(p.right), After(p.up));
    } else {
      Associate(Before(p.up), Inorder(p.left), x, m, After(p));
    }
  }

  lemma Associate(a: seq<Pair>, b: seq<Pair>, c: seq<Pair>, d: seq<Pair>, e: seq<Pair>)
    ensures a + b + (c + d + e) == a + (b + c + d) + e
    ensures (a + b + c) + d + e == a + (b + c + d) + e
  {
  }

  lemma {:induction false} PlugNodes(p: Path, t: Tree)
    ensures Nodes(Plug(p, t)) == PathNodes(p) + Nodes(t)
    decreases Depth(p)
  {
    if p.Top? {
    } else {
      PlugNodes(p.up, Up(p, t));
    }
  }

  // ---------- The heap ----------

  datatype Fields = Fields(parent: Node?, left: Node?, right: Node?, color: Color, key: int, value: int)

  /** What a set of nodes stores at some moment. */
  type Heap = map<Node, Fields>

  ghost function Snapshot(nodes: set<Node>): Heap
    reads nodes
  {
    map n | n in nodes :: Fields(n.parent, n.left, n.right, n.color, n.key, n.value)
  }

  /** The linked nodes below parent are exactly the tree t. */
  ghost predicate Linked(h: Heap, t: Tree, parent: Node?) {
    t.Branch? ==>
      && t.node in h
      && h[t.node] == Fields(parent, Root(t.left), Root(t.right), t.color, t.key, t.value)
      && Linked(h, t.left, t.node) && Linked(h, t.right, t.node)
  }

  /** The linked nodes around the subtree rooted at child are exactly the path p. */
  ghost predicate LinkedPath(h: Heap, p: Path, child: Node?) {
    !p.Top? ==>
      && p.node in h
      && h[p.node] == (if p.InLeft? then Fields(PathNode(p.up), child, Root(p.right), p.color, p.key, p.value)
                       else Fields(PathNode(p.up), Root(p.left), child, p.color, p.key, p.value))
      && Linked(h, Sibling(p), p.node)
      && LinkedPath(h, p.up, p.node)
  }

  ghost predicate Disjoint(p: Path, t: Tree) {
    Distinct(t) && DistinctPath(p) && Nodes(t) !! PathNodes(p)
  }

  /** The nodes of a tree and the bindings it lists. */
  datatype World = World(nodes: set<Node>, listing: seq<Pair>)

  /** p and t are two parts of one tree with just the nodes and the listing of w. */
  ghost predicate Splits(w: World, p: Path, t: Tree) {
    && Disjoint(p, t)
    && w.nodes == PathNodes(p) + Nodes(t)
    && w.listing == Before(p) + Inorder(t) + After(p)
  }

  ghost predicate HoldsIn(h: Heap, p: Path, t: Tree) {
    Linked(h, t, PathNode(p)) && LinkedPath(h, p, Root(t))
  }

  /** The nodes of w hold the tree Plug(p, t), looked at from the subtree t. */
  ghost predicate Holds(w: World, p: Path, t: Tree)
    reads w.nodes
  {
    Splits(w, p, t) && HoldsIn(Snapshot(w.nodes), p, t)
  }

  lemma SplitsUp(w: World, p: Path, t: Tree)
    requires !p.Top?
    ensures Splits(w, p, t) <==> Splits(w, p.up, Up(p, t))
  {
    var u := Up(p, t);
    assert Nodes(u) == Nodes(t) + {p.node} + Nodes(Sibling(p));
    assert PathNodes(p) == {p.node} + Nodes(Sibling(p)) + PathNodes(p.up);
    assert Disjoint(p, t) <==> Disjoint(p.up, u);
    assert PathNodes(p) + Nodes(t) == PathNodes(p.up) + Nodes(u);
    UpListing(p, Inorder(t));
  }

  /** Looking one level up, or from any other place in the tree, says the same about the heap. */
  lemma HoldsUp(w: World, p: Path, t: Tree)
    requires !p.Top?
    ensures Holds(w, p, t) <==> Holds(w, p.up, Up(p, t))
  {
    SplitsUp(w, p, t);
  }

  lemma {:induction false} HoldsPlug(w: World, p: Path, t: Tree)
    ensures Holds(w, p, t) <==> Holds(w, Top, Plug(p, t))
    decreases Depth(p)
  {
    if p.Top? {
    } else {
      HoldsUp(w, p, t);
      HoldsPlug(w, p.up, Up(p, t));
    }
  }

  /** The path to the other child of p's first node. */
  ghost function Across(p: Path, t: Tree): Path
    requires !p.Top?
  {
    if p.InLeft? then InRight(p.color, t, p.node, p.key, p.value, p.up)
    else InLeft(p.color, p.node, p.key, p.value, t, p.up)
  }

  lemma HoldsAcross(w: World, p: Path, t: Tree)
    requires !p.Top?
    ensures Holds(w, p, t) <==> Holds(w, Across(p, t), Sibling(p))
  {
    HoldsUp(w, p, t);
    HoldsUp(w, Across(p, t), Sibling(p));
  }

  /** The fields a program finds at the node looked at. */
  lemma Here(w: World, p: Path, t: Tree)
    requires Holds(w, p, t) && t.Branch?
    ensures t.node in w.nodes
    ensures t.node.parent == PathNode(p)
    ensures t.node.left == Root(t.left) && t.node.right == Root(t.right)
    ensures t.node.color == t.color && t.node.key == t.key && t.node.value == t.value
  {
  }

  /** The fields it finds one level up, and which child it is. */
  lemma OneUp(w: World, p: Path, t: Tree)
    requires Holds(w, p, t) && !p.Top?
    ensures p.node in w.nodes
    ensures p.node.parent == PathNode(p.up)
    ensures p.node.color == p.color && p.node.key == p.key && p.node.value == p.value
    ensures p.node.left == (if p.InLeft? then Root(t) else Root(p.left))
    ensures p.node.right == (if p.InLeft? then Root(p.right) else Root(t))
    ensures t.Branch? ==> t.node.parent == p.node
    ensures t.Branch? ==> (p.InLeft? <==> t.node == p.node.left)
    ensures t.Branch? ==> (p.InRight? <==> t.node == p.node.right)
  {
    var s := Sibling(p);
    assert s.Branch? ==> s.node in Nodes(s);
    assert t.Branch? ==> t.node in Nodes(t);
  }

  ghost predicate Agree(h: Heap, g: Heap, nodes: set<Node>) {
    forall n :: n in nodes && n in h ==> n in g && g[n] == h[n]
  }

  /** A subtree keeps its links when at most the parent of its root is assigned. */
  lemma {:induction false} Moved(h: Heap, g: Heap, t: Tree, parent: Node?, newParent: Node?)
    requires Linked(h, t, parent) && Distinct(t)
    requires Agree(h, g, Nodes(t) - {Root(t)})
    requires t.Branch? ==> t.node in g && g[t.node] == h[t.node].(parent := newParent)
    ensures Linked(g, t, newParent)
  {
    if t.Branch? {
      Unmoved(h, g, t.left, t.node);
      Unmoved(h, g, t.right, t.node);
    }
  }

  lemma {:induction false} Unmoved(h: Heap, g: Heap, t: Tree, parent: Node?)
    requires Linked(h, t, parent) && Agree(h, g, Nodes(t))
    ensures Linked(g, t, parent)
  {
    if t.Leaf? {
    } else {
      Unmoved(h, g, t.left, t.node);
      Unmoved(h, g, t.right, t.node);
    }
  }

  ghost function WithChild(p: Path, f: Fields, child: Node?): Fields {
    if p.InLeft? then f.(left := child) else f.(right := child)
  }

  /** A path keeps its links when at most the child of its first node is assigned. */
  lemma {:induction false} ChildReplaced(h: Heap, g: Heap, p: Path, child: Node?, newChild: Node?)
    requires LinkedPath(h, p, child) && DistinctPath(p)
    requires Agree(h, g, PathNodes(p) - {PathNode(p)})
    requires !p.Top? ==> p.node in g && g[p.node] == WithChild(p, h[p.node], newChild)
    ensures LinkedPath(g, p, newChild)
    decreases Depth(p)
  {
    if p.Top? {
    } else {
      Unmoved(h, g, Sibling(p), p.node);
      if !p.up.Top? {
        assert p.up.node in PathNodes(p.up);
      }
      ChildReplaced(h, g, p.up, p.node, p.node);
    }
  }

  lemma PathUnmoved(h: Heap, g: Heap, p: Path, child: Node?)
    requires LinkedPath(h, p, child) && DistinctPath(p) && Agree(h, g, PathNodes(p))
    ensures LinkedPath(g, p, child)
  {
    ChildReplaced(h, g, p, child, child);
  }

  /** Every node of a tree is the root of some subtree of it. */
  lemma {:induction false} Locate(t: Tree, n: Node, base: Path) returns (p: Path, s: Tree)
    requires n in Nodes(t)
    ensures s.Branch? && s.node == n && Plug(p, s) == Plug(base, t)
    decreases t
  {
    if t.node == n {
      p, s := base, t;
    } else if n in Nodes(t.left) {
      p, s := Locate(t.left, n, DownLeft(base, t));
    } else {
      p, s := Locate(t.right, n, DownRight(base, t));
    }
  }
}
