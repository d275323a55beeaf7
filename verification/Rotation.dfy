/** The two rotations and the recolouring of one node. A method that works inside
    a tree takes ghost arguments saying where its node is: t is the subtree below
    the node, p the path from it to the root. */
module Rotation {
  import opened Tree

  /** How many rotations were made; only the rotations count. */
  class Counter {
    ghost var turns: nat

    ghost constructor ()
      ensures turns == 0
    {
      turns := 0;
    }
  }

  ghost function RotatedLeft(t: Tree): Tree
    requires t.Branch? && t.right.Branch?
  {
    var r := t.right;
    Branch(r.color, Branch(t.color, t.left, t.node, t.key, t.value, r.left), r.node, r.key, r.value, r.right)
  }

  ghost function RotatedRight(t: Tree): Tree
    requires t.Branch? && t.left.Branch?
  {
    var l := t.left;
    Branch(l.color, l.left, l.node, l.key, l.value, Branch(t.color, l.right, t.node, t.key, t.value, t.right))
  }

  /** The rotations undo each other and keep nodes and listing. */
  lemma RotationKeeps(t: Tree)
    requires t.Branch? && t.right.Branch?
    ensures RotatedRight(RotatedLeft(t)) == t
    ensures Inorder(RotatedLeft(t)) == Inorder(t)
    ensures Nodes(RotatedLeft(t)) == Nodes(t)
    ensures Distinct(RotatedLeft(t)) <==> Distinct(t)
  {
    var r := t.right;
    var l := RotatedLeft(t).left;
    Reassociate(Inorder(t.left), Pair(t.key, t.value), Inorder(r.left), Pair(r.key, r.value), Inorder(r.right));
    assert Nodes(l) == Nodes(t.left) + {t.node} + Nodes(r.left);
    assert Nodes(r) == Nodes(r.left) + {r.node} + Nodes(r.right);
  }

  lemma Reassociate(a: seq<Pair>, x: Pair, b: seq<Pair>, y: Pair, c: seq<Pair>)
    ensures (a + [x] + b) + [y] + c == a + [x] + (b + [y] + c)
  {
  }

  /** What a left rotation at node assigns, told by the pointers alone. */
  ghost predicate LeftRotated(h: Heap, g: Heap, node: Node, pivot: Node, inner: Node?, above: Node?) {
    && {node, pivot} <= g.Keys && {node, pivot} <= h.Keys
    && g[pivot] == h[pivot].(parent := above, left := node)
    && g[node] == h[node].(parent := pivot, right := inner)
    && (inner != null ==> inner in h && inner in g && g[inner] == h[inner].(parent := node))
    && (above != null ==>
          && above in h && above in g
          && g[above] == if h[above].left == node then h[above].(left := pivot) else h[above].(right := pivot))
    && Agree(h, g, h.Keys - {node, pivot, inner, above})
  }

  /** The four nodes a left rotation assigns are different from each other and from the rest. */
  lemma LeftRotationNodes(p: Path, t: Tree)
    requires Disjoint(p, t) && t.Branch? && t.right.Branch?
    ensures var (node, pivot, inner, above) := (t.node, t.right.node, Root(t.right.left), PathNode(p));
      && node != pivot && inner !in {node, pivot} && above !in {node, pivot}
      && (inner == null || inner != above)
      && {node, pivot} !! Nodes(t.left) && {node, pivot} !! Nodes(t.right.left) && {node, pivot} !! Nodes(t.right.right)
      && inner !in Nodes(t.left) && inner !in Nodes(t.right.right) && inner !in PathNodes(p)
      && above !in Nodes(t)
      && (inner != null ==> inner in Nodes(t)) && (above != null ==> above in PathNodes(p))
      && Nodes(t) == Nodes(t.left) + {node, pivot} + Nodes(t.right.left) + Nodes(t.right.right)
  {
    var r := t.right;
    assert Distinct(r) && Nodes(r) == Nodes(r.left) + {r.node} + Nodes(r.right);
    assert r.left.Branch? ==> r.left.node in Nodes(r.left);
  }

  lemma LeftRotatedHolds(w: World, h: Heap, g: Heap, p: Path, t: Tree)
    requires Splits(w, p, t) && HoldsIn(h, p, t) && t.Branch? && t.right.Branch?
    requires LeftRotated(h, g, t.node, t.right.node, Root(t.right.left), PathNode(p))
    requires h.Keys == w.nodes
    ensures Splits(w, p, RotatedLeft(t)) && HoldsIn(g, p, RotatedLeft(t))
  {
    RotationKeeps(t);
    LeftRotationNodes(p, t);
    var r := t.right;
    assert Linked(h, r, t.node) && Distinct(r);
    ChildReplaced(h, g, p, t.node, r.node);
    Moved(h, g, r.left, r.node, t.node);
    Unmoved(h, g, t.left, t.node);
    Unmoved(h, g, r.right, r.node);
  }

  method LeftRotation(node: Node, ghost nodes: set<Node>, ghost counter: Counter)
    requires node.right != null
    requires {node, node.right} <= nodes && (node.parent != null ==> node.parent in nodes)
    requires node.right.left != null ==> node.right.left in nodes
    requires node != node.right && node.parent !in {node, node.right} && node.right.left !in {node, node.right}
    requires node.parent == null || node.parent != node.right.left
    modifies nodes, counter
    ensures LeftRotated(old(Snapshot(nodes)), Snapshot(nodes), node, old(node.right), old(node.right.left),
      old(node.parent))
    ensures counter.turns == old(counter.turns) + 1
  {
    var pivot := node.right;
    pivot.parent := node.parent;
    if node.parent != null {
      if node.parent.left == node {
        node.parent.left := pivot;
      } else {
        node.parent.right := pivot;
      }
    }
    node.right := pivot.left;
    if pivot.left != null {
      pivot.left.parent := node;
    }
    node.parent := pivot;
    pivot.left := node;
    counter.turns := counter.turns + 1;
  }

  method LeftRotationAt(node: Node, ghost w: World, ghost p: Path, ghost t: Tree, ghost counter: Counter)
    requires Holds(w, p, t) && t.Branch? && t.node == node && t.right.Branch?
    modifies w.nodes, counter
    ensures Holds(w, p, RotatedLeft(t))
    ensures counter.turns == old(counter.turns) + 1
  {
    ghost var h := Snapshot(w.nodes);
    LeftRotationNodes(p, t);
    assert Linked(h, t.right, node);
    LeftRotation(node, w.nodes, counter);
    LeftRotatedHolds(w, h, Snapshot(w.nodes), p, t);
  }

  /** What a right rotation at node assigns, told by the pointers alone. */
  ghost predicate RightRotated(h: Heap, g: Heap, node: Node, pivot: Node, inner: Node?, above: Node?) {
    && {node, pivot} <= g.Keys && {node, pivot} <= h.Keys
    && g[pivot] == h[pivot].(parent := above, right := node)
    && g[node] == h[node].(parent := pivot, left := inner)
    && (inner != null ==> inner in h && inner in g && g[inner] == h[inner].(parent := node))
    && (above != null ==>
          && above in h && above in g
          && g[above] == if h[above].left == node then h[above].(left := pivot) else h[above].(right := pivot))
    && Agree(h, g, h.Keys - {node, pivot, inner, above})
  }

  /** The four nodes a right rotation assigns are different from each other and from the rest. */
  lemma RightRotationNodes(p: Path, t: Tree)
    requires Disjoint(p, t) && t.Branch? && t.left.Branch?
    ensures var (node, pivot, inner, above) := (t.node, t.left.node, Root(t.left.right), PathNode(p));
      && node != pivot && inner !in {node, pivot} && above !in {node, pivot}
      && (inner == null || inner != above)
      && {node, pivot} !! Nodes(t.right) && {node, pivot} !! Nodes(t.left.right) && {node, pivot} !! Nodes(t.left.left)
      && inner !in Nodes(t.right) && inner !in Nodes(t.left.left) && inner !in PathNodes(p)
      && above !in Nodes(t)
      && (inner != null ==> inner in Nodes(t)) && (above != null ==> above in PathNodes(p))
      && Nodes(t) == Nodes(t.right) + {node, pivot} + Nodes(t.left.right) + Nodes(t.left.left)
  {
    var l := t.left;
    assert Distinct(l) && Nodes(l) == Nodes(l.right) + {l.node} + Nodes(l.left);
    assert l.right.Branch? ==> l.right.node in Nodes(l.right);
  }

  lemma RightRotatedHolds(w: World, h: Heap, g: Heap, p: Path, t: Tree)
    requires Splits(w, p, t) && HoldsIn(h, p, t) && t.Branch? && t.left.Branch?
    requires RightRotated(h, g, t.node, t.left.node, Root(t.left.right), PathNode(p))
    requires h.Keys == w.nodes
    ensures Splits(w, p, RotatedRight(t)) && HoldsIn(g, p, RotatedRight(t))
  {
    RotationKeeps(RotatedRight(t));
    RightRotationNodes(p, t);
    var l := t.left;
    assert Linked(h, l, t.node) && Distinct(l);
    ChildReplaced(h, g, p, t.node, l.node);
    Moved(h, g, l.right, l.node, t.node);
    Unmoved(h, g, t.right, t.node);
    Unmoved(h, g, l.left, l.node);
  }

  method RightRotation(node: Node, ghost nodes: set<Node>, ghost counter: Counter)
    requires node.left != null
    requires {node, node.left} <= nodes && (node.parent != null ==> node.parent in nodes)
    requires node.left.right != null ==> node.left.right in nodes
    requires node != node.left && node.parent !in {node, node.left} && node.left.right !in {node, node.left}
    requires node.parent == null || node.parent != node.left.right
    modifies nodes, counter
    ensures RightRotated(old(Snapshot(nodes)), Snapshot(nodes), node, old(node.left), old(node.left.right),
      old(node.parent))
    ensures counter.turns == old(counter.turns) + 1
  {
    var pivot := node.left;
    pivot.parent := node.parent;
    if node.parent != null {
      if node.parent.left == node {
        node.parent.left := pivot;
      } else {
        node.parent.right := pivot;
      }
    }
    node.left := pivot.right;
    if pivot.right != null {
      pivot.right.parent := node;
    }
    node.parent := pivot;
    pivot.right := node;
    counter.turns := counter.turns + 1;
  }

  method RightRotationAt(node: Node, ghost w: World, ghost p: Path, ghost t: Tree, ghost counter: Counter)
    requires Holds(w, p, t) && t.Branch? && t.node == node && t.left.Branch?
    modifies w.nodes, counter
    ensures Holds(w, p, RotatedRight(t))
    ensures counter.turns == old(counter.turns) + 1
  {
    ghost var h := Snapshot(w.nodes);
    RightRotationNodes(p, t);
    assert Linked(h, t.left, node);
    RightRotation(node, w.nodes, counter);
    RightRotatedHolds(w, h, Snapshot(w.nodes), p, t);
  }

  lemma PaintedHolds(w: World, h: Heap, g: Heap, p: Path, t: Tree, color: Color)
    requires Splits(w, p, t) && HoldsIn(h, p, t) && t.Branch?
    requires t.node in g && g[t.node] == h[t.node].(color := color)
    requires Agree(h, g, w.nodes - {t.node})
    ensures Splits(w, p, t.(color := color)) && HoldsIn(g, p, t.(color := color))
  {
    PathUnmoved(h, g, p, t.node);
    Unmoved(h, g, t.left, t.node);
    Unmoved(h, g, t.right, t.node);
  }

  /** Colouring the node looked at, its parent, sibling, grandparent and uncle. */
  method Paint(node: Node, color: Color, ghost w: World, ghost p: Path, ghost t: Tree)
    requires Holds(w, p, t) && t.Branch? && t.node == node
    modifies w.nodes
    ensures Holds(w, p, t.(color := color))
  {
    ghost var h := Snapshot(w.nodes);
    node.color := color;
    PaintedHolds(w, h, Snapshot(w.nodes), p, t, color);
  }

  method PaintParent(node: Node, color: Color, ghost w: World, ghost p: Path, ghost t: Tree)
    requires Holds(w, p, t) && t.Branch? && t.node == node && !p.Top?
    modifies w.nodes
    ensures Holds(w, p.(color := color), t)
  {
    OneUp(w, p, t);
    HoldsUp(w, p, t);
    Paint(node.parent, color, w, p.up, Up(p, t));
    HoldsUp(w, p.(color := color), t);
  }

  /** The path with the colour of its first node, the sibling and the rest replaced. */
  ghost function Rebuilt(p: Path, color: Color, sibling: Tree, up: Path): Path
    requires !p.Top?
  {
    if p.InLeft? then InLeft(color, p.node, p.key, p.value, sibling, up)
    else InRight(color, sibling, p.node, p.key, p.value, up)
  }

  ghost function SetSibling(p: Path, s: Tree): Path
    requires !p.Top?
  {
    Rebuilt(p, p.color, s, p.up)
  }

  ghost function WithSibling(p: Path, color: Color): Path
    requires !p.Top? && Sibling(p).Branch?
  {
    SetSibling(p, Sibling(p).(color := color))
  }

  /** Working on the sibling instead, and coming back. */
  lemma ThroughSibling(w: World, p: Path, t: Tree, s: Tree)
    requires !p.Top?
    ensures Holds(w, Across(p, t), s) <==> Holds(w, SetSibling(p, s), t)
  {
    HoldsAcross(w, SetSibling(p, s), t);
  }

  method PaintSibling(brother: Node, color: Color, ghost w: World, ghost p: Path, ghost t: Tree)
    requires Holds(w, p, t) && !p.Top? && Sibling(p).Branch? && Sibling(p).node == brother
    modifies w.nodes
    ensures Holds(w, WithSibling(p, color), t)
  {
    HoldsAcross(w, p, t);
    Paint(brother, color, w, Across(p, t), Sibling(p));
    ThroughSibling(w, p, t, Sibling(p).(color := color));
  }

  method PaintGrandparent(node: Node, color: Color, ghost w: World, ghost p: Path, ghost t: Tree)
    requires Holds(w, p, t) && t.Branch? && t.node == node && !p.Top? && !p.up.Top?
    modifies w.nodes
    ensures Holds(w, p.(up := p.up.(color := color)), t)
  {
    OneUp(w, p, t);
    HoldsUp(w, p, t);
    PaintParent(node.parent, color, w, p.up, Up(p, t));
    HoldsUp(w, p.(up := p.up.(color := color)), t);
  }

  method PaintUncle(uncle: Node, color: Color, ghost w: World, ghost p: Path, ghost t: Tree)
    requires Holds(w, p, t) && !p.Top? && !p.up.Top? && Sibling(p.up).Branch? && Sibling(p.up).node == uncle
    modifies w.nodes
    ensures Holds(w, p.(up := WithSibling(p.up, color)), t)
  {
    HoldsUp(w, p, t);
    PaintSibling(uncle, color, w, p.up, Up(p, t));
    HoldsUp(w, p.(up := WithSibling(p.up, color)), t);
  }

  method PaintLeftChild(node: Node, color: Color, ghost w: World, ghost p: Path, ghost t: Tree)
    requires Holds(w, p, t) && t.Branch? && t.node == node && t.left.Branch?
    modifies w.nodes
    ensures Holds(w, p, t.(left := t.left.(color := color)))
  {
    ghost var q := DownLeft(p, t);
    Here(w, p, t);
    HoldsUp(w, q, t.left);
    Paint(node.left, color, w, q, t.left);
    HoldsUp(w, q, t.left.(color := color));
  }

  method PaintRightChild(node: Node, color: Color, ghost w: World, ghost p: Path, ghost t: Tree)
    requires Holds(w, p, t) && t.Branch? && t.node == node && t.right.Branch?
    modifies w.nodes
    ensures Holds(w, p, t.(right := t.right.(color := color)))
  {
    ghost var q := DownRight(p, t);
    Here(w, p, t);
    HoldsUp(w, q, t.right);
    Paint(node.right, color, w, q, t.right);
    HoldsUp(w, q, t.right.(color := color));
  }
}
