/** Repairing the red-black rules after a red node was linked into the tree. */
module Insertion {
  import opened Tree
  import opened RedBlack
  import opened Rotation

  /** A subtree and a path that fit make a whole red-black tree. */
  lemma Assembled(w: World, p: Path, t: Tree, h: nat)
    requires Holds(w, p, t) && RB(t, h) && FitsPath(p, ColorOf(t), h)
    ensures Holds(w, Top, Plug(p, t)) && Balanced(Plug(p, t))
  {
    HoldsPlug(w, p, t);
    BlackHeightUnique(t, h);
    BalancedPlug(p, t);
  }

  /** The only possible breach of the rules is that t's red root has a red parent. */
  ghost predicate RedAt(p: Path, t: Tree, h: nat) {
    t.Branch? && t.color.Red? && RB(t, h) && FitsPath(p, Black, h)
  }

  method InsertCase1(node: Node, ghost w: World, ghost p: Path, ghost t: Tree, ghost h: nat, ghost counter: Counter)
    returns (ghost whole: Tree)
    requires Holds(w, p, t) && RedAt(p, t, h) && t.node == node
    modifies w.nodes, counter
    ensures Holds(w, Top, whole) && Balanced(whole)
    ensures counter.turns <= old(counter.turns) + 2
    decreases Depth(p), 5
  {
    Here(w, p, t);
    if node.parent == null {
      Paint(node, Black, w, p, t);
      whole := t.(color := Black);
      Assembled(w, Top, whole, h + 1);
    } else {
      whole := InsertCase2(node, w, p, t, h, counter);
    }
  }

  method InsertCase2(node: Node, ghost w: World, ghost p: Path, ghost t: Tree, ghost h: nat, ghost counter: Counter)
    returns (ghost whole: Tree)
    requires Holds(w, p, t) && RedAt(p, t, h) && t.node == node && !p.Top?
    modifies w.nodes, counter
    ensures Holds(w, Top, whole) && Balanced(whole)
    ensures counter.turns <= old(counter.turns) + 2
    decreases Depth(p), 4
  {
    OneUp(w, p, t);
    if node.parent.color == Black {
      whole := Plug(p, t);
      Assembled(w, p, t, h);
    } else {
      whole := InsertCase3(node, w, p, t, h, counter);
    }
  }

  /** A red root with a red parent: the grandparent exists and is black. */
  ghost predicate RedRed(p: Path, t: Tree, h: nat) {
    RedAt(p, t, h) && !p.Top? && p.color.Red?
  }

  lemma GrandparentIsBlack(p: Path, t: Tree, h: nat)
    requires RedRed(p, t, h)
    ensures !p.up.Top? && p.up.color.Black? && RB(Sibling(p.up), h) && FitsPath(p.up.up, Black, h + 1)
    ensures RB(Sibling(p), h) && !IsRed(Sibling(p))
  {
    assert FitsPath(p.up, p.color, h);
  }

  function FindGrandparent(node: Node): Node?
    requires node.parent != null
    reads node, node.parent
  {
    node.parent.parent
  }

  function FindUncle(node: Node): Node?
    requires node.parent != null && node.parent.parent != null
    reads node, node.parent, if node.parent == null then null else node.parent.parent
  {
    var grandpa := FindGrandparent(node);
    if node.parent == grandpa.left then grandpa.right else grandpa.left
  }

  lemma UncleIsSibling(w: World, p: Path, t: Tree)
    requires Holds(w, p, t) && t.Branch? && !p.Top? && !p.up.Top?
    ensures t.node.parent == p.node && p.node.parent == p.up.node
    ensures (p.InLeft? <==> t.node == p.node.left) && (p.InRight? <==> t.node == p.node.right)
    ensures (p.up.InLeft? <==> p.node == p.up.node.left) && (p.up.InRight? <==> p.node == p.up.node.right)
    ensures FindUncle(t.node) == Root(Sibling(p.up))
    ensures Sibling(p.up).Branch? ==> Sibling(p.up).node.color == Sibling(p.up).color
  {
    OneUp(w, p, t);
    HoldsUp(w, p, t);
    OneUp(w, p.up, Up(p, t));
    HoldsAcross(w, p.up, Up(p, t));
  }

  /** The subtree of the grandparent. */
  ghost function Up2(p: Path, t: Tree): Tree
    requires !p.Top? && !p.up.Top?
  {
    Up(p.up, Up(p, t))
  }

  lemma HoldsUp2(w: World, p: Path, t: Tree)
    requires !p.Top? && !p.up.Top?
    ensures Holds(w, p, t) <==> Holds(w, p.up.up, Up2(p, t))
  {
    HoldsUp(w, p, t);
    HoldsUp(w, p.up, Up(p, t));
  }

  /** The path after the parent and the uncle became black and the grandparent red. */
  ghost function UncleRepainted(p: Path): Path
    requires !p.Top? && !p.up.Top? && Sibling(p.up).Branch?
  {
    p.(color := Black, up := WithSibling(p.up, Black).(color := Red))
  }

  lemma RedMovesUp(p: Path, t: Tree, h: nat)
    requires RedRed(p, t, h) && !p.up.Top? && IsRed(Sibling(p.up))
    ensures var q := UncleRepainted(p);
      q.up.up == p.up.up && RedAt(q.up.up, Up2(q, t), h + 1) && Depth(q.up.up) < Depth(p)
  {
    GrandparentIsBlack(p, t, h);
  }

  method InsertCase3(node: Node, ghost w: World, ghost p: Path, ghost t: Tree, ghost h: nat, ghost counter: Counter)
    returns (ghost whole: Tree)
    requires Holds(w, p, t) && RedRed(p, t, h) && t.node == node
    modifies w.nodes, counter
    ensures Holds(w, Top, whole) && Balanced(whole)
    ensures counter.turns <= old(counter.turns) + 2
    decreases Depth(p), 3
  {
    GrandparentIsBlack(p, t, h);
    UncleIsSibling(w, p, t);
    var uncle := FindUncle(node);
    if uncle != null && uncle.color == Red {
      whole := RepaintAndGoUp(node, uncle, w, p, t, h, counter);
    } else {
      whole := InsertCase4(node, w, p, t, h, counter);
    }
  }

  method RepaintAndGoUp(node: Node, uncle: Node, ghost w: World, ghost p: Path, ghost t: Tree, ghost h: nat,
                        ghost counter: Counter)
    returns (ghost whole: Tree)
    requires Holds(w, p, t) && RedRed(p, t, h) && t.node == node && !p.up.Top?
    requires IsRed(Sibling(p.up)) && Sibling(p.up).node == uncle
    modifies w.nodes, counter
    ensures Holds(w, Top, whole) && Balanced(whole)
    ensures counter.turns <= old(counter.turns) + 2
    decreases Depth(p), 2
  {
    hide Holds;
    var grandpa: Node;
    ghost var u;
    grandpa, u := RepaintUncle(node, uncle, w, p, t, h);
    whole := InsertCase1(grandpa, w, p.up.up, u, h + 1, counter);
  }

  method RepaintUncle(node: Node, uncle: Node, ghost w: World, ghost p: Path, ghost t: Tree, ghost h: nat)
    returns (grandpa: Node, ghost u: Tree)
    requires Holds(w, p, t) && RedRed(p, t, h) && t.node == node && !p.up.Top?
    requires IsRed(Sibling(p.up)) && Sibling(p.up).node == uncle
    modifies w.nodes
    ensures Holds(w, p.up.up, u) && RedAt(p.up.up, u, h + 1) && u.node == grandpa && Depth(p.up.up) < Depth(p)
  {
    u := Up2(UncleRepainted(p), t);
    PaintParent(node, Black, w, p, t);
    ghost var p1 := p.(color := Black);
    PaintUncle(uncle, Black, w, p1, t);
    ghost var p2 := p1.(up := WithSibling(p1.up, Black));
    UncleIsSibling(w, p2, t);
    grandpa := FindGrandparent(node);
    PaintGrandparent(node, Red, w, p2, t);
    HoldsUp2(w, UncleRepainted(p), t);
    RedMovesUp(p, t, h);
  }

  method InsertCase4(node: Node, ghost w: World, ghost p: Path, ghost t: Tree, ghost h: nat, ghost counter: Counter)
    returns (ghost whole: Tree)
    requires Holds(w, p, t) && RedRed(p, t, h) && t.node == node
    requires !p.up.Top? && !IsRed(Sibling(p.up))
    modifies w.nodes, counter
    ensures Holds(w, Top, whole) && Balanced(whole)
    ensures counter.turns <= old(counter.turns) + 2
  {
    UncleIsSibling(w, p, t);
    var grandpa := FindGrandparent(node);
    if node == node.parent.right && node.parent == grandpa.left {
      ghost var q, u := TurnParentLeft(node, w, p, t, h, counter);
      whole := InsertCase5(node.left, w, q, u, h, counter);
    } else if node == node.parent.left && node.parent == grandpa.right {
      ghost var q, u := TurnParentRight(node, w, p, t, h, counter);
      whole := InsertCase5(node.right, w, q, u, h, counter);
    } else {
      whole := InsertCase5(node, w, p, t, h, counter);
    }
  }

  method TurnParentLeft(node: Node, ghost w: World, ghost p: Path, ghost t: Tree, ghost h: nat, ghost counter: Counter)
    returns (ghost q: Path, ghost u: Tree)
    requires Holds(w, p, t) && RedRed(p, t, h) && t.node == node && p.InRight?
    modifies w.nodes, counter
    ensures Holds(w, q, u) && RedRed(q, u, h) && u.node == node.left
    ensures q.InLeft? && q.up == p.up
    ensures counter.turns == old(counter.turns) + 1
  {
    OneUp(w, p, t);
    HoldsUp(w, p, t);
    LeftRotationAt(node.parent, w, p.up, Up(p, t), counter);
    ghost var r := RotatedLeft(Up(p, t));
    q, u := DownLeft(p.up, r), r.left;
    Here(w, p.up, r);
    HoldsUp(w, q, u);
  }

  method TurnParentRight(node: Node, ghost w: World, ghost p: Path, ghost t: Tree, ghost h: nat, ghost counter: Counter)
    returns (ghost q: Path, ghost u: Tree)
    requires Holds(w, p, t) && RedRed(p, t, h) && t.node == node && p.InLeft?
    modifies w.nodes, counter
    ensures Holds(w, q, u) && RedRed(q, u, h) && u.node == node.right
    ensures q.InRight? && q.up == p.up
    ensures counter.turns == old(counter.turns) + 1
  {
    OneUp(w, p, t);
    HoldsUp(w, p, t);
    RightRotationAt(node.parent, w, p.up, Up(p, t), counter);
    ghost var r := RotatedRight(Up(p, t));
    q, u := DownRight(p.up, r), r.right;
    Here(w, p.up, r);
    HoldsUp(w, q, u);
  }

  /** The path after the parent became black and the grandparent red. */
  ghost function Repainted(p: Path): Path
    requires !p.Top? && !p.up.Top?
  {
    p.(color := Black, up := p.up.(color := Red))
  }

  /** The grandparent's subtree after it was turned away from t's side. */
  ghost function GrandparentTurned(p: Path, t: Tree): Tree
    requires t.Branch? && !p.Top? && !p.up.Top? && (p.InLeft? <==> p.up.InLeft?)
  {
    if p.InLeft? then RotatedRight(Up2(p, t)) else RotatedLeft(Up2(p, t))
  }

  lemma TurnRepairs(p: Path, t: Tree, h: nat)
    requires RedRed(p, t, h) && !p.up.Top? && !IsRed(Sibling(p.up)) && (p.InLeft? <==> p.up.InLeft?)
    ensures var r := GrandparentTurned(Repainted(p), t);
      RB(r, h + 1) && FitsPath(p.up.up, ColorOf(r), h + 1)
  {
    GrandparentIsBlack(p, t, h);
  }

  lemma TurnAssembles(w: World, p: Path, t: Tree, h: nat)
    requires RedRed(p, t, h) && !p.up.Top? && !IsRed(Sibling(p.up)) && (p.InLeft? <==> p.up.InLeft?)
    requires Holds(w, p.up.up, GrandparentTurned(Repainted(p), t))
    ensures var whole := Plug(p.up.up, GrandparentTurned(Repainted(p), t));
      Holds(w, Top, whole) && Balanced(whole)
  {
    TurnRepairs(p, t, h);
    Assembled(w, p.up.up, GrandparentTurned(Repainted(p), t), h + 1);
  }

  method InsertCase5(node: Node, ghost w: World, ghost p: Path, ghost t: Tree, ghost h: nat, ghost counter: Counter)
    returns (ghost whole: Tree)
    requires Holds(w, p, t) && RedRed(p, t, h) && t.node == node
    requires !p.up.Top? && !IsRed(Sibling(p.up)) && (p.InLeft? <==> p.up.InLeft?)
    modifies w.nodes, counter
    ensures Holds(w, Top, whole) && Balanced(whole)
    ensures counter.turns == old(counter.turns) + 1
  {
    var grandpa := RepaintParents(node, w, p, t);
    TurnGrandparent(node, grandpa, w, Repainted(p), t, counter);
    whole := Plug(p.up.up, GrandparentTurned(Repainted(p), t));
    TurnAssembles(w, p, t, h);
  }

  method TurnGrandparent(node: Node, grandpa: Node, ghost w: World, ghost p: Path, ghost t: Tree,
                         ghost counter: Counter)
    requires t.Branch? && t.node == node && !p.Top? && !p.up.Top? && p.up.node == grandpa
    requires Holds(w, p.up.up, Up2(p, t)) && (p.InLeft? <==> p.up.InLeft?)
    requires node.parent != null && (p.InLeft? <==> node == node.parent.left)
    requires p.up.InLeft? <==> node.parent == grandpa.left
    modifies w.nodes, counter
    ensures Holds(w, p.up.up, GrandparentTurned(p, t))
    ensures counter.turns == old(counter.turns) + 1
  {
    if node == node.parent.left && node.parent == grandpa.left {
      RightRotationAt(grandpa, w, p.up.up, Up2(p, t), counter);
    } else {
      LeftRotationAt(grandpa, w, p.up.up, Up2(p, t), counter);
    }
  }

  method RepaintParents(node: Node, ghost w: World, ghost p: Path, ghost t: Tree) returns (grandpa: Node)
    requires Holds(w, p, t) && t.Branch? && t.node == node && !p.Top? && !p.up.Top?
    modifies w.nodes
    ensures Holds(w, p.up.up, Up2(Repainted(p), t)) && grandpa == p.up.node
    ensures node.parent == p.node && node.parent.parent == grandpa
    ensures p.InLeft? <==> node == node.parent.left
    ensures p.up.InLeft? <==> node.parent == grandpa.left
  {
    UncleIsSibling(w, p, t);
    grandpa := FindGrandparent(node);
    PaintParent(node, Black, w, p, t);
    PaintGrandparent(node, Red, w, p.(color := Black), t);
    UncleIsSibling(w, Repainted(p), t);
    HoldsUp2(w, Repainted(p), t);
  }
}
