/** Repairing the black heights before a black leaf is unlinked. The subtree t that
    is one black node short stays as it is; only the path around it changes. */
module Deletion {
  import opened Tree
  import opened RedBlack
  import opened Rotation

  /** The path would fit a black subtree one black node higher than h. */
  ghost predicate Short(p: Path, h: nat) {
    FitsPath(p, Black, h + 1)
  }

  /** q surrounds the same subtree as p, at the same place of the listing, and fits height h. */
  ghost predicate Settled(q: Path, p: Path, h: nat) {
    FitsPath(q, Black, h) && Before(q) == Before(p)
  }

  lemma SamePlace(w: World, p: Path, q: Path, t: Tree)
    requires Splits(w, p, t) && Splits(w, q, t)
    requires Before(q) == Before(p) || After(q) == After(p)
    ensures Before(q) == Before(p) && After(q) == After(p)
  {
    var n := |Inorder(t)|;
    assert |Before(q)| == |Before(p)|;
    assert w.listing[..|Before(p)|] == Before(p) && w.listing[..|Before(q)|] == Before(q);
    assert w.listing[|Before(p)| + n..] == After(p) && w.listing[|Before(q)| + n..] == After(q);
  }

  function FindBrother(node: Node?): Node?
    reads node, if node == null then null else node.parent
  {
    if node == null || node.parent == null then null
    else if node == node.parent.left then node.parent.right
    else node.parent.left
  }

  /** The missing black node makes sure that the brother is there. */
  lemma BrotherExists(w: World, p: Path, t: Tree, h: nat)
    requires Holds(w, p, t) && t.Branch? && Short(p, h) && !p.Top?
    ensures Sibling(p).Branch? && t.node.parent == p.node && p.node.color == p.color
    ensures (p.InLeft? <==> t.node == p.node.left) && (p.InRight? <==> t.node == p.node.right)
    ensures var s := Sibling(p);
      FindBrother(t.node) == s.node && s.node.color == s.color
      && s.node.left == Root(s.left) && s.node.right == Root(s.right)
      && (s.left.Branch? ==> s.left.node.color == s.left.color)
      && (s.right.Branch? ==> s.right.node.color == s.right.color)
  {
    OneUp(w, p, t);
    HoldsAcross(w, p, t);
    var s := Sibling(p);
    Here(w, Across(p, t), s);
    if s.left.Branch? {
      HoldsUp(w, DownLeft(Across(p, t), s), s.left);
      Here(w, DownLeft(Across(p, t), s), s.left);
    }
    if s.right.Branch? {
      HoldsUp(w, DownRight(Across(p, t), s), s.right);
      Here(w, DownRight(Across(p, t), s), s.right);
    }
  }

  predicate IsBlack(node: Node?)
    reads node
  {
    node == null || node.color == Black
  }

  /** How far up the repair can still go: under a red parent it does not. */
  ghost function Climb(p: Path): nat {
    if p.Top? || p.color.Red? then 0 else Depth(p)
  }

  method DeleteCase1(node: Node, ghost w: World, ghost p: Path, ghost t: Tree, ghost h: nat, ghost counter: Counter)
    returns (ghost q: Path)
    requires Holds(w, p, t) && t.Branch? && t.node == node && Short(p, h)
    modifies w.nodes, counter
    ensures Holds(w, q, t) && Settled(q, p, h)
    ensures counter.turns <= old(counter.turns) + 3
    decreases Climb(p), 3
  {
    Here(w, p, t);
    if node.parent != null {
      q := DeleteCase2(node, w, p, t, h, counter);
    } else {
      q := p;
    }
  }

  method DeleteCase2(node: Node, ghost w: World, ghost p: Path, ghost t: Tree, ghost h: nat, ghost counter: Counter)
    returns (ghost q: Path)
    requires Holds(w, p, t) && t.Branch? && t.node == node && Short(p, h) && !p.Top?
    modifies w.nodes, counter
    ensures Holds(w, q, t) && Settled(q, p, h)
    ensures counter.turns <= old(counter.turns) + 3
    decreases Climb(p), 2
  {
    BrotherExists(w, p, t, h);
    var brother := FindBrother(node);
    if brother.color == Red {
      ghost var r := TurnRedBrother(node, brother, w, p, t, h, counter);
      q := DeleteCase3(node, w, r, t, h, counter);
    } else {
      q := DeleteCase3(node, w, p, t, h, counter);
    }
  }

  /** The path after the parent became red, its red brother black, and the parent turned towards t. */
  ghost function RedBrotherTurned(p: Path): Path
    requires !p.Top? && Sibling(p).Branch?
  {
    var s := Sibling(p);
    if p.InLeft? then
      InLeft(Red, p.node, p.key, p.value, s.left, InLeft(Black, s.node, s.key, s.value, s.right, p.up))
    else
      InRight(Red, s.right, p.node, p.key, p.value, InRight(Black, s.left, s.node, s.key, s.value, p.up))
  }

  lemma RedBrotherFits(p: Path, h: nat)
    requires Short(p, h) && !p.Top? && IsRed(Sibling(p))
    ensures var q := RedBrotherTurned(p);
      Short(q, h) && Sibling(q).Branch? && !IsRed(Sibling(q)) && p.color.Black?
      && Before(q) == (if p.InLeft? then Before(p) else Before(q))
      && After(q) == (if p.InLeft? then After(q) else After(p))
  {
  }

  method TurnRedBrother(node: Node, brother: Node, ghost w: World, ghost p: Path, ghost t: Tree, ghost h: nat,
                        ghost counter: Counter)
    returns (ghost q: Path)
    requires Holds(w, p, t) && t.Branch? && t.node == node && Short(p, h) && !p.Top?
    requires IsRed(Sibling(p)) && Sibling(p).node == brother
    modifies w.nodes, counter
    ensures Holds(w, q, t) && Short(q, h) && !q.Top? && q.color.Red? && !IsRed(Sibling(q)) && Before(q) == Before(p)
    ensures p.color.Black?
    ensures counter.turns == old(counter.turns) + 1
  {
    q := RedBrotherTurned(p);
    RedBrotherFits(p, h);
    PaintParent(node, Red, w, p, t);
    ghost var p1 := p.(color := Red);
    PaintSibling(brother, Black, w, p1, t);
    ghost var p2 := WithSibling(p1, Black);
    OneUp(w, p2, t);
    HoldsUp(w, p2, t);
    if node == node.parent.left {
      LeftRotationAt(node.parent, w, p.up, Up(p2, t), counter);
    } else {
      RightRotationAt(node.parent, w, p.up, Up(p2, t), counter);
    }
    HoldsUp(w, q, t);
    HoldsUp(w, q.up, Up(q, t));
    SamePlace(w, p, q, t);
  }

  method DeleteCase3(node: Node, ghost w: World, ghost p: Path, ghost t: Tree, ghost h: nat, ghost counter: Counter)
    returns (ghost q: Path)
    requires Holds(w, p, t) && t.Branch? && t.node == node && Short(p, h) && !p.Top? && !IsRed(Sibling(p))
    modifies w.nodes, counter
    ensures Holds(w, q, t) && Settled(q, p, h)
    ensures counter.turns <= old(counter.turns) + (if p.color.Red? then 2 else 3)
    decreases Climb(p), 1
  {
    BrotherExists(w, p, t, h);
    var brother := FindBrother(node);
    if node.parent.color == Black && brother.color == Black && IsBlack(brother.left) && IsBlack(brother.right) {
      q := RepaintAndGoUp(node, brother, w, p, t, h, counter);
    } else {
      q := DeleteCase4(node, w, p, t, h, counter);
    }
  }

  lemma RedBrotherIsLower(p: Path, h: nat)
    requires Short(p, h) && !p.Top?
    requires var s := Sibling(p); s.Branch? && s.color.Black? && !IsRed(s.left) && !IsRed(s.right)
    ensures RB(Sibling(p).(color := Red), h)
    ensures p.color.Black? ==> Short(p.up, h + 1)
    ensures p.color.Red? ==> FitsPath(Rebuilt(p, Black, Sibling(p).(color := Red), p.up), Black, h)
  {
    FitsBlack(p.up, p.color, if p.color.Black? then h + 2 else h + 1);
  }

  lemma FitsBlack(p: Path, c: Color, h: nat)
    requires FitsPath(p, c, h)
    ensures FitsPath(p, Black, h)
  {
  }

  lemma SettledBelow(p: Path, r: Path, h: nat)
    requires !p.Top? && p.color.Black? && Sibling(p).Branch? && RB(Sibling(p).(color := Red), h)
    requires Settled(r, p.up, h + 1)
    ensures Settled(Rebuilt(p, Black, Sibling(p).(color := Red), r), p, h)
  {
  }

  method RepaintAndGoUp(node: Node, brother: Node, ghost w: World, ghost p: Path, ghost t: Tree, ghost h: nat,
                        ghost counter: Counter)
    returns (ghost q: Path)
    requires Holds(w, p, t) && t.Branch? && t.node == node && Short(p, h) && !p.Top?
    requires var s := Sibling(p); s.Branch? && s.node == brother && s.color.Black? && !IsRed(s.left) && !IsRed(s.right)
    requires p.color.Black?
    modifies w.nodes, counter
    ensures Holds(w, q, t) && Settled(q, p, h)
    ensures counter.turns <= old(counter.turns) + 3
    decreases Climb(p), 0
  {
    hide Holds, Short, Settled, FitsPath;
    RedBrotherIsLower(p, h);
    PaintSibling(brother, Red, w, p, t);
    ghost var p1 := WithSibling(p, Red);
    OneUp(w, p1, t);
    HoldsUp(w, p1, t);
    ghost var r;
    r := DeleteCase1(node.parent, w, p.up, Up(p1, t), h + 1, counter);
    q := Rebuilt(p, Black, Sibling(p).(color := Red), r);
    SettledBelow(p, r, h);
    HoldsUp(w, q, t);
  }

  /** From here on the brother is black and a repaint of the brother alone is not enough. */
  method DeleteCase4(node: Node, ghost w: World, ghost p: Path, ghost t: Tree, ghost h: nat, ghost counter: Counter)
    returns (ghost q: Path)
    requires Holds(w, p, t) && t.Branch? && t.node == node && Short(p, h) && !p.Top? && !IsRed(Sibling(p))
    requires Sibling(p).Branch? && (p.color.Red? || IsRed(Sibling(p).left) || IsRed(Sibling(p).right))
    modifies w.nodes, counter
    ensures Holds(w, q, t) && Settled(q, p, h)
    ensures counter.turns <= old(counter.turns) + 2
  {
    BrotherExists(w, p, t, h);
    var brother := FindBrother(node);
    if node.parent.color == Red && brother.color == Black && IsBlack(brother.left) && IsBlack(brother.right) {
      RedBrotherIsLower(p, h);
      PaintSibling(brother, Red, w, p, t);
      PaintParent(node, Black, w, WithSibling(p, Red), t);
      q := Rebuilt(p, Black, Sibling(p).(color := Red), p.up);
    } else {
      q := DeleteCase5(node, w, p, t, h, counter);
    }
  }

  /** The brother's child on the side away from t. */
  ghost function FarNephew(p: Path): Tree
    requires !p.Top? && Sibling(p).Branch?
  {
    if p.InLeft? then Sibling(p).right else Sibling(p).left
  }

  method DeleteCase5(node: Node, ghost w: World, ghost p: Path, ghost t: Tree, ghost h: nat, ghost counter: Counter)
    returns (ghost q: Path)
    requires Holds(w, p, t) && t.Branch? && t.node == node && Short(p, h) && !p.Top? && !IsRed(Sibling(p))
    requires Sibling(p).Branch? && (IsRed(Sibling(p).left) || IsRed(Sibling(p).right))
    modifies w.nodes, counter
    ensures Holds(w, q, t) && Settled(q, p, h)
    ensures counter.turns <= old(counter.turns) + 2
  {
    BrotherExists(w, p, t, h);
    var brother := FindBrother(node);
    ghost var r := p;
    if brother.color == Black {
      if node == node.parent.left && IsBlack(brother.right) && brother.left != null && brother.left.color == Red {
        r := TurnBrotherRight(brother, w, p, t, h, counter);
      } else if node == node.parent.right && IsBlack(brother.left)
                && brother.right != null && brother.right.color == Red {
        r := TurnBrotherLeft(brother, w, p, t, h, counter);
      }
    }
    q := DeleteCase6(node, w, r, t, h, counter);
  }

  /** The sibling after the near nephew became black, the brother red and the brother turned away from t. */
  ghost function BrotherTurned(p: Path): Path
    requires !p.Top? && Sibling(p).Branch?
    requires (p.InLeft? && Sibling(p).left.Branch?) || (p.InRight? && Sibling(p).right.Branch?)
  {
    var s := Sibling(p).(color := Red);
    SetSibling(p, if p.InLeft? then RotatedRight(s.(left := s.left.(color := Black)))
                  else RotatedLeft(s.(right := s.right.(color := Black))))
  }

  lemma TurnedBrotherFits(p: Path, h: nat)
    requires Short(p, h) && !p.Top?
    requires Sibling(p).Branch? && Sibling(p).color.Black?
    requires if p.InLeft? then IsRed(p.right.left) && !IsRed(p.right.right)
             else IsRed(p.left.right) && !IsRed(p.left.left)
    ensures var q := BrotherTurned(p);
      Short(q, h) && Sibling(q).Branch? && !IsRed(Sibling(q)) && IsRed(FarNephew(q))
  {
    var s, r := Sibling(p), Sibling(BrotherTurned(p));
    var near := if p.InLeft? then s.left else s.right;
    assert RB(near, h) && RB(near.left, h) && RB(near.right, h) && RB(r.left, h) && RB(r.right, h);
    assert RB(r, h + 1);
  }

  method TurnBrotherRight(brother: Node, ghost w: World, ghost p: Path, ghost t: Tree, ghost h: nat,
                          ghost counter: Counter) returns (ghost q: Path)
    requires Holds(w, p, t) && Short(p, h) && p.InLeft?
    requires var s := p.right; s.Branch? && s.node == brother && s.color.Black? && IsRed(s.left) && !IsRed(s.right)
    modifies w.nodes, counter
    ensures Holds(w, q, t) && Short(q, h) && !q.Top? && Sibling(q).Branch?
    ensures q.InLeft? && !IsRed(Sibling(q)) && IsRed(FarNephew(q)) && Before(q) == Before(p)
    ensures counter.turns == old(counter.turns) + 1
  {
    TurnedBrotherFits(p, h);
    HoldsAcross(w, p, t);
    ghost var a, s := Across(p, t), p.right;
    Paint(brother, Red, w, a, s);
    ghost var s1 := s.(color := Red);
    PaintLeftChild(brother, Black, w, a, s1);
    ghost var s2 := s1.(left := s1.left.(color := Black));
    RightRotationAt(brother, w, a, s2, counter);
    q := BrotherTurned(p);
    ThroughSibling(w, p, t, RotatedRight(s2));
  }

  method TurnBrotherLeft(brother: Node, ghost w: World, ghost p: Path, ghost t: Tree, ghost h: nat,
                         ghost counter: Counter) returns (ghost q: Path)
    requires Holds(w, p, t) && Short(p, h) && p.InRight?
    requires var s := p.left; s.Branch? && s.node == brother && s.color.Black? && IsRed(s.right) && !IsRed(s.left)
    modifies w.nodes, counter
    ensures Holds(w, q, t) && Short(q, h) && !q.Top? && Sibling(q).Branch?
    ensures q.InRight? && !IsRed(Sibling(q)) && IsRed(FarNephew(q)) && Before(q) == Before(p)
    ensures counter.turns == old(counter.turns) + 1
  {
    TurnedBrotherFits(p, h);
    HoldsAcross(w, p, t);
    ghost var a, s := Across(p, t), p.left;
    Paint(brother, Red, w, a, s);
    ghost var s1 := s.(color := Red);
    PaintRightChild(brother, Black, w, a, s1);
    ghost var s2 := s1.(right := s1.right.(color := Black));
    LeftRotationAt(brother, w, a, s2, counter);
    q := BrotherTurned(p);
    ThroughSibling(w, p, t, RotatedLeft(s2));
    SamePlace(w, p, q, t);
  }

  /** The path after the brother took the parent's colour, parent and far nephew became
      black, and the parent turned towards t. */
  ghost function FarNephewTurned(p: Path): Path
    requires !p.Top? && Sibling(p).Branch? && FarNephew(p).Branch?
  {
    var s, f := Sibling(p), FarNephew(p).(color := Black);
    if p.InLeft? then
      InLeft(Black, p.node, p.key, p.value, s.left, InLeft(p.color, s.node, s.key, s.value, f, p.up))
    else
      InRight(Black, s.right, p.node, p.key, p.value, InRight(p.color, f, s.node, s.key, s.value, p.up))
  }

  lemma FarNephewFits(p: Path, h: nat)
    requires Short(p, h) && !p.Top? && Sibling(p).Branch? && !IsRed(Sibling(p)) && IsRed(FarNephew(p))
    ensures FitsPath(FarNephewTurned(p), Black, h)
  {
    var q, f := FarNephewTurned(p), FarNephew(p);
    assert RB(f, h) && RB(f.left, h) && RB(f.right, h);
    assert RB(Sibling(q), h) && RB(Sibling(q.up), h + 1);
    assert FitsPath(p.up, p.color, if p.color.Black? then h + 2 else h + 1);
    assert FitsPath(q.up, Black, h + 1);
  }

  /** Painting the far nephew black and turning the parent towards t, for either side. */
  method TurnParentLeft(node: Node, brother: Node, ghost w: World, ghost p: Path, ghost t: Tree, ghost counter: Counter)
    requires Holds(w, p, t) && t.Branch? && t.node == node && p.InLeft?
    requires p.right.Branch? && p.right.node == brother && p.right.right.Branch?
    modifies w.nodes, counter
    ensures var s := p.right.(right := p.right.right.(color := Black));
      Holds(w, p.up, RotatedLeft(Up(SetSibling(p, s), t)))
    ensures counter.turns == old(counter.turns) + 1
  {
    ghost var s := p.right.(right := p.right.right.(color := Black));
    HoldsAcross(w, p, t);
    OneUp(w, p, t);
    PaintRightChild(brother, Black, w, Across(p, t), p.right);
    ThroughSibling(w, p, t, s);
    OneUp(w, SetSibling(p, s), t);
    HoldsUp(w, SetSibling(p, s), t);
    LeftRotationAt(node.parent, w, p.up, Up(SetSibling(p, s), t), counter);
  }

  method TurnParentRight(node: Node, brother: Node, ghost w: World, ghost p: Path, ghost t: Tree,
                         ghost counter: Counter)
    requires Holds(w, p, t) && t.Branch? && t.node == node && p.InRight?
    requires p.left.Branch? && p.left.node == brother && p.left.left.Branch?
    modifies w.nodes, counter
    ensures var s := p.left.(left := p.left.left.(color := Black));
      Holds(w, p.up, RotatedRight(Up(SetSibling(p, s), t)))
    ensures counter.turns == old(counter.turns) + 1
  {
    ghost var s := p.left.(left := p.left.left.(color := Black));
    HoldsAcross(w, p, t);
    OneUp(w, p, t);
    PaintLeftChild(brother, Black, w, Across(p, t), p.left);
    ThroughSibling(w, p, t, s);
    OneUp(w, SetSibling(p, s), t);
    HoldsUp(w, SetSibling(p, s), t);
    RightRotationAt(node.parent, w, p.up, Up(SetSibling(p, s), t), counter);
  }

  method DeleteCase6(node: Node, ghost w: World, ghost p: Path, ghost t: Tree, ghost h: nat, ghost counter: Counter)
    returns (ghost q: Path)
    requires Holds(w, p, t) && t.Branch? && t.node == node && Short(p, h) && !p.Top?
    requires Sibling(p).Branch? && !IsRed(Sibling(p)) && IsRed(FarNephew(p))
    modifies w.nodes, counter
    ensures Holds(w, q, t) && Settled(q, p, h)
    ensures counter.turns == old(counter.turns) + 1
  {
    q := FarNephewTurned(p);
    FarNephewFits(p, h);
    BrotherExists(w, p, t, h);
    var brother := FindBrother(node);
    PaintSibling(brother, node.parent.color, w, p, t);
    ghost var p1 := WithSibling(p, p.color);
    PaintParent(node, Black, w, p1, t);
    ghost var p2 := p1.(color := Black);
    OneUp(w, p2, t);
    if node == node.parent.left {
      TurnParentLeft(node, brother, w, p2, t, counter);
    } else {
      TurnParentRight(node, brother, w, p2, t, counter);
    }
    HoldsUp(w, q, t);
    HoldsUp(w, q.up, Up(q, t));
    SamePlace(w, p, q, t);
  }
}
