/** Visiting every binding of a map with a callback that may set the visited node's value. */
module MapForeach {
  import opened Tree
  import opened RedBlack
  import opened RBMap

  // ---------- What the visits amount to ----------

  /** The order of the visits. */
  ghost function Postorder(t: Tree): seq<Pair> {
    if t.Leaf? then [] else Postorder(t.left) + Postorder(t.right) + [Pair(t.key, t.value)]
  }

  /** The callback gets a binding and the data; it leaves a value in the node and new data. */
  ghost function Data<D>(visits: seq<Pair>, foo: (Pair, D) -> (int, D), data: D): D {
    if visits == [] then data else foo(visits[|visits| - 1], Data(visits[..|visits| - 1], foo, data)).1
  }

  /** The value visit number i leaves. */
  ghost function NewValue<D>(visits: seq<Pair>, i: nat, foo: (Pair, D) -> (int, D), data: D): int
    requires i < |visits|
  {
    foo(visits[i], Data(visits[..i], foo, data)).0
  }

  /** Every visit gets what the ones before it have left, and sets just its own value. */
  lemma OneVisitMore<D>(visits: seq<Pair>, x: Pair, foo: (Pair, D) -> (int, D), data: D)
    ensures Data([], foo, data) == data
    ensures Data(visits + [x], foo, data) == foo(x, Data(visits, foo, data)).1
    ensures NewValue(visits + [x], |visits|, foo, data) == foo(x, Data(visits, foo, data)).0
    ensures forall i :: 0 <= i < |visits| ==> NewValue(visits + [x], i, foo, data) == NewValue(visits, i, foo, data)
  {
    assert (visits + [x])[..|visits|] == visits;
    forall i | 0 <= i < |visits| ensures NewValue(visits + [x], i, foo, data) == NewValue(visits, i, foo, data) {
      assert (visits + [x])[..i] == visits[..i];
    }
  }

  lemma {:induction false} DataConcat<D>(a: seq<Pair>, b: seq<Pair>, foo: (Pair, D) -> (int, D), data: D)
    ensures Data(a + b, foo, data) == Data(b, foo, Data(a, foo, data))
    decreases |b|
  {
    if b == [] {
      assert a + b == a;
    } else {
      var c := b[..|b| - 1];
      assert (a + b)[..|a + b| - 1] == a + c;
      DataConcat(a, c, foo, data);
    }
  }

  lemma NewValueConcat<D>(a: seq<Pair>, b: seq<Pair>, i: nat, foo: (Pair, D) -> (int, D), data: D)
    requires i < |a + b|
    ensures NewValue(a + b, i, foo, data) ==
      if i < |a| then NewValue(a, i, foo, data) else NewValue(b, i - |a|, foo, Data(a, foo, data))
  {
    if i < |a| {
      assert (a + b)[..i] == a[..i];
    } else {
      assert (a + b)[..i] == a + b[..i - |a|];
      DataConcat(a, b[..i - |a|], foo, data);
    }
  }

  /** The tree with the values the visits leave. */
  ghost function Rewritten<D>(t: Tree, foo: (Pair, D) -> (int, D), data: D): Tree {
    if t.Leaf? then t else
      var left := Data(Postorder(t.left), foo, data);
      var right := Data(Postorder(t.right), foo, left);
      Branch(t.color, Rewritten(t.left, foo, data), t.node, t.key, foo(Pair(t.key, t.value), right).0,
             Rewritten(t.right, foo, left))
  }

  lemma {:induction false} RewrittenShape<D>(t: Tree, foo: (Pair, D) -> (int, D), data: D, h: nat)
    ensures RB(Rewritten(t, foo, data), h) <==> RB(t, h)
    ensures BlackHeight(Rewritten(t, foo, data)) == BlackHeight(t) && Nodes(Rewritten(t, foo, data)) == Nodes(t)
    ensures ColorOf(Rewritten(t, foo, data)) == ColorOf(t)
  {
    if t.Leaf? {
    } else {
      var g := if t.color.Red? || h == 0 then h else h - 1;
      RewrittenShape(t.left, foo, data, g);
      RewrittenShape(t.right, foo, Data(Postorder(t.left), foo, data), g);
    }
  }

  ghost predicate SameKeys(a: seq<Pair>, b: seq<Pair>) {
    |a| == |b| && forall i :: 0 <= i < |a| ==> a[i].key == b[i].key
  }

  lemma {:induction false} RewrittenKeys<D>(t: Tree, foo: (Pair, D) -> (int, D), data: D)
    ensures SameKeys(Inorder(Rewritten(t, foo, data)), Inorder(t))
  {
    if t.Leaf? {
    } else {
      RewrittenKeys(t.left, foo, data);
      RewrittenKeys(t.right, foo, Data(Postorder(t.left), foo, data));
    }
  }

  /** What visit number i leaves is what the tree then has under that key. */
  lemma {:induction false} RewrittenValue<D>(t: Tree, i: nat, foo: (Pair, D) -> (int, D), data: D)
    requires i < |Postorder(t)|
    ensures Pair(Postorder(t)[i].key, NewValue(Postorder(t), i, foo, data)) in Inorder(Rewritten(t, foo, data))
  {
    if t.Leaf? {
    } else {
      var l, r, x := Postorder(t.left), Postorder(t.right), Pair(t.key, t.value);
      var mid := Data(l, foo, data);
      NewValueConcat(l + r, [x], i, foo, data);
      if i < |l + r| {
        NewValueConcat(l, r, i, foo, data);
        if i < |l| {
          RewrittenValue(t.left, i, foo, data);
        } else {
          RewrittenValue(t.right, i - |l|, foo, mid);
        }
      } else {
        DataConcat(l, r, foo, data);
        assert [x][..0] == [];
      }
    }
  }

  /** A visit to every node is a visit to every binding exactly once. */
  lemma {:induction false} PostorderVisitsAll(t: Tree)
    ensures multiset(Postorder(t)) == multiset(Inorder(t))
  {
    if t.Leaf? {
    } else {
      PostorderVisitsAll(t.left);
      PostorderVisitsAll(t.right);
    }
  }

  /** A node is visited after all nodes below it, the left ones before the right ones. */
  lemma ChildrenFirst(t: Tree)
    requires t.Branch?
    ensures var (v, n) := (Postorder(t), |Inorder(t.left)|);
      && n < |v| && v[|v| - 1] == Pair(t.key, t.value)
      && multiset(v[..n]) == multiset(Inorder(t.left)) && multiset(v[n..|v| - 1]) == multiset(Inorder(t.right))
  {
    PostorderVisitsAll(t.left);
    PostorderVisitsAll(t.right);
    SameSize(Postorder(t.left), Inorder(t.left));
    ThreeParts(Postorder(t.left), Postorder(t.right), Pair(t.key, t.value));
    hide Inorder;
  }

  lemma SameSize(a: seq<Pair>, b: seq<Pair>)
    requires multiset(a) == multiset(b)
    ensures |a| == |b|
  {
    assert |multiset(a)| == |multiset(b)|;
  }

  lemma ThreeParts(a: seq<Pair>, b: seq<Pair>, x: Pair)
    ensures var v := a + b + [x]; v[..|a|] == a && v[|a|..|v| - 1] == b && v[|v| - 1] == x
  {
  }

  // ---------- The visits ----------

  /** The same nodes with the listing of t in place. */
  ghost function Revalued(w: World, p: Path, t: Tree): World {
    World(w.nodes, Before(p) + Inorder(t) + After(p))
  }

  method ForeachFrom<D>(tree: Node?, foo: (Pair, D) -> (int, D), data: D, ghost w: World, ghost p: Path, ghost t: Tree)
    returns (result: D)
    requires Holds(w, p, t) && tree == Root(t)
    modifies w.nodes
    ensures result == Data(Postorder(t), foo, data)
    ensures Holds(Revalued(w, p, Rewritten(t, foo, data)), p, Rewritten(t, foo, data))
    decreases t
  {
    if tree == null {
      return data;
    }
    Here(w, p, t);
    HoldsUp(w, DownLeft(p, t), t.left);
    result := ForeachFrom(tree.left, foo, data, w, DownLeft(p, t), t.left);
    ghost var l := Rewritten(t.left, foo, data);
    ghost var w1, t1 := Revalued(w, DownLeft(p, t), l), t.(left := l);
    HoldsUp(w1, DownLeft(p, t), l);
    Here(w1, p, t1);
    HoldsUp(w1, DownRight(p, t1), t.right);
    ghost var before := result;
    result := ForeachFrom(tree.right, foo, result, w1, DownRight(p, t1), t.right);
    ghost var r := Rewritten(t.right, foo, before);
    ghost var w2, t2 := Revalued(w1, DownRight(p, t1), r), t1.(right := r);
    HoldsUp(w2, DownRight(p, t1), r);
    Here(w2, p, t2);
    var visit := foo(Pair(tree.key, tree.value), result);
    SetNodeValue(tree, visit.0, w2, p, t2);
    result := visit.1;
    VisitedLast(t, foo, data);
  }

  lemma VisitedLast<D>(t: Tree, foo: (Pair, D) -> (int, D), data: D)
    requires t.Branch?
    ensures var mid := Data(Postorder(t.right), foo, Data(Postorder(t.left), foo, data));
      Data(Postorder(t), foo, data) == foo(Pair(t.key, t.value), mid).1
  {
    var visits := Postorder(t.left) + Postorder(t.right);
    DataConcat(Postorder(t.left), Postorder(t.right), foo, data);
    assert Postorder(t)[..|Postorder(t)| - 1] == visits;
  }

  /** Every binding is visited exactly once. */
  ghost predicate VisitsOf(visits: seq<Pair>, contents: map<int, int>) {
    && (forall k, v :: Pair(k, v) in visits <==> k in contents && contents[k] == v)
    && forall i, j :: 0 <= i < j < |visits| ==> visits[i].key != visits[j].key
  }

  /** The keys are as before, and each has the value its visit has left. */
  ghost predicate LeftBy<D>(contents: map<int, int>, visits: seq<Pair>, foo: (Pair, D) -> (int, D), data: D) {
    && (forall k :: k in contents <==> exists i :: 0 <= i < |visits| && visits[i].key == k)
    && forall i :: 0 <= i < |visits| ==>
         visits[i].key in contents && contents[visits[i].key] == NewValue(visits, i, foo, data)
  }

  lemma RewrittenIsValid<D>(t: Tree, foo: (Pair, D) -> (int, D), data: D)
    requires Balanced(t) && Sorted(Inorder(t))
    ensures Balanced(Rewritten(t, foo, data)) && Sorted(Inorder(Rewritten(t, foo, data)))
    ensures Root(Rewritten(t, foo, data)) == Root(t) && Nodes(Rewritten(t, foo, data)) == Nodes(t)
  {
    RewrittenShape(t, foo, data, BlackHeight(t));
    RewrittenKeys(t, foo, data);
  }

  lemma InBoth(t: Tree, x: Pair)
    ensures x in Postorder(t) <==> x in Inorder(t)
  {
    PostorderVisitsAll(t);
    assert x in Postorder(t) <==> x in multiset(Postorder(t));
    assert x in Inorder(t) <==> x in multiset(Inorder(t));
  }

  lemma {:induction false} VisitsAreDistinct(t: Tree)
    requires Sorted(Inorder(t))
    ensures forall i, j :: 0 <= i < j < |Postorder(t)| ==> Postorder(t)[i].key != Postorder(t)[j].key
  {
    if t.Leaf? {
    } else {
      var l, r := Postorder(t.left), Postorder(t.right);
      SortedMiddle(Inorder(t.left), Pair(t.key, t.value), Inorder(t.right));
      VisitsAreDistinct(t.left);
      VisitsAreDistinct(t.right);
      forall i | 0 <= i < |l| ensures l[i].key < t.key {
        InBoth(t.left, l[i]);
      }
      forall i | 0 <= i < |r| ensures t.key < r[i].key {
        InBoth(t.right, r[i]);
      }
    }
  }

  lemma VisitsAreBindings(t: Tree)
    requires Sorted(Inorder(t))
    ensures VisitsOf(Postorder(t), Bindings(Inorder(t)))
  {
    VisitsAreDistinct(t);
    forall k, v ensures Pair(k, v) in Postorder(t) <==> k in Bindings(Inorder(t)) && Bindings(Inorder(t))[k] == v {
      BindingIn(Inorder(t), k, v);
      InBoth(t, Pair(k, v));
    }
  }

  lemma ValuesAreLeft<D>(t: Tree, foo: (Pair, D) -> (int, D), data: D)
    requires Sorted(Inorder(t)) && Sorted(Inorder(Rewritten(t, foo, data)))
    ensures LeftBy(Bindings(Inorder(Rewritten(t, foo, data))), Postorder(t), foo, data)
  {
    var visits, u := Postorder(t), Inorder(Rewritten(t, foo, data));
    forall i | 0 <= i < |visits|
      ensures visits[i].key in Bindings(u) && Bindings(u)[visits[i].key] == NewValue(visits, i, foo, data)
    {
      RewrittenValue(t, i, foo, data);
      BindingIn(u, visits[i].key, NewValue(visits, i, foo, data));
    }
    RewrittenKeys(t, foo, data);
    forall k | k in Bindings(u) ensures exists i :: 0 <= i < |visits| && visits[i].key == k {
      var i :| 0 <= i < |u| && u[i].key == k;
      InBoth(t, Inorder(t)[i]);
    }
  }

  /** The callback runs once for every binding, in some order of the keys; a missing map or
      callback is refused. */
  method Foreach<D>(m: Map?, given: bool, foo: (Pair, D) -> (int, D), data: D)
    returns (status: Status, result: D, ghost visits: seq<Pair>)
    requires m != null ==> m.Valid()
    modifies m, if m == null then {} else Nodes(m.tree)
    ensures status == (if m == null || !given then INVALID_ARG else SUCCESS)
    ensures status == INVALID_ARG ==> result == data && (m != null ==> m.Valid() && m.tree == old(m.tree))
    ensures status == SUCCESS ==> m.Valid() && Nodes(m.tree) == old(Nodes(m.tree))
    ensures status == SUCCESS ==> VisitsOf(visits, old(m.Contents())) && result == Data(visits, foo, data)
    ensures status == SUCCESS ==> LeftBy(m.Contents(), visits, foo, data)
  {
    if m == null || !given {
      return INVALID_ARG, data, [];
    }
    ghost var w, t := World(Nodes(m.tree), Inorder(m.tree)), Rewritten(m.tree, foo, data);
    status, visits := SUCCESS, Postorder(m.tree);
    ghost var tree := m.tree;
    result := ForeachFrom(m.treeRoot, foo, data, w, Top, tree);
    RewrittenIsValid(tree, foo, data);
    m.SetTreeRoot(m.treeRoot, Revalued(w, Top, t), t);
    VisitsAreBindings(tree);
    ValuesAreLeft(tree, foo, data);
  }
}
