/** The public map: a finite map from int to int kept in a red-black tree. */
module RBMap {
  import opened Tree
  import opened RedBlack
  import opened Rotation
  import opened Linking

  datatype Status = SUCCESS | LACK_OF_MEMORY | INVALID_ARG

  class Map {
    var treeRoot: Node?
    ghost var tree: Tree

    constructor ()
      ensures Valid() && tree == Leaf
    {
      treeRoot, tree := null, Leaf;
    }

    /** The nodes below treeRoot are a red-black search tree. */
    ghost predicate Valid()
      reads this, Nodes(tree)
    {
      && treeRoot == Root(tree)
      && Holds(World(Nodes(tree), Inorder(tree)), Top, tree)
      && Balanced(tree) && Sorted(Inorder(tree))
    }

    ghost function Contents(): map<int, int>
      requires Sorted(Inorder(tree))
      reads this
    {
      Bindings(Inorder(tree))
    }

    /** Setting the root after a repair. */
    method SetTreeRoot(root: Node?, ghost w: World, ghost whole: Tree)
      requires Holds(w, Top, whole) && Balanced(whole) && Sorted(w.listing) && root == Root(whole)
      modifies this
      ensures Valid() && tree == whole && Inorder(tree) == w.listing && Nodes(tree) == w.nodes
    {
      treeRoot, tree := root, whole;
      assert w.nodes == Nodes(whole) && w.listing == Inorder(whole);
    }
  }

  // ---------- Finding ----------

  lemma BindingsSize(s: seq<Pair>)
    requires Sorted(s)
    ensures |Bindings(s)| == |s|
  {
    if s == [] {
    } else {
      var a, x := s[..|s| - 1], s[|s| - 1];
      assert s == a + [x] + [] && a + [] == a;
      RemoveBinding(a, x, []);
      BindingsSize(a);
    }
  }

  /** A search for the key has come down to the subtree t. */
  ghost predicate Narrowed(w: World, p: Path, t: Tree, key: int)
    reads w.nodes
  {
    Holds(w, p, t) && Sorted(w.listing) && Below(Before(p), key) && Above(After(p), key)
  }

  lemma GoLeft(w: World, p: Path, t: Tree, key: int)
    requires Narrowed(w, p, t, key) && t.Branch? && key < t.key
    ensures Narrowed(w, DownLeft(p, t), t.left, key)
  {
    assert Splits(w, p, t);
    hide Holds;
    HoldsUp(w, DownLeft(p, t), t.left);
    SidesOf(w, p, t);
    var x, rest := Pair(t.key, t.value), Inorder(t.right) + After(p);
    assert After(DownLeft(p, t)) == [x] + rest;
  }

  lemma GoRight(w: World, p: Path, t: Tree, key: int)
    requires Narrowed(w, p, t, key) && t.Branch? && t.key < key
    ensures Narrowed(w, DownRight(p, t), t.right, key)
  {
    HoldsUp(w, DownRight(p, t), t.right);
    SidesOf(w, p, t);
  }

  lemma SidesOf(w: World, p: Path, t: Tree)
    requires Splits(w, p, t) && t.Branch? && Sorted(w.listing)
    ensures Below(Before(p) + Inorder(t.left), t.key) && Above(Inorder(t.right) + After(p), t.key)
  {
    Spread(w, p, t);
    SplitAt(Before(p) + Inorder(t.left), Pair(t.key, t.value), Inorder(t.right) + After(p), w.listing);
  }

  lemma Spread(w: World, p: Path, t: Tree)
    requires Splits(w, p, t) && t.Branch?
    ensures w.listing == (Before(p) + Inorder(t.left)) + [Pair(t.key, t.value)] + (Inorder(t.right) + After(p))
  {
    Assoc4(Before(p), Inorder(t.left), [Pair(t.key, t.value)], Inorder(t.right), After(p));
  }

  lemma NarrowedToNothing(w: World, p: Path, key: int)
    requires Narrowed(w, p, Leaf, key)
    ensures key !in Bindings(w.listing)
  {
    assert w.listing == Before(p) + After(p);
    AbsentKey(Before(p), After(p), key);
  }

  lemma NarrowedToNode(w: World, p: Path, t: Tree)
    requires Splits(w, p, t) && t.Branch? && Sorted(w.listing)
    ensures t.key in Bindings(w.listing) && Bindings(w.listing)[t.key] == t.value
  {
    Spread(w, p, t);
    BindingIn(w.listing, t.key, t.value);
  }

  method FindFrom(root: Node?, key: int, ghost w: World, ghost whole: Tree)
    returns (node: Node?, ghost p: Path, ghost t: Tree, ghost steps: nat)
    requires Holds(w, Top, whole) && root == Root(whole) && Sorted(w.listing)
    ensures node != null <==> key in Bindings(w.listing)
    ensures node == Root(t) && Holds(w, p, t) && Plug(p, t) == whole && steps <= Height(whole)
    ensures Holds(w, Top, whole) && (node != null ==> node in w.nodes)
    ensures node != null ==> t.key == key == node.key && t.value == node.value == Bindings(w.listing)[key]
  {
    p, t, steps := Top, whole, 0;
    node := root;
    while node != null
      invariant Narrowed(w, p, t, key) && node == Root(t) && Plug(p, t) == whole
      invariant steps + Height(t) <= Height(whole)
      decreases t
    {
      Here(w, p, t);
      steps := steps + 1;
      if node.key > key {
        GoLeft(w, p, t, key);
        p, t := DownLeft(p, t), t.left;
        node := node.left;
      } else if node.key < key {
        GoRight(w, p, t, key);
        p, t := DownRight(p, t), t.right;
        node := node.right;
      } else {
        NarrowedToNode(w, p, t);
        HoldsPlug(w, p, t);
        return;
      }
    }
    NarrowedToNothing(w, p, key);
    HoldsPlug(w, p, t);
  }

  /** The node with the given key, where it is in the tree, and how many turns the search took.
      The caller's error is stored only without a map and else left as it was. */
  method FindItem(m: Map?, key: int, stored: Status)
    returns (node: Node?, error: Status, ghost p: Path, ghost t: Tree, ghost steps: nat)
    requires m != null ==> m.Valid()
    ensures error == (if m == null then INVALID_ARG else stored)
    ensures m == null ==> node == null
    ensures m != null ==> m.Valid()
    ensures m != null ==>
      && (node != null <==> key in m.Contents())
      && (node != null ==> node in Nodes(m.tree) && node.key == key && node.value == m.Contents()[key])
      && Logarithmic(steps, |m.Contents()|)
    ensures m != null ==>
      && Holds(World(Nodes(m.tree), Inorder(m.tree)), p, t) && Root(t) == node && Plug(p, t) == m.tree
      && (node != null ==> t.key == key && t.value == node.value)
  {
    p, t, steps := Top, Leaf, 0;
    if m == null {
      return null, INVALID_ARG, p, t, 0;
    }
    error := stored;
    node, p, t, steps := FindFrom(m.treeRoot, key, World(Nodes(m.tree), Inorder(m.tree)), m.tree);
    HeightBound(m.tree, steps);
    BindingsSize(Inorder(m.tree));
  }

  // ---------- Adding ----------

  /** What is allocated changed just as the nodes of the map did: nothing leaks, and
      nothing reachable was freed. */
  ghost predicate Kept(before: set<object>, nodesBefore: set<Node>, after: set<object>, nodesAfter: set<Node>) {
    after == before - nodesBefore + nodesAfter
  }

  lemma KeptSame(live: set<object>, nodes: set<Node>)
    requires nodes <= live
    ensures Kept(live, nodes, live, nodes)
  {
  }

  lemma KeptAdd(live: set<object>, nodes: set<Node>, node: Node)
    requires nodes <= live
    ensures Kept(live, nodes, live + {node}, nodes + {node})
  {
  }

  lemma KeptRemove(live: set<object>, nodes: set<Node>, node: Node)
    requires nodes <= live && node in nodes
    ensures Kept(live, nodes, live - {node}, nodes - {node})
  {
  }

  lemma KeptGrow(first: set<object>, live: set<object>, nodes: set<Node>, live': set<object>, nodes': set<Node>)
    requires live == first + nodes && first !! nodes && Kept(live, nodes, live', nodes')
    ensures live' == first + nodes'
  {
  }

  /** Where the search for an absent key ends, the key fits in. */
  lemma NewBinding(w: World, q: Path, item: Pair)
    requires Splits(w, q, Leaf) && Sorted(w.listing) && Searches(q, item.key) && item.key !in Bindings(w.listing)
    ensures Sorted(Before(q) + [item] + After(q))
    ensures Bindings(Before(q) + [item] + After(q)) == Bindings(w.listing)[item.key := item.value]
  {
    var a, b := Before(q), After(q);
    assert w.listing == a + b;
    SearchSplits(q, item.key, []);
    assert a + [] + b == a + b;
    forall i | 0 <= i < |a| ensures a[i].key < item.key {
      assert a[i] == w.listing[i];
      BindingIn(w.listing, a[i].key, a[i].value);
    }
    SortedHalves(a, b);
    SortedMiddle(a, item, b);
    RemoveBinding(a, item, b);
  }

  lemma SortedHalves(a: seq<Pair>, b: seq<Pair>)
    requires Sorted(a + b)
    ensures Sorted(a) && Sorted(b)
  {
    var s := a + b;
    assert forall i :: 0 <= i < |a| ==> s[i] == a[i];
    assert forall i :: 0 <= i < |b| ==> s[|a| + i] == b[i];
  }

  lemma OneUpIfAny(w: World, q: Path)
    requires Holds(w, q, Leaf)
    ensures !q.Top? ==> q.node.key == q.key
  {
    if !q.Top? {
      OneUp(w, q, Leaf);
    }
  }

  method FindPlace(m: Map, item: Pair, ghost w: World) returns (parent: Node?, ghost q: Path)
    requires m.Valid() && item.key !in m.Contents() && w == World(Nodes(m.tree), Inorder(m.tree))
    ensures Holds(w, q, Leaf) && FitsPath(q, Black, 0) && parent == PathNode(q)
    ensures parent != null ==> (q.InLeft? <==> parent.key > item.key)
    ensures Sorted(Before(q) + [item] + After(q))
    ensures Bindings(Before(q) + [item] + After(q)) == m.Contents()[item.key := item.value]
  {
    parent, q := FindParent(m.treeRoot, item.key, w, Top, m.tree);
    assert Plug(q, Leaf) == m.tree;
    BalancedPlug(q, Leaf);
    NewBinding(w, q, item);
    OneUpIfAny(w, q);
  }

  method LinkNew(m: Map, node: Node, ghost counter: Counter)
    requires m.Valid() && node.key !in m.Contents() && node !in Nodes(m.tree)
    requires node.color == Red && node.left == null && node.right == null
    modifies m, Nodes(m.tree), node, counter
    ensures m.Valid() && Nodes(m.tree) == old(Nodes(m.tree)) + {node}
    ensures m.Contents() == old(m.Contents())[old(node.key) := old(node.value)]
    ensures counter.turns <= old(counter.turns) + 2
  {
    hide Holds;
    ghost var w := World(Nodes(m.tree), Inorder(m.tree));
    var parent: Node?;
    ghost var q;
    parent, q := FindPlace(m, Pair(node.key, node.value), w);
    ghost var v := Extended(w, q, node, node.key, node.value);
    ghost var whole;
    whole := Insert(parent, node, w, q, counter);
    var top := FindTop(node, v, whole);
    m.SetTreeRoot(top, v, whole);
  }

  method AddItem(m: Map?, item: Pair, memory: Allocator, ghost counter: Counter) returns (status: Status)
    requires m != null ==> m.Valid() && Nodes(m.tree) <= memory.live
    modifies m, if m == null then {} else Nodes(m.tree), memory, counter
    ensures m == null ==> status == INVALID_ARG && memory.calls == old(memory.calls) && memory.live == old(memory.live)
    ensures m != null ==> m.Valid() && Kept(old(memory.live), old(Nodes(m.tree)), memory.live, Nodes(m.tree))
    ensures m != null ==> fresh(Nodes(m.tree) - old(Nodes(m.tree)))
    ensures m != null && item.key in old(m.Contents()) ==>
      status == SUCCESS && m.tree == old(m.tree) && memory.calls == old(memory.calls)
    ensures m != null && item.key !in old(m.Contents()) ==>
      && memory.calls == old(memory.calls) + 1
      && if old(memory.calls) !in memory.refused
         then status == SUCCESS && m.Contents() == old(m.Contents())[item.key := item.value]
         else status == LACK_OF_MEMORY && m.tree == old(m.tree)
    ensures counter.turns <= old(counter.turns) + 2
  {
    if m == null {
      return INVALID_ARG;
    }
    var found, _, _, _, _ := FindItem(m, item.key, SUCCESS);
    KeptSame(memory.live, Nodes(m.tree));
    if found != null {
      return SUCCESS;
    }
    status := AddAbsent(m, item, memory, counter);
  }

  method AddAbsent(m: Map, item: Pair, memory: Allocator, ghost counter: Counter) returns (status: Status)
    requires m.Valid() && Nodes(m.tree) <= memory.live && item.key !in m.Contents()
    modifies m, Nodes(m.tree), memory, counter
    ensures m.Valid() && Kept(old(memory.live), old(Nodes(m.tree)), memory.live, Nodes(m.tree))
    ensures fresh(Nodes(m.tree) - old(Nodes(m.tree)))
    ensures memory.calls == old(memory.calls) + 1
    ensures if old(memory.calls) !in memory.refused
            then status == SUCCESS && m.Contents() == old(m.Contents())[item.key := item.value]
            else status == LACK_OF_MEMORY && m.tree == old(m.tree)
    ensures counter.turns <= old(counter.turns) + 2
  {
    KeptSame(memory.live, Nodes(m.tree));
    var node := memory.CreateNode(item.key, item.value, null, null, null);
    if node == null {
      return LACK_OF_MEMORY;
    }
    KeptAdd(old(memory.live), Nodes(m.tree), node);
    LinkNew(m, node, counter);
    status := SUCCESS;
  }

  // ---------- Deleting ----------

  lemma RemovedBinding(v: World, w: World, p: Path, t: Tree, victim: Node)
    requires t.Branch? && Splits(w, p, t) && Sorted(w.listing) && Removes(v, w, p, t, victim)
    ensures Sorted(v.listing) && Bindings(v.listing) == Bindings(w.listing) - {t.key}
  {
    var a, x, b := Before(p) + Inorder(t.left), Pair(t.key, t.value), Inorder(t.right) + After(p);
    Spread(w, p, t);
    Assoc4(Before(p), Inorder(t.left), [], Inorder(t.right), After(p));
    TakenOut(w.listing, v.listing, a, x, b);
  }

  lemma WithoutAbsent(m: map<int, int>, key: int)
    requires key !in m
    ensures m - {key} == m
  {
  }

  lemma EmptyMap(m: Map)
    requires m.Valid()
    ensures m.treeRoot == null <==> m.Contents() == map[]
  {
    BindingsSize(Inorder(m.tree));
    SizeIsInorder(m.tree);
  }

  method DeleteItem(m: Map?, key: int, memory: Allocator, ghost counter: Counter) returns (status: Status)
    requires m != null ==> m.Valid() && Nodes(m.tree) <= memory.live
    modifies m, if m == null then {} else Nodes(m.tree), memory`live, counter
    ensures m == null ==> status == INVALID_ARG && memory.live == old(memory.live)
    ensures m != null ==>
      && m.Valid() && Kept(old(memory.live), old(Nodes(m.tree)), memory.live, Nodes(m.tree))
      && m.Contents() == old(m.Contents()) - {key}
      && (status == INVALID_ARG <==> old(m.Contents()) == map[]) && status != LACK_OF_MEMORY
      && (key !in old(m.Contents()) ==> m.tree == old(m.tree))
      && Nodes(m.tree) <= old(Nodes(m.tree))
    ensures counter.turns <= old(counter.turns) + 3
  {
    if m == null {
      return INVALID_ARG;
    }
    EmptyMap(m);
    KeptSame(memory.live, Nodes(m.tree));
    if m.treeRoot == null {
      return INVALID_ARG;
    }
    var node, _, p, t, _ := FindItem(m, key, SUCCESS);
    status := SUCCESS;
    if node != null {
      DeleteFound(m, node, memory, p, t, counter);
    } else {
      WithoutAbsent(m.Contents(), key);
    }
  }

  method DeleteFound(m: Map, node: Node, memory: Allocator, ghost p: Path, ghost t: Tree, ghost counter: Counter)
    requires m.Valid() && Nodes(m.tree) <= memory.live
    requires Holds(World(Nodes(m.tree), Inorder(m.tree)), p, t) && t.Branch? && t.node == node && Plug(p, t) == m.tree
    modifies m, Nodes(m.tree), memory`live, counter
    ensures m.Valid() && Kept(old(memory.live), old(Nodes(m.tree)), memory.live, Nodes(m.tree))
    ensures m.Contents() == old(m.Contents()) - {t.key} && Nodes(m.tree) <= old(Nodes(m.tree))
    ensures counter.turns <= old(counter.turns) + 3
  {
    ghost var w := World(Nodes(m.tree), Inorder(m.tree));
    var top: Node?;
    ghost var v, whole, victim;
    top, v, whole, victim := DeleteNode(node, memory, w, p, t, counter);
    RemovedBinding(v, w, p, t, victim);
    KeptRemove(old(memory.live), w.nodes, victim);
    m.SetTreeRoot(top, v, whole);
  }

  lemma HoldsDown(w: World, p: Path, t: Tree)
    requires Holds(w, p, t) && t.Branch?
    ensures Holds(w, DownLeft(p, t), t.left) && Holds(w, DownRight(p, t), t.right)
    ensures t.node !in Nodes(t.left) + Nodes(t.right) && Nodes(t.left) !! Nodes(t.right)
  {
    HoldsUp(w, DownLeft(p, t), t.left);
    HoldsUp(w, DownRight(p, t), t.right);
  }

  method DeleteTree(tree: Node?, memory: Allocator, ghost w: World, ghost p: Path, ghost t: Tree)
    requires Holds(w, p, t) && tree == Root(t) && Nodes(t) <= memory.live
    modifies memory`live
    ensures memory.live == old(memory.live) - Nodes(t)
    decreases t
  {
    hide Holds;
    if tree == null {
      return;
    }
    HoldsDown(w, p, t);
    Here(w, p, t);
    if tree.left != null {
      DeleteTree(tree.left, memory, w, DownLeft(p, t), t.left);
    }
    if tree.right != null {
      DeleteTree(tree.right, memory, w, DownRight(p, t), t.right);
    }
    memory.Free(tree);
  }

  method ClearMap(m: Map?, memory: Allocator) returns (status: Status)
    requires m != null ==> m.Valid() && Nodes(m.tree) <= memory.live
    modifies m, memory`live
    ensures m == null ==> status == INVALID_ARG && memory.live == old(memory.live)
    ensures m != null ==> status == SUCCESS && m.Valid() && m.Contents() == map[] && m.tree == Leaf
    ensures m != null ==> memory.live == old(memory.live) - Nodes(old(m.tree))
  {
    if m == null {
      return INVALID_ARG;
    }
    DeleteTree(m.treeRoot, memory, World(Nodes(m.tree), Inorder(m.tree)), Top, m.tree);
    m.SetTreeRoot(null, World({}, []), Leaf);
    status := SUCCESS;
  }

  method DeleteMap(m: Map?, memory: Allocator) returns (status: Status)
    requires m != null ==> m.Valid() && Nodes(m.tree) + {m} <= memory.live
    modifies memory`live
    ensures status == (if m == null then INVALID_ARG else SUCCESS)
    ensures memory.live == (if m == null then old(memory.live) else old(memory.live) - Nodes(m.tree) - {m})
  {
    if m == null {
      return INVALID_ARG;
    }
    DeleteTree(m.treeRoot, memory, World(Nodes(m.tree), Inorder(m.tree)), Top, m.tree);
    memory.Free(m);
    status := SUCCESS;
  }

  // ---------- Setting a value ----------

  method SetNodeValue(node: Node, value: int, ghost w: World, ghost p: Path, ghost t: Tree)
    requires Holds(w, p, t) && t.Branch? && t.node == node
    modifies w.nodes
    ensures Holds(Copied(w, p, t, t.key, value), p, t.(value := value))
  {
    ghost var h := Snapshot(w.nodes);
    Here(w, p, t);
    node.value := value;
    CopiedHolds(w, h, Snapshot(w.nodes), p, t, t.key, value);
  }

  /** Another value for one entry of the listing is another value for its key. */
  lemma ValueReplaced(a: seq<Pair>, x: Pair, b: seq<Pair>, value: int)
    requires Sorted(a + [x] + b)
    ensures Sorted(a + [Pair(x.key, value)] + b)
    ensures Bindings(a + [Pair(x.key, value)] + b) == Bindings(a + [x] + b)[x.key := value]
  {
    SortedMiddle(a, x, b);
    SortedMiddle(a, Pair(x.key, value), b);
    RemoveBinding(a, x, b);
    RemoveBinding(a, Pair(x.key, value), b);
  }

  lemma ValueSet(w: World, p: Path, t: Tree, value: int)
    requires Splits(w, p, t) && t.Branch? && Sorted(w.listing) && Balanced(Plug(p, t))
    ensures var v := Copied(w, p, t, t.key, value);
      Sorted(v.listing) && Bindings(v.listing) == Bindings(w.listing)[t.key := value]
    ensures Balanced(Plug(p, t.(value := value)))
  {
    var x, y := Pair(t.key, t.value), Pair(t.key, value);
    var a, b := Before(p) + Inorder(t.left), Inorder(t.right) + After(p);
    Assoc4(Before(p), Inorder(t.left), [x], Inorder(t.right), After(p));
    Assoc4(Before(p), Inorder(t.left), [y], Inorder(t.right), After(p));
    ValueReplaced(a, x, b, value);
    BalancedPlug(p, t);
    BalancedPlug(p, t.(value := value));
  }

  /** A node that was found gets another value; the tree stays as it is. */
  method SetValue(node: Node?, value: int, ghost m: Map) returns (status: Status)
    requires m.Valid() && (node != null ==> node in Nodes(m.tree))
    modifies m, Nodes(m.tree)
    ensures status == (if node == null then INVALID_ARG else SUCCESS)
    ensures m.Valid() && Nodes(m.tree) == old(Nodes(m.tree))
    ensures m.Contents() == if node == null then old(m.Contents()) else old(m.Contents())[old(node.key) := value]
  {
    if node == null {
      return INVALID_ARG;
    }
    ghost var p, t := Locate(m.tree, node, Top);
    HoldsPlug(World(Nodes(m.tree), Inorder(m.tree)), p, t);
    SetFound(node, value, m, p, t);
    status := SUCCESS;
  }

  method SetFound(node: Node, value: int, ghost m: Map, ghost p: Path, ghost t: Tree)
    requires m.Valid() && Holds(World(Nodes(m.tree), Inorder(m.tree)), p, t) && t.Branch? && t.node == node
    requires Plug(p, t) == m.tree
    modifies m, Nodes(m.tree)
    ensures m.Valid() && Nodes(m.tree) == old(Nodes(m.tree))
    ensures m.Contents() == old(m.Contents())[old(node.key) := value]
  {
    ghost var w := World(Nodes(m.tree), Inorder(m.tree));
    ghost var u := t.(value := value);
    Here(w, p, t);
    ValueSet(w, p, t, value);
    SetNodeValue(node, value, w, p, t);
    HoldsPlug(Copied(w, p, t, t.key, value), p, u);
    RootStays(p, t, value);
    m.tree := Plug(p, u);
    Placed(Copied(w, p, t, t.key, value), m.tree);
  }

  lemma Placed(w: World, t: Tree)
    requires Splits(w, Top, t)
    ensures w == World(Nodes(t), Inorder(t))
  {
  }

  lemma RootStays(p: Path, t: Tree, value: int)
    requires t.Branch?
    ensures Root(Plug(p, t.(value := value))) == Root(Plug(p, t))
  {
    RootOfPath(p, t, t.(value := value));
  }

  lemma {:induction false} RootOfPath(p: Path, t: Tree, u: Tree)
    requires Root(t) == Root(u)
    ensures Root(Plug(p, t)) == Root(Plug(p, u))
    decreases Depth(p)
  {
    if p.Top? {
    } else {
      RootOfPath(p.up, Up(p, t), Up(p, u));
    }
  }

  // ---------- Creating ----------

  /** The map that keeps, for every key, the value of its first pair. */
  ghost function FirstBindings(data: seq<Pair>): map<int, int> {
    if data == [] then map[] else
      var m, x := FirstBindings(data[..|data| - 1]), data[|data| - 1];
      if x.key in m then m else m[x.key := x.value]
  }

  ghost predicate IsFirst(data: seq<Pair>, i: nat, k: int)
    requires i < |data|
  {
    data[i].key == k && forall j :: 0 <= j < i ==> data[j].key != k
  }

  lemma {:induction false} FirstBindingsAreFirst(data: seq<Pair>, k: int)
    ensures k in FirstBindings(data) <==> exists i :: 0 <= i < |data| && data[i].key == k
    ensures forall i :: 0 <= i < |data| && IsFirst(data, i, k) ==> FirstBindings(data)[k] == data[i].value
  {
    if data == [] {
    } else {
      var d := data[..|data| - 1];
      FirstBindingsAreFirst(d, k);
      assert forall i :: 0 <= i < |d| ==> (IsFirst(data, i, k) <==> IsFirst(d, i, k));
      if data[|d|].key == k {
        assert k in FirstBindings(data);
      }
    }
  }

  /** How many different keys there are, which is how many nodes it takes. */
  ghost function DistinctKeys(data: seq<Pair>): nat {
    if data == [] then 0 else
      DistinctKeys(data[..|data| - 1]) + (if data[|data| - 1].key in FirstBindings(data[..|data| - 1]) then 0 else 1)
  }

  lemma {:induction false} DistinctKeysSize(data: seq<Pair>)
    ensures DistinctKeys(data) == |FirstBindings(data)|
  {
    if data == [] {
    } else {
      DistinctKeysSize(data[..|data| - 1]);
    }
  }

  lemma OneMorePair(data: seq<Pair>, i: nat)
    requires i < |data|
    ensures var m, x := FirstBindings(data[..i]), data[i];
      && FirstBindings(data[..i + 1]) == (if x.key in m then m else m[x.key := x.value])
      && DistinctKeys(data[..i + 1]) == DistinctKeys(data[..i]) + (if x.key in m then 0 else 1)
    ensures DistinctKeys(data[..i + 1]) <= DistinctKeys(data)
  {
    var d := data[..i + 1];
    assert d[..|d| - 1] == data[..i];
    DistinctKeysGrow(data, i + 1);
  }

  lemma {:induction false} DistinctKeysGrow(data: seq<Pair>, i: nat)
    requires i <= |data|
    ensures DistinctKeys(data[..i]) <= DistinctKeys(data)
    decreases |data| - i
  {
    if i < |data| {
      var d := data[..i + 1];
      assert d[..|d| - 1] == data[..i];
      DistinctKeysGrow(data, i + 1);
    } else {
      assert data[..i] == data;
    }
  }

  /** The allocator grants n calls from the given one on. */
  ghost predicate Grants(refused: set<nat>, from: nat, n: nat)
    decreases n
  {
    n > 0 ==> from !in refused && Grants(refused, from + 1, n - 1)
  }

  lemma {:induction false} GrantsUpTo(refused: set<nat>, from: nat, n: nat, call: nat)
    requires from <= call < from + n && call in refused
    ensures !Grants(refused, from, n)
    decreases n
  {
    if from == call {
    } else {
      GrantsUpTo(refused, from + 1, n - 1, call);
    }
  }

  lemma {:induction false} GrantsOneMore(refused: set<nat>, from: nat, n: nat, call: nat)
    requires Grants(refused, from, n) && call == from + n && call !in refused
    ensures Grants(refused, from, n + 1)
    decreases n
  {
    if n == 0 {
    } else {
      GrantsOneMore(refused, from + 1, n - 1, call);
    }
  }

  ghost predicate AllLive(live: set<object>, others: set<object>, nodes: set<Node>) {
    live == others + nodes && others !! nodes
  }

  /** The first i pairs were added, each new key with one granted call. */
  ghost predicate Added(data: seq<Pair>, i: nat, contents: map<int, int>, refused: set<nat>, from: nat, calls: nat)
    requires i <= |data|
  {
    && contents == FirstBindings(data[..i])
    && calls == from + DistinctKeys(data[..i])
    && Grants(refused, from, DistinctKeys(data[..i]))
  }

  ghost function WithFirst(m: map<int, int>, item: Pair): map<int, int> {
    if item.key in m then m else m[item.key := item.value]
  }

  lemma AddedNext(data: seq<Pair>, i: nat, contents: map<int, int>, refused: set<nat>, from: nat, calls: nat)
    requires i < |data| && Added(data, i, contents, refused, from, calls)
    ensures data[i].key in contents ==> Added(data, i + 1, contents, refused, from, calls)
    ensures data[i].key !in contents && calls !in refused ==>
      Added(data, i + 1, WithFirst(contents, data[i]), refused, from, calls + 1)
    ensures data[i].key !in contents && calls in refused ==> !Grants(refused, from, DistinctKeys(data))
  {
    OneMorePair(data, i);
    if data[i].key !in contents {
      if calls in refused {
        GrantsUpTo(refused, from, DistinctKeys(data), calls);
      } else {
        GrantsOneMore(refused, from, DistinctKeys(data[..i]), calls);
      }
    }
  }

  lemma NothingAdded(data: seq<Pair>, m: Map, refused: set<nat>, calls: nat)
    requires m.tree == Leaf
    ensures Added(data, 0, m.Contents(), refused, calls, calls)
  {
    assert Inorder(m.tree) == [];
    assert Bindings([]) == map[];
  }

  lemma AddedAll(data: seq<Pair>, contents: map<int, int>, refused: set<nat>, from: nat, calls: nat)
    requires Added(data, |data|, contents, refused, from, calls)
    ensures contents == FirstBindings(data) && calls == from + DistinctKeys(data)
    ensures Grants(refused, from, DistinctKeys(data))
  {
    assert data[..|data|] == data;
  }

  method AddAll(m: Map, data: seq<Pair>, memory: Allocator) returns (ok: bool)
    requires m.Valid() && m.tree == Leaf
    modifies m, memory
    ensures m.Valid() && AllLive(memory.live, old(memory.live), Nodes(m.tree)) && fresh(Nodes(m.tree))
    ensures ok <==> Grants(memory.refused, old(memory.calls), DistinctKeys(data))
    ensures ok ==> m.Contents() == FirstBindings(data) && memory.calls == old(memory.calls) + DistinctKeys(data)
  {
    hide Holds;
    ghost var first, others := memory.calls, memory.live;
    NothingAdded(data, m, memory.refused, first);
    ghost var contents, calls := m.Contents(), first;
    for i := 0 to |data|
      invariant m.Valid() && fresh(Nodes(m.tree)) && AllLive(memory.live, others, Nodes(m.tree))
      invariant m.Contents() == contents && memory.calls == calls
      invariant Added(data, i, contents, memory.refused, first, calls)
    {
      AddedNext(data, i, contents, memory.refused, first, calls);
      ok := AddNext(m, data[i], memory, contents, others);
      if !ok {
        return;
      }
      contents, calls := m.Contents(), memory.calls;
    }
    ok := true;
    AddedAll(data, contents, memory.refused, first, calls);
  }

  method AddNext(m: Map, item: Pair, memory: Allocator, ghost before: map<int, int>, ghost others: set<object>)
    returns (ok: bool)
    requires m.Valid() && m.Contents() == before
    requires AllLive(memory.live, others, Nodes(m.tree))
    modifies m, Nodes(m.tree), memory
    ensures m.Valid() && AllLive(memory.live, others, Nodes(m.tree))
    ensures fresh(Nodes(m.tree) - old(Nodes(m.tree)))
    ensures ok <==> item.key in before || old(memory.calls) !in memory.refused
    ensures ok ==> memory.calls == old(memory.calls) + (if item.key in before then 0 else 1)
    ensures ok ==> m.Contents() == WithFirst(before, item)
  {
    ghost var counter := new Counter();
    var status := AddItem(m, item, memory, counter);
    KeptGrow(others, old(memory.live), old(Nodes(m.tree)), memory.live, Nodes(m.tree));
    ok := status == SUCCESS;
  }

  /** Creating a map needs one allocation for the map and one for every different key;
      it fails, leaving nothing allocated, exactly when one of them is not granted. */
  method CreateMap(data: seq<Pair>, memory: Allocator) returns (m: Map?)
    modifies memory
    ensures m != null <==> Grants(memory.refused, old(memory.calls), 1 + DistinctKeys(data))
    ensures m == null ==> memory.live == old(memory.live)
    ensures m != null ==>
      && fresh(m) && m.Valid() && m.Contents() == FirstBindings(data) && fresh(Nodes(m.tree))
      && memory.calls == old(memory.calls) + 1 + DistinctKeys(data)
      && m !in old(memory.live) && AllLive(memory.live, old(memory.live) + {m}, Nodes(m.tree))
  {
    hide FirstBindings, DistinctKeys, Holds;
    var ok := memory.Grant();
    if !ok {
      return null;
    }
    m := new Map();
    memory.live := memory.live + {m};
    ok := AddAll(m, data, memory);
    if !ok {
      var _ := DeleteMap(m, memory);
      return null;
    }
  }
}
