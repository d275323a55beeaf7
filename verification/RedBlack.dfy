/** Colours, black heights and key order, on trees and on the paths around a
    subtree; what they say about the height of a tree and about its bindings. */
module RedBlack {
  import opened Tree

  ghost predicate IsRed(t: Tree) {
    t.Branch? && t.color.Red?
  }

  ghost function ColorOf(t: Tree): Color {
    if t.Leaf? then Black else t.color
  }

  /** No red node has a red child and every downward path has h black nodes. */
  ghost predicate RB(t: Tree, h: nat) {
    match t
    case Leaf => h == 0
    case Branch(Black, l, _, _, _, r) => h >= 1 && RB(l, h - 1) && RB(r, h - 1)
    case Branch(Red, l, _, _, _, r) => !IsRed(l) && !IsRed(r) && RB(l, h) && RB(r, h)
  }

  /** The path around a subtree of colour c and black height h keeps the
      red-black rules, and the root it leads to is black. */
  ghost predicate FitsPath(p: Path, c: Color, h: nat) {
    if p.Top? then c.Black? else
    && RB(Sibling(p), h)
    && (p.color.Red? ==> c.Black? && !IsRed(Sibling(p)))
    && FitsPath(p.up, p.color, if p.color.Black? then h + 1 else h)
  }

  ghost function BlackHeight(t: Tree): nat {
    match t
    case Leaf => 0
    case Branch(c, l, _, _, _, _) => BlackHeight(l) + (if c.Black? then 1 else 0)
  }

  /** A red-black tree: the root is black as well. */
  ghost predicate Balanced(t: Tree) {
    !IsRed(t) && RB(t, BlackHeight(t))
  }

  lemma {:induction false} BlackHeightUnique(t: Tree, h: nat)
    requires RB(t, h)
    ensures h == BlackHeight(t)
  {
    if t.Leaf? {
    } else {
      BlackHeightUnique(t.left, if t.color.Black? then h - 1 else h);
    }
  }

  /** A tree is a red-black tree exactly when a subtree and its path fit. */
  lemma {:induction false} BalancedPlug(p: Path, t: Tree)
    ensures Balanced(Plug(p, t)) <==> RB(t, BlackHeight(t)) && FitsPath(p, ColorOf(t), BlackHeight(t))
    decreases Depth(p)
  {
    if p.Top? {
    } else {
      var u := Up(p, t);
      BalancedPlug(p.up, u);
      if RB(u, BlackHeight(u)) {
        var h := BlackHeight(u) - (if p.color.Black? then 1 else 0);
        BlackHeightUnique(t, h);
      } else if RB(t, BlackHeight(t)) && RB(Sibling(p), BlackHeight(t)) {
        BlackHeightUnique(Sibling(p), BlackHeight(t));
      }
    }
  }

  // ---------- Height ----------

  ghost function Size(t: Tree): nat {
    if t.Leaf? then 0 else Size(t.left) + 1 + Size(t.right)
  }

  ghost function Height(t: Tree): nat {
    if t.Leaf? then 0
    else 1 + (if Height(t.left) < Height(t.right) then Height(t.right) else Height(t.left))
  }

  ghost function Pow2(n: nat): nat {
    if n == 0 then 1 else 2 * Pow2(n - 1)
  }

  lemma {:induction false} BlackHeightBounds(t: Tree, h: nat)
    requires RB(t, h)
    ensures Height(t) <= 2 * h + (if IsRed(t) then 1 else 0)
    ensures Pow2(h) <= Size(t) + 1
  {
    if t.Leaf? {
    } else {
      var g := if t.color.Black? then h - 1 else h;
      BlackHeightBounds(t.left, g);
      BlackHeightBounds(t.right, g);
    }
  }

  lemma {:induction false} Pow2Monotone(m: nat, n: nat)
    requires m <= n
    ensures Pow2(m) <= Pow2(n)
    decreases n - m
  {
    if m == n {
    } else {
      Pow2Monotone(m + 1, n);
    }
  }

  lemma {:induction false} Pow2Double(n: nat)
    ensures Pow2(2 * n) == Pow2(n) * Pow2(n)
  {
    if n == 0 {
    } else {
      Pow2Double(n - 1);
      assert Pow2(2 * n) == 4 * Pow2(2 * (n - 1));
      assert Pow2(n) * Pow2(n) == 4 * (Pow2(n - 1) * Pow2(n - 1)) by {
        var x := Pow2(n - 1);
        assert (2 * x) * (2 * x) == 4 * (x * x);
      }
    }
  }

  lemma {:induction false} SizeIsInorder(t: Tree)
    ensures Size(t) == |Inorder(t)|
  {
    if t.Leaf? {
    } else {
      SizeIsInorder(t.left);
      SizeIsInorder(t.right);
    }
  }

  /** steps is at most 2 * log2(n + 1). */
  ghost predicate Logarithmic(steps: nat, n: nat) {
    Pow2(steps) <= (n + 1) * (n + 1)
  }

  lemma HeightLogarithmic(t: Tree)
    requires Balanced(t)
    ensures Logarithmic(Height(t), Size(t))
  {
    var h := BlackHeight(t);
    BlackHeightBounds(t, h);
    Pow2Monotone(Height(t), 2 * h);
    Pow2Double(h);
    SquareMonotone(Pow2(h), Size(t) + 1);
  }

  /** No walk down a red-black tree with n bindings is longer than 2 * log2(n + 1). */
  lemma HeightBound(t: Tree, steps: nat)
    requires Balanced(t) && steps <= Height(t)
    ensures Logarithmic(steps, |Inorder(t)|)
  {
    HeightLogarithmic(t);
    SizeIsInorder(t);
    Pow2Monotone(steps, Height(t));
  }

  lemma SquareMonotone(x: nat, n: nat)
    requires x <= n
    ensures x * x <= n * n
  {
    assert x * x <= x * n;
    assert x * n <= n * n;
  }

  // ---------- Key order and bindings ----------

  ghost predicate Sorted(s: seq<Pair>) {
    forall i, j :: 0 <= i < j < |s| ==> s[i].key < s[j].key
  }

  /** The finite map listed by a strictly sorted sequence. */
  ghost function Bindings(s: seq<Pair>): map<int, int>
    requires Sorted(s)
  {
    map i | 0 <= i < |s| :: s[i].key := s[i].value
  }

  lemma BindingIn(s: seq<Pair>, k: int, v: int)
    requires Sorted(s)
    ensures Pair(k, v) in s <==> k in Bindings(s) && Bindings(s)[k] == v
  {
    if Pair(k, v) in s {
      var i :| 0 <= i < |s| && s[i] == Pair(k, v);
      assert s[i].key in Bindings(s);
    }
  }

  ghost predicate Below(s: seq<Pair>, k: int) {
    forall i :: 0 <= i < |s| ==> s[i].key < k
  }

  ghost predicate Above(s: seq<Pair>, k: int) {
    forall i :: 0 <= i < |s| ==> k < s[i].key
  }

  lemma SortedMiddle(a: seq<Pair>, x: Pair, b: seq<Pair>)
    ensures Sorted(a + [x] + b) <==> Sorted(a) && Sorted(b) && Below(a, x.key) && Above(b, x.key)
  {
    if Sorted(a + [x] + b) {
      SortedParts(a, x, b);
    }
    if Sorted(a) && Sorted(b) && Below(a, x.key) && Above(b, x.key) {
      SortedWhole(a, x, b);
    }
  }

  lemma SortedParts(a: seq<Pair>, x: Pair, b: seq<Pair>)
    requires Sorted(a + [x] + b)
    ensures Sorted(a) && Sorted(b) && Below(a, x.key) && Above(b, x.key)
  {
    var s := a + [x] + b;
    assert forall i :: 0 <= i < |a| ==> s[i] == a[i];
    assert s[|a|] == x;
    assert forall i :: 0 <= i < |b| ==> s[|a| + 1 + i] == b[i];
  }

  lemma SortedWhole(a: seq<Pair>, x: Pair, b: seq<Pair>)
    requires Sorted(a) && Sorted(b) && Below(a, x.key) && Above(b, x.key)
    ensures Sorted(a + [x] + b)
  {
    var s := a + [x] + b;
    assert forall i :: 0 <= i < |a| ==> s[i] == a[i];
    assert forall i :: |a| < i < |s| ==> s[i] == b[i - |a| - 1];
  }

  /** Taking one entry out of a sorted listing takes exactly its key out of the map. */
  lemma RemoveBinding(a: seq<Pair>, x: Pair, b: seq<Pair>)
    requires Sorted(a + [x] + b)
    ensures Sorted(a + b)
    ensures x.key !in Bindings(a + b)
    ensures Bindings(a + [x] + b) == Bindings(a + b)[x.key := x.value]
  {
    SortedMiddle(a, x, b);
    SortedConcat(a, b, x.key);
    AbsentKey(a, b, x.key);
    hide Sorted, Bindings;
    var s, r := Bindings(a + [x] + b), Bindings(a + b)[x.key := x.value];
    forall k | k in s ensures k in r && s[k] == r[k] {
      BindingIn(a + [x] + b, k, s[k]);
      BindingIn(a + b, k, s[k]);
      if k == x.key {
        BindingIn(a + [x] + b, k, x.value);
      }
    }
    forall k | k in r ensures k in s {
      if k == x.key {
        BindingIn(a + [x] + b, k, x.value);
      } else {
        BindingIn(a + b, k, r[k]);
        BindingIn(a + [x] + b, k, r[k]);
      }
    }
  }

  lemma TakenOut(s: seq<Pair>, r: seq<Pair>, a: seq<Pair>, x: Pair, b: seq<Pair>)
    requires s == a + [x] + b && r == a + b && Sorted(s)
    ensures Sorted(r) && Bindings(r) == Bindings(s) - {x.key}
  {
    RemoveBinding(a, x, b);
    var m, n := Bindings(s), Bindings(r);
    assert m == n[x.key := x.value] && x.key !in n;
    assert m - {x.key} == n;
  }

  lemma SortedConcat(a: seq<Pair>, b: seq<Pair>, k: int)
    requires Sorted(a) && Sorted(b) && Below(a, k) && Above(b, k)
    ensures Sorted(a + b)
  {
    var s := a + b;
    forall i, j | 0 <= i < j < |s| ensures s[i].key < s[j].key {
      if i < |a| <= j {
        assert s[i].key < k < s[j].key;
      }
    }
  }

  lemma AbsentKey(a: seq<Pair>, b: seq<Pair>, k: int)
    requires Sorted(a + b) && Below(a, k) && Above(b, k)
    ensures k !in Bindings(a + b)
  {
    if k in Bindings(a + b) {
      BindingIn(a + b, k, Bindings(a + b)[k]);
    }
  }

  /** The path is the one a search for key k takes. */
  ghost predicate Searches(p: Path, k: int) {
    !p.Top? ==> (if p.InLeft? then k < p.key else p.key <= k) && Searches(p.up, k)
  }

  /** Where the search for k ends, everything before is at most k and everything after above it. */
  lemma {:induction false} SearchSplits(p: Path, k: int, m: seq<Pair>)
    requires Searches(p, k) && Sorted(Before(p) + m + After(p))
    ensures forall i :: 0 <= i < |Before(p)| ==> Before(p)[i].key <= k
    ensures Above(After(p), k)
  {
    if p.Top? {
    } else {
      var x := Pair(p.key, p.value);
      UpListing(p, m);
      if p.InLeft? {
        SplitAt(Before(p) + m, x, Inorder(p.right) + After(p.up), Before(p) + m + After(p));
        SearchSplits(p.up, k, m + [x] + Inorder(p.right));
        assert After(p) == [x] + (Inorder(p.right) + After(p.up));
      } else {
        SplitAt(Before(p.up) + Inorder(p.left), x, m + After(p), Before(p) + m + After(p));
        SearchSplits(p.up, k, Inorder(p.left) + [x] + m);
      }
    }
  }

  lemma SplitAt(a: seq<Pair>, x: Pair, b: seq<Pair>, s: seq<Pair>)
    requires s == a + [x] + b && Sorted(s)
    ensures Below(a, x.key) && Above(b, x.key)
  {
    SortedMiddle(a, x, b);
  }

  // ---------- The outermost nodes of a subtree ----------

  ghost function MinPath(p: Path, t: Tree): Path
    requires t.Branch?
    decreases t
  {
    if t.left.Leaf? then p else MinPath(DownLeft(p, t), t.left)
  }

  ghost function MinTree(t: Tree): (m: Tree)
    requires t.Branch?
    ensures m.Branch? && m.left.Leaf? && m.node in Nodes(t)
  {
    if t.left.Leaf? then t else MinTree(t.left)
  }

  lemma {:induction false} MinIsPart(p: Path, t: Tree)
    requires t.Branch?
    ensures Plug(MinPath(p, t), MinTree(t)) == Plug(p, t)
    ensures Before(MinPath(p, t)) == Before(p)
    ensures MinPath(p, t).Top? ==> p.Top?
    decreases t
  {
    if t.left.Leaf? {
    } else {
      MinIsPart(DownLeft(p, t), t.left);
    }
  }
}
