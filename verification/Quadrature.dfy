/** The stepping integrator and the sum over slices, in exact reals with a step h > 0.
    From its second turn on the loop takes the sample at the left end of the strip as its
    right one, so its sum is not the trapezoid sum over all strips. */
module Quadrature {
  import opened Slices

  // ---------- What one call computes ----------

  /** How many turns the loop makes: the least n with b + n * h >= e. */
  ghost function Turns(b: real, e: real, h: real): (n: nat)
    requires h > 0.0
    ensures n == 0 <==> e <= b
    ensures n > 0 ==> Cut(b, h, n - 1) < e <= Cut(b, h, n)
    decreases (e - b) / h
  {
    if e <= b then 0 else
    OneTurnLess(e - b, h);
    var n := Turns(b + h, e, h);
    CutOn(b, h, 1, n);
    if n == 0 then 1 else CutOn(b, h, 1, n - 1); n + 1
  }

  lemma OneTurnLess(d: real, h: real)
    requires d > 0.0 && h > 0.0
    ensures d / h > 0.0 && (d - h) / h == d / h - 1.0
  {
    Quotient(d - h, d / h - 1.0, h);
  }

  lemma Quotient(x: real, q: real, h: real)
    requires h > 0.0 && x == q * h
    ensures x / h == q
  {
  }

  /** The trapezoid rule over the first n strips of width h after b. */
  ghost function Trapezoids(f: real -> real, b: real, h: real, n: nat): real {
    if n == 0 then 0.0
    else Trapezoids(f, b, h, n - 1) + h * (f(Cut(b, h, n - 1)) + f(Cut(b, h, n))) / 2.0
  }

  /** What n turns add up to: one strip when n is 1; for more, n - 1 strips and a rectangle
      at the height of the second sample. */
  ghost function Stepped(f: real -> real, b: real, h: real, n: nat): real {
    if n <= 1 then Trapezoids(f, b, h, n)
    else Trapezoids(f, b, h, n - 1) + h * f(Cut(b, h, 1))
  }

  /** Which samples turn number i (from 0) takes for the two ends of its strip. */
  ghost function LeftSample(i: nat): nat {
    if i <= 1 then i else i - 1
  }

  ghost function RightSample(i: nat): nat {
    if i == 0 then 1 else i
  }

  /** The integral of f between the two ends, in either order, as the program computes it. */
  ghost function Value(f: real -> real, b: real, e: real, h: real): real
    requires h > 0.0
  {
    var (lo, hi) := if e < b then (e, b) else (b, e);
    Stepped(f, lo, h, Turns(lo, hi, h))
  }

  method CalcIntegral(begin: real, end: real, f: real -> real, h: real) returns (res: real)
    requires h > 0.0
    ensures res == Value(f, begin, end, h)
  {
    hide Stepped, Trapezoids;
    var x, last := begin, end;
    if end < begin {
      x, last := end, begin;
    }
    ghost var first, turns, i := x, Turns(x, last, h), 0;
    res := 0.0;
    var f1 := f(x);
    var f2 := f(x + h);
    assert x + h == Cut(first, h, 1);
    while x < last
      invariant i <= turns && x == Cut(first, h, i) && res == TurnSum(f, first, h, i)
      invariant f1 == f(Cut(first, h, LeftSample(i))) && f2 == f(Cut(first, h, RightSample(i)))
      decreases turns - i
    {
      res := res + h * (f1 + f2) / 2.0;
      x := x + h;
      f1 := f2;
      f2 := f(x);
      i := i + 1;
    }
    if i < turns {
      CutGrows(first, h, i, turns - 1);
    }
    TurnSumIsStepped(f, first, h, turns);
  }

  /** The loop's sum, turn by turn. */
  ghost function TurnSum(f: real -> real, b: real, h: real, n: nat): real {
    if n == 0 then 0.0
    else TurnSum(f, b, h, n - 1) + h * (f(Cut(b, h, LeftSample(n - 1))) + f(Cut(b, h, RightSample(n - 1)))) / 2.0
  }

  lemma {:induction false} TurnSumIsStepped(f: real -> real, b: real, h: real, n: nat)
    ensures TurnSum(f, b, h, n) == Stepped(f, b, h, n)
  {
    if n <= 1 {
      if n == 1 {
        TurnSumIsStepped(f, b, h, 0);
      }
    } else {
      TurnSumIsStepped(f, b, h, n - 1);
      if n == 2 {
        SameEnds(h, f(Cut(b, h, 1)));
      } else {
        LaterTurn(f, b, h, n);
      }
    }
  }

  lemma SameEnds(h: real, y: real)
    ensures h * (y + y) / 2.0 == h * y
  {
  }

  /** From the third turn on a turn adds the strip before the current one. */
  lemma LaterTurn(f: real -> real, b: real, h: real, n: nat)
    requires n >= 3 && TurnSum(f, b, h, n - 1) == Stepped(f, b, h, n - 1)
    ensures TurnSum(f, b, h, n) == Stepped(f, b, h, n)
  {
    var strip := h * (f(Cut(b, h, n - 2)) + f(Cut(b, h, n - 1))) / 2.0;
    assert LeftSample(n - 1) == n - 2 && RightSample(n - 1) == n - 1;
    assert TurnSum(f, b, h, n) == TurnSum(f, b, h, n - 1) + strip;
    assert Trapezoids(f, b, h, n - 1) == Trapezoids(f, b, h, n - 2) + strip;
  }

  // ---------- How far the result for x * x can be from the integral ----------

  function Square(x: real): real {
    x * x
  }

  /** An antiderivative of Square. */
  ghost function Area(x: real): real {
    x * x * x / 3.0
  }

  lemma AreaGrows(x: real, y: real)
    requires x <= y
    ensures Area(x) <= Area(y)
  {
    var d, m := y - x, x + y;
    assert y * y * y - x * x * x == d * (x * x + x * y + y * y);
    assert 4.0 * (x * x + x * y + y * y) == 3.0 * (m * m) + d * d;
    NotNegative(m, m); NotNegative(d, d);
    NotNegative(d, x * x + x * y + y * y);
  }

  lemma NotNegative(x: real, y: real)
    requires x == y || (x >= 0.0 && y >= 0.0)
    ensures x * y >= 0.0
  {
  }

  /** What one strip of the trapezoid rule adds to the area under it. */
  ghost function Excess(h: real): real {
    h * h * h / 6.0
  }

  lemma StripOfSquare(a: real, h: real)
    ensures h * (Square(a) + Square(a + h)) / 2.0 == Area(a + h) - Area(a) + Excess(h)
  {
    assert (a + h) * (a + h) == a * a + 2.0 * (a * h) + h * h;
    assert (a + h) * (a + h) * (a + h) == a * a * a + 3.0 * (a * a * h) + 3.0 * (a * h * h) + h * h * h;
    assert h * (2.0 * (a * a) + 2.0 * (a * h) + h * h) == 2.0 * (a * a * h) + 2.0 * (a * h * h) + h * h * h;
  }

  lemma {:induction false} TrapezoidsOfSquare(b: real, h: real, n: nat)
    ensures Trapezoids(Square, b, h, n) == Area(Cut(b, h, n)) - Area(b) + Cut(0.0, Excess(h), n)
  {
    if n == 0 {
    } else {
      TrapezoidsOfSquare(b, h, n - 1);
      OneStripOfSquare(b, h, n);
    }
  }

  lemma OneStripOfSquare(b: real, h: real, n: nat)
    requires n > 0
    ensures Trapezoids(Square, b, h, n) - Trapezoids(Square, b, h, n - 1) ==
      Area(Cut(b, h, n)) - Area(Cut(b, h, n - 1)) + Excess(h)
  {
    hide Area, Excess;
    var x := Cut(b, h, n - 1);
    StripOfSquare(x, h);
    assert Cut(b, h, n) == x + h;
  }

  /** What the next strip of width h holds. */
  lemma NextStrip(y: real, h: real)
    ensures Area(y + h) - Area(y) == h * (y * y) + h * h * y + h * h * h / 3.0
  {
    assert (y + h) * (y + h) * (y + h) == y * y * y + 3.0 * (h * (y * y)) + 3.0 * (h * h * y) + h * h * h;
  }

  /** The further right, the more a strip holds. */
  lemma StripsGrow(x: real, y: real, h: real)
    requires 0.0 <= x <= y && h > 0.0
    ensures Area(x + h) - Area(x) <= Area(y + h) - Area(y)
    ensures Area(x) - Area(x - h) <= Area(x + h) - Area(x)
  {
    hide Area;
    NextStrip(x, h); NextStrip(y, h);
    SquaresGrow(x, y);
    NotNegative(h, h);
    Multiplied(x * x, y * y, h);
    Multiplied(x, y, h * h);
    StripBefore(x, h);
  }

  lemma SquaresGrow(x: real, y: real)
    requires 0.0 <= x <= y
    ensures x * x <= y * y
  {
    assert y * y - x * x == (y - x) * (y + x);
    NotNegative(y - x, y + x);
  }

  lemma StripBefore(x: real, h: real)
    requires x >= 0.0 && h > 0.0
    ensures Area(x) - Area(x - h) <= Area(x + h) - Area(x)
  {
    hide Area;
    NextStrip(x, h); NextStrip(x - h, h);
    NotNegative(h, h); NotNegative(h * h, x);
    assert (x - h) + h == x;
    assert h * ((x - h) * (x - h)) == h * (x * x) - 2.0 * (h * h * x) + h * h * h;
    assert h * h * (x - h) == h * h * x - h * h * h;
  }

  lemma Multiplied(x: real, y: real, h: real)
    requires x <= y && h >= 0.0
    ensures h * x <= h * y
  {
  }

  lemma OneStripMore(y: real, h: real)
    requires y >= 0.0 && h > 0.0
    ensures Area(y + h + h) - Area(y + h) >= Area(y + h) - Area(y) + Excess(h)
  {
    NextStrip(y, h); NextStrip(y + h, h);
    assert h * ((y + h) * (y + h)) == h * (y * y) + 2.0 * (h * h * y) + h * h * h;
    assert h * h * (y + h) == h * h * y + h * h * h;
    NotNegative(h * h, y); NotNegative(h * h, h);
  }

  lemma RectangleStart(b: real, h: real)
    requires b >= 0.0 && h > 0.0
    ensures h * Square(b + h) >= 0.0
    ensures h * Square(b + h) <= Area(b + h + h) - Area(b + h)
  {
    var y := b + h;
    NextStrip(y, h);
    NotNegative(h, h); NotNegative(h * h, y); NotNegative(h * h, h);
    NotNegative(y, y); NotNegative(h, y * y);
  }

  /** The rectangle and the excess of the strips before it fit into the next strip. */
  lemma {:induction false} RectangleFits(b: real, h: real, m: nat)
    requires b >= 0.0 && h > 0.0 && m >= 1
    ensures Cut(b, h, m) >= 0.0 && h * Square(Cut(b, h, 1)) >= 0.0
    ensures Cut(0.0, Excess(h), m) + h * Square(Cut(b, h, 1)) <=
      Area(Cut(b, h, m) + h) - Area(Cut(b, h, m)) + Excess(h)
  {
    hide Area, Excess, Square;
    if m == 1 {
      RectangleStart(b, h);
      assert Cut(b, h, 1) == b + h && Cut(0.0, Excess(h), 1) == Excess(h);
    } else {
      RectangleFits(b, h, m - 1);
      OneStripMore(Cut(b, h, m - 1), h);
    }
  }

  lemma {:induction false} ExcessSum(h: real, n: nat)
    requires h > 0.0
    ensures Excess(h) >= 0.0 && Cut(0.0, Excess(h), n) >= 0.0
  {
    NotNegative(h, h); NotNegative(h * h, h);
    CutGrows(0.0, Excess(h), 0, n);
  }

  /** The same bounds, for a loop of one turn. */
  lemma OneTurnBounds(b: real, e: real, h: real)
    requires 0.0 <= b < e <= b + h && h > 0.0
    ensures Area(e - h) - Area(b) <= Stepped(Square, b, h, 1) <= Area(e + h) - Area(b) + Excess(h)
  {
    AreaGrows(e - h, b);
    AreaGrows(b + h, e + h);
    TrapezoidsOfSquare(b, h, 1);
    ExcessSum(h, 1);
    AreaGrows(b, b + h);
  }

  /** The same bounds, for a loop of more turns. */
  lemma MoreTurnsBounds(b: real, e: real, h: real, n: nat)
    requires 0.0 <= b && h > 0.0
    requires n > 1 && Cut(b, h, n - 1) < e <= Cut(b, h, n)
    ensures Area(e - h) - Area(b) <= Stepped(Square, b, h, n) <= Area(e + h) - Area(b) + Excess(h)
  {
    hide Area, Excess, Square;
    var x := Cut(b, h, n - 1);
    AreaGrows(e - h, x);
    AreaGrows(x + h, e + h);
    TrapezoidsOfSquare(b, h, n - 1);
    RectangleFits(b, h, n - 1);
    ExcessSum(h, n - 1);
  }

  /** Over [b, e] the program's result for x * x lies between the area up to e - h and the
      area up to e + h with one strip's excess. */
  lemma SquareBounds(b: real, e: real, h: real)
    requires 0.0 <= b <= e && h > 0.0
    ensures Area(e - h) - Area(b) <= Value(Square, b, e, h) <= Area(e + h) - Area(b) + Excess(h)
  {
    var n := Turns(b, e, h);
    if n == 0 {
      ExcessSum(h, 0);
      AreaGrows(e - h, e);
      AreaGrows(e, e + h);
    } else {
      if n == 1 {
        OneTurnBounds(b, e, h);
      } else {
        MoreTurnsBounds(b, e, h, n);
      }
    }
  }

  // ---------- Exactly what is returned ----------

  /** The area of a strip of height y. */
  ghost function Strip(h: real, y: real): real {
    h * y
  }

  lemma MeanStrip(h: real, x: real, y: real)
    ensures h * (x + y) / 2.0 == (Strip(h, x) + Strip(h, y)) / 2.0
  {
  }

  lemma OneTrapezoidMore(f: real -> real, b: real, h: real, n: nat)
    requires n > 0
    ensures Trapezoids(f, b, h, n)
      == Trapezoids(f, b, h, n - 1) + (Strip(h, f(Cut(b, h, n - 1))) + Strip(h, f(Cut(b, h, n)))) / 2.0
  {
    MeanStrip(h, f(Cut(b, h, n - 1)), f(Cut(b, h, n)));
  }

  lemma SteppedIs(f: real -> real, b: real, h: real, n: nat)
    requires n > 0
    ensures Stepped(f, b, h, n) ==
      if n == 1 then Trapezoids(f, b, h, 1) else Trapezoids(f, b, h, n - 1) + Strip(h, f(Cut(b, h, 1)))
  {
  }

  /** The order of the ends does not matter. */
  lemma EndsInAnyOrder(f: real -> real, b: real, e: real, h: real)
    requires h > 0.0
    ensures Value(f, b, e, h) == Value(f, e, b, h)
  {
  }

  /** No turn for an empty interval, one trapezoid for one turn, and for two a rectangle more,
      at the height of the second sample. */
  lemma FirstTurns(f: real -> real, b: real, e: real, h: real)
    requires b <= e && h > 0.0
    ensures e == b ==> Value(f, b, e, h) == 0.0
    ensures b < e <= b + h ==> Value(f, b, e, h) == h * (f(b) + f(b + h)) / 2.0
    ensures b + h < e <= b + h + h ==> Value(f, b, e, h) == h * (f(b) + f(b + h)) / 2.0 + h * f(b + h)
  {
    hide Value, Stepped, Trapezoids, Turns;
    TurnsOfFirst(b, e, h);
    ValueIsStepped(f, b, e, h);
    SteppedFirst(f, b, h);
  }

  lemma ValueIsStepped(f: real -> real, b: real, e: real, h: real)
    requires b <= e && h > 0.0
    ensures Value(f, b, e, h) == Stepped(f, b, h, Turns(b, e, h))
  {
  }

  lemma SteppedFirst(f: real -> real, b: real, h: real)
    ensures Stepped(f, b, h, 0) == 0.0
    ensures Stepped(f, b, h, 1) == h * (f(b) + f(b + h)) / 2.0
    ensures Stepped(f, b, h, 2) == h * (f(b) + f(b + h)) / 2.0 + h * f(b + h)
  {
    assert Cut(b, h, 1) == b + h;
    assert Trapezoids(f, b, h, 1) == Trapezoids(f, b, h, 0) + h * (f(Cut(b, h, 0)) + f(Cut(b, h, 1))) / 2.0;
  }

  /** The number of turns is the least n with n steps from b reaching e. */
  lemma TurnsOfFirst(b: real, e: real, h: real)
    requires b <= e && h > 0.0
    ensures Turns(b, e, h) == 0 <==> e == b
    ensures Turns(b, e, h) == 1 <==> b < e <= b + h
    ensures Turns(b, e, h) == 2 <==> b + h < e <= b + h + h
  {
    TurnsAre(b, e, h, 0);
    TurnsAre(b, e, h, 1);
    TurnsAre(b, e, h, 2);
    assert Cut(b, h, 1) == b + h && Cut(b, h, 2) == b + h + h;
  }

  lemma TurnsAre(b: real, e: real, h: real, n: nat)
    requires b <= e && h > 0.0
    ensures Turns(b, e, h) == n <==> e <= Cut(b, h, n) && (n > 0 ==> Cut(b, h, n - 1) < e)
  {
    var m := Turns(b, e, h);
    hide Turns;
    if m < n {
      CutGrows(b, h, m, n - 1);
    } else if n < m {
      CutGrows(b, h, n, m - 1);
    }
  }

  /** From the third turn on, a turn more adds the strip before its own. */
  lemma OneTurnMore(f: real -> real, b: real, e: real, further: real, h: real)
    requires b <= e && h > 0.0 && Turns(b, e, h) >= 2 && b <= further && Turns(b, further, h) == Turns(b, e, h) + 1
    ensures var n := Turns(b, e, h);
      Value(f, b, further, h) == Value(f, b, e, h) + (Strip(h, f(Cut(b, h, n - 1))) + Strip(h, f(Cut(b, h, n)))) / 2.0
  {
    hide Strip, Stepped, Trapezoids, Turns, Value;
    ValueIsStepped(f, b, e, h);
    ValueIsStepped(f, b, further, h);
    SteppedIs(f, b, h, Turns(b, e, h));
    SteppedIs(f, b, h, Turns(b, e, h) + 1);
    OneTrapezoidMore(f, b, h, Turns(b, e, h));
  }

  /** The result for x * x, exactly. */
  lemma SquareExactly(b: real, e: real, h: real)
    requires b <= e && h > 0.0 && Turns(b, e, h) >= 2
    ensures var n := Turns(b, e, h);
      Value(Square, b, e, h)
      == Area(Cut(b, h, n - 1)) - Area(b) + Cut(0.0, Excess(h), n - 1) + Strip(h, Square(b + h))
  {
    hide Value, Turns, Area, Excess, Square, Strip, Stepped, Trapezoids;
    ValueIsStepped(Square, b, e, h);
    SteppedIs(Square, b, h, Turns(b, e, h));
    TrapezoidsOfSquare(b, h, Turns(b, e, h) - 1);
    assert Cut(b, h, 1) == b + h;
  }

  /** A straight line, and an antiderivative of it. */
  function Line(p: real, q: real): real -> real {
    x => p * x + q
  }

  ghost function UnderLine(p: real, q: real, x: real): real {
    p * (x * x) / 2.0 + q * x
  }

  lemma StripOfLine(p: real, q: real, x: real, h: real)
    ensures h * (Line(p, q)(x) + Line(p, q)(x + h)) / 2.0 == UnderLine(p, q, x + h) - UnderLine(p, q, x)
  {
    assert (x + h) * (x + h) == x * x + 2.0 * (x * h) + h * h;
    assert p * ((x + h) * (x + h)) == p * (x * x) + 2.0 * (p * (x * h)) + p * (h * h);
    assert h * (p * x + q + (p * (x + h) + q)) == 2.0 * (p * (x * h)) + p * (h * h) + 2.0 * (q * h);
  }

  lemma {:induction false} TrapezoidsOfLine(p: real, q: real, b: real, h: real, n: nat)
    ensures Trapezoids(Line(p, q), b, h, n) == UnderLine(p, q, Cut(b, h, n)) - UnderLine(p, q, b)
  {
    hide UnderLine, Line;
    if n == 0 {
    } else {
      TrapezoidsOfLine(p, q, b, h, n - 1);
      StripOfLine(p, q, Cut(b, h, n - 1), h);
      assert Cut(b, h, n) == Cut(b, h, n - 1) + h;
    }
  }

  /** For a straight line all but the odd rectangle is exact. */
  lemma LineExactly(p: real, q: real, b: real, e: real, h: real)
    requires b <= e && h > 0.0 && Turns(b, e, h) >= 1
    ensures var (n, f) := (Turns(b, e, h), Line(p, q));
      Value(f, b, e, h) ==
      if n == 1 then UnderLine(p, q, b + h) - UnderLine(p, q, b)
      else UnderLine(p, q, Cut(b, h, n - 1)) - UnderLine(p, q, b) + Strip(h, f(b + h))
  {
    hide Value, Turns, UnderLine, Line, Strip, Stepped, Trapezoids;
    var n := Turns(b, e, h);
    SteppedIs(Line(p, q), b, h, n);
    ValueIsStepped(Line(p, q), b, e, h);
    TrapezoidsOfLine(p, q, b, h, if n == 1 then 1 else n - 1);
    assert Cut(b, h, 1) == b + h;
  }

  // ---------- Any function that grows ----------

  /** f does not fall from one cut to a later one. */
  ghost predicate Grows(f: real -> real, b: real, h: real, n: nat) {
    forall i: nat, j: nat :: i <= j <= n ==> f(Cut(b, h, i)) <= f(Cut(b, h, j))
  }

  /** The rectangles below f on the first n strips, and those above it. */
  ghost function LowerSum(f: real -> real, b: real, h: real, n: nat): real {
    if n == 0 then 0.0 else LowerSum(f, b, h, n - 1) + Strip(h, f(Cut(b, h, n - 1)))
  }

  ghost function UpperSum(f: real -> real, b: real, h: real, n: nat): real {
    if n == 0 then 0.0 else UpperSum(f, b, h, n - 1) + Strip(h, f(Cut(b, h, n)))
  }

  lemma Wider(h: real, x: real, y: real)
    requires h >= 0.0 && x <= y
    ensures Strip(h, x) <= Strip(h, y)
  {
  }

  lemma StripsApart(h: real, x: real, y: real)
    ensures Strip(h, y - x) == Strip(h, y) - Strip(h, x)
  {
  }

  lemma {:induction false} TrapezoidsBetween(f: real -> real, b: real, h: real, n: nat)
    requires h > 0.0 && Grows(f, b, h, n)
    ensures LowerSum(f, b, h, n) <= Trapezoids(f, b, h, n) <= UpperSum(f, b, h, n)
  {
    hide Strip;
    if n == 0 {
    } else {
      TrapezoidsBetween(f, b, h, n - 1);
      OneTrapezoidMore(f, b, h, n);
      hide Trapezoids;
      Wider(h, f(Cut(b, h, n - 1)), f(Cut(b, h, n)));
    }
  }

  /** The two sums differ by one strip as high as f grows. */
  lemma {:induction false} SumsApart(f: real -> real, b: real, h: real, n: nat)
    ensures UpperSum(f, b, h, n) - LowerSum(f, b, h, n) == Strip(h, f(Cut(b, h, n)) - f(b))
  {
    StripsApart(h, f(b), f(Cut(b, h, n)));
    hide Strip;
    if n == 0 {
    } else {
      SumsApart(f, b, h, n - 1);
      StripsApart(h, f(b), f(Cut(b, h, n - 1)));
    }
  }

  /** The turns' sum is not above the upper sum, and below the lower one by at most one strip
      as high as f grows. */
  lemma SteppedBetween(f: real -> real, b: real, h: real, n: nat)
    requires h > 0.0 && n > 0 && Grows(f, b, h, n)
    ensures LowerSum(f, b, h, n) - Strip(h, f(Cut(b, h, n - 1)) - f(b)) <= Stepped(f, b, h, n)
    ensures Stepped(f, b, h, n) <= UpperSum(f, b, h, n)
  {
    hide Strip, Stepped, Trapezoids;
    StripsApart(h, f(b), f(Cut(b, h, n - 1)));
    SteppedIs(f, b, h, n);
    assert f(Cut(b, h, 0)) <= f(Cut(b, h, 1)) <= f(Cut(b, h, n));
    Wider(h, f(b), f(Cut(b, h, 1)));
    Wider(h, f(Cut(b, h, 1)), f(Cut(b, h, n)));
    TrapezoidsBetween(f, b, h, if n == 1 then 1 else n - 1);
  }

  /** For any f that grows, the result is off by at most two strips as high as f grows, from
      whatever lies between the lower and the upper sum on the strips the loop runs over. */
  lemma GrowingBounds(f: real -> real, b: real, e: real, h: real, area: real)
    requires b <= e && h > 0.0 && Grows(f, b, h, Turns(b, e, h))
    requires LowerSum(f, b, h, Turns(b, e, h)) <= area <= UpperSum(f, b, h, Turns(b, e, h))
    ensures var off := Strip(h, f(Cut(b, h, Turns(b, e, h))) - f(b));
      area - off - off <= Value(f, b, e, h) <= area + off
  {
    hide Strip, Stepped, Cut;
    var n := Turns(b, e, h);
    SumsApart(f, b, h, n);
    if n == 0 {
      NoTurns(f, b, h);
    } else {
      SteppedBetween(f, b, h, n);
      assert f(Cut(b, h, n - 1)) <= f(Cut(b, h, n));
      Wider(h, f(Cut(b, h, n - 1)) - f(b), f(Cut(b, h, n)) - f(b));
    }
  }

  lemma NoTurns(f: real -> real, b: real, h: real)
    ensures Stepped(f, b, h, 0) == 0.0 && Strip(h, f(Cut(b, h, 0)) - f(b)) == 0.0
  {
  }

  // ---------- All slices ----------

  /** What an integrator g gives for the first n slices of width w after b, added up. */
  ghost function SliceSum(g: (real, real) -> real, b: real, w: real, n: nat): real {
    if n == 0 then 0.0
    else SliceSum(g, b, w, n - 1) + g(Cut(b, w, n - 1), Cut(b, w, n))
  }

  /** The integrator above, for f and h. */
  ghost function Stepping(f: real -> real, h: real): (g: (real, real) -> real)
    requires h > 0.0
  {
    (b, e) => Value(f, b, e, h)
  }

  /** What the system gives one machine: its processors, and whether memory and threads are
      granted. */
  datatype Machine = Machine(cpus: nat, memory: bool, started: bool)

  /** The threads of one machine: each slice has its own integrator, the slices behind the
      last thread are computed as well and not added. Only the threads whose results are
      added are waited for; unjoined is the number of the others when their records are
      freed. A missing function or result is given as false; the result is stored only on
      success. */
  method Integrate(machine: Machine, threads: nat, begin: real, end: real, given: bool, f: real -> real, h: real,
                   wanted: bool, stored: real)
    returns (status: Status, result: real, unjoined: nat)
    requires h > 0.0
    ensures status ==
      if threads == 0 || !given || !wanted then E_INVAL
      else if !machine.memory then E_MEM else if !machine.started then E_THREAD else SUCCESS
    ensures status != SUCCESS ==> result == stored
    ensures status == SUCCESS ==> result == SliceSum(Stepping(f, h), begin, (end - begin) / threads as real, threads)
    ensures status == SUCCESS ==> (unjoined == 0 <==> threads >= machine.cpus)
  {
    result, unjoined := stored, 0;
    if threads == 0 || !given || !wanted {
      return E_INVAL, result, unjoined;
    }
    if !machine.memory {
      return E_MEM, result, unjoined;
    }
    var created := if threads > machine.cpus then threads else machine.cpus;
    var infos := new Slice[created](_ => Slice(0.0, 0.0));
    var filled := FillThreadInfo(infos, begin, end, threads);
    if !machine.started {
      return E_THREAD, result, unjoined;
    }
    ghost var w, g := (end - begin) / threads as real, Stepping(f, h);
    var parts := RunThreads(infos, f, h);
    result := AddParts(parts, threads, g, begin, w);
    status, unjoined := SUCCESS, created - threads;
  }

  method AddParts(parts: array<real>, threads: nat, ghost g: (real, real) -> real, ghost b: real, ghost w: real)
    returns (result: real)
    requires threads <= parts.Length
    requires forall k :: 0 <= k < threads ==> parts[k] == g(Cut(b, w, k), Cut(b, w, k + 1))
    ensures result == SliceSum(g, b, w, threads)
  {
    result := 0.0;
    for i := 0 to threads
      invariant result == SliceSum(g, b, w, i)
    {
      result := result + parts[i];
    }
  }

  /** Every thread integrates over its own slice. */
  method RunThreads(infos: array<Slice>, f: real -> real, h: real) returns (parts: array<real>)
    requires h > 0.0
    ensures fresh(parts) && parts.Length == infos.Length
    ensures forall k :: 0 <= k < infos.Length ==> parts[k] == Stepping(f, h)(infos[k].begin, infos[k].end)
  {
    hide Value;
    parts := new real[infos.Length](_ => 0.0);
    for i := 0 to infos.Length
      invariant forall k :: 0 <= k < i ==> parts[k] == Stepping(f, h)(infos[k].begin, infos[k].end)
    {
      parts[i] := CalcIntegral(infos[i].begin, infos[i].end, f, h);
    }
  }

  lemma {:induction false} SliceSumOn(g: (real, real) -> real, b: real, w: real, k: nat, n: nat)
    ensures SliceSum(g, b, w, k + n) == SliceSum(g, b, w, k) + SliceSum(g, Cut(b, w, k), w, n)
  {
    if n == 0 {
    } else {
      SliceSumOn(g, b, w, k, n - 1);
      CutOn(b, w, k, n - 1);
      CutOn(b, w, k, n);
    }
  }

  lemma {:induction false} SlicesTelescope(g: (real, real) -> real, area: real -> real, b: real, w: real, n: nat)
    requires forall x, y :: g(x, y) == area(y) - area(x)
    ensures SliceSum(g, b, w, n) == area(Cut(b, w, n)) - area(b)
  {
    if n == 0 {
    } else {
      SlicesTelescope(g, area, b, w, n - 1);
    }
  }

  /** An integrator that is exact for an antiderivative adds up to all of the interval: no
      slice is left out or taken twice. */
  lemma SlicesAddUp(g: (real, real) -> real, area: real -> real, b: real, e: real, n: nat)
    requires n > 0 && forall x, y :: g(x, y) == area(y) - area(x)
    ensures SliceSum(g, b, (e - b) / n as real, n) == area(e) - area(b)
  {
    CutEnd(b, e, n);
    SlicesTelescope(g, area, b, (e - b) / n as real, n);
  }

  /** What a machine reports for its task. */
  ghost function TaskPart(g: (real, real) -> real, t: Task): real
    requires t.threads > 0
  {
    SliceSum(g, t.begin, (t.end - t.begin) / t.threads as real, t.threads)
  }

  /** What the machines with the first m tasks report, added up. */
  ghost function TaskSum(g: (real, real) -> real, tasks: seq<Task>, m: nat): real
    requires m <= |tasks| && forall i :: 0 <= i < m ==> tasks[i].threads > 0
  {
    if m == 0 then 0.0 else TaskSum(g, tasks, m - 1) + TaskPart(g, tasks[m - 1])
  }

  /** Distributing the work over machines does not change the result. */
  lemma {:induction false} DistributionKeepsResult(g: (real, real) -> real, tasks: seq<Task>, m: nat, b: real, w: real)
    requires m <= |tasks| && Tiles(tasks, |tasks|, b, w)
    ensures forall i :: 0 <= i < m ==> tasks[i].threads > 0
    ensures TaskSum(g, tasks, m) == SliceSum(g, b, w, SlicesBefore(tasks, m))
  {
    if m == 0 {
    } else {
      DistributionKeepsResult(g, tasks, m - 1, b, w);
      SlicesAreGlobal(tasks, b, w, m - 1, 0);
      assert tasks[m - 1].begin == Cut(b, w, SlicesBefore(tasks, m - 1));
      SliceSumOn(g, b, w, SlicesBefore(tasks, m - 1), tasks[m - 1].threads);
    }
  }

  /** What the server is given for one machine: whether the thread that waits for the
      machine's report can be started, and the machine. */
  datatype Worker = Worker(handled: bool, machine: Machine)

  /** The first m workers are handled and have what they need. */
  ghost predicate AllGrant(workers: seq<Worker>, m: nat)
    requires m <= |workers|
  {
    forall i :: 0 <= i < m ==> workers[i].handled && workers[i].machine.memory && workers[i].machine.started
  }

  /** The server: the work is divided, one machine takes each task, and what they report is
      added up; memory and table are the server's two allocations, for the tasks and for its
      threads. All is given exactly if both are granted and all that take a task grant what
      is asked for. */
  method Compute(workers: seq<Worker>, threads: nat, begin: real, end: real, f: real -> real, h: real,
                 memory: bool, table: bool)
    returns (status: Status, result: real)
    requires h > 0.0
    ensures status ==
      if |workers| == 0 || threads == 0 then E_INVAL
      else if !memory || !table then E_MEM
      else if AllGrant(workers, if |workers| < threads then |workers| else threads) then SUCCESS
      else E_THREAD
    ensures status == SUCCESS ==>
      result == SliceSum(Stepping(f, h), begin, (end - begin) / threads as real, threads)
  {
    result := 0.0;
    var tasks;
    tasks, status := DivideWork(|workers|, threads, begin, end, memory);
    if tasks != null {
      status, result := AskAll(workers, tasks[..], f, h, table, begin, (end - begin) / threads as real);
    }
  }

  /** A thread is started for every task, and then what the machines report is added up; one
      that reports nothing fails the whole. */
  method AskAll(workers: seq<Worker>, tasks: seq<Task>, f: real -> real, h: real, table: bool,
                ghost b: real, ghost w: real)
    returns (status: Status, result: real)
    requires h > 0.0 && |tasks| <= |workers| && Tiles(tasks, |tasks|, b, w)
    ensures status == if !table then E_MEM else if AllGrant(workers, |tasks|) then SUCCESS else E_THREAD
    ensures status == SUCCESS ==> result == SliceSum(Stepping(f, h), b, w, SlicesBefore(tasks, |tasks|))
  {
    hide SliceSum, Stepping, SlicesBefore;
    ghost var g := Stepping(f, h);
    result := 0.0;
    if !table {
      return E_MEM, result;
    }
    for i := 0 to |tasks|
      invariant forall k :: 0 <= k < i ==> workers[k].handled
    {
      if !workers[i].handled {
        return E_THREAD, result;
      }
    }
    NoneReported(g, tasks, b, w);
    for i := 0 to |tasks|
      invariant result == SliceSum(g, b, w, SlicesBefore(tasks, i)) && AllGrant(workers, i)
    {
      assert InPlace(tasks, i, b, w);
      var error, part := Ask(workers[i].machine, tasks[i], f, h);
      if error != SUCCESS {
        return E_THREAD, 0.0;
      }
      OneReported(g, tasks, i, b, w);
      result := result + part;
    }
    status := SUCCESS;
  }

  method Ask(machine: Machine, t: Task, f: real -> real, h: real) returns (status: Status, part: real)
    requires h > 0.0 && t.threads > 0
    ensures status == SUCCESS <==> machine.memory && machine.started
    ensures status == SUCCESS ==> part == TaskPart(Stepping(f, h), t)
  {
    var unjoined: nat;
    status, part, unjoined := Integrate(machine, t.threads, t.begin, t.end, true, f, h, true, 0.0);
  }

  lemma NoneReported(g: (real, real) -> real, tasks: seq<Task>, b: real, w: real)
    ensures SliceSum(g, b, w, SlicesBefore(tasks, 0)) == 0.0
  {
  }

  /** What machine i reports is what its slices add. */
  lemma OneReported(g: (real, real) -> real, tasks: seq<Task>, i: nat, b: real, w: real)
    requires i < |tasks| && Tiles(tasks, |tasks|, b, w)
    ensures tasks[i].threads > 0
    ensures var t := tasks[i];
      SliceSum(g, b, w, SlicesBefore(tasks, i + 1)) == SliceSum(g, b, w, SlicesBefore(tasks, i)) + TaskPart(g, t)
  {
    assert InPlace(tasks, i, b, w);
    SlicesAreGlobal(tasks, b, w, i, 0);
    SliceSumOn(g, b, w, SlicesBefore(tasks, i), tasks[i].threads);
  }

  /** How far off n slices that end at e can be. */
  ghost function Off(e: real, h: real, n: nat): real {
    Cut(0.0, Area(e + h) - Area(e) + Excess(h), n)
  }

  /** For x * x over n slices the result is off by at most n times what one strip beyond the
      end holds, and an excess. */
  lemma {:induction false} SliceSumOfSquare(b: real, w: real, n: nat, h: real)
    requires b >= 0.0 && w >= 0.0 && h > 0.0
    ensures var e := Cut(b, w, n);
      && e >= b
      && Area(e) - Area(b) - Off(e, h, n) <= SliceSum(Stepping(Square, h), b, w, n) <= Area(e) - Area(b) + Off(e, h, n)
  {
    hide Area, Value, Excess;
    CutGrows(b, w, 0, n);
    if n == 0 {
    } else {
      SliceSumOfSquare(b, w, n - 1, h);
      var d, e := Cut(b, w, n - 1), Cut(b, w, n);
      SquareBounds(d, e, h);
      StripsGrow(d, e, h);
      StripsGrow(e, e, h);
      ExcessSum(h, 1);
      OffGrows(Area(d + h) - Area(d) + Excess(h), Area(e + h) - Area(e) + Excess(h), n - 1);
    }
  }

  lemma {:induction false} OffGrows(x: real, y: real, n: nat)
    requires x <= y
    ensures Cut(0.0, x, n) <= Cut(0.0, y, n)
  {
    if n == 0 {
    } else {
      OffGrows(x, y, n - 1);
    }
  }

  /** The result of all machines for x * x when their n slices have width w. */
  lemma TiledResult(tasks: seq<Task>, n: nat, b: real, w: real, e: real, h: real)
    requires b >= 0.0 && w >= 0.0 && h > 0.0 && e == Cut(b, w, n)
    requires Tiles(tasks, |tasks|, b, w) && SlicesBefore(tasks, |tasks|) == n
    ensures forall i :: 0 <= i < |tasks| ==> tasks[i].threads > 0
    ensures Area(e) - Area(b) - Off(e, h, n) <= TaskSum(Stepping(Square, h), tasks, |tasks|)
    ensures TaskSum(Stepping(Square, h), tasks, |tasks|) <= Area(e) - Area(b) + Off(e, h, n)
  {
    DistributionKeepsResult(Stepping(Square, h), tasks, |tasks|, b, w);
    SliceSumOfSquare(b, w, n, h);
  }

  /** The server's result for x * x is off by at most Off, n being the number of threads over
      all machines. */
  lemma ServerResult(n: nat, b: real, e: real, h: real)
    requires n > 0 && 0.0 <= b <= e && h > 0.0
    ensures var r := SliceSum(Stepping(Square, h), b, (e - b) / n as real, n);
      Area(e) - Area(b) - Off(e, h, n) <= r <= Area(e) - Area(b) + Off(e, h, n)
  {
    hide Area, Off, Stepping;
    CutEnd(b, e, n);
    SliceSumOfSquare(b, (e - b) / n as real, n, h);
  }

  /** What all machines together report for x * x is off by at most Off, n being the number
      of threads over all machines. */
  lemma DistributedResult(tasks: seq<Task>, n: nat, b: real, e: real, h: real)
    requires n > 0 && 0.0 <= b <= e && h > 0.0
    requires Tiles(tasks, |tasks|, b, (e - b) / n as real) && SlicesBefore(tasks, |tasks|) == n
    ensures forall i :: 0 <= i < |tasks| ==> tasks[i].threads > 0
    ensures Area(e) - Area(b) - Off(e, h, n) <= TaskSum(Stepping(Square, h), tasks, |tasks|)
    ensures TaskSum(Stepping(Square, h), tasks, |tasks|) <= Area(e) - Area(b) + Off(e, h, n)
  {
    CutEnd(b, e, n);
    TiledResult(tasks, n, b, (e - b) / n as real, e, h);
  }
}
