/** The value-level layout rules both versions of the library share: the affine
    coordinate formula, the alignment deltas, the single-line yCorrection
    arithmetic, and the ordering addShapes gives a group's shapes. */
module Layout {
  import opened Js

  /* ---------------------------------------------------------------------- */
  /* Coordinates                                                             */
  /* ---------------------------------------------------------------------- */

  /** Absolute coordinate: `measureOffset * scale + pixelOffset`, recomputed on
      every read of x or y. */
  function Coord(measureOffset: Number, scale: Number, pixelOffset: Number): (c: Number)
    ensures c.Finite? <==> measureOffset.Finite? && scale.Finite? && pixelOffset.Finite?
    ensures c.Finite? ==> c.r == measureOffset.r * scale.r + pixelOffset.r
  {
    measureOffset.Times(scale).Plus(pixelOffset)
  }

  /** Adding d to the pixel offset moves the coordinate by exactly d (also when
      something is NaN: then both sides are NaN). */
  lemma CoordPixelShift(measureOffset: Number, scale: Number, pixelOffset: Number, d: Number)
    ensures Coord(measureOffset, scale, pixelOffset.Plus(d)) == Coord(measureOffset, scale, pixelOffset).Plus(d)
  {
  }

  /** Changing only the scale moves the coordinate by measureOffset * (new - old). */
  lemma {:induction false} CoordScaleChange(measureOffset: Number, pixelOffset: Number, before: Number, after: Number)
    requires measureOffset.Finite? && pixelOffset.Finite? && before.Finite? && after.Finite?
    ensures Coord(measureOffset, after, pixelOffset)
         == Coord(measureOffset, before, pixelOffset).Plus(measureOffset.Times(after.Minus(before)))
  {
    var m, a, b := measureOffset.r, after.r, before.r;
    assert m * a == m * b + m * (a - b);
  }

  /** Two nodes on the same scale shifted by the same four deltas keep their
      distance: a container and its children move rigidly. */
  lemma {:induction false} RigidTranslation(parentMeasure: Number, parentPixel: Number,
                                            childMeasure: Number, childPixel: Number,
                                            dMeasure: Number, dPixel: Number, scale: Number)
    requires parentMeasure.Finite? && parentPixel.Finite? && childMeasure.Finite? && childPixel.Finite?
    requires dMeasure.Finite? && dPixel.Finite? && scale.Finite?
    ensures Coord(childMeasure.Plus(dMeasure), scale, childPixel.Plus(dPixel))
              .Minus(Coord(parentMeasure.Plus(dMeasure), scale, parentPixel.Plus(dPixel)))
         == Coord(childMeasure, scale, childPixel).Minus(Coord(parentMeasure, scale, parentPixel))
  {
    var c, p, d, s := childMeasure.r, parentMeasure.r, dMeasure.r, scale.r;
    assert (c + d) * s - (p + d) * s == c * s - p * s;
  }

  /** Shifting a node's four offsets by another node's four offsets on the same
      scale adds the two absolute coordinates. */
  lemma {:induction false} CoordSum(childMeasure: Number, childPixel: Number,
                                    byMeasure: Number, byPixel: Number, scale: Number)
    requires childMeasure.Finite? && childPixel.Finite? && byMeasure.Finite? && byPixel.Finite? && scale.Finite?
    ensures Coord(childMeasure.Plus(byMeasure), scale, childPixel.Plus(byPixel))
         == Coord(childMeasure, scale, childPixel).Plus(Coord(byMeasure, scale, byPixel))
  {
    var c, b, s := childMeasure.r, byMeasure.r, scale.r;
    assert (c + b) * s == c * s + b * s;
  }

  /* ---------------------------------------------------------------------- */
  /* Alignment                                                               */
  /* ---------------------------------------------------------------------- */

  datatype Direction = Top | Left | CenterX | CenterY | Right | Bottom {
    predicate Horizontal() {
      Left? || CenterX? || Right?
    }

    /** The case label of the switch in align. */
    function Name(): string {
      match this
      case Top => "top"
      case Left => "left"
      case CenterX => "centerX"
      case CenterY => "centerY"
      case Right => "right"
      case Bottom => "bottom"
    }
  }

  /** The switch in align: a string selects the case it labels, and any other
      string matches no case. */
  function ParseDirection(s: string): (r: Option<Direction>)
    ensures r.Some? ==> r.value.Name() == s
    ensures r.None? ==> forall d: Direction :: d.Name() != s
  {
    if s == "top" then Some(Top)
    else if s == "left" then Some(Left)
    else if s == "centerX" then Some(CenterX)
    else if s == "centerY" then Some(CenterY)
    else if s == "right" then Some(Right)
    else if s == "bottom" then Some(Bottom)
    else None
  }

  /** A box as align reads it: x, y, width and height in pixels. */
  datatype Bounds = Bounds(x: Number, y: Number, width: Number, height: Number) {
    predicate IsFinite() {
      x.Finite? && y.Finite? && width.Finite? && height.Finite?
    }

    /** offsetRight */
    function Right(): Number {
      x.Plus(width)
    }

    /** offsetBottom */
    function Bottom(): Number {
      y.Plus(height)
    }

    function Shifted(s: Shift): Bounds {
      Bounds(x.Plus(s.dx), y.Plus(s.dy), width, height)
    }
  }

  /** The pixel deltas align passes to move as its third and fourth arguments. */
  datatype Shift = Shift(dx: Number, dy: Number)

  /** Where a box stands after it is aligned in direction dir against the
      container box c; biasY is added on the vertical axis. */
  predicate Placed(dir: Direction, e: Bounds, c: Bounds, biasY: Number) {
    match dir
    case Left => e.x == c.x
    case CenterX => e.x == c.x.Plus(c.width.Minus(e.width).Half())
    case Right => e.Right() == c.Right()
    case Top => e.y == c.y.Plus(biasY)
    case CenterY => e.y == c.y.Plus(c.height.Minus(e.height).Half()).Plus(biasY)
    case Bottom => e.Bottom() == c.Bottom().Plus(biasY)
  }

  /** Every case label selects its own case. */
  lemma ParseName(d: Direction)
    ensures ParseDirection(d.Name()) == Some(d)
  {
  }

  /** The single delta align computes. Horizontal directions move only x and
      vertical ones only y; on finite inputs the shifted box is Placed; a NaN
      bias poisons every vertical delta. */
  function AlignShift(dir: Direction, e: Bounds, c: Bounds, biasY: Number): (s: Shift)
    ensures dir.Horizontal() ==> s.dy == Zero
    ensures !dir.Horizontal() ==> s.dx == Zero
    ensures e.IsFinite() && c.IsFinite() && biasY.Finite? ==>
              s.dx.Finite? && s.dy.Finite? && Placed(dir, e.Shifted(s), c, biasY)
    ensures !dir.Horizontal() && biasY.NaN? ==> s.dy.NaN?
  {
    var biasX := Zero;
    match dir
    case Top => Shift(Zero, c.y.Minus(e.y).Plus(biasY))
    case Left => Shift(c.x.Minus(e.x).Plus(biasX), Zero)
    case CenterX => Shift(c.width.Minus(e.width).Half().Minus(e.x.Minus(c.x)).Plus(biasX), Zero)
    case CenterY => Shift(Zero, c.height.Minus(e.height).Half().Minus(e.y.Minus(c.y)).Plus(biasY))
    case Right => Shift(c.width.Minus(e.width).Plus(c.x.Minus(e.x)).Plus(biasX), Zero)
    case Bottom => Shift(Zero, c.height.Minus(e.height).Plus(c.y.Minus(e.y)).Plus(biasY))
  }

  /** A box that is already Placed gets a zero delta: aligning twice against
      unchanged container bounds is the same as aligning once. */
  lemma AlignedIsFixedPoint(dir: Direction, e: Bounds, c: Bounds, biasY: Number)
    requires e.IsFinite() && c.IsFinite() && biasY.Finite?
    requires Placed(dir, e, c, biasY)
    ensures AlignShift(dir, e, c, biasY) == Shift(Zero, Zero)
  {
  }

  lemma AlignTwice(dir: Direction, e: Bounds, c: Bounds, biasY: Number)
    requires e.IsFinite() && c.IsFinite() && biasY.Finite?
    ensures AlignShift(dir, e.Shifted(AlignShift(dir, e, c, biasY)), c, biasY) == Shift(Zero, Zero)
  {
    AlignedIsFixedPoint(dir, e.Shifted(AlignShift(dir, e, c, biasY)), c, biasY);
  }

  /* ---------------------------------------------------------------------- */
  /* CText.yCorrection without a fixed width                                 */
  /* ---------------------------------------------------------------------- */

  /** Both line counts are 1, so the correction is
      `1 * newFontSize - 1 * currentFontSize`: the change in a one-line text's height. */
  function SingleLineCorrection(currentFontSize: Number, newFontSize: Number): (c: Number)
    ensures currentFontSize.Finite? && newFontSize.Finite? ==>
              c == Finite(newFontSize.r - currentFontSize.r)
    ensures currentFontSize.NaN? || newFontSize.NaN? ==> c.NaN?
  {
    Finite(1.0).Times(newFontSize).Minus(Finite(1.0).Times(currentFontSize))
  }

  /* ---------------------------------------------------------------------- */
  /* Ordering of addShapes                                                   */
  /* ---------------------------------------------------------------------- */

  /** Array.prototype.reverse as a value. */
  function Reversed<T>(s: seq<T>): (r: seq<T>)
    ensures |r| == |s|
  {
    if s == [] then [] else [s[|s| - 1]] + Reversed(s[..|s| - 1])
  }

  lemma {:induction false} ReversedAt<T>(s: seq<T>, k: nat)
    requires k < |s|
    ensures Reversed(s)[k] == s[|s| - 1 - k]
  {
    if k > 0 {
      ReversedAt(s[..|s| - 1], k - 1);
    }
  }

  /** Reversing twice gives the list back: with both `reverse` and `unshift`,
      the new shapes end up in front in their original order. */
  lemma {:induction false} ReversedTwice<T>(s: seq<T>)
    ensures Reversed(Reversed(s)) == s
  {
    forall k | 0 <= k < |s|
      ensures Reversed(Reversed(s))[k] == s[k]
    {
      ReversedAt(Reversed(s), k);
      ReversedAt(s, |s| - 1 - k);
    }
  }

  /** Reversing only reorders. */
  lemma {:induction false} ReversedPermutes<T>(s: seq<T>)
    ensures multiset(Reversed(s)) == multiset(s)
  {
    if s != [] {
      ReversedPermutes(s[..|s| - 1]);
      assert s == s[..|s| - 1] + [s[|s| - 1]];
    }
  }

  /** Pushing the next element of the list, or unshifting it, extends the
      order the loop of addShapes has built so far. */
  lemma ReversedSnoc<T>(s: seq<T>, x: T)
    ensures Reversed(s + [x]) == [x] + Reversed(s)
  {
    assert (s + [x])[..|s|] == s;
  }

  /** `shapes.reverse()` in place. */
  method ReverseInPlace<T>(a: array<T>)
    modifies a
    ensures a[..] == Reversed(old(a[..]))
  {
    var n := a.Length;
    var i := 0;
    while i < n / 2
      invariant 0 <= i <= n / 2
      invariant forall k :: 0 <= k < i ==> a[k] == old(a[n - 1 - k]) && a[n - 1 - k] == old(a[k])
      invariant forall k :: i <= k < n - i ==> a[k] == old(a[k])
    {
      a[i], a[n - 1 - i] := a[n - 1 - i], a[i];
      i := i + 1;
    }
    ghost var before := old(a[..]);
    forall k | 0 <= k < n
      ensures a[..][k] == Reversed(before)[k]
    {
      ReversedAt(before, k);
    }
  }

  /* ---------------------------------------------------------------------- */
  /* Visiting a sequence of disjoint parts                                   */
  /* ---------------------------------------------------------------------- */

  /** The prefix of full length is the whole sequence. */
  lemma Whole<T>(s: seq<T>, i: nat)
    requires i == |s|
    ensures s[..i] == s
  {
  }

  /** Pushing (or unshifting) the next item extends the order built so far. */
  lemma Extended<T>(items: seq<T>, i: nat, start: seq<T>, unshift: bool, built: seq<T>)
    requires i < |items|
    requires built == if unshift then Reversed(items[..i]) + start else start + items[..i]
    ensures (if unshift then [items[i]] + built else built + [items[i]])
         == if unshift then Reversed(items[..i + 1]) + start else start + items[..i + 1]
  {
    assert items[..i + 1] == items[..i] + [items[i]];
    ReversedSnoc(items[..i], items[i]);
  }

  /** One more part is visited: the visited set grows by it, and the parts
      after it stay apart from a set that grows by it too. */
  lemma Grow<T>(parts: seq<set<T>>, added: set<T>, repr: set<T>, i: nat)
    requires i < |parts|
    requires forall k :: 0 <= k < i ==> parts[k] <= added
    requires forall k :: i <= k < |parts| ==> parts[k] !! repr
    requires forall k, l :: 0 <= k < l < |parts| ==> parts[k] !! parts[l]
    ensures forall k :: 0 <= k < i + 1 ==> parts[k] <= added + parts[i]
    ensures forall k :: i + 1 <= k < |parts| ==> parts[k] !! repr + parts[i]
  {
  }

  /** Once every part has been visited, the visited set is all of them. */
  lemma Gathered<T>(parts: seq<set<T>>, added: set<T>, all: set<T>)
    requires forall k :: 0 <= k < |parts| ==> parts[k] <= added
    requires added <= all
    requires forall e :: e in all ==> exists k :: 0 <= k < |parts| && e in parts[k]
    ensures added == all
  {
  }
}
