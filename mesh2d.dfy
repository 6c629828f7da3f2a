/** ObjectMesh2D.js: Measure, the Style coordinate algebra and setters, Style.align,
    the move methods of Rectangle, Img and CText, CText.yCorrection, and the
    grouping of ComplexObject. */
module Mesh2D {
  import opened Js
  import opened Layout

  /** A registered change callback, known only by identity. */
  type CallbackId = nat

  /** The objects this file tells apart: a Measure instance, or any other object. */
  datatype Obj = MeasureObj(m: Measure) | PlainObj

  type JsValue = Value<Obj>

  /** One call `func(oldValue, value)` made by the Measure value setter. */
  datatype Call = Call(callback: CallbackId, oldValue: Option<Number>, newValue: Number)

  /** The first argument of `new Measure(fn, base)` is a function and the second a Measure. */
  predicate Derives(measureValue: JsValue, baseMeasure: JsValue) {
    measureValue.Fn? && baseMeasure.Obj? && baseMeasure.o.MeasureObj?
  }

  /* ---------------------------------------------------------------------- */
  /* Measure                                                                 */
  /* ---------------------------------------------------------------------- */

  /** A mutable scalar shared by reference; `value` is `measure._value`
      (None while it is undefined) and `onChange` is `measure._onChangeFunctions`. */
  class Measure {
    var value: Option<Number>
    var onChange: seq<CallbackId>

    /** `new Measure(measureValue, baseMeasure)`. When the first argument is a
        function and the second a Measure, `fnResult` is what the function
        returned for the base; the function is then registered on the base,
        whose value is not touched. The new measure is not subscribed to
        anything: later changes of the base do not update it. */
    constructor (measureValue: JsValue, baseMeasure: JsValue, fnResult: JsValue)
      modifies if Derives(measureValue, baseMeasure) then {baseMeasure.o.m} else {}
      ensures onChange == []
      ensures measureValue.Num? ==> value == Some(measureValue.n)
      ensures Derives(measureValue, baseMeasure) ==>
                && value == (if fnResult.Num? then Some(fnResult.n) else None)
                && baseMeasure.o.m.onChange == old(baseMeasure.o.m.onChange) + [measureValue.id]
                && baseMeasure.o.m.value == old(baseMeasure.o.m.value)
      ensures !measureValue.Num? && !Derives(measureValue, baseMeasure) ==> value == Some(Finite(1.0))
    {
      onChange := [];
      if measureValue.Num? {
        value := Some(measureValue.n);
      } else if Derives(measureValue, baseMeasure) {
        value := if fnResult.Num? then Some(fnResult.n) else None;
      } else {
        value := Some(Finite(1.0));
      }
      new;
      if !measureValue.Num? && Derives(measureValue, baseMeasure) {
        baseMeasure.o.m.AddOnChangeFunction(measureValue);
      }
    }

    /** Only functions are appended, and a function already present is appended again. */
    method AddOnChangeFunction(onChangeFunction: JsValue)
      modifies this`onChange
      ensures onChange == if onChangeFunction.Fn? then old(onChange) + [onChangeFunction.id] else old(onChange)
    {
      if onChangeFunction.Fn? {
        onChange := onChange + [onChangeFunction.id];
      }
    }

    function ValueOf(): Option<Number>
      reads this`value
    {
      value
    }

    /** The value setter. A number is stored and then every registered callback
        is called once, in registration order, with the old and the new value;
        anything else changes nothing and calls nothing. */
    method SetValue(v: JsValue) returns (calls: seq<Call>)
      modifies this`value
      ensures v.Num? ==> ValueOf() == Some(v.n)
      ensures v.Num? ==> |calls| == |onChange| &&
                         forall i :: 0 <= i < |calls| ==> calls[i] == Call(onChange[i], old(value), v.n)
      ensures !v.Num? ==> value == old(value) && calls == []
    {
      calls := [];
      if v.Num? {
        var oldValue := value;
        value := Some(v.n);
        var i := 0;
        while i < |onChange|
          invariant 0 <= i <= |onChange|
          invariant |calls| == i
          invariant forall j :: 0 <= j < i ==> calls[j] == Call(onChange[j], oldValue, v.n)
        {
          calls := calls + [Call(onChange[i], oldValue, v.n)];
          i := i + 1;
        }
      }
    }
  }

  /** `style._measure`: a Measure shared by reference, or a plain number. */
  datatype Scale = Shared(m: Measure) | Plain(n: Number) {
    ghost function Objects(): set<object> {
      if Shared? then {m} else {}
    }

    /** The scale as `*` sees it: a Measure's valueOf() (undefined is NaN), or the number. */
    function Value(): Number
      reads Objects()
    {
      if Plain? then n else if m.value.Some? then m.value.value else NaN
    }
  }

  ghost function SizeObjects(v: JsValue): set<object> {
    if v.Obj? && v.o.MeasureObj? then {v.o.m} else {}
  }

  /** Shape's width/height getter: a stored Measure is read through valueOf(),
      anything else is returned as stored. */
  function Unwrapped(v: JsValue): JsValue
    reads SizeObjects(v)
  {
    if v.Obj? && v.o.MeasureObj? then
      (if v.o.m.value.Some? then Num(v.o.m.value.value) else Undefined)
    else v
  }

  /* ---------------------------------------------------------------------- */
  /* Entities and shapes                                                     */
  /* ---------------------------------------------------------------------- */

  /** The four offsets `_marginMeasureX`, `_marginMeasureY`, `_marginX`, `_marginY`. */
  datatype Margins = Margins(marginMeasureX: Number, marginMeasureY: Number, marginX: Number, marginY: Number) {
    function Plus(d: Margins): Margins {
      Margins(marginMeasureX.Plus(d.marginMeasureX), marginMeasureY.Plus(d.marginMeasureY),
              marginX.Plus(d.marginX), marginY.Plus(d.marginY))
    }

    function Negated(): Margins {
      Margins(marginMeasureX.Negated(), marginMeasureY.Negated(), marginX.Negated(), marginY.Negated())
    }

    predicate IsFinite() {
      marginMeasureX.Finite? && marginMeasureY.Finite? && marginX.Finite? && marginY.Finite?
    }
  }

  /** Which class of the hierarchy an element was built from. */
  datatype Kind = Entity | Rectangle | Img | CText | ComplexObject

  /** The offsets of an element of kind k after `move(d)`: Rectangle, Img, CText
      and ComplexObject add the deltas; Entity's move is a stub that only logs. */
  function Moved(k: Kind, m: Margins, d: Margins): Margins {
    if k.Entity? then m else m.Plus(d)
  }

  /** `move(a, b, c, d)` followed by `move(-a, -b, -c, -d)` restores all four
      offsets (exactly, over the reals; only approximately in floating point). */
  lemma MoveRoundTrip(k: Kind, m: Margins, d: Margins)
    requires m.IsFinite() && d.IsFinite()
    ensures Moved(k, Moved(k, m, d), d.Negated()) == m
  {
  }

  /** Every element an element's move reaches: itself, a CText's background
      rectangle, and all shapes grouped under a ComplexObject. */
  ghost function ReprOf(s: seq<Element>): set<Element>
    reads s`Repr
  {
    set k, e | 0 <= k < |s| && e in s[k].Repr :: e
  }

  /** Elements that can be grouped together: each is a valid tree, the trees do
      not overlap, and none reaches into `others`. */
  ghost predicate Separate(s: seq<Element>, others: set<Element>)
    reads s`Repr, s`shapes, ReprOf(s)`Repr, ReprOf(s)`shapes
  {
    (forall k :: 0 <= k < |s| ==> s[k].Valid() && s[k].Repr !! others) &&
    (forall k, l :: 0 <= k < l < |s| ==> s[k].Repr !! s[l].Repr)
  }

  /** A node of the scene: an Entity or one of the Shape classes. The JavaScript
      instance keeps these in its `style` record; `bg` is a CText's background
      rectangle and `shapes` a ComplexObject's grouped shapes. `measuredWidth`
      and `measuredHeight` stand for what the text-metrics service reports for a
      CText. */
  class Element {
    const kind: Kind
    var measure: Scale
    var margins: Margins
    var fill: bool
    var hidden: bool
    var bgColor: string
    var lineWidth: Number
    var width: JsValue
    var height: JsValue
    var fontSize: Number
    var measuredWidth: Number
    var measuredHeight: Number
    const bg: Element?
    var shapes: seq<Element>
    ghost var Repr: set<Element>

    /** The footprint is exactly the tree under this element, and the trees of
        a ComplexObject's shapes do not overlap. */
    ghost predicate Valid()
      reads this`Repr, this`shapes, Repr`Repr, Repr`shapes
      decreases Repr, 1
    {
      this in Repr &&
      if kind.CText? then TextTree()
      else if kind.ComplexObject? then GroupTree()
      else bg == null && shapes == [] && Repr == {this}
    }

    /** A CText owns exactly its background rectangle. */
    ghost predicate TextTree()
      reads this`Repr, this`shapes, Repr`Repr, Repr`shapes
    {
      && bg != null && bg in Repr && bg != this && bg.kind == Rectangle && bg.bg == null
      && bg.Repr == {bg} && bg.shapes == [] && Repr == {this, bg} && shapes == []
    }

    /** A ComplexObject owns the disjoint trees of its shapes. */
    ghost predicate GroupTree()
      reads this`Repr, this`shapes, Repr`Repr, Repr`shapes
      requires this in Repr
      decreases Repr, 0
    {
      && bg == null
      && (forall i :: 0 <= i < |shapes| ==>
            shapes[i] in Repr && shapes[i].Repr <= Repr && this !in shapes[i].Repr && shapes[i].Valid())
      && (forall i, j :: 0 <= i < j < |shapes| ==> shapes[i].Repr !! shapes[j].Repr)
      && Repr == {this} + ReprOf(shapes)
    }

    /** `new Entity(measure, marginMeasureX, marginMeasureY, marginX, marginY)`:
        the Style defaults (a fresh Measure of 1, zero offsets, fill, visible,
        transparent, line width 1), then the typed setters. */
    constructor MakeEntity(measure: JsValue, marginMeasureX: JsValue, marginMeasureY: JsValue,
                           marginX: JsValue, marginY: JsValue)
      ensures kind == Entity && Valid() && Repr == {this}
      ensures measure.Obj? && measure.o.MeasureObj? ==> this.measure == Shared(measure.o.m)
      ensures measure.Num? ==> this.measure == Plain(measure.n)
      ensures !measure.Num? && !(measure.Obj? && measure.o.MeasureObj?) ==>
                this.measure.Shared? && fresh(this.measure.m) && this.measure.m.value == Some(Finite(1.0))
      ensures margins == Margins(NumberOr(marginMeasureX, Zero), NumberOr(marginMeasureY, Zero),
                                 NumberOr(marginX, Zero), NumberOr(marginY, Zero))
      ensures fill && !hidden && bgColor == "transparent" && lineWidth == Finite(1.0)
    {
      var unit := new Measure(Num(Finite(1.0)), Undefined, Undefined);
      kind := Entity;
      this.measure := MeasureFrom(measure, Shared(unit));
      margins := Margins(NumberOr(marginMeasureX, Zero), NumberOr(marginMeasureY, Zero),
                         NumberOr(marginX, Zero), NumberOr(marginY, Zero));
      fill, hidden, bgColor, lineWidth := true, false, "transparent", Finite(1.0);
      width, height := Undefined, Undefined;
      fontSize, measuredWidth, measuredHeight := Zero, Zero, Zero;
      bg := null;
      shapes := [];
      Repr := {this};
    }

    /** `new Rectangle(...)` or `new Img(...)`: the Shape constructor, which adds
        `width ?? 0`, `height ?? 0` and the bgColor setter to what an Entity
        does. (Img passes the bgColor "".) */
    constructor MakeShape(kind: Kind, measure: JsValue, marginMeasureX: JsValue, marginMeasureY: JsValue,
                          marginX: JsValue, marginY: JsValue, width: JsValue, height: JsValue, bgColor: JsValue)
      requires kind == Rectangle || kind == Img
      ensures this.kind == kind && Valid() && Repr == {this} && shapes == []
      ensures measure.Obj? && measure.o.MeasureObj? ==> this.measure == Shared(measure.o.m)
      ensures measure.Num? ==> this.measure == Plain(measure.n)
      ensures !measure.Num? && !(measure.Obj? && measure.o.MeasureObj?) ==>
                this.measure.Shared? && fresh(this.measure.m) && this.measure.m.value == Some(Finite(1.0))
      ensures margins == Margins(NumberOr(marginMeasureX, Zero), NumberOr(marginMeasureY, Zero),
                                 NumberOr(marginX, Zero), NumberOr(marginY, Zero))
      ensures this.width == KeepUnlessNullish(width, Num(Zero))
      ensures this.height == KeepUnlessNullish(height, Num(Zero))
      ensures this.bgColor == BgColorFrom(bgColor)
      ensures fill && !hidden && lineWidth == Finite(1.0)
    {
      var unit := new Measure(Num(Finite(1.0)), Undefined, Undefined);
      this.kind := kind;
      this.measure := MeasureFrom(measure, Shared(unit));
      margins := Margins(NumberOr(marginMeasureX, Zero), NumberOr(marginMeasureY, Zero),
                         NumberOr(marginX, Zero), NumberOr(marginY, Zero));
      fill, hidden, lineWidth := true, false, Finite(1.0);
      this.width := KeepUnlessNullish(width, Num(Zero));
      this.height := KeepUnlessNullish(height, Num(Zero));
      this.bgColor := BgColorFrom(bgColor);
      fontSize, measuredWidth, measuredHeight := Zero, Zero, Zero;
      bg := null;
      shapes := [];
      Repr := {this};
    }

    /** `new ComplexObject(measure, ..., width, height, shapes)` up to its call
        of addShapes: the Rectangle constructor, with bgColor "pink" and no
        fill. The source's constructor then runs addShapes on `shapes ?? []`,
        which is AddShapes on the new group; the colour and fill it sets after
        that call are fields addShapes does not touch. */
    constructor MakeGroup(measure: JsValue, marginMeasureX: JsValue, marginMeasureY: JsValue,
                          marginX: JsValue, marginY: JsValue, width: JsValue, height: JsValue)
      ensures kind == ComplexObject && Valid() && shapes == [] && Repr == {this}
      ensures measure.Obj? && measure.o.MeasureObj? ==> this.measure == Shared(measure.o.m)
      ensures measure.Num? ==> this.measure == Plain(measure.n)
      ensures !measure.Num? && !(measure.Obj? && measure.o.MeasureObj?) ==>
                this.measure.Shared? && fresh(this.measure.m) && this.measure.m.value == Some(Finite(1.0))
      ensures margins == Margins(NumberOr(marginMeasureX, Zero), NumberOr(marginMeasureY, Zero),
                                 NumberOr(marginX, Zero), NumberOr(marginY, Zero))
      ensures this.width == KeepUnlessNullish(width, Num(Zero))
      ensures this.height == KeepUnlessNullish(height, Num(Zero))
      ensures bgColor == "pink" && !fill && !hidden && lineWidth == Finite(1.0)
    {
      var unit := new Measure(Num(Finite(1.0)), Undefined, Undefined);
      kind := ComplexObject;
      this.measure := MeasureFrom(measure, Shared(unit));
      margins := Margins(NumberOr(marginMeasureX, Zero), NumberOr(marginMeasureY, Zero),
                         NumberOr(marginX, Zero), NumberOr(marginY, Zero));
      hidden, lineWidth := false, Finite(1.0);
      this.width := KeepUnlessNullish(width, Num(Zero));
      this.height := KeepUnlessNullish(height, Num(Zero));
      fontSize, measuredWidth, measuredHeight := Zero, Zero, Zero;
      bg := null;
      shapes := [];
      Repr := {this};
      bgColor := "pink";
      fill := false;
    }

    /* -------------------------------------------------------------------- */
    /* Coordinates                                                           */
    /* -------------------------------------------------------------------- */

    /** `x`, recomputed from the current measure value on every read. */
    function X(): (x: Number)
      reads this`measure, this`margins, measure.Objects()
      ensures x.Finite? <==> margins.marginMeasureX.Finite? && measure.Value().Finite? && margins.marginX.Finite?
    {
      Coord(margins.marginMeasureX, measure.Value(), margins.marginX)
    }

    /** `y`, recomputed from the current measure value on every read. */
    function Y(): (y: Number)
      reads this`measure, this`margins, measure.Objects()
      ensures y.Finite? <==> margins.marginMeasureY.Finite? && measure.Value().Finite? && margins.marginY.Finite?
    {
      Coord(margins.marginMeasureY, measure.Value(), margins.marginY)
    }

    /** `width`: for a CText, a stored width that is truthy, else the
        text-metrics width; for the other shapes, the stored width. */
    function Width(): (w: Number)
      reads this`width, this`measuredWidth, SizeObjects(width)
      ensures !kind.CText? && width.Num? ==> w == width.n
      ensures width.Obj? && width.o.MeasureObj? && width.o.m.value.Some? && !kind.CText? ==> w == width.o.m.value.value
      ensures kind.CText? && width.Num? ==> w == if width.Truthy() then width.n else measuredWidth
      ensures kind.CText? && width.Undefined? ==> w == measuredWidth
    {
      var stored := Unwrapped(width);
      if kind.CText? && !stored.Truthy() then measuredWidth else ToNumber(stored)
    }

    /** `height`: for a CText, line count times font size from the text
        metrics; for the other shapes, the stored height. */
    function Height(): (h: Number)
      reads this`height, this`measuredHeight, SizeObjects(height)
      ensures kind.CText? ==> h == measuredHeight
      ensures !kind.CText? && height.Num? ==> h == height.n
      ensures height.Obj? && height.o.MeasureObj? && height.o.m.value.Some? && !kind.CText? ==> h == height.o.m.value.value
    {
      if kind.CText? then measuredHeight else ToNumber(Unwrapped(height))
    }

    function OffsetTop(): (top: Number)
      reads this`measure, this`margins, measure.Objects()
      ensures top == Y()
    {
      Y()
    }

    function OffsetBottom(): (bottom: Number)
      reads this`measure, this`margins, measure.Objects(), this`height, this`measuredHeight, SizeObjects(height)
      ensures bottom.Finite? <==> Y().Finite? && Height().Finite?
      ensures bottom.Finite? ==> bottom.r - OffsetTop().r == Height().r
    {
      Y().Plus(Height())
    }

    function OffsetLeft(): (left: Number)
      reads this`measure, this`margins, measure.Objects()
      ensures left == X()
    {
      X()
    }

    function OffsetRight(): (right: Number)
      reads this`measure, this`margins, measure.Objects(), this`width, this`measuredWidth, SizeObjects(width)
      ensures right.Finite? <==> X().Finite? && Width().Finite?
      ensures right.Finite? ==> right.r - OffsetLeft().r == Width().r
    {
      X().Plus(Width())
    }

    ghost function Frame(): set<object>
      reads this
    {
      {this} + measure.Objects() + SizeObjects(width) + SizeObjects(height)
    }

    /** The element's box as align reads it; its right and bottom edges are
        offsetRight and offsetBottom. */
    function Box(): (b: Bounds)
      reads this`measure, this`margins, measure.Objects()
      reads this`width, this`measuredWidth, SizeObjects(width)
      reads this`height, this`measuredHeight, SizeObjects(height)
      ensures b.Right() == OffsetRight() && b.Bottom() == OffsetBottom()
      ensures b.x == OffsetLeft() && b.y == OffsetTop()
    {
      Bounds(X(), Y(), Width(), Height())
    }

    /** The vertical bias as align computes it: `0 + element.style.fontSize`.
        The style record keeps the size under `_fontSize`, so for a CText the
        property read is undefined and the bias is NaN. */
    function BiasYAsWritten(): (bias: Number)
      ensures kind.CText? <==> bias.NaN?
    {
      if kind.CText? then Zero.Plus(ToNumber<Obj>(Undefined)) else Zero
    }

    /** The vertical bias align intends for a CText: its font size. */
    function BiasY(): Number
      reads this`fontSize
    {
      if kind.CText? then Zero.Plus(fontSize) else Zero
    }

    /* -------------------------------------------------------------------- */
    /* move                                                                  */
    /* -------------------------------------------------------------------- */

    /** `move(marginMeasureX = 0, marginMeasureY = 0, marginX = 0, marginY = 0)`:
        every element the move reaches (itself, a CText's background, every
        shape of a ComplexObject, recursively) adds the four deltas to its
        offsets, Entities excepted; nothing else changes. */
    method Move(dMeasureX: Number := Zero, dMeasureY: Number := Zero, dX: Number := Zero, dY: Number := Zero)
      requires Valid()
      modifies Repr`margins
      ensures forall e :: e in Repr ==> e.margins == Moved(e.kind, old(e.margins), Margins(dMeasureX, dMeasureY, dX, dY))
      decreases Repr, 2
    {
      var d := Margins(dMeasureX, dMeasureY, dX, dY);
      if kind.Rectangle? || kind.Img? {
        margins := margins.Plus(d);
      } else if kind.CText? {
        margins := margins.Plus(d);
        bg.Move(dMeasureX, dMeasureY, dX, dY);
      } else if kind.ComplexObject? {
        margins := margins.Plus(d);
        MoveShapes(d);
      }
    }

    /** The loop of ComplexObject.move: each grouped shape, in order, is moved by d. */
    method MoveShapes(d: Margins)
      requires Valid() && kind.ComplexObject?
      modifies ReprOf(shapes)`margins
      ensures forall e :: e in old(ReprOf(shapes)) ==> e.margins == Moved(e.kind, old(e.margins), d)
      decreases Repr, 1
    {
      ghost var parts: seq<set<Element>> := Footprints(shapes);
      ghost var all: set<Element> := ReprOf(shapes);
      ghost var m0: map<Element, Margins> := MarginsOf(all);
      ghost var cur: map<Element, Margins> := m0;
      ghost var moved: set<Element> := {};
      GroupParts();
      var i := 0;
      while i < |shapes|
        invariant 0 <= i <= |shapes| == |parts|
        invariant Valid()
        invariant forall k :: 0 <= k < |parts| ==> shapes[k].Repr == parts[k]
        invariant Shifting(parts, all, m0, cur, d, i, moved)
        invariant forall e :: e in all ==> e.margins == cur[e]
      {
        MoveNth(i, d, parts[i], all, cur);
        Shifted(parts, all, m0, cur, d, i, moved);
        cur := Step(all, cur, parts[i], d);
        moved := moved + parts[i];
        i := i + 1;
      }
      Gathered(parts, moved, all);
    }

    /** One step of that loop: the i-th shape is moved, and the group stays valid. */
    method MoveNth(i: nat, d: Margins, ghost part: set<Element>, ghost all: set<Element>,
                   ghost cur: map<Element, Margins>)
      requires Valid() && kind.ComplexObject? && i < |shapes| && part == shapes[i].Repr
      requires part <= all && forall e :: e in all ==> e in cur && e.margins == cur[e]
      modifies part`margins
      ensures Valid()
      ensures forall k :: 0 <= k < |shapes| ==> shapes[k].Repr == old(shapes[k].Repr)
      ensures forall e :: e in all ==> e.margins == Step(all, cur, part, d)[e]
      decreases Repr, 0
    {
      NextShape(i);
      shapes[i].Move(d.marginMeasureX, d.marginMeasureY, d.marginX, d.marginY);
      forall e | e in all
        ensures e.margins == Step(all, cur, part, d)[e]
      {
      }
      StructureKept(this);
    }

    /** The footprints of a group's shapes cover the group's elements apart
        from the group itself, and do not overlap. */
    lemma GroupParts()
      requires Valid() && kind.ComplexObject?
      ensures var parts := Footprints(shapes);
        && (forall k, l :: 0 <= k < l < |parts| ==> parts[k] !! parts[l])
        && (forall k :: 0 <= k < |parts| ==> parts[k] <= ReprOf(shapes))
        && (forall e :: e in ReprOf(shapes) ==> exists k :: 0 <= k < |parts| && e in parts[k])
    {
      forall k | 0 <= k < |shapes|
        ensures shapes[k].Repr <= ReprOf(shapes)
      {
        ReprOfHas(shapes, k);
      }
    }

    /** The i-th shape of a group: a valid tree inside the group's footprint,
        apart from the shapes after it. */
    lemma NextShape(i: nat)
      requires Valid() && kind.ComplexObject? && i < |shapes|
      ensures shapes[i].Valid() && shapes[i].Repr < Repr && this !in shapes[i].Repr
      ensures forall k :: i < k < |shapes| ==> shapes[i].Repr !! shapes[k].Repr
      ensures shapes[i].Repr <= ReprOf(shapes)
    {
      ReprOfHas(shapes, i);
    }

    /* -------------------------------------------------------------------- */
    /* align                                                                 */
    /* -------------------------------------------------------------------- */

    /** `Style.align(direction, this, container)`. An unrecognised container or
        direction changes nothing. Otherwise one pixel delta is applied through
        move, so every element the move reaches shifts by it; afterwards the
        element stands Placed against the container's bounds as they were
        before the call (x == cX for "left", offsetRight == cX + cWidth for
        "right", y == cY + biasY for "top", ...). This is the corrected align:
        a CText's vertical bias is its font size (BiasY). As written, the
        source reads the size from a property the setter never writes, so
        the bias is NaN (BiasYAsWritten, AsWrittenTextLosesY). */
    method Align(direction: string, container: Container)
      requires Valid()
      modifies Repr`margins
      ensures var b := old(Resolve(container));
              var dir := ParseDirection(direction);
              forall e :: e in Repr ==>
                e.margins == if b.None? || dir.None? then old(e.margins)
                             else Moved(e.kind, old(e.margins), PixelShift(AlignShift(dir.value, old(Box()), b.value, old(BiasY()))))
      ensures var b := old(Resolve(container));
              var dir := ParseDirection(direction);
              b.Some? && dir.Some? && !kind.Entity? && old(Box()).IsFinite() && b.value.IsFinite() && BiasY().Finite? ==>
                Placed(dir.value, Box(), b.value, BiasY())
    {
      var b := Resolve(container);
      if b.None? {
        return;
      }
      var dir := ParseDirection(direction);
      if dir.None? {
        return;
      }
      AlignBy(dir.value, b.value);
    }

    /** align once the container and the direction are known: the element
        is moved by the pixel shift that places its box against b. */
    method AlignBy(dir: Direction, b: Bounds)
      requires Valid()
      modifies Repr`margins
      ensures forall e :: e in Repr ==> e.margins == Moved(e.kind, old(e.margins), PixelShift(AlignShift(dir, old(Box()), b, old(BiasY()))))
      ensures !kind.Entity? && old(Box()).IsFinite() && b.IsFinite() && BiasY().Finite? ==> Placed(dir, Box(), b, BiasY())
    {
      var box := Box();
      var s := AlignShift(dir, box, b, BiasY());
      ghost var m0 := margins;
      Move(Zero, Zero, s.dx, s.dy);
      if !kind.Entity? {
        assert margins == m0.Plus(PixelShift(s));
        CoordPixelShift(m0.marginMeasureX.Plus(Zero), measure.Value(), m0.marginX, s.dx);
        CoordPixelShift(m0.marginMeasureY.Plus(Zero), measure.Value(), m0.marginY, s.dy);
        assert Box() == box.Shifted(s);
      }
    }

    /* -------------------------------------------------------------------- */
    /* ComplexObject.addShapes                                               */
    /* -------------------------------------------------------------------- */

    /** `addShapes(list, reverse = false, unshift = false)` on a ComplexObject.
        The caller's array is reversed in place first when asked; then each
        shape, in array order, is moved by `(0, 0, this.x, this.y)` and pushed,
        or unshifted, onto `shapes`. The container and its existing shapes do
        not move. */
    method AddShapes(list: array<Element>, reverse: bool := false, unshift: bool := false)
      requires Valid() && kind.ComplexObject?
      requires Separate(list[..], Repr)
      modifies this`shapes, this`Repr, list, ReprOf(list[..])`margins
      ensures Valid()
      ensures list[..] == if reverse then Reversed(old(list[..])) else old(list[..])
      ensures shapes == if unshift then Reversed(list[..]) + old(shapes) else old(shapes) + list[..]
      ensures Repr == old(Repr) + old(ReprOf(list[..]))
      ensures forall e :: e in old(ReprOf(list[..])) ==>
                e.margins == Moved(e.kind, old(e.margins), Margins(Zero, Zero, old(X()), old(Y())))
      ensures forall e :: e in old(Repr) ==> e.margins == old(e.margins)
    {
      ghost var items, parts, all, m0, shift := Prepare(list[..], reverse, unshift);
      if reverse {
        ReverseKeeping(list, items, parts, all, m0, shift, unshift);
      }
      AdoptAll(list, unshift, items, parts, all, m0, shift);
    }

    /** `list.reverse()`, which touches no element. */
    method ReverseKeeping(list: array<Element>, ghost items: seq<Element>, ghost parts: seq<set<Element>>,
                          ghost all: set<Element>, ghost m0: map<Element, Margins>, ghost shift: Margins, ghost unshift: bool)
      requires Collected(items, parts, all, shapes, Repr, m0, unshift, 0, {})
      requires shift == Margins(Zero, Zero, X(), Y())
      modifies list
      ensures list[..] == Reversed(old(list[..]))
      ensures shapes == old(shapes) && Repr == old(Repr)
      ensures forall e :: e in Repr ==> e.margins == old(e.margins)
      ensures Collected(items, parts, all, shapes, Repr, m0, unshift, 0, {})
      ensures shift == Margins(Zero, Zero, X(), Y())
    {
      ReverseInPlace(list);
    }

    /** What addShapes knows before its loop: the order the list will be
        visited in, the footprints of its shapes, and where they start. */
    lemma Prepare(original: seq<Element>, reverse: bool, unshift: bool)
      returns (items: seq<Element>, parts: seq<set<Element>>, all: set<Element>,
               m0: map<Element, Margins>, shift: Margins)
      requires Valid() && kind.ComplexObject?
      requires Separate(original, Repr)
      ensures items == if reverse then Reversed(original) else original
      ensures all == ReprOf(original) && all !! Repr
      ensures m0 == MarginsOf(all)
      ensures shift == Margins(Zero, Zero, X(), Y())
      ensures Collected(items, parts, all, shapes, Repr, m0, unshift, 0, {})
      ensures Shifting(parts, all, m0, m0, shift, 0, {})
    {
      all := ReprOf(original);
      items := if reverse then Reversed(original) else original;
      Reordered(original, reverse, Repr);
      parts := Footprints(items);
      m0 := MarginsOf(all);
      shift := Margins(Zero, Zero, X(), Y());
      StartCollected(items, parts, all, m0, unshift);
      StartApart(items, parts, all, m0, shift);
    }

    lemma StartCollected(items: seq<Element>, parts: seq<set<Element>>, all: set<Element>,
                         m0: map<Element, Margins>, unshift: bool)
      requires Valid() && kind.ComplexObject?
      requires Separate(items, Repr)
      requires parts == Footprints(items) && all == ReprOf(items)
      requires forall e :: e in all ==> e in m0 && e.margins == m0[e]
      ensures Collected(items, parts, all, shapes, Repr, m0, unshift, 0, {})
    {
      forall k | 0 <= k < |items|
        ensures parts[k] <= all
      {
        ReprOfHas(items, k);
      }
      assert items[..0] == [];
    }

    lemma StartApart(items: seq<Element>, parts: seq<set<Element>>, all: set<Element>,
                     m0: map<Element, Margins>, shift: Margins)
      requires Separate(items, Repr)
      requires parts == Footprints(items) && all == ReprOf(items)
      requires forall e :: e in all ==> e in m0
      ensures all !! Repr
      ensures Shifting(parts, all, m0, m0, shift, 0, {})
    {
      SeparateParts(items, Repr);
      StartShifting(parts, all, m0, shift);
    }

    /** The loop of addShapes over the (possibly reversed) list. */
    method AdoptAll(list: array<Element>, unshift: bool, ghost items: seq<Element>, ghost parts: seq<set<Element>>,
                    ghost all: set<Element>, ghost m0: map<Element, Margins>, ghost shift: Margins)
      requires list[..] == items
      requires Collected(items, parts, all, shapes, Repr, m0, unshift, 0, {})
      requires Shifting(parts, all, m0, m0, shift, 0, {})
      requires shift == Margins(Zero, Zero, X(), Y())
      requires all !! Repr
      modifies this`shapes, this`Repr, all`margins
      ensures Valid()
      ensures shapes == if unshift then Reversed(items) + old(shapes) else old(shapes) + items
      ensures Repr == old(Repr) + all
      ensures forall e :: e in all ==> e.margins == Moved(e.kind, m0[e], shift)
      ensures list[..] == items
      ensures forall e :: e in old(Repr) ==> e.margins == old(e.margins)
    {
      ghost var cur := m0;
      ghost var added: set<Element> := {};
      var i := 0;
      while i < list.Length
        invariant 0 <= i <= list.Length
        invariant Collected(items, parts, all, old(shapes), old(Repr), cur, unshift, i, added)
        invariant Shifting(parts, all, m0, cur, shift, i, added)
        invariant shift == Margins(Zero, Zero, X(), Y())
        invariant list[..] == items
      {
        Adopt(list[i], unshift, items, parts, all, old(shapes), old(Repr), cur, shift, i, added);
        Shifted(parts, all, m0, cur, shift, i, added);
        cur := Step(all, cur, parts[i], shift);
        added := added + parts[i];
        i := i + 1;
      }
      Gathered(parts, added, all);
      Whole(items, i);
    }

    /** The state the addShapes loop keeps: the first i shapes of the list are
        in the group, the rest are valid trees still apart from it, and the
        margins of the list's elements are those in `cur`. */
    ghost predicate Collected(items: seq<Element>, parts: seq<set<Element>>, all: set<Element>,
                              start: seq<Element>, base: set<Element>, cur: map<Element, Margins>,
                              unshift: bool, i: nat, added: set<Element>)
      reads this`Repr, this`shapes, Repr`Repr, Repr`shapes, all`Repr, all`shapes, all`margins
    {
      && i <= |items| == |parts|
      && Valid() && kind.ComplexObject?
      && shapes == (if unshift then Reversed(items[..i]) + start else start + items[..i])
      && Repr == base + added
      && (forall k :: i <= k < |items| ==>
            items[k] in all && items[k].Repr == parts[k] && parts[k] <= all && items[k].Valid() && parts[k] !! Repr)
      && (forall e :: e in all ==> e in cur && e.margins == cur[e])
    }

    /** One step of the addShapes loop: `shape.move(0, 0, this.x, this.y)` and
        `this.shapes.push(shape)` (or unshift). */
    method Adopt(shape: Element, unshift: bool, ghost items: seq<Element>, ghost parts: seq<set<Element>>,
                 ghost all: set<Element>, ghost start: seq<Element>, ghost base: set<Element>,
                 ghost cur: map<Element, Margins>, ghost shift: Margins, ghost i: nat, ghost added: set<Element>)
      requires Collected(items, parts, all, start, base, cur, unshift, i, added)
      requires forall k, l :: 0 <= k < l < |parts| ==> parts[k] !! parts[l]
      requires forall k :: 0 <= k < |parts| ==> parts[k] <= all
      requires i < |items| && shape == items[i] && shift == Margins(Zero, Zero, X(), Y())
      modifies this`shapes, this`Repr, parts[i]`margins
      ensures Collected(items, parts, all, start, base, Step(all, cur, parts[i], shift), unshift, i + 1, added + parts[i])
      ensures X() == old(X()) && Y() == old(Y())
    {
      ghost var before := shapes;
      shape.Move(Zero, Zero, X(), Y());
      AddChild(shape, unshift);
      Extended(items, i, start, unshift, before);
    }

    /** One step of the addShapes loop: the shape goes in front or at the back,
        and the footprint grows by its tree. */
    method AddChild(shape: Element, unshift: bool)
      requires Valid() && kind.ComplexObject?
      requires shape.Valid() && shape.Repr !! Repr
      modifies this`shapes, this`Repr
      ensures shapes == if unshift then [shape] + old(shapes) else old(shapes) + [shape]
      ensures Repr == old(Repr) + shape.Repr
      ensures Valid()
    {
      ChildrenInside();
      var after := if unshift then [shape] + shapes else shapes + [shape];
      ghost var grouped := Repr + shape.Repr;
      AfterAdd(shape, after, unshift);
      shapes := after;
      Repr := grouped;
      GroupValid();
    }

    /** The shapes of a group with one more shape in front or at the back are
        still valid, apart from the group and from each other, and cover the
        grown footprint. */
    lemma AfterAdd(shape: Element, after: seq<Element>, unshift: bool)
      requires Valid() && kind.ComplexObject?
      requires shape.Valid() && shape.Repr !! Repr
      requires after == if unshift then [shape] + shapes else shapes + [shape]
      ensures forall a :: 0 <= a < |after| ==> after[a].Valid() && this !in after[a].Repr
      ensures forall a, c :: 0 <= a < c < |after| ==> after[a].Repr !! after[c].Repr
      ensures Repr + shape.Repr == {this} + ReprOf(after)
      ensures this !in after
    {
      ChildrenInside();
      if unshift {
        Prepended(shape, shapes, Repr, this);
      } else {
        Appended(shape, shapes, Repr, this);
      }
    }

    lemma GroupValid()
      requires kind.ComplexObject? && bg == null && this in Repr
      requires forall i :: 0 <= i < |shapes| ==> shapes[i].Valid() && this !in shapes[i].Repr
      requires forall i, j :: 0 <= i < j < |shapes| ==> shapes[i].Repr !! shapes[j].Repr
      requires Repr == {this} + ReprOf(shapes)
      ensures Valid()
    {
      forall i | 0 <= i < |shapes|
        ensures shapes[i].Repr <= Repr
      {
        ReprOfHas(shapes, i);
      }
    }

    /** A ComplexObject's shapes lie inside its footprint. */
    lemma ChildrenInside()
      requires Valid() && kind.ComplexObject?
      ensures forall k :: 0 <= k < |shapes| ==> shapes[k].Valid() && shapes[k].Repr <= Repr && this !in shapes[k].Repr
      ensures forall k, l :: 0 <= k < l < |shapes| ==> shapes[k].Repr !! shapes[l].Repr
      ensures Repr == {this} + ReprOf(shapes)
    {
    }

    /* -------------------------------------------------------------------- */
    /* Typed setters                                                         */
    /* -------------------------------------------------------------------- */

    /** `measure = v`: accepted only when v is a Measure or a number. */
    method SetMeasure(v: JsValue)
      modifies this`measure
      ensures measure == MeasureFrom(v, old(measure))
      ensures v.Num? ==> measure == Plain(v.n)
      ensures !v.Num? && !(v.Obj? && v.o.MeasureObj?) ==> measure == old(measure)
    {
      measure := MeasureFrom(v, measure);
    }

    /** `marginMeasureX = v`: kept unless v is a number. */
    method SetMarginMeasureX(v: JsValue)
      modifies this`margins
      ensures margins == old(margins).(marginMeasureX := NumberOr(v, old(margins.marginMeasureX)))
    {
      margins := margins.(marginMeasureX := NumberOr(v, margins.marginMeasureX));
    }

    /** `marginMeasureY = v`: kept unless v is a number. */
    method SetMarginMeasureY(v: JsValue)
      modifies this`margins
      ensures margins == old(margins).(marginMeasureY := NumberOr(v, old(margins.marginMeasureY)))
    {
      margins := margins.(marginMeasureY := NumberOr(v, margins.marginMeasureY));
    }

    /** `marginX = v`: kept unless v is a number. */
    method SetMarginX(v: JsValue)
      modifies this`margins
      ensures margins == old(margins).(marginX := NumberOr(v, old(margins.marginX)))
    {
      margins := margins.(marginX := NumberOr(v, margins.marginX));
    }

    /** `marginY = v`: kept unless v is a number. */
    method SetMarginY(v: JsValue)
      modifies this`margins
      ensures margins == old(margins).(marginY := NumberOr(v, old(margins.marginY)))
    {
      margins := margins.(marginY := NumberOr(v, margins.marginY));
    }

    /** `fill = v`: true exactly when v is `true`. */
    method SetFill(v: JsValue)
      modifies this`fill
      ensures fill <==> v == Bool(true)
    {
      fill := FillFrom(v);
    }

    /** `hidden = v`: false exactly when v is `false`. */
    method SetHidden(v: JsValue)
      modifies this`hidden
      ensures !hidden <==> v == Bool(false)
    {
      hidden := HiddenFrom(v);
    }

    /** `bgColor = v`: a string, else "transparent". */
    method SetBgColor(v: JsValue)
      modifies this`bgColor
      ensures v.Str? ==> bgColor == v.s
      ensures !v.Str? ==> bgColor == "transparent"
    {
      bgColor := BgColorFrom(v);
    }

    /** `lineWidth = v`: a number, else 1. */
    method SetLineWidth(v: JsValue)
      modifies this`lineWidth
      ensures v.Num? ==> lineWidth == v.n
      ensures !v.Num? ==> lineWidth == Finite(1.0)
    {
      lineWidth := LineWidthFrom(v);
    }

    /** `width = v`: a Shape stores `v ?? 0`; a CText stores a number, else undefined. */
    method SetWidth(v: JsValue)
      modifies this`width, this`measuredHeight
      ensures kind.CText? ==> width == if v.Num? then v else Undefined
      ensures !kind.CText? ==> width == KeepUnlessNullish(v, Num(Zero))
      ensures !kind.CText? ==> measuredHeight == old(measuredHeight)
    {
      if kind.CText? {
        width := if v.Num? then v else Undefined;
      } else {
        width := KeepUnlessNullish(v, Num(Zero));
      }
    }

    /** `height = v`: a Shape stores `v ?? 0`; a CText stores a number, else its
        current (text-metrics) height. */
    method SetHeight(v: JsValue)
      modifies this`height
      ensures kind.CText? ==> height == if v.Num? then v else Num(old(Height()))
      ensures !kind.CText? ==> height == KeepUnlessNullish(v, Num(Zero))
    {
      if kind.CText? {
        height := if v.Num? then v else Num(Height());
      } else {
        height := KeepUnlessNullish(v, Num(Zero));
      }
    }

    /* -------------------------------------------------------------------- */
    /* CText font size                                                       */
    /* -------------------------------------------------------------------- */

    /** `yCorrection(currentFontSize, newFontSize)` on a CText with no fixed
        width: both line counts are 1, so marginX grows by 2 and marginY by
        `newFontSize - currentFontSize + 2`. The offsets are assigned directly,
        not through move: the background rectangle stays where it is. */
    method YCorrection(currentFontSize: Number, newFontSize: Number)
      requires kind.CText? && !width.Truthy()
      modifies this`margins
      ensures margins == old(margins).(marginX := old(margins.marginX).Plus(Finite(2.0)),
                                       marginY := old(margins.marginY).Plus(SingleLineCorrection(currentFontSize, newFontSize).Plus(Finite(2.0))))
    {
      var currentTotalLines := Finite(1.0);
      var newTotalLines := Finite(1.0);
      var correction := newTotalLines.Times(newFontSize).Minus(currentTotalLines.Times(currentFontSize));
      margins := margins.(marginX := margins.marginX.Plus(Finite(2.0)));
      margins := margins.(marginY := margins.marginY.Plus(correction.Plus(Finite(2.0))));
    }

    /** `fontSize = v` on a CText with no fixed width: a number, else 16; the
        Y offset is corrected from the old size to the new one first. */
    method SetFontSize(v: JsValue)
      requires kind.CText? && !width.Truthy()
      modifies this`margins, this`fontSize, this`measuredWidth, this`measuredHeight
      ensures fontSize == NumberOr(v, Finite(16.0))
      ensures margins == FontCorrected(old(margins), old(fontSize), fontSize)
    {
      var newFontSize := NumberOr(v, Finite(16.0));
      YCorrection(fontSize, newFontSize);
      fontSize := newFontSize;
    }
  }

  /** The offsets yCorrection leaves on a CText with no fixed width, when the
      font size goes from `current` to `next`. */
  function FontCorrected(m: Margins, current: Number, next: Number): Margins {
    m.(marginX := m.marginX.Plus(Finite(2.0)),
       marginY := m.marginY.Plus(SingleLineCorrection(current, next).Plus(Finite(2.0))))
  }

  /** Setting the font size and setting it back does not put the text back:
      each yCorrection adds a 2-pixel pad on both axes, so after the round
      trip the text stands 4 pixels right of and below where it was. */
  lemma {:induction false} FontSizeRoundTripDrifts(m: Margins, a: Number, b: Number)
    requires m.marginX.Finite? && m.marginY.Finite? && a.Finite? && b.Finite?
    ensures FontCorrected(FontCorrected(m, a, b), b, a)
         == m.(marginX := m.marginX.Plus(Finite(4.0)), marginY := m.marginY.Plus(Finite(4.0)))
  {
    var y := m.marginY.r;
    assert y + ((b.r - a.r) + 2.0) + ((a.r - b.r) + 2.0) == y + 4.0;
  }

  /** align moves along one axis only: a horizontal alignment leaves every
      offset but marginX as it was, a vertical one every offset but marginY. */
  lemma AlignOneAxis(dir: Direction, box: Bounds, c: Bounds, biasY: Number, k: Kind, m: Margins)
    ensures var moved := Moved(k, m, PixelShift(AlignShift(dir, box, c, biasY)));
            if dir.Horizontal() then moved.(marginX := m.marginX) == m
            else moved.(marginY := m.marginY) == m
  {
  }

  /** With the bias as written, aligning a CText vertically moves it by NaN:
      its marginY, and so its y, become NaN whatever the container. */
  lemma AsWrittenTextLosesY(e: Element, dir: Direction, c: Bounds)
    requires e.kind.CText? && !dir.Horizontal()
    ensures Moved(e.kind, e.margins, PixelShift(AlignShift(dir, e.Box(), c, e.BiasYAsWritten()))).marginY.NaN?
  {
  }

  /** addShapes as written accepts the group itself among the new shapes.
      Afterwards the group lists itself, and no footprint holds such a group:
      its move, which moves every shape, would call itself without end. */
  lemma SelfGroupHasNoTree(g: Element)
    requires g.kind.ComplexObject? && g in g.shapes
    ensures !g.Valid()
  {
  }

  /** The measure setter: a Measure or a number replaces the scale. */
  function MeasureFrom(v: JsValue, previous: Scale): (s: Scale)
    ensures v.Obj? && v.o.MeasureObj? ==> s == Shared(v.o.m)
    ensures v.Num? ==> s == Plain(v.n)
    ensures !v.Num? && !(v.Obj? && v.o.MeasureObj?) ==> s == previous
  {
    if v.Obj? && v.o.MeasureObj? then Shared(v.o.m)
    else if v.Num? then Plain(v.n)
    else previous
  }

  /** The pixel deltas as the four arguments of move. */
  function PixelShift(s: Shift): Margins {
    Margins(Zero, Zero, s.dx, s.dy)
  }

  /* ---------------------------------------------------------------------- */
  /* align's container                                                       */
  /* ---------------------------------------------------------------------- */

  /** What align may be given as a container: a Canvas2D (its pixel size), an
      Entity or Shape, or anything else. */
  datatype Container = Canvas(width: nat, height: nat) | Node(e: Element) | Unrecognized {
    ghost function Frame(): set<object>
      reads if Node? then {e} else {}
    {
      if Node? then e.Frame() else {}
    }
  }

  /** Container resolution: a canvas is `(0, 0, width, height)`, an Entity a
      point of zero size at its x and y, a Shape its own box; anything else
      is an error (logged) and align returns. */
  function Resolve(c: Container): (r: Option<Bounds>)
    reads c.Frame()
    ensures r.None? <==> c.Unrecognized?
    ensures c.Canvas? ==> r == Some(Bounds(Zero, Zero, Finite(c.width as real), Finite(c.height as real)))
    ensures c.Node? ==> r.value.x == c.e.X() && r.value.y == c.e.Y()
    ensures c.Node? && c.e.kind.Entity? ==> r.value.width == Zero && r.value.height == Zero
    ensures c.Node? && !c.e.kind.Entity? ==> r.value.width == c.e.Width() && r.value.height == c.e.Height()
  {
    match c
    case Canvas(w, h) => Some(Bounds(Zero, Zero, Finite(w as real), Finite(h as real)))
    case Node(e) => if e.kind.Entity? then Some(Bounds(e.X(), e.Y(), Zero, Zero)) else Some(e.Box())
    case Unrecognized => None
  }

  /* ---------------------------------------------------------------------- */
  /* Footprint lemmas                                                        */
  /* ---------------------------------------------------------------------- */

  /** Moving changes no structure, so validity survives it. */
  twostate lemma StructureKept(c: Element)
    requires old(c.Valid())
    requires unchanged(old(c.Repr)`Repr, old(c.Repr)`shapes)
    ensures c.Valid()
  {
  }

  lemma Apart(a: set<Element>, b: set<Element>, r: set<Element>)
    requires a !! r && b <= r
    ensures b !! a
  {
  }

  /** Shapes that are valid, disjoint and outside a group stay so with one
      more such shape in front. */
  lemma Prepended(shape: Element, s: seq<Element>, repr: set<Element>, owner: Element)
    requires forall k :: 0 <= k < |s| ==> s[k].Valid() && s[k].Repr <= repr && owner !in s[k].Repr
    requires forall k, l :: 0 <= k < l < |s| ==> s[k].Repr !! s[l].Repr
    requires shape.Valid() && shape.Repr !! repr && owner in repr
    ensures forall a :: 0 <= a < |[shape] + s| ==> ([shape] + s)[a].Valid() && owner !in ([shape] + s)[a].Repr
    ensures forall a, c :: 0 <= a < c < |[shape] + s| ==> ([shape] + s)[a].Repr !! ([shape] + s)[c].Repr
    ensures ReprOf([shape] + s) == shape.Repr + ReprOf(s)
  {
    ReprOfCons(shape, s);
    var t := [shape] + s;
    forall a | 0 < a < |t|
      ensures t[a] == s[a - 1]
    {
    }
    forall a, c | 0 <= a < c < |t|
      ensures t[a].Repr !! t[c].Repr
    {
      if a == 0 {
        Apart(shape.Repr, s[c - 1].Repr, repr);
      }
    }
  }

  /** The same with the new shape at the back. */
  lemma Appended(shape: Element, s: seq<Element>, repr: set<Element>, owner: Element)
    requires forall k :: 0 <= k < |s| ==> s[k].Valid() && s[k].Repr <= repr && owner !in s[k].Repr
    requires forall k, l :: 0 <= k < l < |s| ==> s[k].Repr !! s[l].Repr
    requires shape.Valid() && shape.Repr !! repr && owner in repr
    ensures forall a :: 0 <= a < |s + [shape]| ==> (s + [shape])[a].Valid() && owner !in (s + [shape])[a].Repr
    ensures forall a, c :: 0 <= a < c < |s + [shape]| ==> (s + [shape])[a].Repr !! (s + [shape])[c].Repr
    ensures ReprOf(s + [shape]) == ReprOf(s) + shape.Repr
  {
    ReprOfSnoc(s, shape);
    var t := s + [shape];
    forall a | 0 <= a < |s|
      ensures t[a] == s[a]
    {
    }
    forall a, c | 0 <= a < c < |t|
      ensures t[a].Repr !! t[c].Repr
    {
      if c == |s| {
        Apart(shape.Repr, s[a].Repr, repr);
      }
    }
  }

  /** The footprints of shapes that can be grouped, as values. */
  lemma SeparateParts(s: seq<Element>, others: set<Element>)
    requires Separate(s, others)
    ensures var parts := Footprints(s);
      && (forall k :: 0 <= k < |s| ==> parts[k] !! others && s[k] in parts[k])
      && (forall k, l :: 0 <= k < l < |s| ==> parts[k] !! parts[l])
      && (forall k :: 0 <= k < |s| ==> parts[k] <= ReprOf(s))
      && (forall e :: e in ReprOf(s) ==> exists k :: 0 <= k < |s| && e in parts[k])
  {
    forall k | 0 <= k < |s|
      ensures s[k].Repr <= ReprOf(s)
    {
      ReprOfHas(s, k);
    }
  }

  /** Margins as values while a group's shapes are moved one by one: `cur`
      holds the moved margins for the elements already visited and the
      original ones (`m0`) for the rest. */
  ghost predicate Shifting(parts: seq<set<Element>>, all: set<Element>, m0: map<Element, Margins>,
                           cur: map<Element, Margins>, d: Margins, i: nat, moved: set<Element>)
  {
    && i <= |parts|
    && (forall k :: 0 <= k < |parts| ==> parts[k] <= all)
    && (forall k, l :: 0 <= k < l < |parts| ==> parts[k] !! parts[l])
    && (forall e :: e in all ==> exists k :: 0 <= k < |parts| && e in parts[k])
    && moved <= all
    && (forall k :: 0 <= k < i ==> parts[k] <= moved)
    && (forall k :: i <= k < |parts| ==> parts[k] !! moved)
    && (forall e :: e in all ==> e in m0 && e in cur)
    && (forall e :: e in all ==> cur[e] == if e in moved then Moved(e.kind, m0[e], d) else m0[e])
  }

  /** Before the first shape is visited, the margins are the original ones. */
  lemma StartShifting(parts: seq<set<Element>>, all: set<Element>, m0: map<Element, Margins>, d: Margins)
    requires forall k :: 0 <= k < |parts| ==> parts[k] <= all
    requires forall k, l :: 0 <= k < l < |parts| ==> parts[k] !! parts[l]
    requires forall e :: e in all ==> exists k :: 0 <= k < |parts| && e in parts[k]
    requires forall e :: e in all ==> e in m0
    ensures Shifting(parts, all, m0, m0, d, 0, {})
  {
  }

  /** A snapshot of the margins of some elements. */
  ghost function MarginsOf(all: set<Element>): (m: map<Element, Margins>)
    reads all`margins
    ensures forall e :: e in all ==> e in m && m[e] == e.margins
  {
    map e | e in all :: e.margins
  }

  /** The margins after the elements of `part` are moved by d. */
  ghost function Step(all: set<Element>, cur: map<Element, Margins>, part: set<Element>, d: Margins): map<Element, Margins>
    requires forall e :: e in all ==> e in cur
  {
    map e | e in all :: if e in part then Moved(e.kind, cur[e], d) else cur[e]
  }

  lemma Shifted(parts: seq<set<Element>>, all: set<Element>, m0: map<Element, Margins>,
                cur: map<Element, Margins>, d: Margins, i: nat, moved: set<Element>)
    requires Shifting(parts, all, m0, cur, d, i, moved) && i < |parts|
    ensures Shifting(parts, all, m0, Step(all, cur, parts[i], d), d, i + 1, moved + parts[i])
  {
    Grow(parts, moved, moved, i);
  }

  /** The footprint of each shape of a sequence, as values. */
  ghost function Footprints(s: seq<Element>): (parts: seq<set<Element>>)
    reads s`Repr
    ensures |parts| == |s| && forall k :: 0 <= k < |s| ==> parts[k] == s[k].Repr
  {
    if s == [] then [] else Footprints(s[..|s| - 1]) + [s[|s| - 1].Repr]
  }

  lemma ReprOfHas(s: seq<Element>, k: nat)
    requires k < |s|
    ensures s[k].Repr <= ReprOf(s)
  {
  }

  lemma ReprOfSnoc(s: seq<Element>, x: Element)
    ensures ReprOf(s + [x]) == ReprOf(s) + x.Repr
  {
    var t := s + [x];
    forall e | e in ReprOf(s)
      ensures e in ReprOf(t)
    {
      var k :| 0 <= k < |s| && e in s[k].Repr;
      assert t[k] == s[k];
    }
    assert forall e :: e in x.Repr ==> e in t[|s|].Repr;
  }

  lemma ReprOfCons(x: Element, s: seq<Element>)
    ensures ReprOf([x] + s) == x.Repr + ReprOf(s)
  {
    var t := [x] + s;
    forall e | e in ReprOf(s)
      ensures e in ReprOf(t)
    {
      var k :| 0 <= k < |s| && e in s[k].Repr;
      assert t[k + 1] == s[k];
    }
    forall e | e in ReprOf(t)
      ensures e in x.Repr + ReprOf(s)
    {
      var k :| 0 <= k < |t| && e in t[k].Repr;
      if k > 0 {
        assert t[k] == s[k - 1];
      }
    }
    assert forall e :: e in x.Repr ==> e in t[0].Repr;
  }

  lemma ReprOfReversed(s: seq<Element>)
    ensures ReprOf(Reversed(s)) == ReprOf(s)
  {
    var r := Reversed(s);
    forall e | e in ReprOf(s)
      ensures e in ReprOf(r)
    {
      var k :| 0 <= k < |s| && e in s[k].Repr;
      ReversedAt(s, |s| - 1 - k);
    }
    forall e | e in ReprOf(r)
      ensures e in ReprOf(s)
    {
      var k :| 0 <= k < |r| && e in r[k].Repr;
      ReversedAt(s, k);
    }
  }

  /** The list in the order addShapes visits it can still be grouped, and
      covers the same elements. */
  lemma Reordered(s: seq<Element>, reverse: bool, others: set<Element>)
    requires Separate(s, others)
    ensures var r := if reverse then Reversed(s) else s;
            Separate(r, others) && ReprOf(r) == ReprOf(s)
  {
    if reverse {
      SeparateReversed(s, others);
      ReprOfReversed(s);
    }
  }

  lemma SeparateReversed(s: seq<Element>, others: set<Element>)
    requires Separate(s, others)
    ensures Separate(Reversed(s), others)
  {
    var r := Reversed(s);
    forall k | 0 <= k < |r|
      ensures r[k] == s[|s| - 1 - k]
    {
      ReversedAt(s, k);
    }
  }

  /* ---------------------------------------------------------------------- */
  /* Worked examples                                                         */
  /* ---------------------------------------------------------------------- */

  /** An entity at 3 measures plus 1 pixel on a measure of 2 stands at x = 7;
      once the measure is set to 8 it stands at x = 25, with no call on it. */
  method ScaleExample() returns (before: Number, after: Number)
    ensures before == Finite(7.0) && after == Finite(25.0)
  {
    var m := new Measure(Num(Finite(2.0)), Undefined, Undefined);
    var e := new Element.MakeEntity(Obj(MeasureObj(m)), Num(Finite(3.0)), Undefined, Num(Finite(1.0)), Undefined);
    before := e.X();
    var calls := m.SetValue(Num(Finite(8.0)));
    after := e.X();
  }

  /** A measure derived from a base of 10 keeps the value its function gave
      (here 5) when the base changes to 20; the function is only called with
      the old and the new value of the base. */
  method DerivedExample() returns (derived: Option<Number>, calls: seq<Call>)
    ensures derived == Some(Finite(5.0))
    ensures calls == [Call(1, Some(Finite(10.0)), Finite(20.0))]
  {
    var base := new Measure(Num(Finite(10.0)), Undefined, Undefined);
    var d := new Measure(Fn(1), Obj(MeasureObj(base)), Num(Finite(5.0)));
    calls := base.SetValue(Num(Finite(20.0)));
    derived := d.ValueOf();
  }

  /** A 20-pixel-wide rectangle centred on a 100-pixel canvas stands at x = 40. */
  method CenterExample() returns (x: Number)
    ensures x == Finite(40.0)
  {
    var r := PlainRectangle(Finite(5.0), Finite(20.0), Finite(10.0));
    r.Align("centerX", Canvas(100, 50));
    assert r.Box().x == Finite(40.0);
    x := r.X();
  }

  /** A rectangle on a plain scale of 1, at pixel x and y = 0. */
  method PlainRectangle(x: Number, width: Number, height: Number) returns (r: Element)
    ensures fresh(r) && r.Valid() && fresh(r.Repr) && r.kind == Rectangle
    ensures r.measure == Plain(Finite(1.0)) && r.margins == Margins(Zero, Zero, x, Zero)
    ensures r.Box() == Bounds(x.Plus(Zero), Zero, width, height)
  {
    r := new Element.MakeShape(Rectangle, Num(Finite(1.0)), Undefined, Undefined, Num(x), Undefined,
                               Num(width), Num(height), Str("red"));
    assert r.margins == Margins(Zero, Zero, x, Zero);
    assert r.width == Num(width) && r.height == Num(height);
    PlainBox(r, x, width, height);
  }

  lemma PlainBox(r: Element, x: Number, width: Number, height: Number)
    requires r.kind == Rectangle && r.measure == Plain(Finite(1.0))
    requires r.margins == Margins(Zero, Zero, x, Zero)
    requires r.width == Num(width) && r.height == Num(height)
    ensures r.Box() == Bounds(x.Plus(Zero), Zero, width, height)
  {
    assert r.X() == Finite(0.0).Plus(x);
  }
}
