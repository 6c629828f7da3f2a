/** models.js, the earlier variant of the same design: positions are the raw
    values handed to the nullish-keeping setters, the scale is the `value`
    property of a shared `measureSize` object, stored widths and heights may be
    objects read through their first entry, and addShapes shifts new shapes by
    the container's raw position fields. */
module Models {
  import opened Js
  import opened Layout

  /** An enumerable entry of a plain object as the width and height getters
      see it: a stored value, or a function (known by identity) together with
      what it returns when called on the object with no arguments. */
  datatype Field = Stored(v: Value<Obj>) | Method(id: nat, result: Value<Obj>)

  /** A plain object, known by its enumerable entries in for-in order. */
  datatype Obj = Record(entries: seq<Field>)

  type JsValue = Value<Obj>

  /** The object a `measureSize` refers to; the coordinates read its `value`
      property on every access, so every element sharing it follows a change. */
  class SizeHolder {
    var value: JsValue

    /** `{value: v}` */
    constructor (v: JsValue)
      ensures value == v
    {
      value := v;
    }
  }

  /** `measureSize`: an object with a `value` property, shared by reference, or
      anything else, whose `value` property is undefined. */
  datatype SizeRef = Holder(h: SizeHolder) | NoValue {
    ghost function Objects(): set<object> {
      if Holder? then {h} else {}
    }

    /** `measureSize.value` as `*` sees it. */
    function Value(): Number
      reads Objects()
    {
      if Holder? then ToNumber(h.value) else NaN
    }
  }

  /** What the getter makes of one entry: a function is called, anything
      else is returned as stored. */
  function EntryValue(f: Field): JsValue {
    if f.Method? then f.result else f.v
  }

  /** Shape's width/height getter as a value, for the coordinates to read. */
  function Lookup(v: JsValue): JsValue {
    if v.Obj? && v.o.entries != [] then EntryValue(v.o.entries[0]) else v
  }

  /** Shape's width/height getter: a for-in loop over the stored object's
      entries whose body returns on the first iteration (`found` ends the
      loop), so the first entry decides, called first when it is a function;
      an object with no entry, and any value that is not an object, is
      returned as stored. */
  method ReadSize(v: JsValue) returns (r: JsValue)
    ensures v.Obj? && v.o.entries != [] && v.o.entries[0].Method? ==> r == v.o.entries[0].result
    ensures v.Obj? && v.o.entries != [] && v.o.entries[0].Stored? ==> r == v.o.entries[0].v
    ensures !v.Obj? || v.o.entries == [] ==> r == v
    ensures r == Lookup(v)
  {
    r := v;
    if v.Obj? {
      var entries := v.o.entries;
      var i := 0;
      var found := false;
      while i < |entries| && !found
        invariant i <= |entries| && i <= 1
        invariant found <==> i == 1
        invariant found ==> r == EntryValue(entries[0])
        invariant !found ==> r == v
      {
        var f := entries[i];
        if f.Method? {
          r := f.result;
        } else {
          r := f.v;
        }
        found := true;
        i := i + 1;
      }
    }
  }

  /** Only the first entry is ever read: entries after it change nothing. */
  lemma FirstEntryDecides(f: Field, rest: seq<Field>)
    ensures Lookup(Obj(Record([f] + rest))) == Lookup(Obj(Record([f])))
  {
  }

  /** The getter does not look through twice: an object stored as the first
      entry comes back as that object. */
  lemma LookupOneLevel(inner: Obj, rest: seq<Field>)
    ensures Lookup(Obj(Record([Stored(Obj(inner))] + rest))) == Obj(inner)
  {
  }

  /* ---------------------------------------------------------------------- */
  /* Entities and shapes                                                     */
  /* ---------------------------------------------------------------------- */

  /** The `position` record: `measureX`, `measureY`, `marginX`, `marginY`, as
      stored (any value but null and undefined). */
  datatype Position = Position(measureX: JsValue, measureY: JsValue, marginX: JsValue, marginY: JsValue) {
    /** `+=` on each of the four fields. */
    function Plus(d: Position): Position {
      Position(JsPlus(measureX, d.measureX), JsPlus(measureY, d.measureY),
               JsPlus(marginX, d.marginX), JsPlus(marginY, d.marginY))
    }

    /** Unary minus on each field. */
    function Negated(): Position {
      Position(Num(ToNumber(measureX).Negated()), Num(ToNumber(measureY).Negated()),
               Num(ToNumber(marginX).Negated()), Num(ToNumber(marginY).Negated()))
    }

    /** The four arguments of move as its default parameters see them: an
        undefined argument is 0. */
    function Defaulted(): (d: Position)
      ensures !d.measureX.Undefined? && !d.measureY.Undefined? && !d.marginX.Undefined? && !d.marginY.Undefined?
      ensures !measureX.Undefined? ==> d.measureX == measureX
      ensures !measureY.Undefined? ==> d.measureY == measureY
      ensures !marginX.Undefined? ==> d.marginX == marginX
      ensures !marginY.Undefined? ==> d.marginY == marginY
    {
      Position(ZeroIfUndefined(measureX), ZeroIfUndefined(measureY),
               ZeroIfUndefined(marginX), ZeroIfUndefined(marginY))
    }

    /** All four fields are finite numbers. */
    predicate IsFinite() {
      && measureX.Num? && measureX.n.Finite? && measureY.Num? && measureY.n.Finite?
      && marginX.Num? && marginX.n.Finite? && marginY.Num? && marginY.n.Finite?
    }
  }

  function ZeroIfUndefined(v: JsValue): (r: JsValue)
    ensures !r.Undefined? && (!v.Undefined? ==> r == v)
  {
    if v.Undefined? then Num(Zero) else v
  }

  /** Which class of the hierarchy an element was built from. */
  datatype Kind = Entity | Rectangle | Img | CText | ComplexObject

  /** The position of an element of kind k after `move(d)`: Rectangle, Img,
      CText and ComplexObject add the deltas; Entity's move only logs. */
  function Moved(k: Kind, p: Position, d: Position): Position {
    if k.Entity? then p else p.Plus(d)
  }

  /** `move(a, b, c, d)` followed by `move(-a, -b, -c, -d)` restores a position
      of finite numbers (exactly, over the reals). */
  lemma MoveRoundTrip(k: Kind, p: Position, d: Position)
    requires p.IsFinite() && d.IsFinite()
    ensures Moved(k, Moved(k, p, d), d.Negated()) == p
  {
  }

  /** Every element an element's move reaches: itself, a CText's background
      rectangle, and all shapes grouped under a ComplexObject. */
  ghost function ReprOf(s: seq<Element>): set<Element>
    reads s`Repr
  {
    set k, e | 0 <= k < |s| && e in s[k].Repr :: e
  }

  /** Elements that can be grouped together: each is a valid tree, the trees do
      not overlap, and none reaches into `others`. */
  ghost predicate Separate(s: seq<Element>, others: set<Element>)
    reads s`Repr, s`shapes, ReprOf(s)`Repr, ReprOf(s)`shapes
  {
    (forall k :: 0 <= k < |s| ==> s[k].Valid() && s[k].Repr !! others) &&
    (forall k, l :: 0 <= k < l < |s| ==> s[k].Repr !! s[l].Repr)
  }

  /** A node of the scene: an Entity or one of the Shape classes. `bg` is a
      CText's background rectangle and `shapes` a ComplexObject's grouped
      shapes. `measuredWidth` and `measuredHeight` stand for what the
      text-metrics service reports for a CText. */
  class Element {
    const kind: Kind
    var measureSize: SizeRef
    var position: Position
    var fill: bool
    var hidden: bool
    var bgColor: string
    var lineWidth: Number
    var width: JsValue
    var height: JsValue
    var fontSize: Number
    var measuredWidth: Number
    var measuredHeight: Number
    const bg: Element?
    var shapes: seq<Element>
    ghost var Repr: set<Element>

    /** The footprint is exactly the tree under this element, and the trees of
        a ComplexObject's shapes do not overlap. */
    ghost predicate Valid()
      reads this`Repr, this`shapes, Repr`Repr, Repr`shapes
      decreases Repr, 1
    {
      this in Repr &&
      if kind.CText? then TextTree()
      else if kind.ComplexObject? then GroupTree()
      else bg == null && shapes == [] && Repr == {this}
    }

    /** A CText owns exactly its background rectangle. */
    ghost predicate TextTree()
      reads this`Repr, this`shapes, Repr`Repr, Repr`shapes
    {
      && bg != null && bg in Repr && bg != this && bg.kind == Rectangle && bg.bg == null
      && bg.Repr == {bg} && bg.shapes == [] && Repr == {this, bg} && shapes == []
    }

    /** A ComplexObject owns the disjoint trees of its shapes. */
    ghost predicate GroupTree()
      reads this`Repr, this`shapes, Repr`Repr, Repr`shapes
      requires this in Repr
      decreases Repr, 0
    {
      && bg == null
      && (forall i :: 0 <= i < |shapes| ==>
            shapes[i] in Repr && shapes[i].Repr <= Repr && this !in shapes[i].Repr && shapes[i].Valid())
      && (forall i, j :: 0 <= i < j < |shapes| ==> shapes[i].Repr !! shapes[j].Repr)
      && Repr == {this} + ReprOf(shapes)
    }

    /** `new Entity(measureSize, measureX, measureY, marginX, marginY)`: the
        Style defaults (fill, visible, transparent, line width 1), a measureSize
        of `{value: 1}` unless one is given, and each position field `?? 0`. */
    constructor MakeEntity(measureSize: Option<SizeRef>, measureX: JsValue, measureY: JsValue,
                           marginX: JsValue, marginY: JsValue)
      ensures kind == Entity && Valid() && Repr == {this}
      ensures measureSize.Some? ==> this.measureSize == measureSize.value
      ensures measureSize.None? ==>
                this.measureSize.Holder? && fresh(this.measureSize.h) && this.measureSize.h.value == Num(Finite(1.0))
      ensures position == Position(KeepUnlessNullish(measureX, Num(Zero)), KeepUnlessNullish(measureY, Num(Zero)),
                                   KeepUnlessNullish(marginX, Num(Zero)), KeepUnlessNullish(marginY, Num(Zero)))
      ensures fill && !hidden && bgColor == "transparent" && lineWidth == Finite(1.0)
    {
      kind := Entity;
      if measureSize.Some? {
        this.measureSize := measureSize.value;
      } else {
        var unit := new SizeHolder(Num(Finite(1.0)));
        this.measureSize := Holder(unit);
      }
      position := Position(KeepUnlessNullish(measureX, Num(Zero)), KeepUnlessNullish(measureY, Num(Zero)),
                           KeepUnlessNullish(marginX, Num(Zero)), KeepUnlessNullish(marginY, Num(Zero)));
      fill, hidden, bgColor, lineWidth := true, false, "transparent", Finite(1.0);
      width, height := Undefined, Undefined;
      fontSize, measuredWidth, measuredHeight := Zero, Zero, Zero;
      bg := null;
      shapes := [];
      Repr := {this};
    }

    /** `new Rectangle(...)` or `new Img(...)`: the Shape constructor, which adds
        `width ?? 0`, `height ?? 0` (stored as given) and the bgColor setter to
        what an Entity does. (Img passes the bgColor "".) */
    constructor MakeShape(kind: Kind, measureSize: Option<SizeRef>, measureX: JsValue, measureY: JsValue,
                          marginX: JsValue, marginY: JsValue, width: JsValue, height: JsValue, bgColor: JsValue)
      requires kind == Rectangle || kind == Img
      ensures this.kind == kind && Valid() && Repr == {this} && shapes == []
      ensures measureSize.Some? ==> this.measureSize == measureSize.value
      ensures measureSize.None? ==>
                this.measureSize.Holder? && fresh(this.measureSize.h) && this.measureSize.h.value == Num(Finite(1.0))
      ensures position == Position(KeepUnlessNullish(measureX, Num(Zero)), KeepUnlessNullish(measureY, Num(Zero)),
                                   KeepUnlessNullish(marginX, Num(Zero)), KeepUnlessNullish(marginY, Num(Zero)))
      ensures this.width == KeepUnlessNullish(width, Num(Zero))
      ensures this.height == KeepUnlessNullish(height, Num(Zero))
      ensures this.bgColor == BgColorFrom(bgColor)
      ensures fill && !hidden && lineWidth == Finite(1.0)
    {
      this.kind := kind;
      if measureSize.Some? {
        this.measureSize := measureSize.value;
      } else {
        var unit := new SizeHolder(Num(Finite(1.0)));
        this.measureSize := Holder(unit);
      }
      position := Position(KeepUnlessNullish(measureX, Num(Zero)), KeepUnlessNullish(measureY, Num(Zero)),
                           KeepUnlessNullish(marginX, Num(Zero)), KeepUnlessNullish(marginY, Num(Zero)));
      fill, hidden, lineWidth := true, false, Finite(1.0);
      this.width := KeepUnlessNullish(width, Num(Zero));
      this.height := KeepUnlessNullish(height, Num(Zero));
      this.bgColor := BgColorFrom(bgColor);
      fontSize, measuredWidth, measuredHeight := Zero, Zero, Zero;
      bg := null;
      shapes := [];
      Repr := {this};
    }

    /** `new ComplexObject(measureSize, ..., width, height, shapes)` up to its
        call of addShapes: the Rectangle constructor, with bgColor "pink" and no
        fill. The source's constructor then runs addShapes on `shapes ?? []`,
        which is AddShapes on the new group; the colour and fill it sets after
        that call are fields addShapes does not touch. */
    constructor MakeGroup(measureSize: Option<SizeRef>, measureX: JsValue, measureY: JsValue,
                          marginX: JsValue, marginY: JsValue, width: JsValue, height: JsValue)
      ensures kind == ComplexObject && Valid() && shapes == [] && Repr == {this}
      ensures measureSize.Some? ==> this.measureSize == measureSize.value
      ensures measureSize.None? ==>
                this.measureSize.Holder? && fresh(this.measureSize.h) && this.measureSize.h.value == Num(Finite(1.0))
      ensures position == Position(KeepUnlessNullish(measureX, Num(Zero)), KeepUnlessNullish(measureY, Num(Zero)),
                                   KeepUnlessNullish(marginX, Num(Zero)), KeepUnlessNullish(marginY, Num(Zero)))
      ensures this.width == KeepUnlessNullish(width, Num(Zero))
      ensures this.height == KeepUnlessNullish(height, Num(Zero))
      ensures bgColor == "pink" && !fill && !hidden && lineWidth == Finite(1.0)
    {
      kind := ComplexObject;
      if measureSize.Some? {
        this.measureSize := measureSize.value;
      } else {
        var unit := new SizeHolder(Num(Finite(1.0)));
        this.measureSize := Holder(unit);
      }
      position := Position(KeepUnlessNullish(measureX, Num(Zero)), KeepUnlessNullish(measureY, Num(Zero)),
                           KeepUnlessNullish(marginX, Num(Zero)), KeepUnlessNullish(marginY, Num(Zero)));
      hidden, lineWidth := false, Finite(1.0);
      this.width := KeepUnlessNullish(width, Num(Zero));
      this.height := KeepUnlessNullish(height, Num(Zero));
      fontSize, measuredWidth, measuredHeight := Zero, Zero, Zero;
      bg := null;
      shapes := [];
      Repr := {this};
      bgColor := "pink";
      fill := false;
    }

    /* -------------------------------------------------------------------- */
    /* Coordinates                                                           */
    /* -------------------------------------------------------------------- */

    /** `x`: `position.measureX * measureSize.value + position.marginX`,
        recomputed on every read. */
    function X(): (x: Number)
      reads this`measureSize, this`position, measureSize.Objects()
      ensures x.Finite? <==> ToNumber(position.measureX).Finite? && measureSize.Value().Finite? && ToNumber(position.marginX).Finite?
    {
      Coord(ToNumber(position.measureX), measureSize.Value(), ToNumber(position.marginX))
    }

    /** `y`: `position.measureY * measureSize.value + position.marginY`. */
    function Y(): (y: Number)
      reads this`measureSize, this`position, measureSize.Objects()
      ensures y.Finite? <==> ToNumber(position.measureY).Finite? && measureSize.Value().Finite? && ToNumber(position.marginY).Finite?
    {
      Coord(ToNumber(position.measureY), measureSize.Value(), ToNumber(position.marginY))
    }

    /** `width` as arithmetic sees it: for a CText, the stored width when it is
        truthy, else the text-metrics width; for the other shapes, the stored
        width through Lookup. */
    function Width(): (w: Number)
      reads this`width, this`measuredWidth
      ensures !kind.CText? && width.Num? ==> w == width.n
      ensures !kind.CText? && width.Obj? && width.o.entries != [] ==> w == ToNumber(EntryValue(width.o.entries[0]))
      ensures kind.CText? && width.Num? ==> w == if width.Truthy() then width.n else measuredWidth
      ensures kind.CText? && width.Undefined? ==> w == measuredWidth
    {
      var stored := Lookup(width);
      if kind.CText? && !stored.Truthy() then measuredWidth else ToNumber(stored)
    }

    /** `height`: for a CText, line count times font size from the text
        metrics; for the other shapes, the stored height through Lookup. */
    function Height(): (h: Number)
      reads this`height, this`measuredHeight
      ensures kind.CText? ==> h == measuredHeight
      ensures !kind.CText? && height.Num? ==> h == height.n
      ensures !kind.CText? && height.Obj? && height.o.entries != [] ==> h == ToNumber(EntryValue(height.o.entries[0]))
    {
      if kind.CText? then measuredHeight else ToNumber(Lookup(height))
    }

    function OffsetTop(): (top: Number)
      reads this`measureSize, this`position, measureSize.Objects()
      ensures top == Y()
    {
      Y()
    }

    function OffsetBottom(): (bottom: Number)
      reads this`measureSize, this`position, measureSize.Objects(), this`height, this`measuredHeight
      ensures bottom.Finite? <==> Y().Finite? && Height().Finite?
      ensures bottom.Finite? ==> bottom.r - OffsetTop().r == Height().r
    {
      Y().Plus(Height())
    }

    function OffsetLeft(): (left: Number)
      reads this`measureSize, this`position, measureSize.Objects()
      ensures left == X()
    {
      X()
    }

    function OffsetRight(): (right: Number)
      reads this`measureSize, this`position, measureSize.Objects(), this`width, this`measuredWidth
      ensures right.Finite? <==> X().Finite? && Width().Finite?
      ensures right.Finite? ==> right.r - OffsetLeft().r == Width().r
    {
      X().Plus(Width())
    }

    ghost function Frame(): set<object>
      reads this
    {
      {this} + measureSize.Objects()
    }

    /** The element's box as align reads it; its right and bottom edges are
        offsetRight and offsetBottom. */
    function Box(): (b: Bounds)
      reads this`measureSize, this`position, measureSize.Objects()
      reads this`width, this`measuredWidth, this`height, this`measuredHeight
      ensures b.Right() == OffsetRight() && b.Bottom() == OffsetBottom()
      ensures b.x == OffsetLeft() && b.y == OffsetTop()
    {
      Bounds(X(), Y(), Width(), Height())
    }

    /** The vertical bias of align: `0 + element.style.fontSize` for a CText. */
    function BiasY(): Number
      reads this`fontSize
    {
      if kind.CText? then Zero.Plus(fontSize) else Zero
    }

    /* -------------------------------------------------------------------- */
    /* move                                                                  */
    /* -------------------------------------------------------------------- */

    /** `move(measureX = 0, measureY = 0, marginX = 0, marginY = 0)`: every
        element the move reaches (itself, a CText's background, every shape of
        a ComplexObject, recursively) adds the four deltas to its position
        fields with `+=`, Entities excepted; nothing else changes. An undefined
        delta is 0; any other value is added as it is. */
    method Move(dMeasureX: JsValue := Num(Zero), dMeasureY: JsValue := Num(Zero), dX: JsValue := Num(Zero), dY: JsValue := Num(Zero))
      requires Valid()
      modifies Repr`position
      ensures forall e :: e in Repr ==>
                e.position == Moved(e.kind, old(e.position), Position(dMeasureX, dMeasureY, dX, dY).Defaulted())
      decreases Repr, 2
    {
      var d := Position(dMeasureX, dMeasureY, dX, dY).Defaulted();
      if kind.Rectangle? || kind.Img? {
        position := position.Plus(d);
      } else if kind.CText? {
        position := position.Plus(d);
        bg.Move(dMeasureX, dMeasureY, dX, dY);
      } else if kind.ComplexObject? {
        position := position.Plus(d);
        MoveShapes(d);
      }
    }

    /** The loop of ComplexObject.move: each grouped shape, in order, is moved by d. */
    method MoveShapes(d: Position)
      requires Valid() && kind.ComplexObject? && d.Defaulted() == d
      modifies ReprOf(shapes)`position
      ensures forall e :: e in old(ReprOf(shapes)) ==> e.position == Moved(e.kind, old(e.position), d)
      decreases Repr, 1
    {
      ghost var parts: seq<set<Element>> := Footprints(shapes);
      ghost var all: set<Element> := ReprOf(shapes);
      ghost var m0: map<Element, Position> := PositionsOf(all);
      ghost var cur: map<Element, Position> := m0;
      ghost var moved: set<Element> := {};
      GroupParts();
      var i := 0;
      while i < |shapes|
        invariant 0 <= i <= |shapes| == |parts|
        invariant Valid()
        invariant forall k :: 0 <= k < |parts| ==> shapes[k].Repr == parts[k]
        invariant Shifting(parts, all, m0, cur, d, i, moved)
        invariant forall e :: e in all ==> e.position == cur[e]
      {
        MoveNth(i, d, parts[i], all, cur);
        Shifted(parts, all, m0, cur, d, i, moved);
        cur := Step(all, cur, parts[i], d);
        moved := moved + parts[i];
        i := i + 1;
      }
      Gathered(parts, moved, all);
    }

    /** One step of that loop: the i-th shape is moved, and the group stays valid. */
    method MoveNth(i: nat, d: Position, ghost part: set<Element>, ghost all: set<Element>,
                   ghost cur: map<Element, Position>)
      requires Valid() && kind.ComplexObject? && i < |shapes| && part == shapes[i].Repr && d.Defaulted() == d
      requires part <= all && forall e :: e in all ==> e in cur && e.position == cur[e]
      modifies part`position
      ensures Valid()
      ensures forall k :: 0 <= k < |shapes| ==> shapes[k].Repr == old(shapes[k].Repr)
      ensures forall e :: e in all ==> e.position == Step(all, cur, part, d)[e]
      decreases Repr, 0
    {
      NextShape(i);
      shapes[i].Move(d.measureX, d.measureY, d.marginX, d.marginY);
      forall e | e in all
        ensures e.position == Step(all, cur, part, d)[e]
      {
      }
      StructureKept(this);
    }

    /** The footprints of a group's shapes cover the group's elements apart
        from the group itself, and do not overlap. */
    lemma GroupParts()
      requires Valid() && kind.ComplexObject?
      ensures var parts := Footprints(shapes);
        && (forall k, l :: 0 <= k < l < |parts| ==> parts[k] !! parts[l])
        && (forall k :: 0 <= k < |parts| ==> parts[k] <= ReprOf(shapes))
        && (forall e :: e in ReprOf(shapes) ==> exists k :: 0 <= k < |parts| && e in parts[k])
    {
      forall k | 0 <= k < |shapes|
        ensures shapes[k].Repr <= ReprOf(shapes)
      {
        ReprOfHas(shapes, k);
      }
    }

    /** The i-th shape of a group: a valid tree inside the group's footprint,
        apart from the shapes after it. */
    lemma NextShape(i: nat)
      requires Valid() && kind.ComplexObject? && i < |shapes|
      ensures shapes[i].Valid() && shapes[i].Repr < Repr && this !in shapes[i].Repr
      ensures forall k :: i < k < |shapes| ==> shapes[i].Repr !! shapes[k].Repr
      ensures shapes[i].Repr <= ReprOf(shapes)
    {
      ReprOfHas(shapes, i);
    }

    /* -------------------------------------------------------------------- */
    /* align                                                                 */
    /* -------------------------------------------------------------------- */

    /** `Style.align(direction, this, container)`. An unrecognised container or
        direction changes nothing. Otherwise one pixel delta is applied through
        move, so every element the move reaches shifts by it; afterwards the
        element stands Placed against the container's bounds as they were
        before the call (x == cX for "left", offsetRight == cX + cWidth for
        "right", y == cY + biasY for "top", ...). */
    method Align(direction: string, container: Container)
      requires Valid()
      modifies Repr`position
      ensures var b := old(Resolve(container));
              var dir := ParseDirection(direction);
              forall e :: e in Repr ==>
                e.position == if b.None? || dir.None? then old(e.position)
                             else Moved(e.kind, old(e.position), PixelShift(AlignShift(dir.value, old(Box()), b.value, old(BiasY()))))
      ensures var b := old(Resolve(container));
              var dir := ParseDirection(direction);
              b.Some? && dir.Some? && !kind.Entity? && old(Box()).IsFinite() && b.value.IsFinite() && BiasY().Finite? ==>
                Placed(dir.value, Box(), b.value, BiasY())
    {
      var b := Resolve(container);
      if b.None? {
        return;
      }
      var dir := ParseDirection(direction);
      if dir.None? {
        return;
      }
      AlignBy(dir.value, b.value);
    }

    /** align once the container and the direction are known: the element
        is moved by the pixel shift that places its box against b. */
    method AlignBy(dir: Direction, b: Bounds)
      requires Valid()
      modifies Repr`position
      ensures forall e :: e in Repr ==> e.position == Moved(e.kind, old(e.position), PixelShift(AlignShift(dir, old(Box()), b, old(BiasY()))))
      ensures !kind.Entity? && old(Box()).IsFinite() && b.IsFinite() && BiasY().Finite? ==> Placed(dir, Box(), b, BiasY())
    {
      var box := Box();
      var s := AlignShift(dir, box, b, BiasY());
      ghost var p0 := position;
      assert Position(Num(Zero), Num(Zero), Num(s.dx), Num(s.dy)).Defaulted() == PixelShift(s);
      Move(Num(Zero), Num(Zero), Num(s.dx), Num(s.dy));
      if !kind.Entity? {
        assert position == p0.Plus(PixelShift(s));
        PixelShiftCoord(p0.measureX, measureSize.Value(), p0.marginX, s.dx);
        PixelShiftCoord(p0.measureY, measureSize.Value(), p0.marginY, s.dy);
        assert Box() == box.Shifted(s);
      }
    }

    /* -------------------------------------------------------------------- */
    /* ComplexObject.addShapes                                               */
    /* -------------------------------------------------------------------- */

    /** `addShapes(list, reverse = false, unshift = false)` on a ComplexObject.
        The caller's array is reversed in place first when asked; then each
        shape, in array order, is moved by the container's own position fields
        `(this.measureX, this.measureY, this.marginX, this.marginY)` and pushed,
        or unshifted, onto `shapes`. The container and its existing shapes do
        not move. */
    method AddShapes(list: array<Element>, reverse: bool := false, unshift: bool := false)
      requires Valid() && kind.ComplexObject?
      requires Separate(list[..], Repr)
      modifies this`shapes, this`Repr, list, ReprOf(list[..])`position
      ensures Valid()
      ensures list[..] == if reverse then Reversed(old(list[..])) else old(list[..])
      ensures shapes == if unshift then Reversed(list[..]) + old(shapes) else old(shapes) + list[..]
      ensures Repr == old(Repr) + old(ReprOf(list[..]))
      ensures forall e :: e in old(ReprOf(list[..])) ==>
                e.position == Moved(e.kind, old(e.position), old(position).Defaulted())
      ensures forall e :: e in old(Repr) ==> e.position == old(e.position)
    {
      ghost var items, parts, all, m0, shift := Prepare(list[..], reverse, unshift);
      if reverse {
        ReverseKeeping(list, items, parts, all, m0, shift, unshift);
      }
      AdoptAll(list, unshift, items, parts, all, m0, shift);
    }

    /** `list.reverse()`, which touches no element. */
    method ReverseKeeping(list: array<Element>, ghost items: seq<Element>, ghost parts: seq<set<Element>>,
                          ghost all: set<Element>, ghost m0: map<Element, Position>, ghost shift: Position, ghost unshift: bool)
      requires Collected(items, parts, all, shapes, Repr, m0, unshift, 0, {})
      requires shift == position.Defaulted()
      modifies list
      ensures list[..] == Reversed(old(list[..]))
      ensures shapes == old(shapes) && Repr == old(Repr)
      ensures forall e :: e in Repr ==> e.position == old(e.position)
      ensures Collected(items, parts, all, shapes, Repr, m0, unshift, 0, {})
      ensures shift == position.Defaulted()
    {
      ReverseInPlace(list);
    }

    /** What addShapes knows before its loop: the order the list will be
        visited in, the footprints of its shapes, and where they start. */
    lemma Prepare(original: seq<Element>, reverse: bool, unshift: bool)
      returns (items: seq<Element>, parts: seq<set<Element>>, all: set<Element>,
               m0: map<Element, Position>, shift: Position)
      requires Valid() && kind.ComplexObject?
      requires Separate(original, Repr)
      ensures items == if reverse then Reversed(original) else original
      ensures all == ReprOf(original) && all !! Repr
      ensures m0 == PositionsOf(all)
      ensures shift == position.Defaulted()
      ensures Collected(items, parts, all, shapes, Repr, m0, unshift, 0, {})
      ensures Shifting(parts, all, m0, m0, shift, 0, {})
    {
      all := ReprOf(original);
      items := if reverse then Reversed(original) else original;
      Reordered(original, reverse, Repr);
      parts := Footprints(items);
      m0 := PositionsOf(all);
      shift := position.Defaulted();
      StartCollected(items, parts, all, m0, unshift);
      StartApart(items, parts, all, m0, shift);
    }

    lemma StartCollected(items: seq<Element>, parts: seq<set<Element>>, all: set<Element>,
                         m0: map<Element, Position>, unshift: bool)
      requires Valid() && kind.ComplexObject?
      requires Separate(items, Repr)
      requires parts == Footprints(items) && all == ReprOf(items)
      requires forall e :: e in all ==> e in m0 && e.position == m0[e]
      ensures Collected(items, parts, all, shapes, Repr, m0, unshift, 0, {})
    {
      forall k | 0 <= k < |items|
        ensures parts[k] <= all
      {
        ReprOfHas(items, k);
      }
      assert items[..0] == [];
    }

    lemma StartApart(items: seq<Element>, parts: seq<set<Element>>, all: set<Element>,
                     m0: map<Element, Position>, shift: Position)
      requires Separate(items, Repr)
      requires parts == Footprints(items) && all == ReprOf(items)
      requires forall e :: e in all ==> e in m0
      ensures all !! Repr
      ensures Shifting(parts, all, m0, m0, shift, 0, {})
    {
      SeparateParts(items, Repr);
      StartShifting(parts, all, m0, shift);
    }

    /** The loop of addShapes over the (possibly reversed) list. */
    method AdoptAll(list: array<Element>, unshift: bool, ghost items: seq<Element>, ghost parts: seq<set<Element>>,
                    ghost all: set<Element>, ghost m0: map<Element, Position>, ghost shift: Position)
      requires list[..] == items
      requires Collected(items, parts, all, shapes, Repr, m0, unshift, 0, {})
      requires Shifting(parts, all, m0, m0, shift, 0, {})
      requires shift == position.Defaulted()
      requires all !! Repr
      modifies this`shapes, this`Repr, all`position
      ensures Valid()
      ensures shapes == if unshift then Reversed(items) + old(shapes) else old(shapes) + items
      ensures Repr == old(Repr) + all
      ensures forall e :: e in all ==> e.position == Moved(e.kind, m0[e], shift)
      ensures list[..] == items
      ensures forall e :: e in old(Repr) ==> e.position == old(e.position)
    {
      ghost var cur := m0;
      ghost var added: set<Element> := {};
      var i := 0;
      while i < list.Length
        invariant 0 <= i <= list.Length
        invariant Collected(items, parts, all, old(shapes), old(Repr), cur, unshift, i, added)
        invariant Shifting(parts, all, m0, cur, shift, i, added)
        invariant shift == position.Defaulted()
        invariant list[..] == items
      {
        Adopt(list[i], unshift, items, parts, all, old(shapes), old(Repr), cur, shift, i, added);
        Shifted(parts, all, m0, cur, shift, i, added);
        cur := Step(all, cur, parts[i], shift);
        added := added + parts[i];
        i := i + 1;
      }
      Gathered(parts, added, all);
      Whole(items, i);
    }

    /** The state the addShapes loop keeps: the first i shapes of the list are
        in the group, the rest are valid trees still apart from it, and the
        positions of the list's elements are those in `cur`. */
    ghost predicate Collected(items: seq<Element>, parts: seq<set<Element>>, all: set<Element>,
                              start: seq<Element>, base: set<Element>, cur: map<Element, Position>,
                              unshift: bool, i: nat, added: set<Element>)
      reads this`Repr, this`shapes, Repr`Repr, Repr`shapes, all`Repr, all`shapes, all`position
    {
      && i <= |items| == |parts|
      && Valid() && kind.ComplexObject?
      && shapes == (if unshift then Reversed(items[..i]) + start else start + items[..i])
      && Repr == base + added
      && (forall k :: i <= k < |items| ==>
            items[k] in all && items[k].Repr == parts[k] && parts[k] <= all && items[k].Valid() && parts[k] !! Repr)
      && (forall e :: e in all ==> e in cur && e.position == cur[e])
    }

    /** One step of the addShapes loop: `shape.move(this.measureX,
        this.measureY, this.marginX, this.marginY)` and `this.shapes.push(shape)`
        (or unshift). */
    method Adopt(shape: Element, unshift: bool, ghost items: seq<Element>, ghost parts: seq<set<Element>>,
                 ghost all: set<Element>, ghost start: seq<Element>, ghost base: set<Element>,
                 ghost cur: map<Element, Position>, ghost shift: Position, ghost i: nat, ghost added: set<Element>)
      requires Collected(items, parts, all, start, base, cur, unshift, i, added)
      requires forall k, l :: 0 <= k < l < |parts| ==> parts[k] !! parts[l]
      requires forall k :: 0 <= k < |parts| ==> parts[k] <= all
      requires i < |items| && shape == items[i] && shift == position.Defaulted()
      modifies this`shapes, this`Repr, parts[i]`position
      ensures Collected(items, parts, all, start, base, Step(all, cur, parts[i], shift), unshift, i + 1, added + parts[i])
      ensures position == old(position)
    {
      ghost var before := shapes;
      shape.Move(position.measureX, position.measureY, position.marginX, position.marginY);
      AddChild(shape, unshift);
      Extended(items, i, start, unshift, before);
    }

    /** `shapes.unshift(shape)` or `shapes.push(shape)`: the shape goes in
        front or at the back, and the footprint grows by its tree. */
    method AddChild(shape: Element, unshift: bool)
      requires Valid() && kind.ComplexObject?
      requires shape.Valid() && shape.Repr !! Repr
      modifies this`shapes, this`Repr
      ensures shapes == if unshift then [shape] + old(shapes) else old(shapes) + [shape]
      ensures Repr == old(Repr) + shape.Repr
      ensures Valid()
    {
      ChildrenInside();
      var after := if unshift then [shape] + shapes else shapes + [shape];
      ghost var grouped := Repr + shape.Repr;
      AfterAdd(shape, after, unshift);
      shapes := after;
      Repr := grouped;
      GroupValid();
    }

    /** The shapes of a group with one more shape in front or at the back are
        still valid, apart from the group and from each other, and cover the
        grown footprint. */
    lemma AfterAdd(shape: Element, after: seq<Element>, unshift: bool)
      requires Valid() && kind.ComplexObject?
      requires shape.Valid() && shape.Repr !! Repr
      requires after == if unshift then [shape] + shapes else shapes + [shape]
      ensures forall a :: 0 <= a < |after| ==> after[a].Valid() && this !in after[a].Repr
      ensures forall a, c :: 0 <= a < c < |after| ==> after[a].Repr !! after[c].Repr
      ensures Repr + shape.Repr == {this} + ReprOf(after)
      ensures this !in after
    {
      ChildrenInside();
      if unshift {
        Prepended(shape, shapes, Repr, this);
      } else {
        Appended(shape, shapes, Repr, this);
      }
    }

    lemma GroupValid()
      requires kind.ComplexObject? && bg == null && this in Repr
      requires forall i :: 0 <= i < |shapes| ==> shapes[i].Valid() && this !in shapes[i].Repr
      requires forall i, j :: 0 <= i < j < |shapes| ==> shapes[i].Repr !! shapes[j].Repr
      requires Repr == {this} + ReprOf(shapes)
      ensures Valid()
    {
      forall i | 0 <= i < |shapes|
        ensures shapes[i].Repr <= Repr
      {
        ReprOfHas(shapes, i);
      }
    }

    /** A ComplexObject's shapes lie inside its footprint. */
    lemma ChildrenInside()
      requires Valid() && kind.ComplexObject?
      ensures forall k :: 0 <= k < |shapes| ==> shapes[k].Valid() && shapes[k].Repr <= Repr && this !in shapes[k].Repr
      ensures forall k, l :: 0 <= k < l < |shapes| ==> shapes[k].Repr !! shapes[l].Repr
      ensures Repr == {this} + ReprOf(shapes)
    {
    }

    /* -------------------------------------------------------------------- */
    /* Setters                                                               */
    /* -------------------------------------------------------------------- */

    /** `measureX = v`: any value but null and undefined is stored. */
    method SetMeasureX(v: JsValue)
      modifies this`position
      ensures position == old(position).(measureX := KeepUnlessNullish(v, old(position.measureX)))
    {
      position := position.(measureX := KeepUnlessNullish(v, position.measureX));
    }

    /** `measureY = v`: any value but null and undefined is stored. */
    method SetMeasureY(v: JsValue)
      modifies this`position
      ensures position == old(position).(measureY := KeepUnlessNullish(v, old(position.measureY)))
    {
      position := position.(measureY := KeepUnlessNullish(v, position.measureY));
    }

    /** `marginX = v`: any value but null and undefined is stored. */
    method SetMarginX(v: JsValue)
      modifies this`position
      ensures position == old(position).(marginX := KeepUnlessNullish(v, old(position.marginX)))
    {
      position := position.(marginX := KeepUnlessNullish(v, position.marginX));
    }

    /** `marginY = v`: any value but null and undefined is stored. */
    method SetMarginY(v: JsValue)
      modifies this`position
      ensures position == old(position).(marginY := KeepUnlessNullish(v, old(position.marginY)))
    {
      position := position.(marginY := KeepUnlessNullish(v, position.marginY));
    }

    /** `fill = v`: true exactly when v is `true`. */
    method SetFill(v: JsValue)
      modifies this`fill
      ensures fill <==> v == Bool(true)
    {
      fill := FillFrom(v);
    }

    /** `hidden = v`: false exactly when v is `false`. */
    method SetHidden(v: JsValue)
      modifies this`hidden
      ensures !hidden <==> v == Bool(false)
    {
      hidden := HiddenFrom(v);
    }

    /** `bgColor = v`: a string, else "transparent". */
    method SetBgColor(v: JsValue)
      modifies this`bgColor
      ensures v.Str? ==> bgColor == v.s
      ensures !v.Str? ==> bgColor == "transparent"
    {
      bgColor := BgColorFrom(v);
    }

    /** `lineWidth = v`: a number, else 1. */
    method SetLineWidth(v: JsValue)
      modifies this`lineWidth
      ensures v.Num? ==> lineWidth == v.n
      ensures !v.Num? ==> lineWidth == Finite(1.0)
    {
      lineWidth := LineWidthFrom(v);
    }

    /** `width = v`: a Shape stores v as it is; a CText stores a number, else
        undefined. A number stored on a Shape is what `width` then reads. */
    method SetWidth(v: JsValue)
      modifies this`width, this`measuredHeight
      ensures kind.CText? ==> width == if v.Num? then v else Undefined
      ensures !kind.CText? ==> width == v
      ensures !kind.CText? && v.Num? ==> Width() == v.n
      ensures !kind.CText? ==> measuredHeight == old(measuredHeight)
    {
      if kind.CText? {
        width := if v.Num? then v else Undefined;
      } else {
        width := v;
      }
    }

    /** `height = v`: a Shape stores v as it is; a CText stores a number, else
        its current (text-metrics) height. */
    method SetHeight(v: JsValue)
      modifies this`height
      ensures kind.CText? ==> height == if v.Num? then v else Num(old(Height()))
      ensures !kind.CText? ==> height == v
      ensures !kind.CText? && v.Num? ==> Height() == v.n
    {
      if kind.CText? {
        height := if v.Num? then v else Num(Height());
      } else {
        height := v;
      }
    }

    /* -------------------------------------------------------------------- */
    /* CText font size                                                       */
    /* -------------------------------------------------------------------- */

    /** `yCorrection(currentFontSize, newFontSize)` on a CText with no fixed
        width: both line counts are 1, so `marginX += 2` and
        `marginY += (newFontSize - currentFontSize) + 2`. The position is
        assigned directly, not through move: the background stays where it is. */
    method YCorrection(currentFontSize: Number, newFontSize: Number)
      requires kind.CText? && !width.Truthy()
      modifies this`position
      ensures position == old(position).(marginX := JsPlus(old(position.marginX), Num(Finite(2.0))),
                                         marginY := JsPlus(old(position.marginY), Num(SingleLineCorrection(currentFontSize, newFontSize).Plus(Finite(2.0)))))
    {
      var currentTotalLines := Finite(1.0);
      var newTotalLines := Finite(1.0);
      var correction := newTotalLines.Times(newFontSize).Minus(currentTotalLines.Times(currentFontSize));
      position := position.(marginX := JsPlus(position.marginX, Num(Finite(2.0))));
      position := position.(marginY := JsPlus(position.marginY, Num(correction.Plus(Finite(2.0)))));
    }

    /** `fontSize = v` on a CText with no fixed width: a number, else 16; the
        position is corrected from the old size to the new one first. */
    method SetFontSize(v: JsValue)
      requires kind.CText? && !width.Truthy()
      modifies this`position, this`fontSize, this`measuredWidth, this`measuredHeight
      ensures fontSize == NumberOr(v, Finite(16.0))
      ensures position == FontCorrected(old(position), old(fontSize), fontSize)
    {
      var newFontSize := NumberOr(v, Finite(16.0));
      YCorrection(fontSize, newFontSize);
      fontSize := newFontSize;
    }
  }

  /** The position yCorrection leaves on a CText with no fixed width, when
      the font size goes from `current` to `next`: `marginX += 2` and
      `marginY += correction + 2`. */
  function FontCorrected(p: Position, current: Number, next: Number): Position {
    p.(marginX := JsPlus(p.marginX, Num(Finite(2.0))),
       marginY := JsPlus(p.marginY, Num(SingleLineCorrection(current, next).Plus(Finite(2.0)))))
  }

  /** Setting the font size and setting it back does not put the text back:
      each yCorrection adds a 2-pixel pad on both axes, so after the round
      trip a text at numeric margins stands 4 pixels right of and below where
      it was. */
  lemma {:induction false} FontSizeRoundTripDrifts(p: Position, a: Number, b: Number)
    requires p.marginX.Num? && p.marginX.n.Finite? && p.marginY.Num? && p.marginY.n.Finite?
    requires a.Finite? && b.Finite?
    ensures FontCorrected(FontCorrected(p, a, b), b, a)
         == p.(marginX := Num(p.marginX.n.Plus(Finite(4.0))), marginY := Num(p.marginY.n.Plus(Finite(4.0))))
  {
    var y := p.marginY.n.r;
    assert y + ((b.r - a.r) + 2.0) + ((a.r - b.r) + 2.0) == y + 4.0;
  }

  /** On a position of numbers, align moves along one axis only: a horizontal
      alignment leaves every field but marginX as it was, a vertical one every
      field but marginY. */
  lemma AlignOneAxis(dir: Direction, box: Bounds, c: Bounds, biasY: Number, k: Kind, p: Position)
    requires p.measureX.Num? && p.measureY.Num? && p.marginX.Num? && p.marginY.Num?
    ensures var moved := Moved(k, p, PixelShift(AlignShift(dir, box, c, biasY)));
            if dir.Horizontal() then moved.(marginX := p.marginX) == p
            else moved.(marginY := p.marginY) == p
  {
  }

  /** ComplexObject.move on numeric positions: a container and a child on the
      same scale, both moved by the same deltas, keep the child's x and y
      relative to the container's. */
  lemma {:induction false} GroupMoveRigid(parent: Position, child: Position, d: Position, scale: Number)
    requires parent.IsFinite() && child.IsFinite() && d.IsFinite() && scale.Finite?
    ensures var p, c := parent.Plus(d), child.Plus(d);
            && Coord(ToNumber(c.measureX), scale, ToNumber(c.marginX)).Minus(Coord(ToNumber(p.measureX), scale, ToNumber(p.marginX)))
               == Coord(ToNumber(child.measureX), scale, ToNumber(child.marginX)).Minus(Coord(ToNumber(parent.measureX), scale, ToNumber(parent.marginX)))
            && Coord(ToNumber(c.measureY), scale, ToNumber(c.marginY)).Minus(Coord(ToNumber(p.measureY), scale, ToNumber(p.marginY)))
               == Coord(ToNumber(child.measureY), scale, ToNumber(child.marginY)).Minus(Coord(ToNumber(parent.measureY), scale, ToNumber(parent.marginY)))
  {
    RigidTranslation(parent.measureX.n, parent.marginX.n, child.measureX.n, child.marginX.n, d.measureX.n, d.marginX.n, scale);
    RigidTranslation(parent.measureY.n, parent.marginY.n, child.measureY.n, child.marginY.n, d.measureY.n, d.marginY.n, scale);
  }

  /** addShapes on numeric positions: shifting a new shape component-wise by
      the container's four position fields puts it, on a shared scale, at its
      own x and y plus the container's. */
  lemma {:induction false} AdoptedAt(child: Position, container: Position, scale: Number)
    requires child.IsFinite() && container.IsFinite() && scale.Finite?
    ensures var c := child.Plus(container.Defaulted());
            && Coord(ToNumber(c.measureX), scale, ToNumber(c.marginX))
               == Coord(ToNumber(child.measureX), scale, ToNumber(child.marginX)).Plus(Coord(ToNumber(container.measureX), scale, ToNumber(container.marginX)))
            && Coord(ToNumber(c.measureY), scale, ToNumber(c.marginY))
               == Coord(ToNumber(child.measureY), scale, ToNumber(child.marginY)).Plus(Coord(ToNumber(container.measureY), scale, ToNumber(container.marginY)))
  {
    CoordSum(child.measureX.n, child.marginX.n, container.measureX.n, container.marginX.n, scale);
    CoordSum(child.measureY.n, child.marginY.n, container.measureY.n, container.marginY.n, scale);
  }

  /** Moving a position by a pixel delta alone (the measure delta is 0) moves
      its coordinate by exactly that delta. */
  lemma PixelShiftCoord(measure: JsValue, scale: Number, margin: JsValue, d: Number)
    ensures Coord(ToNumber(JsPlus(measure, Num(Zero))), scale, ToNumber(JsPlus(margin, Num(d))))
         == Coord(ToNumber(measure), scale, ToNumber(margin)).Plus(d)
  {
    CoordPixelShift(ToNumber(measure), scale, ToNumber(margin), d);
  }

  /** The pixel deltas as the four arguments of move. */
  function PixelShift(s: Shift): Position {
    Position(Num(Zero), Num(Zero), Num(s.dx), Num(s.dy))
  }

  /* ---------------------------------------------------------------------- */
  /* align's container                                                       */
  /* ---------------------------------------------------------------------- */

  /** What align may be given as a container: a Canvas2D (its pixel size), an
      Entity or Shape, or anything else. */
  datatype Container = Canvas(width: nat, height: nat) | Node(e: Element) | Unrecognized {
    ghost function Frame(): set<object>
      reads if Node? then {e} else {}
    {
      if Node? then e.Frame() else {}
    }
  }

  /** Container resolution: a canvas is `(0, 0, width, height)`, an Entity a
      point of zero size at its x and y, a Shape its own box; anything else
      is an error (logged) and align returns. */
  function Resolve(c: Container): (r: Option<Bounds>)
    reads c.Frame()
    ensures r.None? <==> c.Unrecognized?
    ensures c.Canvas? ==> r == Some(Bounds(Zero, Zero, Finite(c.width as real), Finite(c.height as real)))
    ensures c.Node? ==> r.value.x == c.e.X() && r.value.y == c.e.Y()
    ensures c.Node? && c.e.kind.Entity? ==> r.value.width == Zero && r.value.height == Zero
    ensures c.Node? && !c.e.kind.Entity? ==> r.value.width == c.e.Width() && r.value.height == c.e.Height()
  {
    match c
    case Canvas(w, h) => Some(Bounds(Zero, Zero, Finite(w as real), Finite(h as real)))
    case Node(e) => if e.kind.Entity? then Some(Bounds(e.X(), e.Y(), Zero, Zero)) else Some(e.Box())
    case Unrecognized => None
  }

  /* ---------------------------------------------------------------------- */
  /* Footprint lemmas                                                        */
  /* ---------------------------------------------------------------------- */

  /** Moving changes no structure, so validity survives it. */
  twostate lemma StructureKept(c: Element)
    requires old(c.Valid())
    requires unchanged(old(c.Repr)`Repr, old(c.Repr)`shapes)
    ensures c.Valid()
  {
  }

  lemma Apart(a: set<Element>, b: set<Element>, r: set<Element>)
    requires a !! r && b <= r
    ensures b !! a
  {
  }

  /** Shapes that are valid, disjoint and outside a group stay so with one
      more such shape in front. */
  lemma Prepended(shape: Element, s: seq<Element>, repr: set<Element>, owner: Element)
    requires forall k :: 0 <= k < |s| ==> s[k].Valid() && s[k].Repr <= repr && owner !in s[k].Repr
    requires forall k, l :: 0 <= k < l < |s| ==> s[k].Repr !! s[l].Repr
    requires shape.Valid() && shape.Repr !! repr && owner in repr
    ensures forall a :: 0 <= a < |[shape] + s| ==> ([shape] + s)[a].Valid() && owner !in ([shape] + s)[a].Repr
    ensures forall a, c :: 0 <= a < c < |[shape] + s| ==> ([shape] + s)[a].Repr !! ([shape] + s)[c].Repr
    ensures ReprOf([shape] + s) == shape.Repr + ReprOf(s)
  {
    ReprOfCons(shape, s);
    var t := [shape] + s;
    forall a | 0 < a < |t|
      ensures t[a] == s[a - 1]
    {
    }
    forall a, c | 0 <= a < c < |t|
      ensures t[a].Repr !! t[c].Repr
    {
      if a == 0 {
        Apart(shape.Repr, s[c - 1].Repr, repr);
      }
    }
  }

  /** The same with the new shape at the back. */
  lemma Appended(shape: Element, s: seq<Element>, repr: set<Element>, owner: Element)
    requires forall k :: 0 <= k < |s| ==> s[k].Valid() && s[k].Repr <= repr && owner !in s[k].Repr
    requires forall k, l :: 0 <= k < l < |s| ==> s[k].Repr !! s[l].Repr
    requires shape.Valid() && shape.Repr !! repr && owner in repr
    ensures forall a :: 0 <= a < |s + [shape]| ==> (s + [shape])[a].Valid() && owner !in (s + [shape])[a].Repr
    ensures forall a, c :: 0 <= a < c < |s + [shape]| ==> (s + [shape])[a].Repr !! (s + [shape])[c].Repr
    ensures ReprOf(s + [shape]) == ReprOf(s) + shape.Repr
  {
    ReprOfSnoc(s, shape);
    var t := s + [shape];
    forall a | 0 <= a < |s|
      ensures t[a] == s[a]
    {
    }
    forall a, c | 0 <= a < c < |t|
      ensures t[a].Repr !! t[c].Repr
    {
      if c == |s| {
        Apart(shape.Repr, s[a].Repr, repr);
      }
    }
  }

  /** The footprints of shapes that can be grouped, as values. */
  lemma SeparateParts(s: seq<Element>, others: set<Element>)
    requires Separate(s, others)
    ensures var parts := Footprints(s);
      && (forall k :: 0 <= k < |s| ==> parts[k] !! others && s[k] in parts[k])
      && (forall k, l :: 0 <= k < l < |s| ==> parts[k] !! parts[l])
      && (forall k :: 0 <= k < |s| ==> parts[k] <= ReprOf(s))
      && (forall e :: e in ReprOf(s) ==> exists k :: 0 <= k < |s| && e in parts[k])
  {
    forall k | 0 <= k < |s|
      ensures s[k].Repr <= ReprOf(s)
    {
      ReprOfHas(s, k);
    }
  }

  /** Positions as values while a group's shapes are moved one by one: `cur`
      holds the moved positions for the elements already visited and the
      original ones (`m0`) for the rest. */
  ghost predicate Shifting(parts: seq<set<Element>>, all: set<Element>, m0: map<Element, Position>,
                           cur: map<Element, Position>, d: Position, i: nat, moved: set<Element>)
  {
    && i <= |parts|
    && (forall k :: 0 <= k < |parts| ==> parts[k] <= all)
    && (forall k, l :: 0 <= k < l < |parts| ==> parts[k] !! parts[l])
    && (forall e :: e in all ==> exists k :: 0 <= k < |parts| && e in parts[k])
    && moved <= all
    && (forall k :: 0 <= k < i ==> parts[k] <= moved)
    && (forall k :: i <= k < |parts| ==> parts[k] !! moved)
    && (forall e :: e in all ==> e in m0 && e in cur)
    && (forall e :: e in all ==> cur[e] == if e in moved then Moved(e.kind, m0[e], d) else m0[e])
  }

  /** Before the first shape is visited, the positions are the original ones. */
  lemma StartShifting(parts: seq<set<Element>>, all: set<Element>, m0: map<Element, Position>, d: Position)
    requires forall k :: 0 <= k < |parts| ==> parts[k] <= all
    requires forall k, l :: 0 <= k < l < |parts| ==> parts[k] !! parts[l]
    requires forall e :: e in all ==> exists k :: 0 <= k < |parts| && e in parts[k]
    requires forall e :: e in all ==> e in m0
    ensures Shifting(parts, all, m0, m0, d, 0, {})
  {
  }

  /** A snapshot of the positions of some elements. */
  ghost function PositionsOf(all: set<Element>): (m: map<Element, Position>)
    reads all`position
    ensures forall e :: e in all ==> e in m && m[e] == e.position
  {
    map e | e in all :: e.position
  }

  /** The positions after the elements of `part` are moved by d. */
  ghost function Step(all: set<Element>, cur: map<Element, Position>, part: set<Element>, d: Position): map<Element, Position>
    requires forall e :: e in all ==> e in cur
  {
    map e | e in all :: if e in part then Moved(e.kind, cur[e], d) else cur[e]
  }

  lemma Shifted(parts: seq<set<Element>>, all: set<Element>, m0: map<Element, Position>,
                cur: map<Element, Position>, d: Position, i: nat, moved: set<Element>)
    requires Shifting(parts, all, m0, cur, d, i, moved) && i < |parts|
    ensures Shifting(parts, all, m0, Step(all, cur, parts[i], d), d, i + 1, moved + parts[i])
  {
    Grow(parts, moved, moved, i);
  }

  /** The footprint of each shape of a sequence, as values. */
  ghost function Footprints(s: seq<Element>): (parts: seq<set<Element>>)
    reads s`Repr
    ensures |parts| == |s| && forall k :: 0 <= k < |s| ==> parts[k] == s[k].Repr
  {
    if s == [] then [] else Footprints(s[..|s| - 1]) + [s[|s| - 1].Repr]
  }

  lemma ReprOfHas(s: seq<Element>, k: nat)
    requires k < |s|
    ensures s[k].Repr <= ReprOf(s)
  {
  }

  lemma ReprOfSnoc(s: seq<Element>, x: Element)
    ensures ReprOf(s + [x]) == ReprOf(s) + x.Repr
  {
    var t := s + [x];
    forall e | e in ReprOf(s)
      ensures e in ReprOf(t)
    {
      var k :| 0 <= k < |s| && e in s[k].Repr;
      assert t[k] == s[k];
    }
    assert forall e :: e in x.Repr ==> e in t[|s|].Repr;
  }

  lemma ReprOfCons(x: Element, s: seq<Element>)
    ensures ReprOf([x] + s) == x.Repr + ReprOf(s)
  {
    var t := [x] + s;
    forall e | e in ReprOf(s)
      ensures e in ReprOf(t)
    {
      var k :| 0 <= k < |s| && e in s[k].Repr;
      assert t[k + 1] == s[k];
    }
    forall e | e in ReprOf(t)
      ensures e in x.Repr + ReprOf(s)
    {
      var k :| 0 <= k < |t| && e in t[k].Repr;
      if k > 0 {
        assert t[k] == s[k - 1];
      }
    }
    assert forall e :: e in x.Repr ==> e in t[0].Repr;
  }

  lemma ReprOfReversed(s: seq<Element>)
    ensures ReprOf(Reversed(s)) == ReprOf(s)
  {
    var r := Reversed(s);
    forall e | e in ReprOf(s)
      ensures e in ReprOf(r)
    {
      var k :| 0 <= k < |s| && e in s[k].Repr;
      ReversedAt(s, |s| - 1 - k);
    }
    forall e | e in ReprOf(r)
      ensures e in ReprOf(s)
    {
      var k :| 0 <= k < |r| && e in r[k].Repr;
      ReversedAt(s, k);
    }
  }

  /** The list in the order addShapes visits it can still be grouped, and
      covers the same elements. */
  lemma Reordered(s: seq<Element>, reverse: bool, others: set<Element>)
    requires Separate(s, others)
    ensures var r := if reverse then Reversed(s) else s;
            Separate(r, others) && ReprOf(r) == ReprOf(s)
  {
    if reverse {
      SeparateReversed(s, others);
      ReprOfReversed(s);
    }
  }

  lemma SeparateReversed(s: seq<Element>, others: set<Element>)
    requires Separate(s, others)
    ensures Separate(Reversed(s), others)
  {
    var r := Reversed(s);
    forall k | 0 <= k < |r|
      ensures r[k] == s[|s| - 1 - k]
    {
      ReversedAt(s, k);
    }
  }

  /* ---------------------------------------------------------------------- */
  /* Worked examples                                                         */
  /* ---------------------------------------------------------------------- */

  /** Two entities sharing `{value: 2}` at 3 measures plus 1 pixel stand at
      x = 7; once the shared object's value is set to 8 both stand at 25. */
  method SharedSizeExample() returns (before: Number, after: Number, other: Number)
    ensures before == Finite(7.0) && after == Finite(25.0) && other == Finite(25.0)
  {
    var size := new SizeHolder(Num(Finite(2.0)));
    var a := new Element.MakeEntity(Some(Holder(size)), Num(Finite(3.0)), Undefined, Num(Finite(1.0)), Undefined);
    var b := new Element.MakeEntity(Some(Holder(size)), Num(Finite(3.0)), Undefined, Num(Finite(1.0)), Undefined);
    before := a.X();
    size.value := Num(Finite(8.0));
    after := a.X();
    other := b.X();
  }

  /** A width stored as an object is read through its first entry, and a
      function entry through what it returns. */
  method LookupExample() returns (plain: Number, viaFunction: Number, empty: Number)
    ensures plain == Finite(30.0) && viaFunction == Finite(12.0) && empty.NaN?
  {
    var r := new Element.MakeShape(Rectangle, None, Undefined, Undefined, Undefined, Undefined,
                                   Obj(Record([Stored(Num(Finite(30.0))), Stored(Num(Finite(5.0)))])), Undefined, Undefined);
    plain := r.Width();
    r.SetWidth(Obj(Record([Method(7, Num(Finite(12.0)))])));
    viaFunction := r.Width();
    r.SetWidth(Obj(Record([])));
    empty := r.Width();
  }
}
