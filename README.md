# Canvas layout core, in Dafny

This project models the layout core of a small HTML-canvas scene library. The
library exists in two versions of one design. Each version is its own module,
because their class names clash.

- `Mesh2D` (`mesh2d.dfy`) models `ObjectMesh2D.js`. A `Measure` is a mutable
  scale shared by reference. Its value setter notifies the registered callbacks
  in order, and the model returns those calls as a trace. An element stands at
  `x = marginMeasureX * measure + marginX`, and likewise for `y`, recomputed on
  every read. The measure and offset setters keep the old value when given a
  non-number; fill, hidden, bgColor and lineWidth fall back to their defaults.
  `Style.align` resolves a container and applies one pixel delta through
  `move`. Rectangle, Img and CText add the four deltas to their offsets; a CText
  passes them on to its background rectangle, and a ComplexObject moves itself
  and every grouped shape. `addShapes` reverses the caller's array in place if
  asked, moves each new shape by the group's `(0, 0, x, y)`, and pushes or
  unshifts it. `yCorrection` covers the case with no fixed width.
- `Models` (`models.dfy`) models `models.js`, the earlier version. Positions are
  whatever the nullish-keeping setters were given. The scale is the `value`
  property of a shared `measureSize` object (`{value: 1}` when none is given).
  A stored width or height may be a plain object, read through the first
  entry of its for-in loop.
  `addShapes` shifts new shapes component-wise by the group's raw position
  fields.
- `Layout` (`layout.dfy`) holds the value-level rules both versions share: the
  affine coordinate formula, the alignment delta and where it places a box, the
  one-line font-size correction, and list reversal with the order it gives
  `push`/`unshift`.
- `Js` (`js.dfy`) holds JavaScript values and the coercions the setters apply.
  A number is a real or NaN.

Scene elements are classes whose `move` and setters update fields in place.
`Repr` is the set of elements a move reaches. `Valid()` says that these sets
form disjoint trees. Each loop of the source (ComplexObject's move,
addShapes, the Measure setter, `Array.prototype.reverse`) is a `while` loop with
invariants.

## Model

| member | source | states |
|---|---|---|
| Layout.Coord | ObjectMesh2D.js:164-166 | The coordinate is a number exactly when the offset in measures, the scale and the pixel offset are, and is then `measureOffset * scale + pixelOffset` |
| Layout.CoordPixelShift | ObjectMesh2D.js:164-166 | Adding d to the pixel offset moves the coordinate by exactly d, NaN included |
| Layout.CoordScaleChange | ObjectMesh2D.js:75-77 | Changing only the measure's value from `a` to `b` shifts x by `marginMeasureX * (b - a)` |
| Layout.RigidTranslation | ObjectMesh2D.js:364-369 | A container and a child on one scale, moved by the same deltas, keep the child's distance to the container |
| Layout.CoordSum | models.js:356-369 | Shifting a node's offsets by another node's offsets on one scale adds the two absolute coordinates |
| Layout.ParseDirection | ObjectMesh2D.js:131-150 | A string selects the case it labels, and a string no case labels selects none |
| Layout.ParseName | ObjectMesh2D.js:131-150 | Every case label selects its own case, so with ParseDirection a string selects a case exactly when it is that case's label |
| Layout.AlignShift | ObjectMesh2D.js:131-150 | Horizontal directions give dy = 0 and vertical ones dx = 0. On finite input the shifted box is Placed: `x == cX` for left, `x == cX + (cWidth - width)/2` for centerX, `offsetRight == cX + cWidth` for right, and the vertical cases add biasY. A NaN bias makes every vertical delta NaN |
| Layout.AlignedIsFixedPoint | ObjectMesh2D.js:131-150 | A box that is already Placed gets the zero delta |
| Layout.AlignTwice | ObjectMesh2D.js:131-150 | Aligning twice against unchanged container bounds is the same as aligning once |
| Layout.SingleLineCorrection | ObjectMesh2D.js:472-478 | With no fixed width, the correction is `new - cur` on finite sizes and NaN when either size is NaN |
| Layout.Reversed | ObjectMesh2D.js:373 | `Array.prototype.reverse` as a value keeps the length; ReversedAt, ReversedTwice and ReversedPermutes state the rest |
| Layout.ReversedAt | ObjectMesh2D.js:373 | Element k of the reversed list is element `n - 1 - k` of the list |
| Layout.ReversedTwice | ObjectMesh2D.js:373-378 | Reversing twice restores the list, so `reverse` plus `unshift` puts the new shapes in front in their original order |
| Layout.ReversedPermutes | ObjectMesh2D.js:373 | Reversal keeps the same multiset of shapes |
| Layout.ReversedSnoc | ObjectMesh2D.js:374-378 | Unshifting the items one by one builds the reversed list |
| Layout.ReverseInPlace | ObjectMesh2D.js:373 | `shapes.reverse()` leaves the array holding the reversal of its old contents |
| Layout.Extended | ObjectMesh2D.js:374-383 | Each push or unshift extends the order built so far by the next item |
| Mesh2D.Measure.constructor | ObjectMesh2D.js:57-68 | A number is stored. A function with a Measure base stores the function's numeric result (undefined otherwise) and registers the function on the base without changing the base's value. Anything else gives 1 |
| Mesh2D.Measure.AddOnChangeFunction | ObjectMesh2D.js:70-73 | Only functions are appended, and duplicates are kept |
| Mesh2D.Measure.ValueOf | ObjectMesh2D.js:75-77 | `valueOf()` is the stored `_value`, None while undefined. It has no contract of its own: SetValue reads a stored number back through it |
| Mesh2D.Measure.SetValue | ObjectMesh2D.js:79-88 | A number is stored, then each callback is called once in registration order with (old, new). A non-number changes nothing and calls nothing |
| Mesh2D.MoveRoundTrip | ObjectMesh2D.js:315-320 | `move(d)` followed by `move(-d)` restores all four offsets |
| Mesh2D.Element.MakeEntity | ObjectMesh2D.js:189-199 | The Style defaults, a fresh Measure of 1 unless a Measure or number is given, and numeric offsets, defaulting to 0 |
| Mesh2D.Element.MakeShape | ObjectMesh2D.js:222-235 | As for an Entity, plus `width ?? 0`, `height ?? 0` and the bgColor coercion |
| Mesh2D.Element.MakeGroup | ObjectMesh2D.js:334-339 | A ComplexObject with no shapes, the Rectangle constructor's scale (a fresh Measure of 1 unless a Measure or number is given), offsets and size, visible, line width 1, a pink background and no fill |
| Mesh2D.Element.X | ObjectMesh2D.js:164 | x is a number exactly when marginMeasureX, the measure's current value and marginX are; Layout.Coord gives its value |
| Mesh2D.Element.Y | ObjectMesh2D.js:166 | y is a number exactly when marginMeasureY, the measure's current value and marginY are |
| Mesh2D.Element.Width | ObjectMesh2D.js:239-244 | A Shape reads a stored number as it is and a stored Measure through its value. A CText reads a truthy stored number, and otherwise the text-metrics width, as the CText getter at ObjectMesh2D.js:427-434 does |
| Mesh2D.Element.Height | ObjectMesh2D.js:247-252 | A Shape reads a stored number as it is and a stored Measure through its value. A CText always reads the text-metrics height, as the CText getter at ObjectMesh2D.js:435 does |
| Mesh2D.Element.OffsetTop | ObjectMesh2D.js:270-272 | The top edge is y |
| Mesh2D.Element.OffsetBottom | ObjectMesh2D.js:275-277 | The bottom edge is a number exactly when y and the height are, and then lies the height below the top edge |
| Mesh2D.Element.OffsetLeft | ObjectMesh2D.js:280-282 | The left edge is x |
| Mesh2D.Element.OffsetRight | ObjectMesh2D.js:285-287 | The right edge is a number exactly when x and the width are, and then lies the width right of the left edge |
| Mesh2D.Element.Box | ObjectMesh2D.js:270-287 | The right and bottom edges are offsetRight and offsetBottom, and the left and top edges are x and y |
| Mesh2D.Element.BiasYAsWritten | ObjectMesh2D.js:126-128 | As written, the bias is NaN exactly for a CText |
| Mesh2D.Element.Move | ObjectMesh2D.js:315-320 | Every element in the footprint (itself, a CText's background, a group's shapes, recursively) gets exactly the four deltas added. An Entity does not move, and nothing outside the footprint changes |
| Mesh2D.Element.MoveShapes | ObjectMesh2D.js:364-369 | Every element under the group's shapes is moved by d |
| Mesh2D.Element.MoveNth | ObjectMesh2D.js:367 | Moving the i-th shape keeps the group valid and moves exactly that shape's footprint |
| Mesh2D.Element.Align | ObjectMesh2D.js:99-151 | The corrected align of the Findings row, with the font size as a CText's vertical bias where the source yields NaN. An unrecognised container or direction changes nothing. Otherwise everything in the footprint is moved by the one pixel delta, and a non-Entity with finite geometry ends Placed against the container's old bounds |
| Mesh2D.Element.AlignBy | ObjectMesh2D.js:131-150 | The footprint moves by the delta, and the box ends Placed |
| Mesh2D.AlignOneAxis | ObjectMesh2D.js:131-150 | Horizontal alignment changes only marginX, and vertical alignment only marginY |
| Mesh2D.AsWrittenTextLosesY | ObjectMesh2D.js:126-133 | Vertical alignment of a CText with the bias as written makes its marginY NaN |
| Mesh2D.Resolve | ObjectMesh2D.js:105-123 | Only an unrecognised container fails. A canvas gives (0, 0, width, height). A node gives its own x and y, with zero size for an Entity and its width and height for a Shape |
| Mesh2D.SelfGroupHasNoTree | ObjectMesh2D.js:372-385 | A group that lists itself among its shapes, which addShapes as written allows, is not a valid tree |
| Mesh2D.Element.AddShapes | ObjectMesh2D.js:372-385 | The array is reversed in place when asked. Shapes become `old + list` (push) or `reverse(list) + old` (unshift). Every new element moves by `(0, 0, old x, old y)`. Existing elements do not move, and the group stays valid |
| Mesh2D.Element.AdoptAll | ObjectMesh2D.js:374-383 | The loop's order and shift, for all items |
| Mesh2D.Element.Adopt | ObjectMesh2D.js:376-377 | One shape is moved by the shift and added, and the group's own x and y are unchanged |
| Mesh2D.Element.AddChild | ObjectMesh2D.js:377 | The shape goes to the front or the back, and the footprint grows by the shape's footprint |
| Mesh2D.Element.ReverseKeeping | ObjectMesh2D.js:373 | Reversing the argument array touches no element |
| Mesh2D.MeasureFrom | ObjectMesh2D.js:173 | A Measure gives that shared Measure, a number a plain scale, and anything else the previous scale |
| Mesh2D.Element.SetMeasure | ObjectMesh2D.js:173 | A Measure or a number replaces the scale, and anything else keeps it |
| Mesh2D.Element.SetMarginMeasureX | ObjectMesh2D.js:174 | Only a number replaces the offset |
| Mesh2D.Element.SetMarginMeasureY | ObjectMesh2D.js:175 | Only a number replaces the offset |
| Mesh2D.Element.SetMarginX | ObjectMesh2D.js:176 | Only a number replaces the offset |
| Mesh2D.Element.SetMarginY | ObjectMesh2D.js:177 | Only a number replaces the offset |
| Mesh2D.Element.SetFill | ObjectMesh2D.js:179 | fill is true iff given exactly `true` |
| Mesh2D.Element.SetHidden | ObjectMesh2D.js:180 | hidden is false iff given exactly `false` |
| Mesh2D.Element.SetBgColor | ObjectMesh2D.js:181 | A string, else "transparent" |
| Mesh2D.Element.SetLineWidth | ObjectMesh2D.js:182 | A number, else 1 |
| Mesh2D.Element.SetWidth | ObjectMesh2D.js:442 | A CText stores a number, else undefined, and its text-metrics height may change. A Shape stores `v ?? 0` (ObjectMesh2D.js:254) and keeps its other fields |
| Mesh2D.Element.SetHeight | ObjectMesh2D.js:443 | A CText stores a number, else its current height. A Shape stores `v ?? 0` (ObjectMesh2D.js:255) |
| Mesh2D.Element.YCorrection | ObjectMesh2D.js:472-478 | With no fixed width, marginX grows by 2 and marginY by `(new - cur) + 2`, and nothing else changes |
| Mesh2D.Element.SetFontSize | ObjectMesh2D.js:444-448 | The size becomes a number, else 16, the offsets are corrected from the old size to the new, and the text-metrics width and height may change |
| Mesh2D.FontCorrected | ObjectMesh2D.js:472-478 | The offsets after yCorrection: marginX grows by 2 and marginY by the correction plus 2 |
| Mesh2D.FontSizeRoundTripDrifts | ObjectMesh2D.js:444-478 | Setting the font size and setting it back leaves a text 4 pixels right of and below where it was: each correction adds its 2-pixel pad |
| Mesh2D.ScaleExample | ObjectMesh2D.js:164-166 | Setting the shared measure from 2 to 8 moves an entity at 3 measures plus 1 pixel from 7 to 25 |
| Mesh2D.DerivedExample | ObjectMesh2D.js:62-64 | A derived measure keeps its first value when the base changes, and its function is only called with (old, new) |
| Mesh2D.CenterExample | ObjectMesh2D.js:139 | A 20-wide rectangle centred on a 100-wide canvas stands at x = 40 |
| Models.ReadSize | models.js:213-223 | The for-in loop returns the first entry, or the call's result when that entry is a function. A non-object, or an object with no entry, is returned unchanged. The result is Lookup, the value the coordinates read |
| Models.FirstEntryDecides | models.js:215-221 | Entries after the first never change what the getter returns |
| Models.LookupOneLevel | models.js:215-221 | An object stored as the first entry is returned as it is, not read through again |
| Models.Position.Defaulted | models.js:299 | move's default parameters: no argument stays undefined, and every argument given is kept |
| Models.MoveRoundTrip | models.js:299-304 | `move(d)` followed by `move(-d)` restores numeric positions |
| Models.Element.MakeEntity | models.js:126-136 | `measureSize` is the given one, else a fresh `{value: 1}`. Each position field is `v ?? 0`, and the Style defaults apply |
| Models.Element.MakeShape | models.js:181-195 | As for an Entity, plus `width ?? 0` and `height ?? 0` stored as given, and the bgColor coercion |
| Models.Element.MakeGroup | models.js:318-324 | A ComplexObject with no shapes, the given `measureSize` or a fresh `{value: 1}`, the Rectangle constructor's positions and size, visible, line width 1, a pink background and no fill |
| Models.Element.X | models.js:139 | x is a number exactly when `measureX`, `measureSize.value` and `marginX` read as numbers |
| Models.Element.Y | models.js:141 | y is a number exactly when `measureY`, `measureSize.value` and `marginY` read as numbers |
| Models.Element.Width | models.js:213-223 | A Shape reads a stored number as it is and a plain object through its first entry. A CText reads a truthy stored number, and otherwise the text-metrics width, as the CText getter at models.js:411-418 does |
| Models.Element.Height | models.js:226-236 | A Shape reads a stored number as it is and a plain object through its first entry. A CText always reads the text-metrics height, as the CText getter at models.js:419 does |
| Models.Element.OffsetTop | models.js:254-256 | The top edge is y |
| Models.Element.OffsetBottom | models.js:259-261 | The bottom edge is a number exactly when y and the height are, and then lies the height below the top edge |
| Models.Element.OffsetLeft | models.js:264-266 | The left edge is x |
| Models.Element.OffsetRight | models.js:269-271 | The right edge is a number exactly when x and the width are, and then lies the width right of the left edge |
| Models.Element.Box | models.js:253-271 | The right and bottom edges are offsetRight and offsetBottom, and the left and top edges are x and y |
| Models.Element.Move | models.js:299-304 | Every element in the footprint gets the four deltas added with `+=`, an undefined delta counting as 0. An Entity does not move, and nothing else changes |
| Models.Element.MoveShapes | models.js:348-353 | Every element under the group's shapes is moved by d |
| Models.Element.MoveNth | models.js:351 | Moving the i-th shape keeps the group valid and moves exactly that shape's footprint |
| Models.Element.Align | models.js:50-102 | An unrecognised container or direction changes nothing. Otherwise the footprint moves by the one pixel delta, and a non-Entity with finite geometry ends Placed, with the font size as the CText bias |
| Models.Element.AlignBy | models.js:82-101 | The footprint moves by the delta, and the box ends Placed |
| Models.AlignOneAxis | models.js:82-101 | On numeric positions, horizontal alignment changes only marginX and vertical alignment only marginY |
| Models.Resolve | models.js:56-74 | Only an unrecognised container fails. A canvas gives (0, 0, width, height). A node gives its own x and y, with zero size for an Entity and its width and height for a Shape |
| Models.GroupMoveRigid | models.js:348-353 | Children on the group's scale keep their x and y relative to the group when both move |
| Models.Element.AddShapes | models.js:356-369 | The array is reversed in place when asked, and shapes are pushed or unshifted as in Mesh2D. Every new element moves component-wise by the group's old raw position fields. Existing elements do not move, and the group stays valid |
| Models.AdoptedAt | models.js:360 | On a shared scale, the component-wise shift puts a new shape at its own x and y plus the group's |
| Models.Element.AdoptAll | models.js:364-367 | The loop's order and shift, for all items |
| Models.Element.Adopt | models.js:365-366 | One shape is moved by the group's position and added, and the group's position is unchanged |
| Models.Element.AddChild | models.js:366 | The shape goes to the front or the back, and the footprint grows by the shape's footprint |
| Models.Element.ReverseKeeping | models.js:357 | Reversing the argument array touches no element |
| Models.Element.SetMeasureX | models.js:148 | Anything but null and undefined is stored, and those keep the old value |
| Models.Element.SetMeasureY | models.js:149 | Anything but null and undefined is stored, and those keep the old value |
| Models.Element.SetMarginX | models.js:150 | Anything but null and undefined is stored, and those keep the old value |
| Models.Element.SetMarginY | models.js:151 | Anything but null and undefined is stored, and those keep the old value |
| Models.Element.SetFill | models.js:109 | fill is true iff given exactly `true` |
| Models.Element.SetHidden | models.js:110 | hidden is false iff given exactly `false` |
| Models.Element.SetBgColor | models.js:111 | A string, else "transparent" |
| Models.Element.SetLineWidth | models.js:112 | A number, else 1 |
| Models.Element.SetWidth | models.js:426 | A CText stores a number, else undefined, and its text-metrics height may change. A Shape stores v as given (models.js:238), reads back a stored number and keeps its other fields |
| Models.Element.SetHeight | models.js:427 | A CText stores a number, else its current height. A Shape stores v as given (models.js:239) and reads back a stored number |
| Models.Element.YCorrection | models.js:457-463 | With no fixed width, marginX gets `+= 2` and marginY gets `+= (new - cur) + 2` |
| Models.Element.SetFontSize | models.js:429-433 | The size becomes a number, else 16, the position is corrected from the old size to the new, and the text-metrics width and height may change |
| Models.FontCorrected | models.js:457-463 | The position after yCorrection: `marginX += 2` and `marginY += correction + 2` |
| Models.FontSizeRoundTripDrifts | models.js:429-463 | Setting the font size and setting it back leaves a text at numeric margins 4 pixels right of and below where it was |
| Models.SharedSizeExample | models.js:139-141 | Two entities sharing `{value: 2}` both move from 7 to 25 when the shared value becomes 8 |
| Models.LookupExample | models.js:213-223 | A width stored as an object is read through its first entry (a later entry is ignored), and through a function entry's result |

## Left out

- Canvas2D is a DOM wrapper. It appears only as an align container with a width and height in pixels.
- The `create` methods (drawing), Img's image loading, Rectangle's `round`, `showDisplayArea`, and CText's `color`, `fontWeight` and `fontFamily` are not modelled. They only affect drawing.
- The text-metrics service (`measureText`, `getLineCount`) is foreign. A CText's measured width and height are fields the model reads. `move` does not change them. SetFontSize may change both and SetWidth the height, to values the model does not know.
- CText construction is not modelled: `MakeShape` builds Rectangles and Imgs only. The constructor's first `fontSize` assignment corrects from an undefined size.
- `console.log` and `console.error` output are not modelled. In each error case the model leaves the state unchanged.
- Mesh2D.Resolve: a null or undefined container counts as unrecognised, so align returns with nothing changed. The source instead throws a TypeError at `container.constructor.name` while building the message (ObjectMesh2D.js:121). Nothing has changed by then either.
- Models.Resolve: the same for a null or undefined container (models.js:72).
- The Entity and Shape base `move`, `create` and `hasCollision` stubs only log. An Entity's move is a no-op.
- Interactive and the `idCount` counters have no behaviour to model.
- Numbers are reals plus NaN. Floating-point rounding and infinities are not modelled, so the move round trip is exact here and only approximate in JavaScript.
- Mesh2D.Measure.SetValue: the callbacks are returned as a trace of calls. What they do is not modelled.
- Mesh2D.Measure.constructor: what the derived function returns is a parameter, since the function itself is opaque.
- Mesh2D.Element.Move: the deltas are numbers. A non-number argument is not modelled; the typed setters would reject a concatenated string.
- Mesh2D.Element.MakeGroup: stops before the constructor's call of addShapes. That call is `AddShapes` on the new group, and the colour and fill set after it are fields addShapes does not touch.
- Models.Element.MakeGroup: stops before the constructor's call of addShapes, as in Mesh2D.
- Mesh2D.Element.AddShapes: requires the new shapes to be disjoint trees apart from the group. The source does not check this. A shape listed twice would be moved twice, and the group itself or one of its shapes makes move recurse without end (see Findings).
- Models.Element.AddShapes: requires disjoint new shapes, as in Mesh2D.
- Mesh2D.Element.YCorrection: only the case with no fixed width, because the other case needs the text-metrics service.
- Models.Element.YCorrection: only the case with no fixed width, as in Mesh2D.
- Mesh2D.Element.SetFontSize and Models.Element.SetFontSize: only on a CText with no fixed width, as in YCorrection.
- Models.Element.Move: JavaScript `+` concatenates when either side is a string. The model adds a string as NaN instead.
- Models.Element.X: a string in `measureX` or `measureSize.value` counts as NaN, where `*` would parse a numeric string. A string in `marginX` counts as NaN too, where `+` would concatenate and x would become a string.
- Models.Element.Y: as for X, with `measureY` and `marginY`.
- Mesh2D.Element.Width: a numeric string stored as a Shape's width reads as NaN. In the source, align's `-` converts it to a number.
- Mesh2D.Element.Height: the same for a numeric string stored as a Shape's height.
- Models.Element.Width: the same for a numeric string stored directly or as the first entry.
- Models.Element.Height: the same as for Models.Element.Width.
- Models.AlignOneAxis: holds for numeric position fields only. Adding 0 to a non-number field changes the stored value, in JavaScript as well.
- Models.ReadSize: an object is known by its enumerable entries in for-in order; keys, getters on the object and arrays are not modelled. A function entry is known by what it returns when called on the object.
- Derived measures are not refreshed, and there is no relayout when a measure changes. The source has no such behaviour.

## Findings

| source | as written | input that shows it | evidently intended | confidence | as-written member | corrected member |
|---|---|---|---|---|---|---|
| ObjectMesh2D.js:372-385 | addShapes takes any shapes, the group itself and shapes already grouped included; models.js:356-369 does the same | `g.addShapes([g])` then `g.move(1)`: the group's move moves each shape, itself among them, without end | the grouped shapes form a tree, so move visits each element once | not executed | Mesh2D.SelfGroupHasNoTree | Mesh2D.Element.AddShapes |
| ObjectMesh2D.js:128 | align adds `element.style.fontSize` to the vertical bias, but the CText setter stores the size under `style._fontSize`, so the read is undefined and the bias is NaN | `align("top", canvas)` on any CText: marginY and y become NaN | the bias is the font size, as models.js:79 has it | not executed | Mesh2D.AsWrittenTextLosesY | Mesh2D.Element.Align |
