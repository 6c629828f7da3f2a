/** JavaScript values as the layout code sees them: numbers (which may be NaN),
    the dynamic values handed to setters, and the coercions the setters apply. */
module Js {

  datatype Option<+T> = None | Some(value: T)

  /** A JavaScript number. Positions are modelled over the reals, so the only
      non-finite value kept is NaN, which every arithmetic operation propagates. */
  datatype Number = Finite(r: real) | NaN {

    function Plus(b: Number): Number {
      if Finite? && b.Finite? then Finite(r + b.r) else NaN
    }

    function Minus(b: Number): Number {
      if Finite? && b.Finite? then Finite(r - b.r) else NaN
    }

    function Times(b: Number): Number {
      if Finite? && b.Finite? then Finite(r * b.r) else NaN
    }

    function Half(): Number {
      if Finite? then Finite(r / 2.0) else NaN
    }

    function Negated(): Number {
      if Finite? then Finite(-r) else NaN
    }
  }

  const Zero := Finite(0.0)

  /** A dynamic JavaScript value. `O` stands for the objects a source file
      tells apart (a Measure instance, a plain record). */
  datatype Value<O> =
    | Num(n: Number)
    | Str(s: string)
    | Bool(b: bool)
    | Null
    | Undefined
    | Fn(id: nat)
    | Obj(o: O)
  {
    /** `v ?? fallback` keeps v unless it is null or undefined. */
    predicate IsNullish() {
      Null? || Undefined?
    }

    /** What `if (v)` decides. */
    predicate Truthy() {
      match this
      case Num(n) => n.Finite? && n.r != 0.0
      case Str(s) => s != ""
      case Bool(b) => b
      case Null => false
      case Undefined => false
      case Fn(_) => true
      case Obj(_) => true
    }
  }

  /** The number an arithmetic operator makes of a value. Text is not parsed:
      a string counts as NaN. Objects count as NaN too; the one object kind
      with a numeric valueOf (a Measure) is converted before it gets here. */
  function ToNumber<O>(v: Value<O>): Number {
    match v
    case Num(n) => n
    case Bool(b) => if b then Finite(1.0) else Zero
    case Null => Zero
    case Str(_) => NaN
    case Undefined => NaN
    case Fn(_) => NaN
    case Obj(_) => NaN
  }

  /** JavaScript `a + b` on two values whose sum is stored back (text is NaN). */
  function JsPlus<O>(a: Value<O>, b: Value<O>): Value<O> {
    Num(ToNumber(a).Plus(ToNumber(b)))
  }

  /** `typeof(v) === "number" ? v : previous` */
  function NumberOr<O>(v: Value<O>, previous: Number): Number {
    if v.Num? then v.n else previous
  }

  /** The `fill` setter: `fill === true ? true : false`. */
  function FillFrom<O>(v: Value<O>): bool {
    v.Bool? && v.b
  }

  /** The `hidden` setter: `value === false ? false : true`. */
  function HiddenFrom<O>(v: Value<O>): bool {
    !(v.Bool? && !v.b)
  }

  /** The `bgColor` setter: a string, else "transparent". */
  function BgColorFrom<O>(v: Value<O>): string {
    if v.Str? then v.s else "transparent"
  }

  /** The `lineWidth` setter: a number, else 1. */
  function LineWidthFrom<O>(v: Value<O>): Number {
    if v.Num? then v.n else Finite(1.0)
  }

  /** `v ?? previous`. */
  function KeepUnlessNullish<O>(v: Value<O>, previous: Value<O>): Value<O> {
    if v.IsNullish() then previous else v
  }
}
