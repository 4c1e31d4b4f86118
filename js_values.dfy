/** The JavaScript values that reach the handle's argument checks, and the
    four JavaScript tests those checks are built from: truthiness (`!x`),
    `x === undefined`, `Number.isInteger(x)` and `typeof x === 'boolean'`. */
module JsValues {

  /** One argument as JavaScript sees it. Numbers are split by what
      `Number.isInteger` answers: `Int` is a finite number without a
      fractional part (-0 reads as 0), `NonInteger` is every other number
      (NaN when `nan` holds, otherwise an infinity or a fraction). */
  datatype JsValue =
    | Undefined
    | Null
    | Bool(b: bool)
    | Int(n: int)
    | NonInteger(nan: bool)
    | Str(s: string)
    | Obj

  /** `!!v`: the falsy values are undefined, null, false, 0, NaN and "". */
  predicate Truthy(v: JsValue) {
    match v
    case Undefined => false
    case Null => false
    case Bool(b) => b
    case Int(n) => n != 0
    case NonInteger(nan) => !nan
    case Str(s) => s != ""
    case Obj => true
  }

  /** `Number.isInteger(v)`: false for every non-number. */
  predicate IsInteger(v: JsValue) {
    v.Int?
  }

  /** `typeof v === 'boolean'`. */
  predicate IsBoolean(v: JsValue): (r: bool)
    ensures r <==> v == Bool(true) || v == Bool(false)
    ensures r ==> (Truthy(v) <==> v.b)
  {
    v.Bool?
  }

  /** `v !== undefined`; null counts as defined. */
  predicate IsDefined(v: JsValue): (r: bool)
    ensures r <==> v != Undefined
    ensures v == Null || v == Int(0) || v == Str("") ==> r
    ensures Truthy(v) ==> r
  {
    !v.Undefined?
  }

}
