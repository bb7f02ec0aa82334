/**
 Dynamically typed configuration values, as the gateway hands them to its
 rate-limit components: the values of a Go `map[string]interface{}` decoded
 from the service descriptor's `extra_config` block.

 Each constructor of `Value` stands for one Go dynamic type that a type
 switch can tell apart. Go's `int` is 64 bits wide on the targets the
 gateway is built for, so it carries an `int64` like `int64` does; they
 remain distinct constructors because a type switch distinguishes them.
 */
module Dynamic {

  const MinInt64: int := -0x8000_0000_0000_0000
  const MaxInt64: int := 0x7fff_ffff_ffff_ffff

  /** The values of Go's `int64` (and of `int` on 64-bit targets). */
  type int64 = x: int | -0x8000_0000_0000_0000 <= x <= 0x7fff_ffff_ffff_ffff

  datatype Option<+T> = None | Some(value: T)

  datatype Value =
    | F64(f: real)                      // float64, finite values only
    | I(i: int64)                       // int
    | I64(n: int64)                     // int64
    | Str(s: string)                    // string
    | Bool(b: bool)                     // bool
    | Null                              // a nil interface value
    | List(items: seq<Value>)           // []interface{}
    | Obj(fields: map<string, Value>)   // map[string]interface{}
    | Other(typeName: string)           // any other Go type (uint, float32, a named map type, ...)

  /** The extra-configuration block: namespace -> that component's settings. */
  type ExtraConfig = map<string, Value>

  /** Go's float-to-integer conversion: the fraction is discarded, rounding toward zero. */
  function Trunc(x: real): (r: int)
    ensures 0.0 <= x ==> r as real <= x < r as real + 1.0
    ensures x < 0.0 ==> r as real - 1.0 < x <= r as real
  {
    if x >= 0.0 then x.Floor else -((-x).Floor)
  }

  /** The number a value denotes when it is of one of the numeric kinds. */
  function Number(v: Value): (n: Option<real>)
    ensures n.Some? <==> v.F64? || v.I? || v.I64?
  {
    match v
    case F64(f) => Some(f)
    case I(i) => Some(i as real)
    case I64(n) => Some(n as real)
    case _ => None
  }

  /** Converting the entry at `k` from float64 to a 64-bit integer is defined:
      Go leaves an out-of-range conversion implementation-dependent. */
  predicate FitsAt(m: map<string, Value>, k: string) {
    k in m && m[k].F64? ==> MinInt64 <= Trunc(m[k].f) <= MaxInt64
  }

  /** `fmt.Sprintf("%v", v)`: a string renders as itself; the rendering of
      every other value is the formatter `show`, left uninterpreted. */
  function Format(show: Value -> string, v: Value): (s: string)
    ensures v.Str? ==> s == v.s
  {
    if v.Str? then v.s else show(v)
  }
}
