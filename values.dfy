/**
 * The JavaScript values the combinators pass around, the truthiness test that
 * the `&&` / `||` idioms rely on, and the shapes every combinator shares:
 * a caller-supplied function, a recorded invocation and an error.
 */
module Values {

  /** A JavaScript runtime value, restricted to what the combinators observe. */
  datatype Value =
    | Undefined
    | Null
    | NaN
    | Bool(b: bool)
    | Int(i: int)
    | Str(s: string)
    | Arr(elems: seq<Value>)

  /** JavaScript's ToBoolean: every value is truthy except these falsy ones. */
  predicate Truthy(v: Value)
    ensures !Truthy(v) <==> v in {Undefined, Null, NaN, Bool(false), Int(0), Str([])}
  {
    match v
    case Undefined => false
    case Null => false
    case NaN => false
    case Bool(b) => b
    case Int(i) => i != 0
    case Str(s) => s != []
    case Arr(_) => true
  }

  /** `a && b`: yields `a` when it is falsy, otherwise `b`. */
  function And(a: Value, b: Value): (r: Value)
    ensures Truthy(r) <==> Truthy(a) && Truthy(b)
    ensures r == a || r == b
    ensures !Truthy(a) ==> r == a
    ensures Truthy(a) ==> r == b
  {
    if Truthy(a) then b else a
  }

  /** `a || b`: yields `a` when it is truthy, otherwise `b`. */
  function Or(a: Value, b: Value): (r: Value)
    ensures Truthy(r) <==> Truthy(a) || Truthy(b)
    ensures r == a || r == b
    ensures Truthy(a) ==> r == a
    ensures !Truthy(a) ==> r == b
  {
    if Truthy(a) then a else b
  }

  /** A caller-supplied function, applied to a spread argument list. */
  type Fn = seq<Value> -> Value

  /** `args[i]` in JavaScript: reading past the end gives `undefined`. */
  function Arg(args: seq<Value>, i: nat): (v: Value)
    ensures i < |args| ==> v == args[i]
    ensures i >= |args| ==> v == Undefined
  {
    if i < |args| then args[i] else Undefined
  }

  /** One invocation of the combinator's `index`-th function. */
  datatype Call = Call(index: nat, args: seq<Value>, result: Value)

  /** The errors the combinators raise at run time. */
  datatype Error =
    | NotAFunction      // calling the `undefined` that `pop()` returns on an empty list
    | NoParameterList   // reading group 1 of a failed parameter-list match
    | TooMuchArguments  // aim: fixing too many trailing arguments

  datatype Option<+T> = None | Some(value: T)

  datatype Result<+T> = Ok(value: T) | Err(error: Error)
}
