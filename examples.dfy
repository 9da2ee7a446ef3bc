/**
 * The library's own usage examples, restated over the model: small
 * functions on integers and the results the combinators give for them.
 * Division is only ever applied to even integers here, so no fractional
 * value arises.
 */
module Examples {
  import opened Values
  import Chaining
  import Predicates
  import FanOut
  import Conditional
  import Partial
  import Params

  /** `(x, y) => x + y` on integers; anything else gives NaN. */
  function Add(args: seq<Value>): Value {
    match (Arg(args, 0), Arg(args, 1))
    case (Int(x), Int(y)) => Int(x + y)
    case _ => NaN
  }

  /** `(x, y) => x - y`. */
  function Subtract(args: seq<Value>): Value {
    match (Arg(args, 0), Arg(args, 1))
    case (Int(x), Int(y)) => Int(x - y)
    case _ => NaN
  }

  /** `x => x * 2`. */
  function Double(args: seq<Value>): Value {
    match Arg(args, 0)
    case Int(x) => Int(2 * x)
    case _ => NaN
  }

  /** `x => x / 2` on even integers. */
  function Half(args: seq<Value>): Value {
    match Arg(args, 0)
    case Int(x) => if x % 2 == 0 then Int(x / 2) else NaN
    case _ => NaN
  }

  /** `n => n === k`. */
  function Is(k: int): Fn {
    args => Bool(Arg(args, 0) == Int(k))
  }

  /** `x => x !== 2`. */
  function Not2(args: seq<Value>): Value {
    Bool(Arg(args, 0) != Int(2))
  }

  /** `x => x % 2 === 0`. */
  function IsEven(args: seq<Value>): Value {
    match Arg(args, 0)
    case Int(x) => Bool(x % 2 == 0)
    case _ => Bool(false)
  }

  /** `x => true`. */
  function RetTrue(args: seq<Value>): Value {
    Bool(true)
  }

  /** `compose(x2, add)(2, 3)` and `pipe(add, x2)(2, 3)` both give 10. */
  lemma ChainingExamples()
    ensures Chaining.Compose([Double, Add], [Int(2), Int(3)]) == Ok(Int(10))
    ensures Chaining.Pipe(Add, [Double], [Int(2), Int(3)]) == Int(10)
  {
    assert Add([Int(2), Int(3)]) == Int(5);
    assert Double([Int(5)]) == Int(10);
    assert [Double, Add][..1] == [Double];
    assert Chaining.ReduceRight([Double], Int(5)) == Int(10);
    assert Chaining.Reduce([Double], Int(5)) == Int(10);
  }

  /** `queue(setX, setY, setZ)()` runs all three, in order, and returns 3. */
  method QueueExample() returns (calls: seq<Call>, r: Result<Value>)
    ensures r == Ok(Int(3))
    ensures |calls| == 3 && calls[0].index == 0 && calls[1].index == 1 && calls[2].index == 2
    ensures calls[0].result == Int(1) && calls[1].result == Int(2)
  {
    var setX: Fn := _ => Int(1);
    var setY: Fn := _ => Int(2);
    var setZ: Fn := _ => Int(3);
    calls, r := Chaining.Queue([setX, setY, setZ], []);
  }

  /** `some(is2, is3, is4)` holds for 2, 3 and 4 but not for 5; on 3 it stops after `is3`. */
  lemma SomeExamples()
    ensures Predicates.Some([Is(2), Is(3), Is(4)], [Int(2)]).result
    ensures Predicates.Some([Is(2), Is(3), Is(4)], [Int(3)]).result
    ensures |Predicates.Some([Is(2), Is(3), Is(4)], [Int(3)]).calls| == 2
    ensures Predicates.Some([Is(2), Is(3), Is(4)], [Int(4)]).result
    ensures !Predicates.Some([Is(2), Is(3), Is(4)], [Int(5)]).result
  {
    var ps := [Is(2), Is(3), Is(4)];
    assert Truthy(ps[0]([Int(2)]));
    assert Truthy(ps[1]([Int(3)]));
    assert Truthy(ps[2]([Int(4)]));
    var s := Predicates.Some(ps, [Int(3)]);
    assert !Truthy(ps[0]([Int(3)])) && !Truthy(ps[2]([Int(3)]));
  }

  /** `curry(add, 2)(3)` gives 5. */
  lemma CurryExample()
    ensures Partial.Curry(Add, [Int(2)])([Int(3)]) == Int(5)
  {
    assert [Int(2)] + [Int(3)] == [Int(2), Int(3)];
  }

  /** `subtract` is written `(x, y) => x - y`: two parameters. */
  const SubtractSource := "(x, y) => x - y"

  lemma SubtractHasTwoParameters()
    ensures Params.GetAllParameters(SubtractSource).Ok?
    ensures |Params.GetAllParameters(SubtractSource).value| == 2
  {
    Params.TwoParametersExample();
  }

  /** `aim(subtract, k)(x)` gives `x - k`: the fixed argument fills the second parameter. */
  method AimSubtract(k: int, x: int) returns (v: Value)
    ensures v == Int(x - k)
  {
    SubtractHasTwoParameters();
    var a := Partial.Aim.Bind(Subtract, SubtractSource, [Int(k)]);
    assert a.Ok? && a.value.startArgPosition == 1;
    v := a.value.Apply([Int(x)]);
    assert Partial.AimArgs(1, [Int(x)], [Int(k)]) == [Int(x), Int(k)];
  }

  /** `aim(subtract, 1)(5)` gives 4 and `aim(subtract, 3)(5)` gives 2. */
  method AimExample() returns (sub1: Value, sub3: Value)
    ensures sub1 == Int(4) && sub3 == Int(2)
  {
    sub1 := AimSubtract(1, 5);
    sub3 := AimSubtract(3, 5);
  }

  /** Fixing both parameters of `subtract` fails at bind time. */
  method AimTooManyExample() returns (r: Result<Partial.Aim>)
    ensures r == Err(TooMuchArguments)
  {
    SubtractHasTwoParameters();
    r := Partial.Aim.Bind(Subtract, SubtractSource, [Int(1), Int(2)]);
  }

  /** `map(f1, f2)(x)` is `[f1(x), f2(x)]`; `flatMap` over `[1, 2]` and `[3, 4]` is `[1, 2, 3, 4]`. */
  lemma FanOutExamples()
    ensures FanOut.Map([Double, Is(3)], [Int(3)]) == [Int(6), Bool(true)]
    ensures FanOut.FlatMap([_ => Arr([Int(1), Int(2)]), _ => Arr([Int(3), Int(4)])], [])
      == [Int(1), Int(2), Int(3), Int(4)]
  {
  }

  /** Halving while the argument is even and not 2: null for 2 and 3, 2 for 4, 6 for 12. */
  lemma IfEveryExamples()
    ensures Conditional.IfEvery(Half, [Not2, IsEven], [Int(2)]).result == Null
    ensures Conditional.IfEvery(Half, [Not2, IsEven], [Int(3)]).result == Null
    ensures Conditional.IfEvery(Half, [Not2, IsEven], [Int(4)]).result == Int(2)
    ensures Conditional.IfEvery(Half, [Not2, IsEven], [Int(12)]).result == Int(6)
  {
    var checks := [Not2, IsEven];
    assert !Truthy(checks[0]([Int(2)]));
    assert Truthy(checks[0]([Int(3)])) && !Truthy(checks[1]([Int(3)]));
    assert Truthy(checks[0]([Int(4)])) && Truthy(checks[1]([Int(4)]));
    assert Truthy(checks[0]([Int(12)])) && Truthy(checks[1]([Int(12)]));
  }

  /** `guard(half, isEven)` halves 4 and gives null for 3. */
  lemma GuardExamples()
    ensures Conditional.Guard(Half, IsEven, [Int(4)]).result == Int(2)
    ensures Conditional.Guard(Half, IsEven, [Int(3)]).result == Null
  {
  }

  /** `ifSome(retTrue, isEven)` is true on even numbers, null on odd ones; `ifSome(add, is2)(2, 4)` is 6. */
  lemma IfSomeExamples()
    ensures Conditional.IfSome(RetTrue, [IsEven], [Int(2)]).result == Bool(true)
    ensures Conditional.IfSome(RetTrue, [IsEven], [Int(3)]).result == Null
    ensures Conditional.IfSome(Add, [Is(2)], [Int(2), Int(4)]).result == Int(6)
    ensures Conditional.IfSome(Add, [Is(2)], [Int(3), Int(4)]).result == Null
  {
  }

  /**
   * The `null` that means "condition failed" is also what a passing condition
   * gives when the main function returns 0: the two cases differ only in
   * whether the main function ran.
   */
  lemma FalsyResultCollapsesToNull()
    ensures Conditional.Guard(_ => Int(0), RetTrue, [Int(1)]).result == Null
    ensures Conditional.Guard(_ => Int(0), RetTrue, [Int(1)]).mainCalled
    ensures Conditional.Guard(_ => Int(0), _ => Bool(false), [Int(1)]).result == Null
    ensures !Conditional.Guard(_ => Int(0), _ => Bool(false), [Int(1)]).mainCalled
  {
  }
}
