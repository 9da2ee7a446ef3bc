# js-functional runtime combinators, in Dafny

This project models the runtime half of `src/index.ts` of js-functional. That
file is a flat set of higher-order combinators with no shared state:

- chaining: `compose`, `pipe`, `queue`;
- partial application: `curry`, which fixes leading arguments, and `aim`, which fixes trailing ones;
- `getAllParameters`, the helper `aim` uses to count a function's parameters from its source text;
- predicate combinators: `some`, `every`;
- fan-out: `map`, `flatMap`;
- conditional execution: `guard`, `ifSome`, `ifEvery`.

JavaScript values are the datatype `Values.Value`. It has `undefined`, `null`,
`NaN`, booleans, integers, strings and arrays. `Values.Truthy` is JavaScript's
ToBoolean. `Values.And` and `Values.Or` are the `&&` / `||` operators, which
return one of their operands. A caller-supplied function is a total Dafny
function `seq<Value> -> Value` applied to the spread argument list.

Each combinator is modelled together with the closure it returns: the bound
functions and the later call's arguments are both parameters. There are two
exceptions:

- `curry` returns a Dafny closure.
- `aim` is the class `Partial.Aim`. It keeps state between binding and calling: the
  captured array `ar` and `startArgPosition`.

A combinator that invokes caller functions conditionally or for their effects
returns a trace of `Values.Call` records (index, arguments, result). Its
contract states which functions ran, in which order and with what arguments.

Modules: `Values` (values, truthiness, errors), `Params`
(`getAllParameters`), `Chaining`, `Partial`, `Predicates`, `FanOut`,
`Conditional`, and `Examples`. `Examples` restates usage examples of
`test/index.spec.ts` over the model, and adds cases that file does not have:
`aim` fixing too many arguments (`AimTooManyExample`), `flatMap`
(`FanOutExamples`), and a main function returning 0 (`FalsyResultCollapsesToNull`).
The test file's `fork` case states no expected value, so its `map` example is
the model's own.

Points where the code's behaviour may be surprising; the model does what the code does:

- `guard` takes exactly one predicate and one argument (`src/index.ts:68-74`).
  Arguments after the first are dropped, and a missing argument is `undefined`.
  The test file calls `guard` with several predicates; in `src/index.ts` the
  several-predicate form is `ifEvery`. The test file also imports the older
  names `beat`, `fork` and `exploit`, which are `some`, `map` and `ifSome`.
- `guard`, `ifSome` and `ifEvery` return the main function's result only when
  that result is truthy. A falsy result also becomes `null`
  (`Examples.FalsyResultCollapsesToNull`).
- Besides `aim`'s "too much arguments" error, the code raises two more errors:
  - `compose` and `queue` with no functions call the `undefined` that `pop()`
    returns (`NotAFunction`).
  - `getAllParameters` reads group 1 of a failed match (`NoParameterList`).

## Model

| member | source | states |
|---|---|---|
| Values.Truthy | src/index.ts:54 | a value is falsy exactly when it is `undefined`, `null`, `NaN`, `false`, `0` or the empty string |
| Values.And | src/index.ts:73 | `a && b` is truthy iff both operands are; it is `a` when `a` is falsy and `b` otherwise |
| Values.Or | src/index.ts:73 | the or-operator is truthy iff either operand is; it is `a` when `a` is truthy and `b` otherwise |
| Values.Arg | src/index.ts:47 | reading `args[i]` gives the argument when `i` is in range, `undefined` past the end |
| Params.IsSpace | src/index.ts:98 | trimming never removes the separator `,` or a parenthesis of the parameter list |
| Params.AsciiSpaces | src/index.ts:98 | among ASCII characters, exactly space, tab, line feed, carriage return, vertical tab and form feed are trimmed |
| Params.IndexOf | src/index.ts:2 | the result is the first position at or after `from` holding the character, or none exists |
| Params.ParamGroup | src/index.ts:95 | the pattern matches iff some `(` is followed later by `)`; the group is the text after the first `(` up to the next `)` and holds no `)` |
| Params.Split | src/index.ts:98 | splitting on `,` yields one piece more than the number of commas, and no piece contains a comma |
| Params.SplitThenJoin | src/index.ts:98 | joining the pieces with the separator gives back the original text |
| Params.JoinThenSplit | src/index.ts:98 | splitting a join of comma-free pieces gives back the pieces |
| Params.TrimStart | src/index.ts:98 | removes exactly the leading white space: a suffix, with only white space cut, not starting with white space |
| Params.TrimEnd | src/index.ts:98 | removes exactly the trailing white space: a prefix, with only white space cut, not ending with white space |
| Params.Trim | src/index.ts:98 | the result is an infix of the input with only white space around it, and has no white space at either end |
| Params.TrimIdempotent | src/index.ts:98 | trimming twice is trimming once |
| Params.TrimAll | src/index.ts:98 | every piece is trimmed, in place, and the count is kept |
| Params.GetAllParameters | src/index.ts:93-101 | fails iff the pattern does not match; otherwise returns commas + 1 names, each the trimmed piece, none with white space at either end |
| Params.EmptyGroupExample | src/index.ts:93-101 | `() => 3` has one (empty) parameter name |
| Params.TwoParametersExample | src/index.ts:93-101 | `(x, y) => x - y` has the parameters `x` and `y` |
| Chaining.Reduce | src/index.ts:17 | the left fold applies the last function last, to the fold of the others; no functions leave the start value |
| Chaining.ReduceRight | src/index.ts:10 | the right fold applies the first function last, to the fold of the others; no functions leave the start value |
| Chaining.Compose | src/index.ts:5-11 | fails with a call of `undefined` iff no function is given |
| Chaining.ReduceExtendsChain | src/index.ts:17 | folding the remaining functions over a chain's result extends the chain |
| Chaining.Pipe | src/index.ts:12-18 | `pipe(f1, …, fn)(args) == fn(…f2(f1(args)))` |
| Chaining.ReduceRightExtendsNest | src/index.ts:10 | folding from the right over a nest's result wraps the nest in the remaining functions |
| Chaining.ComposeIsNest | src/index.ts:5-11 | `compose(f1, …, fn)(args) == f1(f2(…fn(args)))` |
| Chaining.NestIsReversedChain | src/index.ts:5-18 | applying right to left is the left-to-right chain over the reversed list |
| Chaining.ComposeIsReversedPipe | src/index.ts:5-18 | `compose(fs)` equals `pipe` over `fs` reversed |
| Chaining.Queue | src/index.ts:19-25 | every function is invoked exactly once, in order, with the same arguments; the result is the last one's, or an error when there is none |
| Predicates.SomeFrom | src/index.ts:54 | truthy-search from a position: the answer and the prefix of invocations up to the first truthy predicate |
| Predicates.Some | src/index.ts:52-55 | true iff some predicate is truthy; predicates run in order up to and including the first truthy one, all of them when none is; false on an empty list |
| Predicates.EveryFrom | src/index.ts:58 | falsy-search from a position: the answer and the prefix of invocations up to the first falsy predicate |
| Predicates.Every | src/index.ts:56-59 | true iff every predicate is truthy; predicates run in order up to and including the first falsy one; true on an empty list |
| Predicates.EveryFromIsNotSomeFromNot | src/index.ts:52-59 | from any position, `every` answers the opposite of `some` over the negated predicates, with as many invocations |
| Predicates.EveryIsNotSomeNot | src/index.ts:52-59 | `every(ps) == !some(not ps)`, invoking the same number of predicates |
| FanOut.Map | src/index.ts:60-63 | one result per function, the i-th being `fs[i](args)` |
| FanOut.Spread | src/index.ts:66 | an array result contributes its elements, any other result itself |
| FanOut.FlatMap | src/index.ts:64-67 | `flatMap(fs)(args)` is `map(fs)(args)` flattened one level |
| FanOut.FlatMapAppend | src/index.ts:64-67 | results are concatenated in the functions' order |
| FanOut.FlatMapOfScalars | src/index.ts:64-67 | when no function returns an array, `flatMap` equals `map` |
| Conditional.Guard | src/index.ts:68-74 | the predicate sees only the first argument; `f` runs iff the predicate is truthy; the result is `f(arg)` when that ran and is truthy, else `null` |
| Conditional.IfSome | src/index.ts:75-82 | `mainFn` runs iff some check is truthy, after `some`'s checks; the result is its value when truthy, else `null` |
| Conditional.IfEvery | src/index.ts:83-90 | `mainFn` runs iff every check is truthy, after `every`'s checks; the result is its value when truthy, else `null` |
| Conditional.GuardedResultIsTruthyOrNull | src/index.ts:68-90 | a guarded call never returns a falsy value other than `null` |
| Conditional.GuardIsSingleCheck | src/index.ts:68-90 | `guard(f, g)(x)` is `ifEvery(f, g)(x)` and `ifSome(f, g)(x)`: same result, same check, same decision to run `f` |
| Conditional.NoChecks | src/index.ts:75-90 | with no checks, `ifEvery` always runs its main function and `ifSome` never does |
| Partial.Curry | src/index.ts:26-32 | the closure calls `f` with the fixed arguments followed by its own |
| Partial.CurryTwice | src/index.ts:26-32 | currying `a` then `b` is currying `a + b` |
| Partial.AimArgs | src/index.ts:46-50 | `f` receives exactly `n` arguments: supplied ones in the leading slots, `undefined` where missing, the fixed ones last |
| Partial.AimIgnoresExtra | src/index.ts:47 | supplied arguments beyond the leading slots are ignored |
| Partial.AimAppendsFixed | src/index.ts:46-50 | supplying exactly the leading arguments calls `f(...args, ...fixed)` |
| Partial.Aim.constructor | src/index.ts:37-44 | the array has `n` slots, the leading ones holes, the trailing ones the fixed arguments in order |
| Partial.Aim.Bind | src/index.ts:33-45 | fails iff the source text has no parameter list or `n - k < 1`; otherwise a fresh bound function over `f` and the fixed arguments with an `n`-slot array |
| Partial.Aim.Apply | src/index.ts:46-50 | overwrites the leading slots from the call, never the trailing ones, and returns `f` applied to the whole array |
| Examples.ChainingExamples | test/index.spec.ts:26-48 | `compose(x2, add)(2, 3)` and `pipe(add, x2)(2, 3)` are 10 |
| Examples.QueueExample | test/index.spec.ts:56-69 | `queue(setX, setY, setZ)()` runs all three in order, `setX` giving 1 and `setY` 2, and returns 3 |
| Examples.SomeExamples | test/index.spec.ts:71-84 | `some(is2, is3, is4)` holds on 2, 3, 4, not on 5, and stops early |
| Examples.CurryExample | test/index.spec.ts:85-91 | `curry(add, 2)(3)` is 5 |
| Examples.AimSubtract | test/index.spec.ts:92-113 | `aim(subtract, k)(x)` is `x - k` for all integers `k` and `x` |
| Examples.AimExample | test/index.spec.ts:92-113 | `aim(subtract, 1)(5)` is 4 and `aim(subtract, 3)(5)` is 2 |
| Examples.AimTooManyExample | src/index.ts:41 | fixing both parameters of the two-parameter `subtract` fails at bind time |
| Examples.FanOutExamples | src/index.ts:60-67 | `map` gives one result per function; `flatMap` over `[1, 2]` and `[3, 4]` gives `[1, 2, 3, 4]` |
| Examples.IfEveryExamples | test/index.spec.ts:137-146 | halving while even and not 2 gives null, null, 2, 6 on 2, 3, 4, 12 |
| Examples.GuardExamples | src/index.ts:68-74 | `guard(half, isEven)` gives 2 on 4 and null on 3 |
| Examples.IfSomeExamples | test/index.spec.ts:166-197 | `ifSome(retTrue, isEven)` is true on 2 and null on 3; `ifSome(add, is2)` gives 6 on (2, 4) and null on (3, 4) |
| Examples.FalsyResultCollapsesToNull | src/index.ts:73 | a main function returning 0 gives `null` whether or not the condition held |

## Left out

- The type-level machinery (`ComposedFns`, `PipeFns`, `FindSuperset`, `AimArgs`, `GuardType` and the rest, `src/index.ts:103-295`) exists only at compile time and has no runtime behaviour.
- `Function.prototype.toString`: `Partial.Aim.Bind` takes the function's source text as a parameter beside the function itself.
- The regular-expression engine: the one pattern used, `\(([^)]*)\)`, is written out as a search for the first `(` and the next `)`.
- The effects of caller-supplied functions (`setX`, `setY` in the tests) are not modelled as mutation; invocations are recorded as `Call` traces instead.
- Exceptions thrown by caller-supplied functions, and `this` binding (`fn.apply(null, args)`): caller functions are total Dafny functions.
- Floating point: numbers are integers. The examples halve only even integers, and `NaN` stands for a non-numeric result.
- Objects and functions as values: `Value` has no object or function case, so the `aim(fun, {})` test case is not restated.
- Partial.Aim.constructor: an unused leading slot is `undefined` rather than a hole of a sparse array. Spreading the array reads a hole as `undefined`, so `f` sees the same arguments.
- `fns.pop()` in `compose` and `queue` changes, at bind time, the rest-parameter array that only the returned closure can see. The model splits the sequence into its last function and the others instead.
- Chaining.Queue: the values returned by all but the last function are only recorded in the trace, since the source discards them.
