/**
 * Conditional execution: `guard`, `ifSome` and `ifEvery` call a main function
 * only when a condition holds, through the idiom `(cond && main(...)) || null`.
 * Because of that idiom a falsy result of the main function also comes back
 * as `null`.
 */
module Conditional {
  import opened Values
  import Predicates

  /** A guarded call: what it returns, the checks it ran, and whether the main function ran. */
  datatype Guarded = Guarded(result: Value, checks: seq<Call>, mainCalled: bool)

  /**
   * `guard(f, gfn)(arg)`: one predicate, one argument. Arguments after the
   * first are dropped; a missing one is `undefined`.
   */
  function Guard(f: Fn, gfn: Fn, args: seq<Value>): (g: Guarded)
    ensures g.mainCalled <==> Truthy(gfn([Arg(args, 0)]))
    ensures g.checks == [Call(0, [Arg(args, 0)], gfn([Arg(args, 0)]))]
    ensures g.result == if g.mainCalled && Truthy(f([Arg(args, 0)])) then f([Arg(args, 0)]) else Null
  {
    var arg := Arg(args, 0);
    var c := gfn([arg]);
    Guarded(Or(And(c, f([arg])), Null), [Call(0, [arg], c)], Truthy(c))
  }

  /** `ifSome(mainFn, ...checks)(...args)`: run `mainFn` when some check is truthy. */
  function IfSome(mainFn: Fn, checks: seq<Fn>, args: seq<Value>): (g: Guarded)
    ensures g.mainCalled <==> exists j :: 0 <= j < |checks| && Truthy(checks[j](args))
    ensures g.checks == Predicates.Some(checks, args).calls
    ensures g.result == if g.mainCalled && Truthy(mainFn(args)) then mainFn(args) else Null
  {
    var condition := Predicates.Some(checks, args);
    Guarded(Or(And(Bool(condition.result), mainFn(args)), Null), condition.calls, condition.result)
  }

  /** `ifEvery(mainFn, ...checks)(...args)`: run `mainFn` when every check is truthy. */
  function IfEvery(mainFn: Fn, checks: seq<Fn>, args: seq<Value>): (g: Guarded)
    ensures g.mainCalled <==> forall j :: 0 <= j < |checks| ==> Truthy(checks[j](args))
    ensures g.checks == Predicates.Every(checks, args).calls
    ensures g.result == if g.mainCalled && Truthy(mainFn(args)) then mainFn(args) else Null
  {
    var condition := Predicates.Every(checks, args);
    Guarded(Or(And(Bool(condition.result), mainFn(args)), Null), condition.calls, condition.result)
  }

  /** A guarded call never returns a falsy value other than `null`. */
  lemma GuardedResultIsTruthyOrNull(mainFn: Fn, gfn: Fn, checks: seq<Fn>, args: seq<Value>)
    ensures var g := Guard(mainFn, gfn, args); Truthy(g.result) || g.result == Null
    ensures var g := IfSome(mainFn, checks, args); Truthy(g.result) || g.result == Null
    ensures var g := IfEvery(mainFn, checks, args); Truthy(g.result) || g.result == Null
  {
  }

  /**
   * `guard(f, gfn)(x)` is the one-check case of both `ifEvery` and `ifSome`
   * on the argument list `[x]`.
   */
  lemma GuardIsSingleCheck(f: Fn, gfn: Fn, x: Value)
    ensures Guard(f, gfn, [x]).result == IfEvery(f, [gfn], [x]).result == IfSome(f, [gfn], [x]).result
    ensures Guard(f, gfn, [x]).mainCalled == IfEvery(f, [gfn], [x]).mainCalled == IfSome(f, [gfn], [x]).mainCalled
    ensures Guard(f, gfn, [x]).checks == IfEvery(f, [gfn], [x]).checks == IfSome(f, [gfn], [x]).checks
  {
    var e := Predicates.Every([gfn], [x]);
    var s := Predicates.Some([gfn], [x]);
    assert Arg([x], 0) == x;
    assert |e.calls| == 1 && |s.calls| == 1;
  }

  /** With no checks, `ifEvery` always runs its main function and `ifSome` never does. */
  lemma NoChecks(mainFn: Fn, args: seq<Value>)
    ensures IfEvery(mainFn, [], args).mainCalled && IfEvery(mainFn, [], args).checks == []
    ensures !IfSome(mainFn, [], args).mainCalled && IfSome(mainFn, [], args).result == Null
  {
  }
}
