/**
 * Partial application. `curry` fixes leading arguments. `aim` fixes trailing
 * arguments: at bind time it sizes an argument array from the number of
 * parameters named in the function's source text and stores the fixed
 * arguments in its last slots; every call then overwrites the leading slots
 * with the supplied arguments and spreads the whole array into the function.
 */
module Partial {
  import opened Values
  import opened Params

  /** `curry(f, ...fixed)`: the closure that calls `f` with `fixed` followed by its own arguments. */
  function Curry(f: Fn, fixed: seq<Value>): (g: Fn)
    ensures forall rest :: g(rest) == f(fixed + rest)
  {
    rest => f(fixed + rest)
  }

  /** Fixing `a` and then `b` is fixing `a + b` at once. */
  lemma CurryTwice(f: Fn, a: seq<Value>, b: seq<Value>, rest: seq<Value>)
    ensures Curry(Curry(f, a), b)(rest) == Curry(f, a + b)(rest)
  {
    assert a + (b + rest) == (a + b) + rest;
  }

  /**
   * The argument list `aim` spreads into `f`: the first `start` supplied
   * arguments (`undefined` where fewer were supplied), then the fixed ones:
   * exactly `start + |fixed|` arguments in all.
   */
  function AimArgs(start: nat, args: seq<Value>, fixed: seq<Value>): (r: seq<Value>)
    ensures |r| == start + |fixed|
    ensures forall i :: 0 <= i < start && i < |args| ==> r[i] == args[i]
    ensures forall i :: |args| <= i < start ==> r[i] == Undefined
    ensures r[start..] == fixed
  {
    seq(start, i requires 0 <= i => Arg(args, i)) + fixed
  }

  /** Supplied arguments beyond the leading slots are ignored. */
  lemma AimIgnoresExtra(start: nat, args: seq<Value>, extra: seq<Value>, fixed: seq<Value>)
    requires start <= |args|
    ensures AimArgs(start, args + extra, fixed) == AimArgs(start, args, fixed)
  {
    assert seq(start, i requires 0 <= i => Arg(args + extra, i)) == seq(start, i requires 0 <= i => Arg(args, i));
  }

  /** Supplying exactly the leading arguments calls `f(...args, ...fixed)`: curry from the other end. */
  lemma AimAppendsFixed(args: seq<Value>, fixed: seq<Value>)
    ensures AimArgs(|args|, args, fixed) == args + fixed
  {
    assert seq(|args|, i requires 0 <= i => Arg(args, i)) == args;
  }

  /** The closure `aim` returns, with the array `ar` it captured. */
  class Aim {
    const f: Fn
    const startArgPosition: nat
    const ar: array<Value>
    ghost const fixed: seq<Value>

    /** At least one leading slot, and the trailing slots hold the fixed arguments. */
    ghost predicate Valid()
      reads ar
    {
      && 1 <= startArgPosition
      && ar.Length == startArgPosition + |fixed|
      && ar[startArgPosition..] == fixed
    }

    /**
     * Bind time once the parameter count `fLength` is known: leading slots are
     * holes (read back as `undefined`), trailing slots get the fixed arguments.
     */
    constructor (f: Fn, fLength: nat, fixed: seq<Value>)
      requires fLength - |fixed| >= 1
      ensures Valid() && fresh(ar)
      ensures this.f == f && this.fixed == fixed
      ensures startArgPosition == fLength - |fixed| && ar.Length == fLength
      ensures forall i :: 0 <= i < startArgPosition ==> ar[i] == Undefined
    {
      this.f := f;
      this.fixed := fixed;
      startArgPosition := fLength - |fixed|;
      ar := new Value[fLength](_ => Undefined);
      new;
      for i := startArgPosition to fLength
        invariant forall j :: 0 <= j < startArgPosition ==> ar[j] == Undefined
        invariant forall j :: startArgPosition <= j < i ==> ar[j] == fixed[j - startArgPosition]
      {
        ar[i] := fixed[i - startArgPosition];
      }
      assert ar[startArgPosition..] == fixed;
    }

    /**
     * `aim(f, ...fixed)`, reading the parameter count from `source`, the text
     * of `f`. Fails when the text has no parameter list, or when the fixed
     * arguments would leave no leading slot.
     */
    static method Bind(f: Fn, source: string, fixed: seq<Value>) returns (r: Result<Aim>)
      ensures GetAllParameters(source).Err? ==> r == Err(NoParameterList)
      ensures GetAllParameters(source).Ok? ==>
        (r.Err? <==> |GetAllParameters(source).value| - |fixed| < 1)
      ensures GetAllParameters(source).Ok? && r.Err? ==> r.error == TooMuchArguments
      ensures r.Ok? ==> GetAllParameters(source).Ok?
      ensures r.Ok? ==>
        && fresh(r.value) && fresh(r.value.ar) && r.value.Valid()
        && r.value.f == f && r.value.fixed == fixed
        && r.value.ar.Length == |GetAllParameters(source).value|
    {
      var params := GetAllParameters(source);
      if params.Err? {
        return Err(params.error);
      }
      var fLength := |params.value|;
      var startArgPosition := fLength - |fixed|;
      if startArgPosition < 1 {
        return Err(TooMuchArguments);
      }
      var a := new Aim(f, fLength, fixed);
      r := Ok(a);
    }

    /**
     * Calling the bound function: every leading slot is overwritten with the
     * supplied argument at that position, then `f` is applied to the array.
     * The trailing slots are never written.
     */
    method Apply(args: seq<Value>) returns (r: Value)
      requires Valid()
      modifies ar
      ensures Valid()
      ensures ar[startArgPosition..] == old(ar[startArgPosition..])
      ensures ar[..] == AimArgs(startArgPosition, args, fixed)
      ensures r == f(AimArgs(startArgPosition, args, fixed))
    {
      for i := 0 to startArgPosition
        invariant forall j :: 0 <= j < i ==> ar[j] == Arg(args, j)
        invariant ar[startArgPosition..] == fixed
      {
        ar[i] := Arg(args, i);
      }
      assert ar[..] == AimArgs(startArgPosition, args, fixed);
      r := f(ar[..]);
    }
  }
}
