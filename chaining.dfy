/**
 * The chaining combinators: `pipe` and `compose` thread one value through a
 * list of functions (left to right and right to left); `queue` runs every
 * function on the same arguments and returns what the last one returns.
 *
 * Each combinator is modelled together with the closure it returns: the
 * bound functions and the arguments of the later call are both parameters.
 */
module Chaining {
  import opened Values

  /**
   * `fns.reduce((v, f) => f(v), acc)`: every function gets the previous result
   * as its one argument, so the last function is applied last.
   */
  function Reduce(fns: seq<Fn>, acc: Value): (r: Value)
    ensures fns == [] ==> r == acc
    ensures fns != [] ==> r == fns[|fns| - 1]([Reduce(fns[..|fns| - 1], acc)])
    decreases |fns|
  {
    if fns == [] then acc
    else
      var v := Reduce(fns[1..], fns[0]([acc]));
      assert fns[1..] != [] ==> fns[1..][..|fns[1..]| - 1] == fns[..|fns| - 1][1..];
      v
  }

  /**
   * `fns.reduceRight((acc, v) => v(acc), acc)`: the same from the last function
   * to the first, so the first function is applied last.
   */
  function ReduceRight(fns: seq<Fn>, acc: Value): (r: Value)
    ensures fns == [] ==> r == acc
    ensures fns != [] ==> r == fns[0]([ReduceRight(fns[1..], acc)])
    decreases |fns|
  {
    if fns == [] then acc
    else
      var v := ReduceRight(fns[..|fns| - 1], fns[|fns| - 1]([acc]));
      assert fns[..|fns| - 1] != [] ==> fns[..|fns| - 1][1..] == fns[1..][..|fns[1..]| - 1];
      v
  }

  /** `pipe(first, ...rest)(...args) == fn(...f2(first(...args)))`. */
  function Pipe(first: Fn, rest: seq<Fn>, args: seq<Value>): (r: Value)
    ensures r == Chain([first] + rest, args)
  {
    ReduceExtendsChain([first], rest, args);
    Reduce(rest, first(args))
  }

  /**
   * `compose(...fs)(...args)`: `pop()` takes the last function off the list at
   * bind time; with no functions it yields `undefined`, and calling that throws.
   */
  function Compose(fs: seq<Fn>, args: seq<Value>): (r: Result<Value>)
    ensures r.Err? <==> fs == []
    ensures r.Err? ==> r.error == NotAFunction
  {
    if fs == [] then Err(NotAFunction)
    else Ok(ReduceRight(fs[..|fs| - 1], fs[|fs| - 1](args)))
  }

  /** `fn(...f2(f1(...args)))`: the first function sees the arguments, each later one the previous result. */
  function Chain(fs: seq<Fn>, args: seq<Value>): Value
    requires |fs| > 0
  {
    if |fs| == 1 then fs[0](args) else fs[|fs| - 1]([Chain(fs[..|fs| - 1], args)])
  }

  /** `f1(f2(...fn(...args)))`: the last function sees the arguments, the first one returns. */
  function Nest(fs: seq<Fn>, args: seq<Value>): Value
    requires |fs| > 0
  {
    if |fs| == 1 then fs[0](args) else fs[0]([Nest(fs[1..], args)])
  }

  function Reverse<T>(s: seq<T>): (r: seq<T>)
    ensures |r| == |s|
    ensures forall i :: 0 <= i < |s| ==> r[i] == s[|s| - 1 - i]
  {
    if s == [] then [] else Reverse(s[1..]) + [s[0]]
  }

  lemma {:induction false} ReduceExtendsChain(done: seq<Fn>, rest: seq<Fn>, args: seq<Value>)
    requires |done| > 0
    ensures Reduce(rest, Chain(done, args)) == Chain(done + rest, args)
    decreases |rest|
  {
    if rest == [] {
      assert done + rest == done;
    } else {
      var done' := done + [rest[0]];
      assert done'[..|done'| - 1] == done;
      assert Chain(done', args) == rest[0]([Chain(done, args)]);
      ReduceExtendsChain(done', rest[1..], args);
      assert done' + rest[1..] == done + rest;
    }
  }

  lemma {:induction false} ReduceRightExtendsNest(todo: seq<Fn>, done: seq<Fn>, args: seq<Value>)
    requires |done| > 0
    ensures ReduceRight(todo, Nest(done, args)) == Nest(todo + done, args)
    decreases |todo|
  {
    if todo == [] {
      assert todo + done == done;
    } else {
      var n := |todo|;
      var done' := [todo[n - 1]] + done;
      assert done'[1..] == done;
      assert Nest(done', args) == todo[n - 1]([Nest(done, args)]);
      ReduceRightExtendsNest(todo[..n - 1], done', args);
      assert todo[..n - 1] + done' == todo + done;
    }
  }

  /** `compose(f1, …, fn)(...args) == f1(f2(...fn(...args)))`. */
  lemma ComposeIsNest(fs: seq<Fn>, args: seq<Value>)
    requires |fs| > 0
    ensures Compose(fs, args) == Ok(Nest(fs, args))
  {
    var n := |fs|;
    assert Nest([fs[n - 1]], args) == fs[n - 1](args);
    ReduceRightExtendsNest(fs[..n - 1], [fs[n - 1]], args);
    assert fs[..n - 1] + [fs[n - 1]] == fs;
  }

  lemma {:induction false} NestIsReversedChain(fs: seq<Fn>, args: seq<Value>)
    requires |fs| > 0
    ensures Nest(fs, args) == Chain(Reverse(fs), args)
  {
    if |fs| > 1 {
      NestIsReversedChain(fs[1..], args);
      var r := Reverse(fs);
      assert r == Reverse(fs[1..]) + [fs[0]];
      assert r[..|r| - 1] == Reverse(fs[1..]);
    } else {
      assert Reverse(fs) == Reverse(fs[1..]) + [fs[0]] == [fs[0]];
    }
  }

  /** `compose` is `pipe` over the same functions in reverse order. */
  lemma ComposeIsReversedPipe(fs: seq<Fn>, args: seq<Value>)
    requires |fs| > 0
    ensures Compose(fs, args) == Ok(Pipe(Reverse(fs)[0], Reverse(fs)[1..], args))
  {
    var r := Reverse(fs);
    ComposeIsNest(fs, args);
    NestIsReversedChain(fs, args);
    assert [r[0]] + r[1..] == r;
  }

  /**
   * `queue(...fs)(...args)`: `pop()` takes the last function off at bind time,
   * `forEach` runs the others on the arguments for their effects, and the last
   * function's result is returned. `calls` records every invocation in order.
   */
  method Queue(fs: seq<Fn>, args: seq<Value>) returns (calls: seq<Call>, r: Result<Value>)
    ensures |calls| == |fs|
    ensures forall i :: 0 <= i < |calls| ==> calls[i] == Call(i, args, fs[i](args))
    ensures fs == [] ==> r == Err(NotAFunction)
    ensures fs != [] ==> r == Ok(fs[|fs| - 1](args))
  {
    var rest := if fs == [] then [] else fs[..|fs| - 1];
    calls := [];
    var i := 0;
    while i < |rest|
      invariant 0 <= i <= |rest|
      invariant |calls| == i
      invariant forall j :: 0 <= j < i ==> calls[j] == Call(j, args, fs[j](args))
    {
      var v := rest[i](args);
      calls := calls + [Call(i, args, v)];
      i := i + 1;
    }
    if fs == [] {
      r := Err(NotAFunction);
    } else {
      var v := fs[|fs| - 1](args);
      calls := calls + [Call(|fs| - 1, args, v)];
      r := Ok(v);
    }
  }
}
