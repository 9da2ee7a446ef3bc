/**
 * `some` and `every`: run a list of predicates on the same arguments, in
 * order, and stop at the first one that decides the answer
 * (Array.prototype.some / Array.prototype.every).
 */
module Predicates {
  import opened Values

  /** The boolean a predicate combinator returns and the predicates it invoked, in order. */
  datatype Scan = Scan(result: bool, calls: seq<Call>)

  /** `calls` invokes the predicates `from`, `from + 1`, … once each, on `args`. */
  predicate InvokedInOrder(ps: seq<Fn>, args: seq<Value>, from: nat, calls: seq<Call>) {
    && from + |calls| <= |ps|
    && forall k :: 0 <= k < |calls| ==> calls[k] == Call(from + k, args, ps[from + k](args))
  }

  /** Array.prototype.some from position `from` on. */
  function SomeFrom(ps: seq<Fn>, args: seq<Value>, from: nat): (s: Scan)
    requires from <= |ps|
    decreases |ps| - from
    ensures s.result <==> exists j :: from <= j < |ps| && Truthy(ps[j](args))
    ensures InvokedInOrder(ps, args, from, s.calls)
    ensures forall k :: 0 <= k < |s.calls| - 1 ==> !Truthy(s.calls[k].result)
    ensures s.result ==> s.calls != [] && Truthy(s.calls[|s.calls| - 1].result)
    ensures !s.result ==> from + |s.calls| == |ps|
  {
    if from == |ps| then Scan(false, [])
    else
      var v := ps[from](args);
      if Truthy(v) then Scan(true, [Call(from, args, v)])
      else
        var rest := SomeFrom(ps, args, from + 1);
        Scan(rest.result, [Call(from, args, v)] + rest.calls)
  }

  /**
   * `some(...ps)(...args)`: true exactly when some predicate is truthy; the
   * predicates are invoked in order up to and including the first truthy one.
   * With no predicates the answer is false.
   */
  function Some(ps: seq<Fn>, args: seq<Value>): (s: Scan)
    ensures s.result <==> exists j :: 0 <= j < |ps| && Truthy(ps[j](args))
    ensures InvokedInOrder(ps, args, 0, s.calls)
    ensures forall k :: 0 <= k < |s.calls| - 1 ==> !Truthy(s.calls[k].result)
    ensures s.result ==> s.calls != [] && Truthy(s.calls[|s.calls| - 1].result)
    ensures !s.result ==> |s.calls| == |ps|
  {
    SomeFrom(ps, args, 0)
  }

  /** Array.prototype.every from position `from` on. */
  function EveryFrom(ps: seq<Fn>, args: seq<Value>, from: nat): (s: Scan)
    requires from <= |ps|
    decreases |ps| - from
    ensures s.result <==> forall j :: from <= j < |ps| ==> Truthy(ps[j](args))
    ensures InvokedInOrder(ps, args, from, s.calls)
    ensures forall k :: 0 <= k < |s.calls| - 1 ==> Truthy(s.calls[k].result)
    ensures !s.result ==> s.calls != [] && !Truthy(s.calls[|s.calls| - 1].result)
    ensures s.result ==> from + |s.calls| == |ps|
  {
    if from == |ps| then Scan(true, [])
    else
      var v := ps[from](args);
      if !Truthy(v) then Scan(false, [Call(from, args, v)])
      else
        var rest := EveryFrom(ps, args, from + 1);
        Scan(rest.result, [Call(from, args, v)] + rest.calls)
  }

  /**
   * `every(...ps)(...args)`: true exactly when every predicate is truthy; the
   * predicates are invoked in order up to and including the first falsy one.
   * With no predicates the answer is true.
   */
  function Every(ps: seq<Fn>, args: seq<Value>): (s: Scan)
    ensures s.result <==> forall j :: 0 <= j < |ps| ==> Truthy(ps[j](args))
    ensures InvokedInOrder(ps, args, 0, s.calls)
    ensures forall k :: 0 <= k < |s.calls| - 1 ==> Truthy(s.calls[k].result)
    ensures !s.result ==> s.calls != [] && !Truthy(s.calls[|s.calls| - 1].result)
    ensures s.result ==> |s.calls| == |ps|
  {
    EveryFrom(ps, args, 0)
  }

  /** The predicate that is truthy where `p` is falsy. */
  function Not(p: Fn): Fn {
    args => Bool(!Truthy(p(args)))
  }

  function NotAll(ps: seq<Fn>): (qs: seq<Fn>)
    ensures |qs| == |ps|
    ensures forall i :: 0 <= i < |ps| ==> qs[i] == Not(ps[i])
  {
    seq(|ps|, i requires 0 <= i < |ps| => Not(ps[i]))
  }

  lemma {:induction false} EveryFromIsNotSomeFromNot(ps: seq<Fn>, args: seq<Value>, from: nat)
    requires from <= |ps|
    decreases |ps| - from
    ensures EveryFrom(ps, args, from).result == !SomeFrom(NotAll(ps), args, from).result
    ensures |EveryFrom(ps, args, from).calls| == |SomeFrom(NotAll(ps), args, from).calls|
  {
    if from < |ps| {
      var qs := NotAll(ps);
      var v := ps[from](args);
      var w := qs[from](args);
      assert w == Bool(!Truthy(v));
      var e := EveryFrom(ps, args, from);
      var s := SomeFrom(qs, args, from);
      if Truthy(v) {
        EveryFromIsNotSomeFromNot(ps, args, from + 1);
        assert e.calls == [Call(from, args, v)] + EveryFrom(ps, args, from + 1).calls;
        assert s.calls == [Call(from, args, w)] + SomeFrom(qs, args, from + 1).calls;
      } else {
        assert e == Scan(false, [Call(from, args, v)]);
        assert s == Scan(true, [Call(from, args, w)]);
      }
    }
  }

  /**
   * De Morgan for the combinators: `every(...ps)` answers the opposite of
   * `some` over the negated predicates, and invokes exactly as many of them.
   */
  lemma EveryIsNotSomeNot(ps: seq<Fn>, args: seq<Value>)
    ensures Every(ps, args).result == !Some(NotAll(ps), args).result
    ensures |Every(ps, args).calls| == |Some(NotAll(ps), args).calls|
  {
    EveryFromIsNotSomeFromNot(ps, args, 0);
  }
}
