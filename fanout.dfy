/**
 * `map` and `flatMap`: apply every function to the same arguments and
 * collect the results in order (Array.prototype.map / Array.prototype.flatMap
 * over the list of functions).
 */
module FanOut {
  import opened Values

  /** `map(...fs)(...args)`: one result per function, in the functions' order. */
  function Map(fs: seq<Fn>, args: seq<Value>): (r: seq<Value>)
    ensures |r| == |fs|
    ensures forall i :: 0 <= i < |fs| ==> r[i] == fs[i](args)
  {
    if fs == [] then [] else [fs[0](args)] + Map(fs[1..], args)
  }

  /** What one callback result contributes to `flatMap`: an array its elements, anything else itself. */
  function Spread(v: Value): (r: seq<Value>)
    ensures v.Arr? ==> r == v.elems
    ensures !v.Arr? ==> r == [v]
  {
    if v.Arr? then v.elems else [v]
  }

  /** Array.prototype.flat with depth one. */
  function Flat(vs: seq<Value>): seq<Value> {
    if vs == [] then [] else Spread(vs[0]) + Flat(vs[1..])
  }

  /**
   * `flatMap(...fs)(...args)`: the results concatenated, arrays flattened one
   * level; that is, `map` followed by a one-level `flat`.
   */
  function FlatMap(fs: seq<Fn>, args: seq<Value>): (r: seq<Value>)
    ensures r == Flat(Map(fs, args))
  {
    if fs == [] then []
    else
      assert Map(fs, args)[1..] == Map(fs[1..], args);
      Spread(fs[0](args)) + FlatMap(fs[1..], args)
  }

  /** The results of the first functions come before those of the later ones. */
  lemma {:induction false} FlatMapAppend(fs: seq<Fn>, gs: seq<Fn>, args: seq<Value>)
    ensures FlatMap(fs + gs, args) == FlatMap(fs, args) + FlatMap(gs, args)
  {
    if fs == [] {
      assert fs + gs == gs;
    } else {
      assert (fs + gs)[1..] == fs[1..] + gs;
      FlatMapAppend(fs[1..], gs, args);
    }
  }

  /** When no function returns an array, `flatMap` returns what `map` does. */
  lemma {:induction false} FlatMapOfScalars(fs: seq<Fn>, args: seq<Value>)
    requires forall i :: 0 <= i < |fs| ==> !fs[i](args).Arr?
    ensures FlatMap(fs, args) == Map(fs, args)
  {
    if fs != [] {
      FlatMapOfScalars(fs[1..], args);
      assert Map(fs, args) == [fs[0](args)] + Map(fs[1..], args);
    }
  }
}
