/** Runs: what a sequence of driver calls leaves behind in one field of a register block.

A run is a sequence of states with one call between each pair of neighbours. Each driver
proves, call by call, that a field it decodes takes the value the call asks for when the call
names that field and keeps its value otherwise. `LastWriter` turns this into a statement about
the whole run. */
module Runs {

  datatype Option<+T> = None | Some(value: T)

  /** The last call of the run that satisfies `names`. */
  function Last<C>(calls: seq<C>, names: C -> bool): (r: Option<C>)
    ensures r.Some? ==> exists i :: IsLast(calls, names, i) && calls[i] == r.value
    ensures r.None? ==> forall i :: 0 <= i < |calls| ==> !names(calls[i])
  {
    var n := |calls| - 1;
    if calls == [] then None
    else if names(calls[n]) then
      assert IsLast(calls, names, n);
      Some(calls[n])
    else
      var r := Last(calls[..n], names);
      assert r.Some? ==> forall i :: IsLast(calls[..n], names, i) ==> IsLast(calls, names, i);
      r
  }

  predicate IsLast<C>(calls: seq<C>, names: C -> bool, i: int) {
    0 <= i < |calls| && names(calls[i]) && forall j :: i < j < |calls| ==> !names(calls[j])
  }

  /** The value a field has after the run: that of the last call naming it, or its first value. */
  function FinalValue<C, V>(calls: seq<C>, names: C -> bool, value: C -> V, initial: V): V {
    match Last(calls, names)
    case None => initial
    case Some(c) => value(c)
  }

  lemma {:induction false} LastWriter<S, C, V>(
      states: seq<S>, calls: seq<C>, view: S -> V, names: C -> bool, value: C -> V)
    requires |states| == |calls| + 1
    requires forall i :: 0 <= i < |calls| ==>
      view(states[i + 1]) == if names(calls[i]) then value(calls[i]) else view(states[i])
    ensures view(states[|calls|]) == FinalValue(calls, names, value, view(states[0]))
  {
    var n := |calls| - 1;
    if calls != [] {
      assert view(states[n + 1]) == if names(calls[n]) then value(calls[n]) else view(states[n]);
      LastWriter(states[..n + 1], calls[..n], view, names, value);
    }
  }
}
