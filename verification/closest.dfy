/**
 * `closestMatch`: a left-to-right scan for the value nearest to an input,
 * keeping the first of several equally near values.
 */
module Closest {
  import opened Optional

  function Abs(x: real): (a: real)
    ensures a >= 0.0
    ensures a == x || a == -x
  {
    if x < 0.0 then -x else x
  }

  /**
   * One step of the scan: the first value is taken as it comes; after that a
   * value replaces the current best only when it is STRICTLY nearer.
   */
  function Pick(closest: Option<real>, value: real, input: real): Option<real> {
    match closest
    case None => Some(value)
    case Some(c) => if Abs(c - input) > Abs(value - input) then Some(value) else closest
  }

  /** The scan over all of `values`, written as a fold over ever longer prefixes. */
  function ClosestMatch(values: seq<real>, input: real): (closest: Option<real>)
    ensures closest.None? <==> values == []
    ensures closest.Some? ==> closest.value in values
  {
    if values == [] then None
    else
      var prefix := values[..|values| - 1];
      assert forall i :: 0 <= i < |prefix| ==> prefix[i] == values[i];
      Pick(ClosestMatch(prefix, input), values[|values| - 1], input)
  }

  /**
   * Reference definition: `k` is the earliest index whose value is at minimal
   * distance from `input`.
   */
  predicate IsEarliestClosest(values: seq<real>, input: real, k: int) {
    && 0 <= k < |values|
    && (forall j :: 0 <= j < |values| ==> Abs(values[k] - input) <= Abs(values[j] - input))
    && (forall j :: 0 <= j < k ==> Abs(values[j] - input) > Abs(values[k] - input))
  }

  /** At most one index is the earliest closest one. */
  lemma EarliestClosestUnique(values: seq<real>, input: real, k1: int, k2: int)
    requires IsEarliestClosest(values, input, k1)
    requires IsEarliestClosest(values, input, k2)
    ensures k1 == k2
  {
    assert Abs(values[k1] - input) <= Abs(values[k2] - input);
    assert Abs(values[k2] - input) <= Abs(values[k1] - input);
  }

  /** Appending a value no nearer than the earliest closest one keeps that index. */
  lemma ExtendKeepsEarliest(values: seq<real>, input: real, k: int)
    requires values != []
    requires IsEarliestClosest(values[..|values| - 1], input, k)
    requires Abs(values[k] - input) <= Abs(values[|values| - 1] - input)
    ensures IsEarliestClosest(values, input, k)
  {}

  /** Appending a value strictly nearer than the earliest closest one makes it the answer. */
  lemma ExtendReplacesEarliest(values: seq<real>, input: real, k: int)
    requires values != []
    requires IsEarliestClosest(values[..|values| - 1], input, k)
    requires Abs(values[k] - input) > Abs(values[|values| - 1] - input)
    ensures IsEarliestClosest(values, input, |values| - 1)
  {}

  /**
   * The scan returns exactly the value at the earliest closest index: it is at
   * least as near as every value, and every earlier value is strictly farther.
   */
  lemma {:induction false} ClosestMatchIsEarliestClosest(values: seq<real>, input: real) returns (k: int)
    requires values != []
    ensures IsEarliestClosest(values, input, k)
    ensures ClosestMatch(values, input) == Some(values[k])
  {
    var n := |values|;
    var prefix := values[..n - 1];
    if prefix == [] {
      k := 0;
    } else {
      var k' := ClosestMatchIsEarliestClosest(prefix, input);
      assert prefix[k'] == values[k'];
      if Abs(values[k'] - input) > Abs(values[n - 1] - input) {
        ExtendReplacesEarliest(values, input, k');
        k := n - 1;
      } else {
        ExtendKeepsEarliest(values, input, k');
        k := k';
      }
    }
  }

  /** `closestMatch` yields nothing exactly for an empty list, and otherwise the earliest nearest value. */
  lemma ClosestMatchSpec(values: seq<real>, input: real, v: real)
    ensures ClosestMatch(values, input).None? <==> values == []
    ensures ClosestMatch(values, input) == Some(v) <==>
              exists k :: IsEarliestClosest(values, input, k) && values[k] == v
  {
    if values != [] {
      var k := ClosestMatchIsEarliestClosest(values, input);
      forall k2 | IsEarliestClosest(values, input, k2)
        ensures k2 == k
      {
        EarliestClosestUnique(values, input, k, k2);
      }
    }
  }

  /** Whatever the scan returns is at least as near to `input` as every value. */
  lemma ClosestMatchIsNearest(values: seq<real>, input: real)
    ensures ClosestMatch(values, input).Some? ==>
              forall i :: 0 <= i < |values| ==>
                Abs(ClosestMatch(values, input).value - input) <= Abs(values[i] - input)
  {}

  /** The imperative scan, as the source writes it with `forEach`. */
  method FindClosest(values: seq<real>, input: real) returns (closest: Option<real>)
    ensures closest == ClosestMatch(values, input)
    ensures closest.None? <==> values == []
    ensures closest.Some? ==> exists k :: IsEarliestClosest(values, input, k) && values[k] == closest.value
  {
    closest := None;
    for i := 0 to |values|
      invariant closest == ClosestMatch(values[..i], input)
    {
      assert values[..i + 1][..i] == values[..i];
      var value := values[i];
      if closest.None? {
        closest := Some(value);
      } else if Abs(closest.value - input) > Abs(value - input) {
        closest := Some(value);
      }
    }
    assert values[..|values|] == values;
    if closest.Some? {
      var k := ClosestMatchIsEarliestClosest(values, input);
    }
  }

  /** Worked example: the three named detents at height 1000, input -600, snap to -550. */
  lemma ClosestMatchExample()
    ensures ClosestMatch([-200.0, -550.0, -930.0], -600.0) == Some(-550.0)
  {}
}
