/**
 * Detents: the resting heights a sheet can snap to, as fractions of the
 * container's height, and their resolution into vertical offsets.
 */
module Detents {

  /** A resting height of the sheet. Named detents are fixed; `Fraction` is caller-supplied. */
  datatype Detent = Small | Medium | Large | Fraction(fraction: real)

  /** The fraction of the container's height a detent stands for. */
  function Value(d: Detent): (v: real)
    ensures d.Small? ==> v == 0.2
    ensures d.Medium? ==> v == 0.55
    ensures d.Large? ==> v == 0.93
    ensures d.Fraction? ==> v == d.fraction
  {
    match d
    case Small => 0.2
    case Medium => 0.55
    case Large => 0.93
    case Fraction(f) => f
  }

  /** The named detents are proper fractions, strictly increasing from small to large. */
  lemma NamedDetentsOrdered()
    ensures 0.0 < Value(Small) < Value(Medium) < Value(Large) < 1.0
  {}

  /** Offset of the sheet when it rests at `d`: negative, measured up from the bottom. */
  function OffsetOf(d: Detent, height: real): real {
    -(Value(d) * height)
  }

  /**
   * Resolves every detent against the container height, one offset per
   * detent and in the same order.
   */
  function Resolve(detents: seq<Detent>, height: real): (offsets: seq<real>)
    ensures |offsets| == |detents|
    ensures forall i :: 0 <= i < |detents| ==> offsets[i] == -(Value(detents[i]) * height)
  {
    if detents == [] then []
    else [OffsetOf(detents[0], height)] + Resolve(detents[1..], height)
  }

  /** Resolution commutes with concatenation: no detent's offset depends on its neighbours. */
  lemma {:induction false} ResolveAppend(a: seq<Detent>, b: seq<Detent>, height: real)
    ensures Resolve(a + b, height) == Resolve(a, height) + Resolve(b, height)
  {
    var l, r := Resolve(a + b, height), Resolve(a, height) + Resolve(b, height);
    assert |l| == |r|;
    forall i | 0 <= i < |l|
      ensures l[i] == r[i]
    {
      if i < |a| {
        assert (a + b)[i] == a[i];
      } else {
        assert (a + b)[i] == b[i - |a|];
      }
    }
  }

  /** A detent list is well formed when every fraction lies in [0, 1]. */
  predicate WellFormed(detents: seq<Detent>) {
    forall i :: 0 <= i < |detents| ==> 0.0 <= Value(detents[i]) <= 1.0
  }

  /** With well-formed fractions every resolved offset lies between fully open and closed. */
  lemma ResolveBounds(detents: seq<Detent>, height: real)
    requires WellFormed(detents)
    requires height >= 0.0
    ensures forall i :: 0 <= i < |detents| ==>
              -height <= Resolve(detents, height)[i] <= 0.0
  {
    forall i | 0 <= i < |detents|
      ensures -height <= Resolve(detents, height)[i] <= 0.0
    {
      var v := Value(detents[i]);
      MulNonNegative(v, height);
      MulNonNegative(1.0 - v, height);
      assert Resolve(detents, height)[i] == -(v * height);
    }
  }

  lemma MulNonNegative(a: real, b: real)
    requires a >= 0.0 && b >= 0.0
    ensures a * b >= 0.0
  {}

  /** The largest element of a non-empty sequence (Swift's `max()`). */
  function Max(s: seq<real>): (m: real)
    requires s != []
    ensures m in s
    ensures forall i :: 0 <= i < |s| ==> s[i] <= m
  {
    if |s| == 1 then s[0]
    else
      var rest := Max(s[1..]);
      assert forall i :: 1 <= i < |s| ==> s[i] == s[1..][i - 1];
      if s[0] >= rest then s[0] else rest
  }

  /**
   * The threshold a drag end compares against: the highest (least negative)
   * offset, or, for an empty list, the positive `height * 0.2` of the small detent.
   */
  function LowestThreshold(offsets: seq<real>, height: real): (lowest: real)
    ensures offsets == [] ==> lowest == height * 0.2
    ensures offsets != [] ==> lowest in offsets
    ensures forall i :: 0 <= i < |offsets| ==> offsets[i] <= lowest
  {
    if offsets == [] then height * Value(Small) else Max(offsets)
  }

  /** The detent list a sheet gets when the caller names none. */
  const DefaultDetents: seq<Detent> := [Large]

  /** Worked example: the three named detents in a 1000-point container. */
  lemma ResolveNamedExample()
    ensures Resolve([Small, Medium, Large], 1000.0) == [-200.0, -550.0, -930.0]
  {}
}
