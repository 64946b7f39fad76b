// Length-based ordering and the time-axis properties shared by every wave-like
// object (GenericWave in the top-level template, Comparables in the package).
// Time is measured in integer ticks; on the unit grid a sample period is one tick.

module Comparables {
  import opened Common

  /** The two definitions of `span` in the code base: the top-level template adds
      one sample period (x[-1] - x[0] + dx), the package template does not. */
  datatype SpanRule = WithDx | Endpoints

  /** Sample period: x[1] - x[0], or 0 when there are fewer than two samples. */
  function Dx(x: seq<int>): (r: int)
    ensures |x| < 2 ==> r == 0
    ensures |x| >= 2 ==> x[0] + r == x[1]
  {
    if |x| >= 2 then x[1] - x[0] else 0
  }

  /** Sampling rate 1/dx, or 0 when dx is 0 (the ZeroDivisionError is caught). */
  function Df(x: seq<int>): (r: real)
    ensures Dx(x) == 0 <==> r == 0.0
    ensures Dx(x) != 0 ==> r * (Dx(x) as real) == 1.0
  {
    if Dx(x) == 0 then 0.0 else 1.0 / (Dx(x) as real)
  }

  /** The rate as the model passes it to null-block construction: the sample
      period in ticks, with 0 standing for rate 0. */
  function Period(x: seq<int>): (r: nat)
    ensures Df(x) > 0.0 ==> r as real * Df(x) == 1.0
    ensures Df(x) <= 0.0 ==> r == 0
  {
    if Dx(x) > 0 then Dx(x) else 0
  }

  /** `span`; None stands for the IndexError of `x[-1]` on an empty axis. */
  function Span(x: seq<int>, rule: SpanRule): (r: Option<int>)
    ensures r.None? <==> |x| == 0
    ensures r.Some? && rule == Endpoints ==> x[0] + r.value == x[|x| - 1]
    ensures r.Some? && rule == WithDx ==> x[0] + r.value == x[|x| - 1] + Dx(x)
    ensures r.Some? && UnitGrid(x) ==> r.value >= 0
  {
    if |x| == 0 then None
    else if rule == WithDx then Some(x[|x| - 1] - x[0] + Dx(x))
    else Some(x[|x| - 1] - x[0])
  }

  /** x is the unit grid 0, 1, ..., n-1. */
  predicate UnitGrid(x: seq<int>)
  {
    forall i :: 0 <= i < |x| ==> x[i] == i
  }

  function Grid(n: nat): (r: seq<int>)
    ensures |r| == n && UnitGrid(r)
  {
    Range(n)
  }

  /** On the unit grid an n-sample axis spans n periods under the top-level rule
      (0 for a single sample) and n-1 under the package rule. */
  lemma UnitGridSpan(x: seq<int>)
    requires UnitGrid(x) && |x| >= 1
    ensures Span(x, WithDx) == Some(if |x| >= 2 then |x| else 0)
    ensures Span(x, Endpoints) == Some(|x| - 1)
    ensures Period(x) == (if |x| >= 2 then 1 else 0)
  {
  }

  // The six comparisons look at the number of samples only.

  predicate Lt(a: seq<int>, b: seq<int>) { |a| < |b| }
  predicate Le(a: seq<int>, b: seq<int>) { |a| <= |b| }
  predicate Eq(a: seq<int>, b: seq<int>) { |a| == |b| }
  predicate Ne(a: seq<int>, b: seq<int>) { |a| != |b| }
  predicate Ge(a: seq<int>, b: seq<int>) { |a| >= |b| }
  predicate Gt(a: seq<int>, b: seq<int>) { |a| > |b| }

  /** The comparisons form a total preorder: exactly one of <, ==, > holds, and
      the others are the expected combinations; == does not look at the values. */
  lemma ComparisonsConsistent(a: seq<int>, b: seq<int>)
    ensures Lt(a, b) || Eq(a, b) || Gt(a, b)
    ensures !(Lt(a, b) && Eq(a, b)) && !(Lt(a, b) && Gt(a, b)) && !(Eq(a, b) && Gt(a, b))
    ensures Le(a, b) <==> Lt(a, b) || Eq(a, b)
    ensures Ge(a, b) <==> Gt(a, b) || Eq(a, b)
    ensures Ne(a, b) <==> !Eq(a, b)
    ensures Lt(a, b) <==> Gt(b, a)
  {
  }

  /** Python's two-argument `max(a, b)` under these comparisons: b only when b > a,
      so a tie gives the first argument. */
  predicate MaxPicksSecond(a: seq<int>, b: seq<int>) { Gt(b, a) }

  /** Python's two-argument `min(a, b)`: b only when b < a. */
  predicate MinPicksSecond(a: seq<int>, b: seq<int>) { Lt(b, a) }

  /** Index of the first longest element, as `max(items, key=len)` picks it. */
  function FirstLongest(lens: seq<nat>): (r: nat)
    requires |lens| > 0
    ensures r < |lens|
    ensures forall i :: 0 <= i < |lens| ==> lens[i] <= lens[r]
    ensures forall i :: 0 <= i < r ==> lens[i] < lens[r]
  {
    if |lens| == 1 then 0
    else
      var k := FirstLongest(lens[..|lens| - 1]);
      if lens[|lens| - 1] > lens[k] then |lens| - 1 else k
  }
}
