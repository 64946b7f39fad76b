// The current `Wave` value (WaveModule.py): samples y over a time axis x, a name
// and an append rule (head, tail) that decides how neighbours join it.

module Waves {
  import opened Common
  import opened Comparables

  /** (head, tail): true is "hard" (the boundary sample wins), false is "soft". */
  datatype Rule = Rule(head: bool, tail: bool)

  datatype WaveData = WaveData(x: seq<int>, y: seq<real>, name: string, rule: Rule)

  /** A wave carries one amplitude per time point, on the unit grid 0..n-1
      (time counted in sample periods). */
  type Wave = w: WaveData | |w.x| == |w.y| && UnitGrid(w.x) witness WaveData([], [], "", Rule(false, false))

  function Len(w: Wave): nat { |w.x| }

  /** Unary minus: the samples in reverse order over the same axis. */
  function Neg(w: Wave): (r: Wave)
    ensures r.x == w.x && r.name == w.name && r.rule == w.rule
    ensures |r.y| == |w.y|
    ensures forall i :: 0 <= i < |w.y| ==> r.y[i] == w.y[|w.y| - 1 - i]
  {
    WaveData(w.x, Reverse(w.y), w.name, w.rule)
  }

  function Reverse(s: seq<real>): (r: seq<real>)
    ensures |r| == |s|
    ensures forall i :: 0 <= i < |s| ==> r[i] == s[|s| - 1 - i]
  {
    if |s| == 0 then [] else Reverse(s[1..]) + [s[0]]
  }

  lemma {:induction false} NegInvolutive(w: Wave)
    ensures Neg(Neg(w)) == w
  {
    assert Neg(Neg(w)).y == w.y;
  }

  function AbsReal(v: real): real { if v < 0.0 then -v else v }

  /** abs(w): absolute value of every sample. */
  function Abs(w: Wave): (r: Wave)
    ensures r.x == w.x && r.name == w.name && r.rule == w.rule && |r.y| == |w.y|
    ensures forall i :: 0 <= i < |w.y| ==> r.y[i] >= 0.0 && (r.y[i] == w.y[i] || r.y[i] == -w.y[i])
  {
    WaveData(w.x, seq(|w.y|, i requires 0 <= i < |w.y| => AbsReal(w.y[i])), w.name, w.rule)
  }

  lemma AbsIdempotent(w: Wave)
    ensures Abs(Abs(w)) == Abs(w)
  {
    assert Abs(Abs(w)).y == Abs(w).y;
  }

  datatype BinOp = Add | Sub | Mul

  function Apply(op: BinOp, a: real, b: real): real
  {
    match op
    case Add => a + b
    case Sub => a - b
    case Mul => a * b
  }

  /** w (+|-|*) c for a number c: every sample combined with c; x, name and rule kept. */
  function WithScalar(op: BinOp, w: Wave, c: real): (r: Wave)
    ensures r.x == w.x && r.name == w.name && r.rule == w.rule
    ensures |r.y| == |w.y| && forall i :: 0 <= i < |w.y| ==> r.y[i] == Apply(op, w.y[i], c)
  {
    WaveData(w.x, seq(|w.y|, i requires 0 <= i < |w.y| => Apply(op, w.y[i], c)), w.name, w.rule)
  }

  /** The operand `max(self, other)` returns: other only when it is strictly longer. */
  function Longer(a: Wave, b: Wave): Wave
  {
    if MaxPicksSecond(a.x, b.x) then b else a
  }

  function Shorter(a: Wave, b: Wave): Wave
  {
    if MaxPicksSecond(a.x, b.x) then a else b
  }

  /** self (+|-|*) other for two waves: the longer operand (self on a tie) gives
      the axis; the first len(shorter) samples are longer (op) shorter, the rest
      of the longer operand passes through; the name is self's; the rules are OR-ed. */
  function Combine(op: BinOp, a: Wave, b: Wave): (r: Wave)
  {
    var lo := Longer(a, b);
    var sh := Shorter(a, b);
    var k := |sh.x|;
    WaveData(lo.x,
             seq(k, i requires 0 <= i < k => Apply(op, lo.y[i], sh.y[i])) + lo.y[k..],
             a.name,
             Rule(a.rule.head || b.rule.head, a.rule.tail || b.rule.tail))
  }

  /** What the combination of two waves promises: the axis and length of the
      longer one, the overlapping prefix combined, the tail copied, rules OR-ed. */
  lemma CombineShape(op: BinOp, a: Wave, b: Wave)
    ensures var r := Combine(op, a, b);
      && r.x == (if |b.x| > |a.x| then b.x else a.x)
      && Len(r) == (if Len(a) >= Len(b) then Len(a) else Len(b))
      && r.name == a.name
      && r.rule == Rule(a.rule.head || b.rule.head, a.rule.tail || b.rule.tail)
      && (|b.x| > |a.x| ==>
            (forall i :: 0 <= i < |a.y| ==> r.y[i] == Apply(op, b.y[i], a.y[i]))
            && r.y[|a.y|..] == b.y[|a.y|..])
      && (|b.x| <= |a.x| ==>
            (forall i :: 0 <= i < |b.y| ==> r.y[i] == Apply(op, a.y[i], b.y[i]))
            && r.y[|b.y|..] == a.y[|b.y|..])
  {
  }

  /** Subtraction always takes the shorter operand from the longer one, so
      a - b and b - a have the same samples. */
  lemma SubtractsShorterFromLonger(a: Wave, b: Wave)
    requires Len(a) != Len(b)
    ensures Combine(Sub, a, b).y == Combine(Sub, b, a).y
  {
  }

  /** Addition and multiplication of two waves are commutative on the samples. */
  lemma AddMulCommuteOnSamples(op: BinOp, a: Wave, b: Wave)
    requires op != Sub
    ensures Combine(op, a, b).y == Combine(op, b, a).y
    ensures Len(a) != Len(b) ==> Combine(op, a, b).x == Combine(op, b, a).x
  {
    var r1 := Combine(op, a, b);
    var r2 := Combine(op, b, a);
    if Len(a) == Len(b) {
      assert forall i :: 0 <= i < |r1.y| ==> r1.y[i] == r2.y[i];
    }
  }

  /** `c + w`, `c * w` and `c - w` with a number on the left are evaluated as
      `w + c`, `w * c` and `w - c` respectively. */
  function Reflected(op: BinOp, c: real, w: Wave): (r: Wave)
    ensures |r.y| == |w.y| && forall i :: 0 <= i < |w.y| ==> r.y[i] == Apply(op, w.y[i], c)
  {
    WithScalar(op, w, c)
  }

  /** Reflected subtraction as written: `1 - w` on w.y = [0] gives [-1]. */
  lemma ReflectedSubtractionCounterexample()
    ensures var w: Wave := WaveData([0], [0.0], "", Rule(false, false));
      Reflected(Sub, 1.0, w).y == [-1.0]
  {
  }

  /** The evidently intended `c - w`: c minus every sample. */
  function ReflectedSubFixed(c: real, w: Wave): (r: Wave)
    ensures r.x == w.x && r.name == w.name && r.rule == w.rule
    ensures |r.y| == |w.y| && forall i :: 0 <= i < |w.y| ==> r.y[i] == c - w.y[i]
  {
    WithScalar(Add, WithScalar(Mul, w, -1.0), c)
  }

  /** The corrected `c - w` is the as-written one with every sample negated,
      so the two agree exactly when every sample equals c. */
  lemma ReflectedSubNegatesAsWritten(c: real, w: Wave)
    ensures |ReflectedSubFixed(c, w).y| == |Reflected(Sub, c, w).y|
    ensures forall i :: 0 <= i < |w.y| ==> ReflectedSubFixed(c, w).y[i] == -Reflected(Sub, c, w).y[i]
    ensures ReflectedSubFixed(c, w) == Reflected(Sub, c, w) <==> forall i :: 0 <= i < |w.y| ==> w.y[i] == c
  {
    var fixed, written := ReflectedSubFixed(c, w), Reflected(Sub, c, w);
    if forall i :: 0 <= i < |w.y| ==> w.y[i] == c {
      assert fixed.y == written.y;
    }
  }

  /** `w / c` for a number c as written: building the result reads an attribute
      the wave does not have, so the division always raises. */
  function DivideByNumberAsWritten(w: Wave, c: real): (r: Result<Wave>)
    ensures r.Fail? && r.error == AttributeError
  {
    Fail(AttributeError)
  }

  /** The evidently intended `w / c`: every sample divided by c; x, name and rule kept. */
  function DivideByNumber(w: Wave, c: real): (r: Wave)
    requires c != 0.0
    ensures r.x == w.x && r.name == w.name && r.rule == w.rule && |r.y| == |w.y|
    ensures forall i :: 0 <= i < |w.y| ==> r.y[i] * c == w.y[i]
  {
    WaveData(w.x, seq(|w.y|, i requires 0 <= i < |w.y| => w.y[i] / c), w.name, w.rule)
  }

  /** Multiplying the corrected quotient by the divisor gives the wave back. */
  lemma DivideThenMultiply(w: Wave, c: real)
    requires c != 0.0
    ensures WithScalar(Mul, DivideByNumber(w, c), c) == w
  {
    assert WithScalar(Mul, DivideByNumber(w, c), c).y == w.y;
  }

  /** `w / other` with a wave as divisor returns w itself. */
  function DivideByWave(w: Wave, other: Wave): (r: Wave)
    ensures r == w
  {
    w
  }

  /** Equality of waves compares sample counts only: these two differ in every
      sample yet compare equal. */
  lemma EqualityIgnoresSamples()
    ensures var a: Wave := WaveData([0, 1], [0.0, 0.0], "a", Rule(false, false));
            var b: Wave := WaveData([0, 1], [1.0, 2.0], "b", Rule(true, true));
            Eq(a.x, b.x) && a != b
  {
  }
}
