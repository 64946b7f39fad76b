// The first archived version of the wave tools (OldArchives/Wavetools.py).
// A wave remembers how it was made, so that an offset can be undone; `-w`
// flips the sign; a waveform joins its waves either by averaging the two
// boundary samples (overlap mode) or by plain concatenation, one flag for the
// whole waveform.

module Wavetools1 {
  import opened Common
  import Comparables
  import Waves
  import Synthesis

  // ----- waves -----

  /** What `properties['variables']` holds, as far as `add_offset(reset=True)`
      can tell: the record of an offset (whose 'wave' entry is the wave before
      the offset), some other dict, or a list, which cannot be indexed by a
      string. */
  datatype Origin = OffsetOf(source: WaveData1) | OtherDict | ListVars

  datatype WaveData1 = WaveData1(x: seq<int>, y: seq<real>, name: string, origin: Origin)

  /** The constructor reads `x[1] - x[0]`, so a wave has at least two axis
      points; samples and axis have the same length, the axis is the unit grid
      (so `dx` is 1), and the same holds of the wave an offset started from. */
  predicate WellFormed(w: WaveData1)
  {
    && |w.x| >= 2 && |w.y| == |w.x| && Comparables.UnitGrid(w.x)
    && (w.origin.OffsetOf? ==> WellFormed(w.origin.source))
  }

  type Wave1 = w: WaveData1 | WellFormed(w) witness WaveData1([0, 1], [0.0, 0.0], "", OtherDict)

  function Zeros(n: nat): (r: seq<real>)
    ensures |r| == n && forall i :: 0 <= i < n ==> r[i] == 0.0
  {
    seq(n, _ => 0.0)
  }

  function AbsInt(v: int): nat { if v < 0 then -v else v }

  /** Python's `s[:k]`: a negative k counts from the end, and both ends clamp. */
  function PyPrefix<T>(s: seq<T>, k: int): (r: seq<T>)
    ensures k >= 0 ==> |r| == (if k < |s| then k else |s|)
    ensures k < 0 ==> |r| == (if |s| + k > 0 then |s| + k else 0)
    ensures r == s[..|r|]
  {
    if k >= 0 then (if k < |s| then s[..k] else s)
    else if |s| + k > 0 then s[..|s| + k] else []
  }

  /** Python's `s[p:]` for p >= 0: empty once p reaches the end. */
  function PyDrop<T>(s: seq<T>, p: nat): (r: seq<T>)
    ensures |r| == (if p < |s| then |s| - p else 0)
    ensures forall i :: 0 <= i < |r| ==> r[i] == s[i + p]
  {
    if p < |s| then s[p..] else []
  }

  /** `pnts = int(abs(offset / dx))`: on the unit grid, |offset| points. */
  function Points(w: Wave1, offset: int): (p: nat)
    ensures p == AbsInt(offset)
  {
    AbsInt(offset) / (w.x[1] - w.x[0])
  }

  /** numpy's `linspace(a, b, n)`: n evenly spaced points from a to b, just a
      when n is 1. */
  function Linspace(a: real, b: real, n: nat): (r: seq<real>)
    ensures |r| == n && (n >= 1 ==> r[0] == a) && (n >= 2 ==> r[n - 1] == b)
  {
    assert n >= 2 ==> (((n - 1) as real) * (b - a) / ((n - 1) as real)) == b - a;
    seq(n, k requires 0 <= k < n => if n == 1 then a else a + (k as real) * (b - a) / ((n - 1) as real))
  }

  /** `add_offset(offset, add_tail, reset)` as written. Reset returns the wave
      the offset started from, the wave itself for any other dict, and fails
      on a list. A non-negative offset appends `pnts` axis points and as many
      zero samples at the tail or head; a negative one cuts `x[:len(x)-pnts]`
      and `y[:len(x)-pnts]` or `y[pnts:]`, where a stop below zero counts from
      the end again. */
  function AddOffsetAsWritten(w: Wave1, offset: int, addTail: bool, reset: bool): (r: Result<WaveData1>)
    ensures reset ==> (r.Fail? <==> w.origin.ListVars?) && (r.Fail? ==> r.error == TypeError)
    ensures reset && r.Ok? ==> r.value == (if w.origin.OffsetOf? then w.origin.source else w)
    ensures !reset && offset >= 0 ==> r.Ok? && Comparables.UnitGrid(r.value.x) && |r.value.x| == |w.x| + offset
    ensures !reset && offset >= 0 && addTail ==> r.value.y == w.y + Zeros(offset)
    ensures !reset && offset >= 0 && !addTail ==> r.value.y == Zeros(offset) + w.y
    ensures !reset && offset < 0 && r.Ok? ==>
      2 <= |r.value.x| < |w.x| && r.value.x == w.x[..|r.value.x|] && |r.value.y| <= |w.y| &&
      (addTail ==> r.value.y == w.y[..|r.value.y|]) && (!addTail ==> r.value.y == w.y[|w.y| - |r.value.y|..])
    ensures r.Fail? && !reset ==> r.error == IndexError
    ensures r.Ok? && !reset ==> r.value.name == "" && r.value.origin == OffsetOf(w)
  {
    if reset then
      match w.origin
      case OffsetOf(v) => Ok(v)
      case OtherDict => Ok(w)
      case ListVars => Fail(TypeError)
    else
      var p := Points(w, offset);
      if offset >= 0 then
        Ok(WaveData1(w.x + Synthesis.Shift(Range(p), w.x[|w.x| - 1] + 1),
                     if addTail then w.y + Zeros(p) else Zeros(p) + w.y, "", OffsetOf(w)))
      else
        var k := |w.x| - p;
        var x := PyPrefix(w.x, k);
        var y := if addTail then PyPrefix(w.y, k) else PyDrop(w.y, p);
        if |x| < 2 then Fail(IndexError) else Ok(WaveData1(x, y, "", OffsetOf(w)))
  }

  /** The axis a non-negative offset appends is numpy's
      `linspace(2 * x[-1] - x[-2], x[-1] + offset, pnts)`: on the unit grid it
      continues the last point one period at a time. */
  lemma OffsetAxisIsLinspace(w: Wave1, offset: int, addTail: bool)
    requires offset >= 0
    ensures var r := AddOffsetAsWritten(w, offset, addTail, false);
      var n, p := |w.x|, Points(w, offset);
      var points := Linspace((2 * w.x[n - 1] - w.x[n - 2]) as real, (w.x[n - 1] + offset) as real, p);
      r.Ok? && |r.value.x| == n + p && forall j :: n <= j < n + p ==> r.value.x[j] as real == points[j - n]
  {
    var n, p := |w.x|, Points(w, offset);
    var r := AddOffsetAsWritten(w, offset, addTail, false).value;
    assert w.x[n - 1] == n - 1 && w.x[n - 2] == n - 2;
    var points := Linspace(n as real, (n + p - 1) as real, p);
    assert Linspace((2 * w.x[n - 1] - w.x[n - 2]) as real, (w.x[n - 1] + offset) as real, p) == points;
    forall j | n <= j < n + p
      ensures r.x[j] as real == points[j - n]
    {
      LinspaceUnitStep(n, p, j - n);
    }
  }

  /** p points from a to a + p - 1 step by one. */
  lemma LinspaceUnitStep(a: int, p: nat, k: nat)
    requires k < p
    ensures Linspace(a as real, (a + p - 1) as real, p)[k] == (a + k) as real
  {
    if p > 1 {
      var d := (p - 1) as real;
      assert (a + p - 1) as real - a as real == d;
      assert (k as real) * d / d == k as real;
    }
  }

  /** `add_offset` with the cut clamped at zero, as its documentation means:
      an offset of -p keeps len(x) - p samples, and fewer than two is the
      constructor's IndexError. */
  function AddOffset(w: Wave1, offset: int, addTail: bool, reset: bool): (r: Result<Wave1>)
    ensures reset ==> (r.Fail? <==> w.origin.ListVars?)
    ensures reset && w.origin.OffsetOf? ==> r.Ok? && r.value == w.origin.source
    ensures reset && w.origin.OtherDict? ==> r.Ok? && r.value == w
    ensures !reset ==> (r.Ok? <==> offset >= 0 || -offset <= |w.x| - 2)
    ensures r.Fail? ==> r.error == (if reset then TypeError else IndexError)
    ensures r.Ok? && !reset ==> |r.value.x| == |w.x| + offset && r.value.origin == OffsetOf(w) && r.value.name == ""
    ensures r.Ok? && !reset ==> r.value.x[..(if offset >= 0 then |w.x| else |r.value.x|)] == w.x[..(if offset >= 0 then |w.x| else |r.value.x|)]
    ensures r.Ok? && !reset && offset >= 0 && addTail ==>
      r.value.y[..|w.y|] == w.y && forall i :: |w.y| <= i < |r.value.y| ==> r.value.y[i] == 0.0
    ensures r.Ok? && !reset && offset >= 0 && !addTail ==>
      r.value.y[offset..] == w.y && forall i :: 0 <= i < offset ==> r.value.y[i] == 0.0
    ensures r.Ok? && !reset && offset < 0 ==>
      r.value.y == (if addTail then w.y[..|w.y| + offset] else w.y[-offset..])
  {
    if reset then
      match w.origin
      case OffsetOf(v) =>
        var u: Wave1 := v;
        Ok(u)
      case OtherDict => Ok(w)
      case ListVars => Fail(TypeError)
    else
      var p := Points(w, offset);
      if offset >= 0 then
        var r: Wave1 := WaveData1(w.x + Synthesis.Shift(Range(p), w.x[|w.x| - 1] + 1),
                                  if addTail then w.y + Zeros(p) else Zeros(p) + w.y, "", OffsetOf(w));
        Ok(r)
      else if p > |w.x| - 2 then Fail(IndexError)
      else
        var k := |w.x| - p;
        var r: Wave1 := WaveData1(w.x[..k], if addTail then w.y[..k] else w.y[p..], "", OffsetOf(w));
        Ok(r)
  }

  /** Resetting an offset wave gives back the wave it was made from. */
  lemma ResetUndoesOffset(w: Wave1, offset: int, addTail: bool, o: int, t: bool)
    requires AddOffset(w, offset, addTail, false).Ok?
    ensures AddOffset(AddOffset(w, offset, addTail, false).value, o, t, true).Ok?
    ensures AddOffset(AddOffset(w, offset, addTail, false).value, o, t, true).value == w
  {
  }

  /** Wherever the clamped cut succeeds, the code as written gives the same wave. */
  lemma AddOffsetAgrees(w: Wave1, offset: int, addTail: bool, reset: bool)
    requires AddOffset(w, offset, addTail, reset).Ok?
    ensures AddOffsetAsWritten(w, offset, addTail, reset).Ok?
    ensures AddOffsetAsWritten(w, offset, addTail, reset).value == AddOffset(w, offset, addTail, reset).value
  {
    if !reset && offset < 0 {
      CutAgrees(w, offset, addTail);
    }
  }

  /** The cut case of the above: a stop of at least two is not wrapped. */
  lemma CutAgrees(w: Wave1, offset: int, addTail: bool)
    requires offset < 0 && -offset <= |w.x| - 2
    ensures AddOffsetAsWritten(w, offset, addTail, false).Ok?
    ensures AddOffsetAsWritten(w, offset, addTail, false).value == AddOffset(w, offset, addTail, false).value
  {
    var p := AbsInt(offset);
    var k := |w.x| - p;
    assert PyPrefix(w.x, k) == w.x[..k];
    if addTail {
      assert PyPrefix(w.y, k) == w.y[..k];
    } else {
      assert PyDrop(w.y, p) == w.y[p..];
    }
  }

  /** As written, cutting four samples off a three-sample wave wraps the stop
      index round to -1: two axis points remain but no sample, where the
      clamped cut is an IndexError. */
  lemma AddOffsetOverdraw()
    ensures var w: Wave1 := WaveData1([0, 1, 2], [0.0, 0.0, 0.0], "", OtherDict);
      && AddOffsetAsWritten(w, -4, false, false).Ok?
      && |AddOffsetAsWritten(w, -4, false, false).value.x| == 2
      && |AddOffsetAsWritten(w, -4, false, false).value.y| == 0
      && AddOffset(w, -4, false, false) == Fail(IndexError)
  {
    var w: Wave1 := WaveData1([0, 1, 2], [0.0, 0.0, 0.0], "", OtherDict);
    assert PyPrefix(w.x, -1) == [0, 1];
  }

  /** `w + c`, `w - c`, `w * c` for a number c: name and origin are kept. */
  function WithScalar(op: Waves.BinOp, w: Wave1, c: real): (r: Wave1)
    ensures r.x == w.x && r.name == w.name && r.origin == w.origin
    ensures |r.y| == |w.y| && forall i :: 0 <= i < |w.y| ==> r.y[i] == Waves.Apply(op, w.y[i], c)
  {
    var r: Wave1 := WaveData1(w.x, seq(|w.y|, i requires 0 <= i < |w.y| => Waves.Apply(op, w.y[i], c)), w.name, w.origin);
    r
  }

  /** `w / c`: numpy's division by zero (inf or nan) has no real counterpart. */
  function DivScalar(w: Wave1, c: real): (r: Wave1)
    requires c != 0.0
    ensures r.x == w.x && r.name == w.name && r.origin == w.origin
    ensures |r.y| == |w.y| && forall i :: 0 <= i < |w.y| ==> r.y[i] * c == w.y[i]
  {
    var r: Wave1 := WaveData1(w.x, seq(|w.y|, i requires 0 <= i < |w.y| => w.y[i] / c), w.name, w.origin);
    r
  }

  /** `-w` is `w * (-1)`: a sign flip, not the reversal of later versions. */
  function Neg(w: Wave1): (r: Wave1)
    ensures r.x == w.x && r.name == w.name && r.origin == w.origin
    ensures |r.y| == |w.y| && forall i :: 0 <= i < |w.y| ==> r.y[i] == -w.y[i]
  {
    WithScalar(Waves.Mul, w, -1.0)
  }

  lemma NegInvolutive(w: Wave1)
    ensures Neg(Neg(w)) == w
  {
    assert Neg(Neg(w)).y == w.y;
  }

  /** `reverse()`: the samples in reverse order over the same axis. */
  function Reverse(w: Wave1): (r: Wave1)
    ensures r.x == w.x && r.name == w.name && r.origin == w.origin
    ensures |r.y| == |w.y| && forall i :: 0 <= i < |w.y| ==> r.y[i] == w.y[|w.y| - 1 - i]
  {
    var r: Wave1 := WaveData1(w.x, Waves.Reverse(w.y), w.name, w.origin);
    r
  }

  lemma ReverseInvolutive(w: Wave1)
    ensures Reverse(Reverse(w)) == w
  {
    assert Reverse(Reverse(w)).y == w.y;
  }

  /** Sign flip and reversal commute. */
  lemma NegReverseCommute(w: Wave1)
    ensures Neg(Reverse(w)) == Reverse(Neg(w))
  {
    assert Neg(Reverse(w)).y == Reverse(Neg(w)).y;
  }

  /** `a (+|-|*) b` for two waves: the axis of `max(a, b)` (b only when it is
      strictly longer), the shorter one combined into its prefix, the rest of
      the longer passed through; the result has no name and no offset record. */
  function Combine(op: Waves.BinOp, a: Wave1, b: Wave1): (r: Wave1)
    ensures r.x == (if |b.x| > |a.x| then b.x else a.x) && |r.y| == |r.x|
    ensures r.name == "" && r.origin == OtherDict
    ensures forall i :: 0 <= i < |r.y| ==>
      r.y[i] == (if |b.x| > |a.x| then
                   (if i < |a.y| then Waves.Apply(op, b.y[i], a.y[i]) else b.y[i])
                 else
                   (if i < |b.y| then Waves.Apply(op, a.y[i], b.y[i]) else a.y[i]))
  {
    var longer := if |b.x| > |a.x| then b else a;
    var shorter := if |b.x| > |a.x| then a else b;
    var n := |shorter.y|;
    var r: Wave1 := WaveData1(longer.x, seq(|longer.y|, i requires 0 <= i < |longer.y| =>
                               if i < n then Waves.Apply(op, longer.y[i], shorter.y[i]) else longer.y[i]), "", OtherDict);
    r
  }

  /** Subtraction always takes the shorter wave from the longer one. */
  lemma SubtractsShorterFromLonger(a: Wave1, b: Wave1)
    requires |a.x| != |b.x|
    ensures Combine(Waves.Sub, a, b) == Combine(Waves.Sub, b, a)
  {
  }

  /** Addition and multiplication are commutative on the samples. */
  lemma AddMulCommuteOnSamples(op: Waves.BinOp, a: Wave1, b: Wave1)
    requires op != Waves.Sub
    ensures Combine(op, a, b).y == Combine(op, b, a).y
  {
    var r1 := Combine(op, a, b);
    var r2 := Combine(op, b, a);
    assert forall i :: 0 <= i < |r1.y| ==> r1.y[i] == r2.y[i];
  }

  // ----- synthesis -----

  /** The loop state of `_synthesize`: samples, axis, running offset and the
      first wave's period. */
  datatype Acc = Acc(y: seq<real>, x: seq<int>, offset: int, dx: int)

  const Start := Acc([], [], 0, 0)

  predicate Inv(s: Acc)
  {
    |s.y| == |s.x| && (|s.x| > 0 ==> s.offset == s.x[|s.x| - 1])
  }

  /** One iteration: the first wave seeds samples, axis and period; after it,
      overlap mode averages the boundary samples and shifts the rest of the
      new axis by the offset, and plain mode appends all samples and starts
      the new axis one period after the offset. */
  function Step(s: Acc, w: Wave1, overlap: bool): (r: Acc)
    requires Inv(s)
    ensures Inv(r) && |r.x| > 0
  {
    if |s.x| == 0 then Acc(w.y, w.x, w.x[|w.x| - 1], w.x[1] - w.x[0])
    else if overlap then
      var n := |s.y|;
      var x := s.x + Synthesis.Shift(w.x[1..], s.offset);
      Acc(s.y[..n - 1] + [(s.y[n - 1] + w.y[0]) / 2.0] + w.y[1..], x, x[|x| - 1], s.dx)
    else
      var x := s.x + Synthesis.Shift(w.x, s.offset + s.dx);
      Acc(s.y + w.y, x, x[|x| - 1], s.dx)
  }

  function Run(s: Acc, ws: seq<Wave1>, overlap: bool): (r: Acc)
    requires Inv(s)
    ensures Inv(r)
    decreases |ws|
  {
    if |ws| == 0 then s else Run(Step(s, ws[0], overlap), ws[1..], overlap)
  }

  /** `_synthesize(waveList, appendOverlap)`, returning (y, x). */
  method Synthesize(ws: seq<Wave1>, overlap: bool) returns (y: seq<real>, x: seq<int>)
    ensures y == Run(Start, ws, overlap).y && x == Run(Start, ws, overlap).x
  {
    var s := Start;
    var i := 0;
    while i < |ws|
      invariant 0 <= i <= |ws| && Inv(s)
      invariant Run(s, ws[i..], overlap) == Run(Start, ws, overlap)
    {
      assert ws[i..][1..] == ws[i + 1..];
      s := Step(s, ws[i], overlap);
      i := i + 1;
    }
    assert ws[i..] == [];
    return s.y, s.x;
  }

  function Total(ws: seq<Wave1>): nat
  {
    if |ws| == 0 then 0 else |ws[0].x| + Total(ws[1..])
  }

  /** All the waves' samples one after another. */
  function Flat(ws: seq<Wave1>): seq<real>
  {
    if |ws| == 0 then [] else ws[0].y + Flat(ws[1..])
  }

  lemma {:induction false} RunLength(s: Acc, ws: seq<Wave1>, overlap: bool)
    requires Inv(s) && |s.x| > 0
    ensures |Run(s, ws, overlap).x| == |s.x| + Total(ws) - (if overlap then |ws| else 0)
    decreases |ws|
  {
    if |ws| > 0 {
      RunLength(Step(s, ws[0], overlap), ws[1..], overlap);
    }
  }

  /** Overlap mode loses one sample per junction, plain mode none. */
  lemma SynthLength(ws: seq<Wave1>, overlap: bool)
    requires |ws| > 0
    ensures |Run(Start, ws, overlap).x| == |Run(Start, ws, overlap).y| == Total(ws) - (if overlap then |ws| - 1 else 0)
    ensures |Run(Start, ws, overlap).x| >= 2
  {
    RunLength(Step(Start, ws[0], overlap), ws[1..], overlap);
    TotalBound(ws[1..]);
  }

  lemma {:induction false} TotalBound(ws: seq<Wave1>)
    ensures Total(ws) >= 2 * |ws|
  {
    if |ws| > 0 {
      TotalBound(ws[1..]);
    }
  }

  lemma {:induction false} RunConcatenates(s: Acc, ws: seq<Wave1>)
    requires Inv(s) && |s.x| > 0
    ensures Run(s, ws, false).y == s.y + Flat(ws)
    decreases |ws|
  {
    if |ws| > 0 {
      RunConcatenates(Step(s, ws[0], false), ws[1..]);
      assert s.y + ws[0].y + Flat(ws[1..]) == s.y + Flat(ws);
    } else {
      assert s.y + Flat(ws) == s.y;
    }
  }

  /** Without overlap the samples are the waves' samples concatenated. */
  lemma PlainConcatenates(ws: seq<Wave1>)
    requires |ws| > 0
    ensures Run(Start, ws, false).y == Flat(ws)
  {
    RunConcatenates(Step(Start, ws[0], false), ws[1..]);
  }

  // ----- waveforms -----

  class Waveform1 {
    var waveList: seq<Wave1>
    var name: string
    var overlap: bool
    var y: seq<real>
    var x: seq<int>

    /** Samples and axis are the synthesis of the wave list. */
    ghost predicate Synced()
      reads this
    {
      y == Run(Start, waveList, overlap).y && x == Run(Start, waveList, overlap).x
    }

    constructor Init(ws: seq<Wave1>, name: string, overlap: bool, y: seq<real>, x: seq<int>)
      ensures this.waveList == ws && this.name == name && this.overlap == overlap
      ensures this.y == y && this.x == x
    {
      this.waveList := ws;
      this.name := name;
      this.overlap := overlap;
      this.y := y;
      this.x := x;
    }

    /** `Waveform(waveObjList, name, appendOverlap)`: the synthesis of an empty
        list has no second axis point, an IndexError. */
    static method New(ws: seq<Wave1>, name: string, overlap: bool) returns (r: Result<Waveform1>)
      ensures r.Fail? <==> |ws| == 0
      ensures r.Fail? ==> r.error == IndexError
      ensures r.Ok? ==> fresh(r.value) && r.value.waveList == ws && r.value.name == name
      ensures r.Ok? ==> r.value.overlap == overlap && r.value.Synced()
    {
      var y, x := Synthesize(ws, overlap);
      if |ws| > 0 {
        SynthLength(ws, overlap);
      }
      if |x| < 2 {
        return Fail(IndexError);
      }
      var f := new Waveform1.Init(ws, name, overlap, y, x);
      return Ok(f);
    }

    /** `set_waveList`: an empty list is refused and nothing changes; any other
        list is stored, after which the overlap flag is read through its getter
        without the argument it requires, a TypeError that leaves samples and
        axis as they were. */
    method SetWaveList(ws: seq<Wave1>) returns (err: Option<Error>)
      modifies this
      ensures |ws| == 0 ==> err == None && waveList == old(waveList)
      ensures |ws| > 0 ==> err == Some(TypeError) && waveList == ws
      ensures y == old(y) && x == old(x) && name == old(name) && overlap == old(overlap)
    {
      if |ws| == 0 {
        return None;
      }
      waveList := ws;
      return Some(TypeError);
    }

    /** `__contains__(w)`: a flag per wave in the list, true where it is w. */
    function Contains(w: Wave1): (r: seq<bool>)
      reads this
      ensures |r| == |waveList| && forall i :: 0 <= i < |r| ==> (r[i] <==> waveList[i] == w)
    {
      seq(|waveList|, i requires 0 <= i < |waveList| reads this => waveList[i] == w)
    }

    /** `w in f` as written: Python takes the truth of the list `__contains__`
        returns, which is true whenever the wave list is not empty. */
    predicate In(w: Wave1)
      reads this
      ensures In(w) <==> |waveList| > 0
    {
      |Contains(w)| > 0
    }

    /** Membership as intended: some flag is true. */
    predicate Member(w: Wave1)
      reads this
      ensures Member(w) <==> exists i :: 0 <= i < |waveList| && waveList[i] == w
    {
      true in Contains(w)
    }
  }

  /** As written, a waveform "contains" every wave once it has one. */
  lemma InIgnoresTheWave(f: Waveform1, w: Wave1)
    requires |f.waveList| > 0 && w !in f.waveList
    ensures f.In(w) && !f.Member(w)
  {
  }

  /** `QubitChannel.__add__`: a different wire count returns None; an equal
      one adds the wires pairwise, and the first `Waveform.__add__` reads the
      overlap flag through its getter without its argument, a TypeError.
      A channel always has a wire: its constructor reads the first one. */
  function ChannelAdd(a: seq<Waveform1>, b: seq<Waveform1>): (r: Result<Option<seq<Waveform1>>>)
    requires |a| > 0 && |b| > 0
    ensures r == Ok(None) <==> |a| != |b|
    ensures r.Fail? <==> |a| == |b|
    ensures r.Fail? ==> r.error == TypeError
  {
    if |a| != |b| then Ok(None) else Fail(TypeError)
  }
}
