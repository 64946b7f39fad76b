// The archived version 6 of the wave tools (OldArchives/WavetoolsV6.py):
// its `Wave` arithmetic is the current one (module Waves), except that
// dividing by a number works (Waves.DivideByNumber); its waveform synthesis
// keeps both boundary samples on a hard/hard junction, its null block drops
// the end point, and `offset` and `alignwith` build on those.

module WavetoolsV6 {
  import opened Common
  import opened Comparables
  import opened Waves
  import Synthesis

  // ----- synthesis -----

  /** The loop state of `_synthesize`: samples and axis so far, the running
      offset and the wave joined last. */
  datatype State = State(y: seq<real>, x: seq<int>, offset: int, previous: Option<Wave>)

  const Start: State := State([], [], 0, None)

  /** What the loop keeps: once the axis is non-empty a previous wave exists,
      the offset is the last axis value and the axis starts at 0; its second
      value, which `dx` reads, is 0 or 1. */
  predicate Inv(s: State)
  {
    && (|s.x| > 0 ==> s.previous.Some? && s.offset == s.x[|s.x| - 1] && s.x[0] == 0)
    && (|s.x| >= 2 ==> 0 <= s.x[1] <= 1)
  }

  /** `s[1:]` and `s[:-1]`, which are empty on an empty sequence. */
  function Tail<T>(s: seq<T>): seq<T> { if |s| == 0 then [] else s[1..] }
  function Init<T>(s: seq<T>): seq<T> { if |s| == 0 then [] else s[..|s| - 1] }

  /** One iteration. While the axis is empty the wave is taken as it is (an
      empty wave leaves everything as it was). After that every wave is
      joined, empty or not: hard/soft keeps the left's last sample, soft/hard
      the right's first, hard/hard keeps both and starts the right one `dx`
      after the left's end, soft/soft averages the two and fails with an
      IndexError when either side has no sample. */
  function Step(s: State, w: Wave): (r: Result<State>)
    requires Inv(s)
    ensures r.Ok? ==> Inv(r.value)
    ensures r.Fail? ==> r.error == IndexError
  {
    if |s.x| == 0 then
      if |w.x| == 0 then Ok(State(w.y, w.x, s.offset, s.previous))
      else Ok(State(w.y, w.x, w.x[|w.x| - 1], Some(w)))
    else
      var left := s.previous.value.rule.tail;
      var right := w.rule.head;
      if left != right then
        Ok(Joined(s, if left then s.y + Tail(w.y) else Init(s.y) + w.y, Tail(w.x), s.offset, w))
      else if left then
        Ok(Joined(s, s.y + w.y, w.x, s.offset + Dx(w.x), w))
      else if |s.y| == 0 || |w.y| == 0 then Fail(IndexError)
      else
        var n := |s.y|;
        Ok(Joined(s, s.y[..n - 1] + [(s.y[n - 1] + w.y[0]) / 2.0] + w.y[1..], w.x[1..], s.offset, w))
  }

  /** The state after a join: the new samples, and the axis extended by part
      of the wave's axis shifted by d, whose end becomes the offset. */
  function Joined(s: State, y: seq<real>, part: seq<int>, d: int, w: Wave): (r: State)
    requires Inv(s) && |s.x| > 0
    requires |s.x| == 1 && |part| > 0 ==> 0 <= part[0] + d <= 1
    ensures Inv(r) && r.y == y && r.previous == Some(w)
    ensures r.x == s.x + Synthesis.Shift(part, d)
  {
    var x := s.x + Synthesis.Shift(part, d);
    assert x[0] == 0;
    State(y, x, x[|x| - 1], Some(w))
  }

  /** The loop over the remaining waves; it stops at the first error. */
  function Run(s: State, ws: seq<Wave>): (r: Result<State>)
    requires Inv(s)
    ensures r.Ok? ==> Inv(r.value)
    decreases |ws|
  {
    if |ws| == 0 then Ok(s)
    else
      match Step(s, ws[0])
      case Fail(e) => Fail(e)
      case Ok(t) => Run(t, ws[1..])
  }

  /** `_synthesize(waveList)`. */
  method Synthesize(ws: seq<Wave>) returns (r: Result<State>)
    ensures r == Run(Start, ws)
  {
    var s := Start;
    var i := 0;
    while i < |ws|
      invariant 0 <= i <= |ws| && Inv(s)
      invariant Run(s, ws[i..]) == Run(Start, ws)
    {
      assert ws[i..][1..] == ws[i + 1..];
      var t := Step(s, ws[i]);
      if t.Fail? {
        return Fail(t.error);
      }
      s := t.value;
      i := i + 1;
    }
    assert ws[i..] == [];
    return Ok(s);
  }

  /** Leading empty waves are skipped without a trace. */
  lemma {:induction false} LeadingEmptySkipped(e: seq<Wave>, ws: seq<Wave>)
    requires forall i :: 0 <= i < |e| ==> |e[i].x| == 0
    ensures Run(Start, e + ws) == Run(Start, ws)
    decreases |e|
  {
    if |e| > 0 {
      assert (e + ws)[0] == e[0];
      assert e[0].x == [] && e[0].y == [];
      assert Step(Start, e[0]) == Ok(Start);
      assert (e + ws)[1..] == e[1..] + ws;
      assert Run(Start, e + ws) == Run(Start, e[1..] + ws);
      LeadingEmptySkipped(e[1..], ws);
    } else {
      assert e + ws == ws;
    }
  }

  /** The number of samples a junction takes away: none for hard/hard, one
      for every other pair of rules. */
  function Loss(p: Wave, w: Wave): nat
  {
    if p.rule.tail && w.rule.head then 0 else 1
  }

  /** Joining a non-empty wave to a non-empty state: the four junction forms,
      with |w| - Loss new samples. */
  lemma JoinForm(s: State, w: Wave)
    requires Inv(s) && |s.x| > 0 && |s.y| == |s.x| && |w.x| > 0
    ensures Step(s, w).Ok?
    ensures var r := Step(s, w).value; var p := s.previous.value; var n := |s.y|;
      && r.previous == Some(w)
      && |r.y| == |r.x| == |s.x| + |w.x| - Loss(p, w)
      && (p.rule.tail && w.rule.head ==>
            r.y == s.y + w.y && r.x == s.x + Synthesis.Shift(w.x, s.offset + Dx(w.x)))
      && (!(p.rule.tail && w.rule.head) ==>
            r.y == s.y[..n - 1] + [Synthesis.Junction(p.rule.tail, w.rule.head, s.y[n - 1], w.y[0])] + w.y[1..]
            && r.x == s.x + Synthesis.Shift(w.x[1..], s.offset))
  {
    var p := s.previous.value;
    if p.rule.tail && w.rule.head {
      JoinHardHard(s, w);
    } else if p.rule.tail || w.rule.head {
      JoinMixed(s, w);
    } else {
      JoinSoftSoft(s, w);
    }
  }

  /** The sizes JoinForm gives, without the sample values. */
  lemma JoinSize(s: State, w: Wave)
    requires Inv(s) && |s.x| > 0 && |s.y| == |s.x| && |w.x| > 0
    ensures Step(s, w).Ok?
    ensures var r := Step(s, w).value;
      Inv(r) && r.previous == Some(w) && |r.y| == |r.x| == |s.x| + |w.x| - Loss(s.previous.value, w)
  {
    JoinForm(s, w);
  }

  lemma JoinHardHard(s: State, w: Wave)
    requires Inv(s) && |s.x| > 0 && |s.y| == |s.x| && |w.x| > 0
    requires s.previous.value.rule.tail && w.rule.head
    ensures Step(s, w).Ok?
    ensures var r := Step(s, w).value;
      && r.previous == Some(w) && |r.y| == |r.x| == |s.x| + |w.x|
      && r.y == s.y + w.y && r.x == s.x + Synthesis.Shift(w.x, s.offset + Dx(w.x))
  {
  }

  lemma JoinMixed(s: State, w: Wave)
    requires Inv(s) && |s.x| > 0 && |s.y| == |s.x| && |w.x| > 0
    requires s.previous.value.rule.tail != w.rule.head
    ensures Step(s, w).Ok?
    ensures var r := Step(s, w).value; var n := |s.y|;
      && r.previous == Some(w) && |r.y| == |r.x| == |s.x| + |w.x| - 1
      && r.y == s.y[..n - 1] + [Synthesis.Junction(s.previous.value.rule.tail, w.rule.head, s.y[n - 1], w.y[0])] + w.y[1..]
      && r.x == s.x + Synthesis.Shift(w.x[1..], s.offset)
  {
    var n := |s.y|;
    var r := Step(s, w).value;
    if s.previous.value.rule.tail {
      assert r.y == s.y + w.y[1..];
      assert s.y == s.y[..n - 1] + [s.y[n - 1]];
    } else {
      assert r.y == s.y[..n - 1] + w.y;
      assert w.y == [w.y[0]] + w.y[1..];
    }
  }

  lemma JoinSoftSoft(s: State, w: Wave)
    requires Inv(s) && |s.x| > 0 && |s.y| == |s.x| && |w.x| > 0
    requires !s.previous.value.rule.tail && !w.rule.head
    ensures Step(s, w).Ok?
    ensures var r := Step(s, w).value; var n := |s.y|;
      && r.previous == Some(w) && |r.y| == |r.x| == |s.x| + |w.x| - 1
      && r.y == s.y[..n - 1] + [(s.y[n - 1] + w.y[0]) / 2.0] + w.y[1..]
      && r.x == s.x + Synthesis.Shift(w.x[1..], s.offset)
  {
  }

  predicate AllNonEmpty(ws: seq<Wave>)
  {
    forall i :: 0 <= i < |ws| ==> |ws[i].x| > 0
  }

  /** The samples that joining ws after p adds. */
  function Growth(p: Wave, ws: seq<Wave>): int
    decreases |ws|
  {
    if |ws| == 0 then 0 else |ws[0].x| - Loss(p, ws[0]) + Growth(ws[0], ws[1..])
  }

  /** The wave joined last. */
  function Last(p: Wave, ws: seq<Wave>): Wave
  {
    if |ws| == 0 then p else ws[|ws| - 1]
  }

  /** The sample count of a list of non-empty waves: the first wave's, then
      every later wave's less its junction's loss. */
  function Length(ws: seq<Wave>): int
    requires |ws| > 0
  {
    |ws[0].x| + Growth(ws[0], ws[1..])
  }

  lemma {:induction false} RunLength(s: State, ws: seq<Wave>)
    requires Inv(s) && |s.x| > 0 && |s.y| == |s.x| && AllNonEmpty(ws)
    ensures Run(s, ws).Ok?
    ensures |Run(s, ws).value.y| == |Run(s, ws).value.x| == |s.x| + Growth(s.previous.value, ws)
    ensures Run(s, ws).value.previous == Some(Last(s.previous.value, ws))
    decreases |ws|
  {
    if |ws| > 0 {
      JoinSize(s, ws[0]);
      var t := Step(s, ws[0]).value;
      RunLength(t, ws[1..]);
    }
  }

  /** A list of non-empty waves always synthesizes, to Length(ws) samples on
      an axis of the same length, and the last wave is the one remembered. */
  lemma SynthLength(ws: seq<Wave>)
    requires |ws| > 0 && AllNonEmpty(ws)
    ensures Run(Start, ws).Ok?
    ensures |Run(Start, ws).value.x| == |Run(Start, ws).value.y| == Length(ws)
    ensures Run(Start, ws).value.previous == Some(ws[|ws| - 1])
  {
    var t := Step(Start, ws[0]).value;
    RunLength(t, ws[1..]);
  }

  lemma {:induction false} GrowthConcat(p: Wave, a: seq<Wave>, b: seq<Wave>)
    ensures Growth(p, a + b) == Growth(p, a) + Growth(Last(p, a), b)
    decreases |a|
  {
    if |a| == 0 {
      assert a + b == b;
    } else {
      assert (a + b)[0] == a[0];
      assert (a + b)[1..] == a[1..] + b;
      GrowthConcat(a[0], a[1..], b);
    }
  }

  /** A wave appended to a list joins the list's last wave. */
  lemma LengthAppend(a: seq<Wave>, w: Wave)
    requires |a| > 0
    ensures Length(a + [w]) == Length(a) + |w.x| - Loss(a[|a| - 1], w)
  {
    assert (a + [w])[1..] == a[1..] + [w];
    GrowthConcat(a[0], a[1..], [w]);
    assert Growth(Last(a[0], a[1..]), [w]) == |w.x| - Loss(a[|a| - 1], w) + Growth(w, []);
  }

  /** A wave prepended to a list joins the list's first wave. */
  lemma LengthPrepend(w: Wave, a: seq<Wave>)
    requires |a| > 0
    ensures Length([w] + a) == |w.x| + Length(a) - Loss(w, a[0])
  {
    assert ([w] + a)[1..] == a;
  }

  lemma {:induction false} RunConcat(s: State, a: seq<Wave>, b: seq<Wave>)
    requires Inv(s) && Run(s, a).Ok?
    ensures Run(s, a + b) == Run(Run(s, a).value, b)
    decreases |a|
  {
    if |a| == 0 {
      assert a + b == b;
    } else {
      assert (a + b)[0] == a[0];
      assert (a + b)[1..] == a[1..] + b;
      RunConcat(Step(s, a[0]).value, a[1..], b);
    }
  }

  // ----- waveforms -----

  /** `_nullBlock(span, rate, rule)` at one sample per period: int(span + 1)
      zero samples from 0 to span with the end point dropped; a negative
      point count is numpy's ValueError. */
  function NullBlock(span: int, rule: Rule): (r: Result<Wave>)
    ensures r.Fail? <==> span < -1
    ensures r.Fail? ==> r.error == ValueError
    ensures r.Ok? ==> |r.value.x| == (if span >= 0 then span else 0) && r.value.rule == rule
    ensures r.Ok? ==> forall i :: 0 <= i < |r.value.y| ==> r.value.y[i] == 0.0
  {
    var points := span + 1;
    if points < 0 then Fail(ValueError)
    else
      var n := if points == 0 then 0 else points - 1;
      var w: Wave := WaveData(Grid(n), seq(n, _ => 0.0), "null", rule);
      Ok(w)
  }

  datatype WaveformData = WaveformData(waveList: seq<Wave>, name: string, y: seq<real>, x: seq<int>)

  /** A waveform holds the synthesis of its wave list. */
  predicate Synthesized(f: WaveformData)
  {
    Run(Start, f.waveList).Ok? && Run(Start, f.waveList).value.y == f.y && Run(Start, f.waveList).value.x == f.x
  }

  type Waveform = f: WaveformData | Synthesized(f) witness WaveformData([], "", [], [])

  /** `Waveform(waveList, name)`: the synthesis may fail. */
  function Make(ws: seq<Wave>, name: string): (r: Result<Waveform>)
    ensures r.Fail? <==> Run(Start, ws).Fail?
    ensures r.Ok? ==> r.value.waveList == ws && r.value.name == name
  {
    match Run(Start, ws)
    case Fail(e) => Fail(e)
    case Ok(s) =>
      var f: Waveform := WaveformData(ws, name, s.y, s.x);
      Ok(f)
  }

  /** The `waveList` setter: an empty list is a ValueError. */
  function SetWaveList(f: Waveform, ws: seq<Wave>): (r: Result<Waveform>)
    ensures |ws| == 0 ==> r == Fail(ValueError)
    ensures |ws| > 0 ==> r == Make(ws, f.name)
  {
    if |ws| == 0 then Fail(ValueError) else Make(ws, f.name)
  }

  /** `appendRule`: the first wave's head and the last wave's tail. */
  function AppendRule(ws: seq<Wave>): (r: Result<Rule>)
    ensures r.Fail? <==> |ws| == 0
    ensures r.Fail? ==> r.error == IndexError
    ensures r.Ok? ==> r.value.head == ws[0].rule.head && r.value.tail == ws[|ws| - 1].rule.tail
  {
    if |ws| == 0 then Fail(IndexError) else Ok(Rule(ws[0].rule.head, ws[|ws| - 1].rule.tail))
  }

  /** The period `dx` of a waveform is 0 or 1. */
  lemma WaveformPeriod(f: Waveform)
    ensures Dx(f.x) == 0 || Dx(f.x) == 1
  {
  }

  /** A waveform without waves has no samples. */
  lemma EmptyListEmptyAxis(f: Waveform)
    ensures |f.waveList| == 0 ==> f.x == [] && f.y == []
  {
  }

  /** `offset(o)`: unchanged when |o| < dx, a ZeroDivisionError when dx is 0;
      otherwise a hard null block of span o (one period more when the side
      it joins is soft) before the waves (o > 0) or after them, in a new
      waveform without a name. A negative offset below -1 (-2 when the tail is
      soft) is a ValueError, and where one succeeds its block has no samples. */
  function Offset(f: Waveform, o: int): (r: Result<Waveform>)
    ensures AbsInt(o) < Dx(f.x) ==> r == Ok(f)
    ensures Dx(f.x) == 0 ==> r == Fail(ZeroDivisionError)
    ensures r.Ok? && AbsInt(o) >= Dx(f.x) ==> r.value.name == "" && |r.value.waveList| == |f.waveList| + 1
    ensures r.Ok? && AbsInt(o) >= Dx(f.x) && o > 0 ==>
      && r.value.waveList[1..] == f.waveList && r.value.waveList[0].rule == Rule(true, true)
      && AppendRule(f.waveList).Ok?
      && |r.value.waveList[0].x| == (if AppendRule(f.waveList).value.head then o else o + 1)
      && forall i :: 0 <= i < |r.value.waveList[0].y| ==> r.value.waveList[0].y[i] == 0.0
    ensures r.Ok? && AbsInt(o) >= Dx(f.x) && o <= 0 ==>
      && r.value.waveList[..|f.waveList|] == f.waveList && r.value.waveList[|f.waveList|].rule == Rule(true, true)
      && |r.value.waveList[|f.waveList|].x| == 0
  {
    if AbsInt(o) < Dx(f.x) then Ok(f)
    else if Dx(f.x) == 0 then Fail(ZeroDivisionError)
    else
      match AppendRule(f.waveList)
      case Fail(e) => Fail(e)
      case Ok(rule) =>
        if o > 0 then
          match NullBlock(if rule.head then o else o + 1, Rule(true, true))
          case Fail(e) => Fail(e)
          case Ok(nb) => Make([nb] + f.waveList, "")
        else
          match NullBlock(if rule.tail then o else o + 1, Rule(true, true))
          case Fail(e) => Fail(e)
          case Ok(nb) => Make(f.waveList + [nb], "")
  }

  function AbsInt(v: int): nat { if v < 0 then -v else v }

  /** A positive offset of o periods adds exactly o samples in front and keeps
      the waveform's tail rule. */
  lemma OffsetForward(f: Waveform, o: int)
    requires AllNonEmpty(f.waveList) && Dx(f.x) == 1 && o > 0
    ensures Offset(f, o).Ok?
    ensures |Offset(f, o).value.x| == |Offset(f, o).value.y| == |f.x| + o
    ensures AppendRule(Offset(f, o).value.waveList).value.tail == AppendRule(f.waveList).value.tail
  {
    EmptyListEmptyAxis(f);
    var ws := f.waveList;
    var rule := AppendRule(ws).value;
    var nb := NullBlock(if rule.head then o else o + 1, Rule(true, true)).value;
    SynthLength(ws);
    assert AllNonEmpty([nb] + ws) by {
      forall i | 0 <= i < |[nb] + ws|
        ensures |([nb] + ws)[i].x| > 0
      {
        if i > 0 {
          assert ([nb] + ws)[i] == ws[i - 1];
        }
      }
    }
    SynthLength([nb] + ws);
    LengthPrepend(nb, ws);
  }

  /** As written, a backward offset uses the signed span: -1 on a waveform
      ending soft yields an empty block, and joining it drops the last sample
      while the axis keeps its length, so y and x no longer match. */
  lemma OffsetBackwardDropsSample(f: Waveform)
    requires AllNonEmpty(f.waveList) && Dx(f.x) == 1
    requires !AppendRule(f.waveList).value.tail
    ensures Offset(f, -1).Ok?
    ensures |Offset(f, -1).value.y| + 1 == |Offset(f, -1).value.x| == |f.x|
  {
    EmptyListEmptyAxis(f);
    var ws := f.waveList;
    var nb := NullBlock(0, Rule(true, true)).value;
    SynthLength(ws);
    RunConcat(Start, ws, [nb]);
    var s := Run(Start, ws).value;
    assert Run(s, [nb]) == Step(s, nb);
  }

  /** As written, a backward offset of more than one period (two on a soft
      tail) asks numpy for a negative number of points. */
  lemma OffsetBackwardFails(f: Waveform, o: int)
    requires Dx(f.x) == 1 && o < -2
    ensures Offset(f, o) == Fail(ValueError)
  {
    EmptyListEmptyAxis(f);
  }

  // ----- alignment -----

  /** `span`: last minus first axis value; an empty axis is an IndexError. */
  function SpanOf(f: Waveform): (r: Result<int>)
    ensures r.Fail? <==> |f.x| == 0
    ensures r.Ok? && UnitGrid(f.x) ==> r.value == |f.x| - 1
  {
    if |f.x| == 0 then Fail(IndexError) else Ok(f.x[|f.x| - 1] - f.x[0])
  }

  /** `a.alignwith(b, use_1st_head, align_2nd_head)` on values, giving the new
      (a, b): nothing changes when the sample counts agree, and a waveform of
      period 0 is a ZeroDivisionError. */
  function AlignWith(a: Waveform, b: Waveform, use1stHead: bool, align2ndHead: bool): (r: Result<(Waveform, Waveform)>)
    ensures |a.x| == |b.x| ==> r == Ok((a, b))
  {
    if |a.x| == |b.x| then Ok((a, b))
    else if Dx(a.x) == 0 then Fail(ZeroDivisionError)
    else if use1stHead != align2ndHead then PadBoth(a, b, use1stHead)
    else PadShorter(a, b, use1stHead)
  }

  /** Differing flags: each waveform gets a null block of the other's span
      and append rule, a's before it and b's after it (use_1st_head), or the
      other way round. */
  function PadBoth(a: Waveform, b: Waveform, use1stHead: bool): (r: Result<(Waveform, Waveform)>)
    ensures |a.x| == 0 ==> r == Fail(IndexError)
    ensures r.Ok? ==> r.value.0.name == a.name && r.value.1.name == b.name
    ensures r.Ok? ==> |r.value.0.waveList| == |a.waveList| + 1 && |r.value.1.waveList| == |b.waveList| + 1
    ensures r.Ok? && use1stHead ==> r.value.0.waveList[1..] == a.waveList && r.value.1.waveList[..|b.waveList|] == b.waveList
    ensures r.Ok? && !use1stHead ==> r.value.0.waveList[..|a.waveList|] == a.waveList && r.value.1.waveList[1..] == b.waveList
  {
    var sa := SpanOf(a);
    var ra := AppendRule(a.waveList);
    if sa.Fail? then Fail(sa.error) else if ra.Fail? then Fail(IndexError)
    else
      var blockA := NullBlock(sa.value, ra.value);
      if blockA.Fail? then Fail(blockA.error)
      else
        var sb := SpanOf(b);
        var rb := AppendRule(b.waveList);
        if sb.Fail? then Fail(sb.error) else if rb.Fail? then Fail(IndexError)
        else
          var blockB := NullBlock(sb.value, rb.value);
          if blockB.Fail? then Fail(blockB.error)
          else
            var a' := SetWaveList(a, if use1stHead then [blockB.value] + a.waveList else a.waveList + [blockB.value]);
            if a'.Fail? then Fail(a'.error)
            else
              var b' := SetWaveList(b, if use1stHead then b.waveList + [blockA.value] else [blockA.value] + b.waveList);
              if b'.Fail? then Fail(b'.error) else Ok((a'.value, b'.value))
  }

  /** Equal flags: only the shorter waveform is padded (by `Pad`), the
      longer one is kept. */
  function PadShorter(a: Waveform, b: Waveform, use1stHead: bool): (r: Result<(Waveform, Waveform)>)
    requires |a.x| != |b.x|
    ensures r.Ok? ==> r.value.0.name == a.name && r.value.1.name == b.name
    ensures r.Ok? && |a.x| > |b.x| ==> r.value.0 == a
    ensures r.Ok? && |a.x| < |b.x| ==> r.value.1 == b
  {
    if SpanOf(a).Fail? || SpanOf(b).Fail? then Fail(IndexError)
    else PadShorterBy(a, b, AbsInt(SpanOf(a).value - SpanOf(b).value), use1stHead)
  }

  function PadShorterBy(a: Waveform, b: Waveform, span: int, use1stHead: bool): (r: Result<(Waveform, Waveform)>)
    requires |a.x| != |b.x|
  {
    if |b.x| < |a.x| then
      var padded := Pad(b, a, span, use1stHead);
      if padded.Fail? then Fail(padded.error) else Ok((a, padded.value))
    else
      var padded := Pad(a, b, span, use1stHead);
      if padded.Fail? then Fail(padded.error) else Ok((padded.value, b))
  }

  /** The shorter waveform gets a null block of the span difference plus one
      period when its own end at that side is soft; the block is hard towards
      it and takes the longer one's outer rule. */
  function Pad(shorter: Waveform, longer: Waveform, span: int, use1stHead: bool): (r: Result<Waveform>)
  {
    var rs := AppendRule(shorter.waveList);
    var rl := AppendRule(longer.waveList);
    if rs.Fail? then Fail(rs.error) else if rl.Fail? then Fail(rl.error)
    else
      var soft := if use1stHead then !rs.value.tail else !rs.value.head;
      var block := NullBlock(if soft then span + 1 else span,
                             if use1stHead then Rule(true, rl.value.tail) else Rule(rl.value.head, true));
      if block.Fail? then Fail(block.error)
      else SetWaveList(shorter, if use1stHead then shorter.waveList + [block.value]
                                else [block.value] + shorter.waveList)
  }

  /** A waveform of non-empty waves has as many samples as axis points. */
  lemma SamplesMatchAxis(f: Waveform)
    requires AllNonEmpty(f.waveList)
    ensures |f.y| == |f.x|
  {
    if |f.waveList| > 0 {
      SynthLength(f.waveList);
    }
  }

  lemma AddNonEmpty(ws: seq<Wave>, w: Wave, atEnd: bool)
    requires AllNonEmpty(ws) && |w.x| > 0
    ensures AllNonEmpty(if atEnd then ws + [w] else [w] + ws)
  {
    var r := if atEnd then ws + [w] else [w] + ws;
    forall i | 0 <= i < |r|
      ensures |r[i].x| > 0
    {
      if atEnd {
        if i < |ws| { assert r[i] == ws[i]; }
      } else {
        if i > 0 { assert r[i] == ws[i - 1]; }
      }
    }
  }

  /** Padding by the difference of the sample counts brings the shorter
      waveform to the longer one's length, on either side. */
  lemma PadEqualizes(shorter: Waveform, longer: Waveform, u: bool)
    requires AllNonEmpty(shorter.waveList) && AllNonEmpty(longer.waveList)
    requires 1 <= |shorter.x| < |longer.x|
    ensures Pad(shorter, longer, |longer.x| - |shorter.x|, u).Ok?
    ensures |Pad(shorter, longer, |longer.x| - |shorter.x|, u).value.x| == |longer.x|
    ensures |Pad(shorter, longer, |longer.x| - |shorter.x|, u).value.y| == |longer.x|
  {
    EmptyListEmptyAxis(shorter);
    EmptyListEmptyAxis(longer);
    SynthLength(shorter.waveList);
    if u {
      PadAtTail(shorter, longer);
    } else {
      PadAtHead(shorter, longer);
    }
  }

  /** The block `Pad` adds, once both append rules exist and the span is
      not negative. */
  function PadBlock(shorter: Waveform, longer: Waveform, span: nat, u: bool): (r: Wave)
    requires |shorter.waveList| > 0 && |longer.waveList| > 0
    ensures |r.x| == (if (if u then !shorter.waveList[|shorter.waveList| - 1].rule.tail else !shorter.waveList[0].rule.head) then span + 1 else span)
    ensures r.rule == (if u then Rule(true, longer.waveList[|longer.waveList| - 1].rule.tail) else Rule(longer.waveList[0].rule.head, true))
  {
    var rs := AppendRule(shorter.waveList).value;
    var rl := AppendRule(longer.waveList).value;
    var soft := if u then !rs.tail else !rs.head;
    NullBlock(if soft then span + 1 else span, if u then Rule(true, rl.tail) else Rule(rl.head, true)).value
  }

  lemma PadValue(shorter: Waveform, longer: Waveform, span: nat, u: bool)
    requires |shorter.waveList| > 0 && |longer.waveList| > 0
    ensures var b := PadBlock(shorter, longer, span, u);
      Pad(shorter, longer, span, u) == Make(if u then shorter.waveList + [b] else [b] + shorter.waveList, shorter.name)
  {
  }

  lemma PadAtTail(shorter: Waveform, longer: Waveform)
    requires AllNonEmpty(shorter.waveList) && |shorter.waveList| > 0 && |longer.waveList| > 0
    requires |shorter.x| == Length(shorter.waveList) < |longer.x|
    ensures Pad(shorter, longer, |longer.x| - |shorter.x|, true).Ok?
    ensures |Pad(shorter, longer, |longer.x| - |shorter.x|, true).value.x| == |longer.x|
    ensures |Pad(shorter, longer, |longer.x| - |shorter.x|, true).value.y| == |longer.x|
  {
    var sh := shorter.waveList;
    var block := PadBlock(shorter, longer, |longer.x| - |shorter.x|, true);
    PadValue(shorter, longer, |longer.x| - |shorter.x|, true);
    var ws := sh + [block];
    LengthAppend(sh, block);
    AddNonEmpty(sh, block, true);
    SynthLength(ws);
  }

  lemma PadAtHead(shorter: Waveform, longer: Waveform)
    requires AllNonEmpty(shorter.waveList) && |shorter.waveList| > 0 && |longer.waveList| > 0
    requires |shorter.x| == Length(shorter.waveList) < |longer.x|
    ensures Pad(shorter, longer, |longer.x| - |shorter.x|, false).Ok?
    ensures |Pad(shorter, longer, |longer.x| - |shorter.x|, false).value.x| == |longer.x|
    ensures |Pad(shorter, longer, |longer.x| - |shorter.x|, false).value.y| == |longer.x|
  {
    var sh := shorter.waveList;
    var block := PadBlock(shorter, longer, |longer.x| - |shorter.x|, false);
    PadValue(shorter, longer, |longer.x| - |shorter.x|, false);
    var ws := [block] + sh;
    LengthPrepend(block, sh);
    AddNonEmpty(sh, block, false);
    SynthLength(ws);
  }

  /** On the unit grid the span difference is the sample-count difference,
      so `PadShorter` pads the shorter waveform by exactly that. */
  lemma PadShorterSpan(a: Waveform, b: Waveform, u: bool)
    requires |a.x| != |b.x| && |a.x| >= 1 && |b.x| >= 1
    requires a.x[|a.x| - 1] - a.x[0] == |a.x| - 1 && b.x[|b.x| - 1] - b.x[0] == |b.x| - 1
    ensures PadShorter(a, b, u) == PadShorterBy(a, b, if |a.x| > |b.x| then |a.x| - |b.x| else |b.x| - |a.x|, u)
  {
    PadShorterByAxis(a, b, u);
    SpanDifference(a, b);
  }

  /** On the unit grid two axis spans differ by the sample-count difference. */
  lemma SpanDifference(a: Waveform, b: Waveform)
    requires |a.x| >= 1 && |b.x| >= 1
    requires a.x[|a.x| - 1] - a.x[0] == |a.x| - 1 && b.x[|b.x| - 1] - b.x[0] == |b.x| - 1
    ensures SpanOf(a).Ok? && SpanOf(b).Ok?
    ensures AbsInt(SpanOf(a).value - SpanOf(b).value) == (if |a.x| > |b.x| then |a.x| - |b.x| else |b.x| - |a.x|)
  {
  }

  /** `pad_shorter` pads by the difference of the two axis spans. */
  lemma PadShorterByAxis(a: Waveform, b: Waveform, u: bool)
    requires |a.x| != |b.x| && |a.x| >= 1 && |b.x| >= 1
    ensures SpanOf(a).Ok? && SpanOf(b).Ok?
    ensures PadShorter(a, b, u) == PadShorterBy(a, b, AbsInt(SpanOf(a).value - SpanOf(b).value), u)
  {
  }

  /** With equal flags, two waveforms of non-empty waves on the unit grid end
      up with the same number of samples, the longer one untouched. */
  lemma AlignWithSameFlagsEqualizes(a: Waveform, b: Waveform, u: bool)
    requires AllNonEmpty(a.waveList) && AllNonEmpty(b.waveList)
    requires UnitGrid(a.x) && UnitGrid(b.x) && |a.x| >= 2 && |b.x| >= 1 && |a.x| != |b.x|
    ensures AlignWith(a, b, u, u).Ok?
    ensures var r := AlignWith(a, b, u, u).value;
      |r.0.x| == |r.1.x| == |r.0.y| == |r.1.y| == (if |a.x| > |b.x| then |a.x| else |b.x|)
      && (|a.x| > |b.x| ==> r.0 == a) && (|b.x| > |a.x| ==> r.1 == b)
  {
    SamplesMatchAxis(a);
    SamplesMatchAxis(b);
    assert Dx(a.x) == 1;
    assert AlignWith(a, b, u, u) == PadShorter(a, b, u);
    assert a.x[|a.x| - 1] - a.x[0] == |a.x| - 1 && b.x[|b.x| - 1] - b.x[0] == |b.x| - 1;
    PadShorterSpan(a, b, u);
    if |b.x| < |a.x| {
      PadEqualizes(b, a, u);
    } else {
      PadEqualizes(a, b, u);
    }
  }
}
