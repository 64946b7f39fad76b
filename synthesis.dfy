// Waveform._synthesize in WaveModule.py: stitching an ordered list of waves into
// one (x, y) pair. Each junction is decided by the left wave's tail rule and the
// right wave's head rule.

module Synthesis {
  import opened Common
  import opened Comparables
  import opened Waves

  /** The loop state of the stitching: samples and axis so far, the running
      time offset (the last axis value) and the last wave that was joined. */
  datatype State = State(y: seq<real>, x: seq<int>, offset: int, previous: Option<Wave>)

  predicate Inv(s: State)
  {
    && |s.y| == |s.x|
    && (|s.x| == 0 <==> s.previous.None?)
    && (|s.x| > 0 ==> s.offset == s.x[|s.x| - 1] && |s.previous.value.x| > 0)
  }

  const Start := State([], [], 0, None)

  function Shift(xs: seq<int>, d: int): (r: seq<int>)
    ensures |r| == |xs| && forall i :: 0 <= i < |xs| ==> r[i] == xs[i] + d
  {
    seq(|xs|, i requires 0 <= i < |xs| => xs[i] + d)
  }

  /** One iteration of the loop: an empty wave is skipped, the first non-empty
      wave seeds the state, every later one is joined by its rules. */
  function Step(s: State, w: Wave): (r: State)
    requires Inv(s)
    ensures Inv(r)
  {
    if |w.x| == 0 then s
    else if |s.x| == 0 then State(w.y, w.x, w.x[|w.x| - 1], Some(w))
    else
      var left := s.previous.value.rule.tail;
      var right := w.rule.head;
      var n := |s.y|;
      var y' :=
        if left && !right then s.y + w.y[1..]
        else if right then s.y[..n - 1] + w.y
        else s.y[..n - 1] + [(s.y[n - 1] + w.y[0]) / 2.0] + w.y[1..];
      var x' :=
        if left && right then s.x[..n - 1] + Shift(w.x, s.offset)
        else s.x + Shift(w.x[1..], s.offset);
      State(y', x', x'[|x'| - 1], Some(w))
  }

  /** The state after the loop has consumed the whole list. */
  function Synth(ws: seq<Wave>): (r: State)
    ensures Inv(r)
  {
    if |ws| == 0 then Start else Step(Synth(ws[..|ws| - 1]), ws[|ws| - 1])
  }

  lemma SynthSnoc(ws: seq<Wave>, w: Wave)
    ensures Synth(ws + [w]) == Step(Synth(ws), w)
  {
    assert (ws + [w])[..|ws|] == ws;
  }

  /** The amplitude stored at a junction: the left's last sample when only the
      left is hard, the average when both are soft, else the right's first. */
  function Junction(leftTail: bool, rightHead: bool, last: real, first: real): real
  {
    if leftTail && !rightHead then last
    else if !leftTail && !rightHead then (last + first) / 2.0
    else first
  }

  /** Every join after the first non-empty wave replaces the last sample by the
      junction sample and appends the rest of the new wave: len(w) - 1 new samples. */
  lemma JoinForm(s: State, w: Wave)
    requires Inv(s) && |s.x| > 0 && |w.x| > 0
    ensures var r := Step(s, w);
      && r.y == s.y[..|s.y| - 1]
                + [Junction(s.previous.value.rule.tail, w.rule.head, s.y[|s.y| - 1], w.y[0])]
                + w.y[1..]
      && |r.x| == |s.x| + |w.x| - 1
      && r.previous == Some(w)
  {
    var n := |s.y|;
    var left := s.previous.value.rule.tail;
    var right := w.rule.head;
    if left && !right {
      assert s.y == s.y[..n - 1] + [s.y[n - 1]];
    } else if right {
      assert w.y == [w.y[0]] + w.y[1..];
    }
  }

  /** Sum of the sample counts and number of non-empty waves in a list. */
  function Total(ws: seq<Wave>): nat
  {
    if |ws| == 0 then 0 else Total(ws[..|ws| - 1]) + |ws[|ws| - 1].x|
  }

  function NonEmpty(ws: seq<Wave>): nat
  {
    if |ws| == 0 then 0 else NonEmpty(ws[..|ws| - 1]) + (if |ws[|ws| - 1].x| > 0 then 1 else 0)
  }

  /** The synthesized length: the sum of the k non-empty waves' lengths minus
      the k - 1 shared junction samples (0 when every wave is empty). */
  function SynthesizedLength(ws: seq<Wave>): nat
  {
    NonEmptyBound(ws);
    if NonEmpty(ws) == 0 then 0 else Total(ws) - NonEmpty(ws) + 1
  }

  lemma {:induction false} NonEmptyBound(ws: seq<Wave>)
    ensures NonEmpty(ws) <= Total(ws)
    ensures NonEmpty(ws) == 0 ==> Total(ws) == 0
  {
    if |ws| > 0 {
      NonEmptyBound(ws[..|ws| - 1]);
    }
  }

  lemma {:induction false} SynthLength(ws: seq<Wave>)
    ensures |Synth(ws).y| == |Synth(ws).x| == SynthesizedLength(ws)
  {
    if |ws| > 0 {
      var pre := ws[..|ws| - 1];
      var w := ws[|ws| - 1];
      SynthLength(pre);
      NonEmptyBound(pre);
      if |w.x| > 0 && |Synth(pre).x| > 0 {
        JoinForm(Synth(pre), w);
      }
    }
  }

  /** Empty waves are skipped: the wave remembered as `previous` is always the
      last non-empty one. */
  function LastNonEmpty(ws: seq<Wave>): Option<Wave>
  {
    if |ws| == 0 then None
    else if |ws[|ws| - 1].x| > 0 then Some(ws[|ws| - 1])
    else LastNonEmpty(ws[..|ws| - 1])
  }

  lemma {:induction false} PreviousIsLastNonEmpty(ws: seq<Wave>)
    ensures Synth(ws).previous == LastNonEmpty(ws)
  {
    if |ws| > 0 {
      PreviousIsLastNonEmpty(ws[..|ws| - 1]);
    }
  }

  lemma {:induction false} TotalAppend(a: seq<Wave>, b: seq<Wave>)
    ensures Total(a + b) == Total(a) + Total(b)
    ensures NonEmpty(a + b) == NonEmpty(a) + NonEmpty(b)
  {
    if |b| > 0 {
      assert (a + b)[..|a + b| - 1] == a + b[..|b| - 1];
      TotalAppend(a, b[..|b| - 1]);
    } else {
      assert a + b == a;
    }
  }

  /** Concatenating two lists that each hold a non-empty wave shares exactly one
      junction sample. */
  lemma ConcatSynthesizedLength(a: seq<Wave>, b: seq<Wave>)
    requires NonEmpty(a) > 0 && NonEmpty(b) > 0
    ensures NonEmpty(a + b) == NonEmpty(a) + NonEmpty(b)
    ensures SynthesizedLength(a + b) == SynthesizedLength(a) + SynthesizedLength(b) - 1
  {
    TotalAppend(a, b);
    NonEmptyBound(a);
    NonEmptyBound(b);
  }

  /** The same on the synthesized axis and samples. */
  lemma ConcatLength(a: seq<Wave>, b: seq<Wave>)
    requires NonEmpty(a) > 0 && NonEmpty(b) > 0
    ensures |Synth(a + b).x| == |Synth(a).x| + |Synth(b).x| - 1
    ensures |Synth(a + b).y| == |Synth(a + b).x|
  {
    SynthLength(a);
    SynthLength(b);
    SynthLength(a + b);
    ConcatSynthesizedLength(a, b);
  }

  /** The running offset keeps the axis contiguous: if every wave sits on the
      unit grid 0..n-1, so does the result. */
  lemma {:induction false} SynthUnitGrid(ws: seq<Wave>)
    requires forall i :: 0 <= i < |ws| ==> UnitGrid(ws[i].x)
    ensures UnitGrid(Synth(ws).x)
  {
    if |ws| > 0 {
      var pre := ws[..|ws| - 1];
      SynthUnitGrid(pre);
      StepUnitGrid(Synth(pre), ws[|ws| - 1]);
    }
  }

  /** One step keeps the axis on the unit grid. */
  lemma StepUnitGrid(s: State, w: Wave)
    requires Inv(s) && UnitGrid(s.x) && UnitGrid(w.x)
    ensures UnitGrid(Step(s, w).x)
  {
    var r := Step(s, w);
    if |w.x| > 0 && |s.x| > 0 {
      var n := |s.x|;
      assert s.offset == n - 1;
      if s.previous.value.rule.tail && w.rule.head {
        assert r.x == s.x[..n - 1] + Shift(w.x, n - 1);
        assert forall i :: 0 <= i < |r.x| ==> r.x[i] == (if i < n - 1 then s.x[i] else w.x[i - (n - 1)] + (n - 1));
      } else {
        assert r.x == s.x + Shift(w.x[1..], n - 1);
        assert forall i :: 0 <= i < |r.x| ==> r.x[i] == (if i < n then s.x[i] else w.x[i - n + 1] + (n - 1));
      }
    }
  }

  /** The body of the loop for a wave joined after the first non-empty one:
      `delEnd` is set to 1 exactly when both the left tail and the right head are hard. */
  method Join(y0: seq<real>, x0: seq<int>, offset: int, previous: Wave, w: Wave)
      returns (y: seq<real>, x: seq<int>)
    requires Inv(State(y0, x0, offset, Some(previous))) && |x0| > 0 && |w.x| > 0
    ensures y == Step(State(y0, x0, offset, Some(previous)), w).y
    ensures x == Step(State(y0, x0, offset, Some(previous)), w).x
  {
    ghost var r := Step(State(y0, x0, offset, Some(previous)), w);
    var n := |y0|;
    var delEnd := 0;
    var leftRule := previous.rule.tail;
    var rightRule := w.rule.head;
    if leftRule && rightRule {
      delEnd := 1;
    }
    if leftRule != rightRule {
      if leftRule {
        y := y0[..n - delEnd] + w.y[1..];
      } else {
        y := y0[..n - 1 - delEnd] + w.y;
      }
      x := x0[..n - delEnd] + Shift(w.x[1..], offset);
      assert x0[..n] == x0;
    } else if leftRule {
      y := y0[..n - delEnd] + w.y;
      x := x0[..n - delEnd] + Shift(w.x, offset);
    } else {
      y := y0[..n - 1 - delEnd] + [(y0[n - 1 - delEnd] + w.y[0]) / 2.0] + w.y[1..];
      x := x0[..n - delEnd] + Shift(w.x[1..], offset);
      assert x0[..n] == x0;
    }
  }

  /** The stitching loop itself. */
  method Synthesize(waveList: seq<Wave>) returns (y: seq<real>, x: seq<int>)
    ensures y == Synth(waveList).y && x == Synth(waveList).x
  {
    y, x := [], [];
    var offset := 0;
    var previous: Option<Wave> := None;
    var i := 0;
    while i < |waveList|
      invariant 0 <= i <= |waveList|
      invariant Synth(waveList[..i]) == State(y, x, offset, previous)
    {
      var w := waveList[i];
      ghost var before := State(y, x, offset, previous);
      SynthSnoc(waveList[..i], w);
      assert waveList[..i + 1] == waveList[..i] + [w];
      if |w.x| == 0 {
        i := i + 1;
        continue;
      }
      if |x| == 0 {
        y, x := w.y, w.x;
        offset := x[|x| - 1];
        previous := Some(w);
        i := i + 1;
        continue;
      }
      y, x := Join(y, x, offset, previous.value, w);
      assert Inv(Step(before, w));
      offset := x[|x| - 1];
      previous := Some(w);
      i := i + 1;
    }
    // `delEnd` is back to 0 after every iteration, so the final trim keeps everything.
    assert waveList[..i] == waveList;
  }

  /** Two soft 3-sample constants 1 and 2 join into [1, 1, 1.5, 2, 2]. */
  lemma SoftJunctionExample()
    ensures var a: Wave := WaveData([0, 1, 2], [1.0, 1.0, 1.0], "a", Rule(false, false));
            var b: Wave := WaveData([0, 1, 2], [2.0, 2.0, 2.0], "b", Rule(false, false));
            Synth([a, b]).y == [1.0, 1.0, 1.5, 2.0, 2.0] && Synth([a, b]).x == [0, 1, 2, 3, 4]
  {
    var a: Wave := WaveData([0, 1, 2], [1.0, 1.0, 1.0], "a", Rule(false, false));
    var b: Wave := WaveData([0, 1, 2], [2.0, 2.0, 2.0], "b", Rule(false, false));
    SynthSnoc([], a);
    SynthSnoc([a], b);
    var s := Synth([a]);
    assert s == State(a.y, a.x, 2, Some(a));
    assert Synth([a, b]) == Step(s, b);
    assert s.y[..2] == [1.0, 1.0] && b.y[1..] == [2.0, 2.0];
    assert Shift(b.x[1..], 2) == [3, 4];
  }

  /** With a hard tail meeting a hard head the left's last sample is dropped and
      the right wave is kept whole: 5 samples, not 6. */
  lemma HardJunctionExample()
    ensures var a: Wave := WaveData([0, 1, 2], [1.0, 1.0, 1.0], "a", Rule(false, true));
            var b: Wave := WaveData([0, 1, 2], [2.0, 2.0, 2.0], "b", Rule(true, false));
            Synth([a, b]).y == [1.0, 1.0, 2.0, 2.0, 2.0] && Synth([a, b]).x == [0, 1, 2, 3, 4]
  {
    var a: Wave := WaveData([0, 1, 2], [1.0, 1.0, 1.0], "a", Rule(false, true));
    var b: Wave := WaveData([0, 1, 2], [2.0, 2.0, 2.0], "b", Rule(true, false));
    SynthSnoc([], a);
    SynthSnoc([a], b);
    var s := Synth([a]);
    assert s == State(a.y, a.x, 2, Some(a));
    JoinForm(s, b);
    assert Synth([a, b]).y == [1.0, 1.0] + [2.0] + [2.0, 2.0];
    assert Shift(b.x, 2) == [2, 3, 4];
    assert Synth([a, b]).x == [0, 1] + [2, 3, 4];
  }
}
