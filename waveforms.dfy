// The `Waveform` of WaveModule.py on values: an ordered list of waves and a
// name; its x and y are the synthesis of the list. The stateful object that
// holds these values is `WaveformObjects.Waveform`.

module Waveforms {
  import opened Common
  import opened Comparables
  import opened Waves
  import opened Synthesis

  datatype WaveformData = WaveformData(waveList: seq<Wave>, name: string)

  /** len(waveform): the number of synthesized samples. */
  function Samples(f: WaveformData): nat { SynthesizedLength(f.waveList) }

  /** The synthesized axis. Synthesis always yields the unit grid of the
      synthesized length (XIsSynthesized), so it is written as that grid. */
  function X(f: WaveformData): (r: seq<int>)
    ensures UnitGrid(r) && |r| == Samples(f)
  {
    Grid(Samples(f))
  }

  /** The synthesized samples. */
  function Y(f: WaveformData): (r: seq<real>)
    ensures |r| == Samples(f)
  {
    SynthLength(f.waveList);
    Synth(f.waveList).y
  }

  lemma XIsSynthesized(f: WaveformData)
    ensures X(f) == Synth(f.waveList).x
  {
    SynthUnitGrid(f.waveList);
    SynthLength(f.waveList);
    var x := Synth(f.waveList).x;
    assert forall i :: 0 <= i < |x| ==> x[i] == X(f)[i];
  }

  /** A waveform has samples exactly when one of its waves does. */
  lemma SamplesPositive(f: WaveformData)
    ensures Samples(f) > 0 <==> NonEmpty(f.waveList) > 0
  {
    NonEmptyBound(f.waveList);
  }

  /** `~wave`: a waveform holding just that wave, named after it. */
  function FromWave(w: Wave): (r: WaveformData)
    ensures r.waveList == [w] && r.name == w.name
    ensures X(r) == w.x && Y(r) == w.y
  {
    SingleWave(w);
    XIsSynthesized(WaveformData([w], w.name));
    WaveformData([w], w.name)
  }

  /** appendRule: the first wave's head rule and the last wave's tail rule;
      an empty list raises IndexError. */
  function AppendRule(f: WaveformData): (r: Result<Rule>)
    ensures r.Fail? <==> |f.waveList| == 0
    ensures r.Fail? ==> r.error == IndexError
    ensures r.Ok? ==> r.value.head == f.waveList[0].rule.head
    ensures r.Ok? ==> r.value.tail == f.waveList[|f.waveList| - 1].rule.tail
  {
    if |f.waveList| == 0 then Fail(IndexError)
    else Ok(Rule(f.waveList[0].rule.head, f.waveList[|f.waveList| - 1].rule.tail))
  }

  /** The waveList setter: an empty list raises ValueError, anything else
      replaces the list (and so the synthesized samples). */
  function SetWaveList(f: WaveformData, list: seq<Wave>): (r: Result<WaveformData>)
    ensures r.Fail? <==> list == []
    ensures r.Fail? ==> r.error == ValueError
    ensures r.Ok? ==> r.value.waveList == list && r.value.name == f.name
  {
    if list == [] then Fail(ValueError) else Ok(WaveformData(list, f.name))
  }

  /** `[ref[i] for i in order]` with Python indexing; None is an IndexError. */
  function Pick(list: seq<Wave>, order: seq<int>): (r: Option<seq<Wave>>)
    ensures r.Some? <==> forall j :: 0 <= j < |order| ==> PyIndex(order[j], |list|).Some?
    ensures r.Some? ==> |r.value| == |order|
    ensures r.Some? ==> forall j :: 0 <= j < |order| ==> r.value[j] == list[PyIndex(order[j], |list|).value]
  {
    if |order| == 0 then Some([])
    else
      match Pick(list, order[..|order| - 1])
      case None => None
      case Some(front) =>
        match PyIndex(order[|order| - 1], |list|)
        case None => None
        case Some(p) => Some(front + [list[p]])
  }

  function Permute(f: WaveformData, order: seq<int>): (r: Result<WaveformData>)
  {
    match Pick(f.waveList, order)
    case None => Fail(IndexError)
    case Some(list) => SetWaveList(f, list)
  }

  /** Permuting by 0..n-1 keeps the list. */
  lemma PermuteIdentity(f: WaveformData)
    requires |f.waveList| > 0
    ensures Permute(f, Range(|f.waveList|)) == Ok(f)
  {
    var p := Pick(f.waveList, Range(|f.waveList|));
    assert p.value == f.waveList;
  }

  /** A successful permute holds, at each position j, the wave the order names,
      and fails with IndexError exactly when an index is out of range. */
  lemma PermuteResult(f: WaveformData, order: seq<int>)
    ensures Permute(f, order).Fail? && Permute(f, order).error == IndexError
            <==> exists j :: 0 <= j < |order| && PyIndex(order[j], |f.waveList|).None?
    ensures Permute(f, order).Ok? ==>
              |Permute(f, order).value.waveList| == |order| > 0
              && forall j :: 0 <= j < |order| ==>
                   Permute(f, order).value.waveList[j] == f.waveList[PyIndex(order[j], |f.waveList|).value]
  {
  }

  /** The waves whose positions are not listed, in their original order. */
  function Kept(list: seq<Wave>, indices: seq<int>): (r: seq<Wave>)
    ensures |r| <= |list|
    ensures forall w :: w in r ==> w in list
  {
    if |list| == 0 then []
    else Kept(list[..|list| - 1], indices) + (if |list| - 1 in indices then [] else [list[|list| - 1]])
  }

  function Remove(f: WaveformData, indices: seq<int>): (r: Result<WaveformData>)
  {
    SetWaveList(f, Kept(f.waveList, indices))
  }

  lemma {:induction false} KeptNone(list: seq<Wave>, indices: seq<int>)
    requires forall i :: i in indices ==> !(0 <= i < |list|)
    ensures Kept(list, indices) == list
  {
    if |list| > 0 {
      KeptNone(list[..|list| - 1], indices);
    }
  }

  lemma {:induction false} KeptAll(list: seq<Wave>, n: nat)
    requires |list| <= n
    ensures Kept(list, Range(n)) == []
  {
    if |list| > 0 {
      assert Range(n)[|list| - 1] == |list| - 1;
      KeptAll(list[..|list| - 1], n);
    }
  }

  lemma {:induction false} KeptOne(list: seq<Wave>, i: nat)
    requires i < |list|
    ensures Kept(list, [i]) == list[..i] + list[i + 1..]
  {
    if |list| - 1 == i {
      KeptNone(list[..i], [i]);
      assert list[..|list| - 1] == list[..i];
    } else {
      KeptOne(list[..|list| - 1], i);
      assert list[..|list| - 1][..i] == list[..i];
      assert list[..|list| - 1][i + 1..] + [list[|list| - 1]] == list[i + 1..];
    }
  }

  /** Removing every position empties the list, which the setter refuses. */
  lemma RemoveAllFails(f: WaveformData)
    ensures Remove(f, Range(|f.waveList|)) == Fail(ValueError)
  {
    KeptAll(f.waveList, |f.waveList|);
  }

  /** Removing one valid position drops exactly that wave. */
  lemma RemoveOne(f: WaveformData, i: nat)
    requires i < |f.waveList| && |f.waveList| > 1
    ensures Remove(f, [i]) == Ok(WaveformData(f.waveList[..i] + f.waveList[i + 1..], f.name))
  {
    KeptOne(f.waveList, i);
  }

  /** When more waves than indices are given, the indices become
      indices[0], indices[0] + 1, ...; with no index at all that is an IndexError. */
  function ExpandIndices(indices: seq<int>, count: nat): (r: Result<seq<int>>)
    ensures r.Fail? <==> count > |indices| == 0
    ensures r.Ok? ==> |r.value| >= count
    ensures r.Ok? && count > |indices| ==> forall k :: 0 <= k < |r.value| ==> r.value[k] == indices[0] + k
    ensures r.Ok? && count <= |indices| ==> r.value == indices
  {
    if count > |indices| then
      if |indices| == 0 then Fail(IndexError)
      else Ok(seq(count, k requires 0 <= k < count => indices[0] + k))
    else Ok(indices)
  }

  /** `list.insert(index, wave)` for each zipped pair, in order. */
  function InsertAll(list: seq<Wave>, indices: seq<int>, waves: seq<Wave>): (r: seq<Wave>)
    ensures |r| == |list| + (if |indices| < |waves| then |indices| else |waves|)
    decreases |waves|
  {
    if |indices| == 0 || |waves| == 0 then list
    else InsertAll(ListInsert(list, indices[0], waves[0]), indices[1..], waves[1..])
  }

  /** The insertion loop's step: from pair i on, pair i goes in first. */
  lemma InsertAllFrom(list: seq<Wave>, indices: seq<int>, waves: seq<Wave>, i: nat)
    requires i < |indices| && i < |waves|
    ensures InsertAll(list, indices[i..], waves[i..])
      == InsertAll(ListInsert(list, indices[i], waves[i]), indices[i + 1..], waves[i + 1..])
  {
    assert indices[i..][1..] == indices[i + 1..] && waves[i..][1..] == waves[i + 1..];
  }

  function Insert(f: WaveformData, indices: seq<int>, waves: seq<Wave>): (r: Result<WaveformData>)
  {
    match ExpandIndices(indices, |waves|)
    case Fail(e) => Fail(e)
    case Ok(idx) => SetWaveList(f, InsertAll(f.waveList, idx, waves))
  }

  /** Inserting one wave at a position within the list puts it there. */
  lemma InsertOne(f: WaveformData, i: nat, w: Wave)
    requires i <= |f.waveList|
    ensures Insert(f, [i], [w]) == Ok(WaveformData(f.waveList[..i] + [w] + f.waveList[i..], f.name))
  {
    assert ExpandIndices([i], 1) == Ok([i]);
    var l := ListInsert(f.waveList, i, w);
    assert InsertAll(f.waveList, [i], [w]) == InsertAll(l, [], []);
    assert l == f.waveList[..i] + [w] + f.waveList[i..];
  }

  /** Insert then remove at the same position gives the waveform back. */
  lemma InsertThenRemove(f: WaveformData, i: nat, w: Wave)
    requires i <= |f.waveList| && |f.waveList| > 0
    ensures Insert(f, [i], [w]).Ok?
    ensures Remove(Insert(f, [i], [w]).value, [i]) == Ok(f)
  {
    InsertOne(f, i, w);
    var l := f.waveList[..i] + [w] + f.waveList[i..];
    KeptOne(l, i);
    assert l[..i] + l[i + 1..] == f.waveList;
  }

  /** `list[index] = wave` for each zipped pair, appending when the index is out
      of range. */
  function ReplaceAll(list: seq<Wave>, indices: seq<int>, waves: seq<Wave>): (r: seq<Wave>)
    ensures |r| >= |list|
    decreases |waves|
  {
    if |indices| == 0 || |waves| == 0 then list
    else
      var next := match PyIndex(indices[0], |list|)
        case Some(p) => list[p := waves[0]]
        case None => list + [waves[0]];
      ReplaceAll(next, indices[1..], waves[1..])
  }

  /** The replacement loop's step: from pair i on, pair i is written first. */
  lemma ReplaceAllFrom(list: seq<Wave>, indices: seq<int>, waves: seq<Wave>, i: nat)
    requires i < |indices| && i < |waves|
    ensures var next := match PyIndex(indices[i], |list|)
        case Some(p) => list[p := waves[i]]
        case None => list + [waves[i]];
      ReplaceAll(list, indices[i..], waves[i..]) == ReplaceAll(next, indices[i + 1..], waves[i + 1..])
  {
    assert indices[i..][1..] == indices[i + 1..] && waves[i..][1..] == waves[i + 1..];
  }

  function Replace(f: WaveformData, indices: seq<int>, waves: seq<Wave>): (r: Result<WaveformData>)
  {
    match ExpandIndices(indices, |waves|)
    case Fail(e) => Fail(e)
    case Ok(idx) => SetWaveList(f, ReplaceAll(f.waveList, idx, waves))
  }

  /** Replacing one in-range position changes only that wave; an out-of-range
      position appends the wave instead. */
  lemma ReplaceOne(f: WaveformData, i: int, w: Wave)
    ensures PyIndex(i, |f.waveList|).Some? ==>
      Replace(f, [i], [w]) == Ok(WaveformData(f.waveList[PyIndex(i, |f.waveList|).value := w], f.name))
    ensures PyIndex(i, |f.waveList|).None? ==>
      Replace(f, [i], [w]) == Ok(WaveformData(f.waveList + [w], f.name))
  {
    assert ExpandIndices([i], 1) == Ok([i]);
    var next := match PyIndex(i, |f.waveList|)
      case Some(p) => f.waveList[p := w]
      case None => f.waveList + [w];
    assert ReplaceAll(f.waveList, [i], [w]) == ReplaceAll(next, [], []);
  }

  /** What `+` accepts on its right: a waveform, a wave or a list of waves;
      anything else raises TypeError. */
  datatype Operand = OfWaveform(WaveformData) | OfWave(Wave) | OfList(seq<Wave>) | Unsupported

  function WaveListOf(o: Operand): (r: Result<seq<Wave>>)
    ensures r.Fail? <==> o.Unsupported?
    ensures r.Fail? ==> r.error == TypeError
  {
    match o
    case OfWaveform(g) => Ok(g.waveList)
    case OfWave(w) => Ok([w])
    case OfList(l) => Ok(l)
    case Unsupported => Fail(TypeError)
  }

  /** `f + other`: a new unnamed waveform over the two lists concatenated. */
  function Plus(f: WaveformData, o: Operand): (r: Result<WaveformData>)
    ensures r.Fail? <==> o.Unsupported?
    ensures r.Ok? ==> r.value.name == "" && r.value.waveList == f.waveList + WaveListOf(o).value
  {
    match WaveListOf(o)
    case Fail(e) => Fail(e)
    case Ok(l) => Ok(WaveformData(f.waveList + l, ""))
  }

  /** Two non-empty waveforms concatenate into one sample fewer than their sum,
      with the first one's head rule and the second one's tail rule. */
  lemma PlusWaveform(f: WaveformData, g: WaveformData)
    requires Samples(f) > 0 && Samples(g) > 0
    ensures Plus(f, OfWaveform(g)).Ok?
    ensures Samples(Plus(f, OfWaveform(g)).value) == Samples(f) + Samples(g) - 1
    ensures AppendRule(Plus(f, OfWaveform(g)).value)
            == Ok(Rule(AppendRule(f).value.head, AppendRule(g).value.tail))
  {
    SamplesPositive(f);
    SamplesPositive(g);
    ConcatSynthesizedLength(f.waveList, g.waveList);
  }

  /** `f * n`: the list repeated n times (empty for n <= 0), unnamed. */
  function Times(f: WaveformData, n: int): (r: WaveformData)
    ensures r.waveList == Repeat(f.waveList, n) && r.name == ""
  {
    WaveformData(Repeat(f.waveList, n), "")
  }

  /** One more copy in front adds the copy's samples minus the shared one. */
  lemma RepeatStep(l: seq<Wave>, rest: seq<Wave>, n: int)
    requires NonEmpty(l) > 0 && NonEmpty(rest) > 0 && n >= 2
    requires SynthesizedLength(rest) == (n - 1) * (SynthesizedLength(l) - 1) + 1
    ensures NonEmpty(l + rest) > 0
    ensures SynthesizedLength(l + rest) == n * (SynthesizedLength(l) - 1) + 1
  {
    ConcatSynthesizedLength(l, rest);
  }

  lemma {:induction false} RepeatLength(l: seq<Wave>, n: nat)
    requires NonEmpty(l) > 0 && n >= 1
    ensures NonEmpty(Repeat(l, n)) > 0
    ensures SynthesizedLength(Repeat(l, n)) == n * (SynthesizedLength(l) - 1) + 1
  {
    if n > 1 {
      var rest := Repeat(l, n - 1);
      RepeatLength(l, n - 1);
      assert Repeat(l, n) == l + rest;
      RepeatStep(l, rest, n);
    } else {
      assert Repeat(l, 1) == l;
    }
  }

  /** Repeating a non-empty waveform n times shares n - 1 junction samples. */
  lemma TimesSamples(f: WaveformData, n: nat)
    requires Samples(f) > 0 && n >= 1
    ensures Samples(Times(f, n)) == n * (Samples(f) - 1) + 1
  {
    SamplesPositive(f);
    RepeatLength(f.waveList, n);
  }

  /** A null block of the given span at the given rate: span * rate + 1 zero
      samples (rate 0 gives the single sample of a one-point axis). */
  function NullBlock(span: nat, rate: nat, rule: Rule): (r: Wave)
    ensures |r.x| == span * rate + 1 && r.rule == rule
    ensures forall i :: 0 <= i < |r.y| ==> r.y[i] == 0.0
  {
    var n := span * rate + 1;
    WaveData(Grid(n), seq(n, i => 0.0), "null", rule)
  }

  /** A wave of n samples, all zero. */
  predicate IsNullBlock(w: Wave, n: nat)
  {
    |w.x| == n && |w.y| == n && forall i :: 0 <= i < n ==> w.y[i] == 0.0
  }

  /** The sampling rate of a unit-grid waveform: 1, or 0 below two samples. */
  function Rate(f: WaveformData): (r: nat)
    ensures r == (if Samples(f) >= 2 then 1 else 0)
  {
    if |X(f)| == 0 then 0
    else
      UnitGridSpan(X(f));
      Period(X(f))
  }

  function AbsInt(v: int): nat { if v < 0 then -v else v }

  /** `offset(o)`: unchanged when |o| < dx; otherwise a new unnamed waveform
      with a null block of span |o| in front (o > 0; the block takes the head
      rule and has a soft tail) or behind (o <= 0; soft head, the tail rule).
      Only an empty wave list fails, reading its append rule. */
  function Offset(f: WaveformData, o: int): (r: Result<WaveformData>)
    ensures AbsInt(o) < Dx(X(f)) ==> r == Ok(f)
    ensures r.Fail? <==> |f.waveList| == 0
    ensures r.Fail? ==> r.error == IndexError
    ensures r.Ok? && AbsInt(o) >= Dx(X(f)) ==> r.value.name == "" && |r.value.waveList| == |f.waveList| + 1
    ensures r.Ok? && AbsInt(o) >= Dx(X(f)) && o > 0 ==>
      r.value.waveList[1..] == f.waveList && IsNullBlock(r.value.waveList[0], AbsInt(o) * Rate(f) + 1)
      && r.value.waveList[0].rule == Rule(AppendRule(f).value.head, false)
    ensures r.Ok? && AbsInt(o) >= Dx(X(f)) && o <= 0 ==>
      r.value.waveList[..|f.waveList|] == f.waveList && IsNullBlock(r.value.waveList[|f.waveList|], AbsInt(o) * Rate(f) + 1)
      && r.value.waveList[|f.waveList|].rule == Rule(false, AppendRule(f).value.tail)
  {
    if AbsInt(o) < Dx(X(f)) then Ok(f)
    else
      match AppendRule(f)
      case Fail(e) => Fail(e)
      case Ok(rule) =>
        if o > 0 then Ok(WaveformData([NullBlock(AbsInt(o), Rate(f), Rule(rule.head, false))] + f.waveList, ""))
        else Ok(WaveformData(f.waveList + [NullBlock(AbsInt(o), Rate(f), Rule(false, rule.tail))], ""))
  }

  /** A list holding one wave synthesizes to that wave. */
  lemma SingleWave(w: Wave)
    ensures NonEmpty([w]) == (if |w.x| > 0 then 1 else 0)
    ensures SynthesizedLength([w]) == |w.x|
    ensures Synth([w]).x == w.x && Synth([w]).y == w.y
  {
    assert [w][..0] == [];
    SynthSnoc([], w);
    SynthLength([w]);
  }

  /** On a waveform of at least two samples an offset of o != 0 adds |o| samples
      and keeps the outer rule on the side away from the new block. */
  lemma OffsetSamples(f: WaveformData, o: int)
    requires Samples(f) >= 2 && o != 0
    ensures Offset(f, o).Ok?
    ensures Samples(Offset(f, o).value) == Samples(f) + AbsInt(o)
    ensures o > 0 ==> AppendRule(Offset(f, o).value).value.tail == AppendRule(f).value.tail
    ensures o < 0 ==> AppendRule(Offset(f, o).value).value.head == AppendRule(f).value.head
  {
    SamplesPositive(f);
    UnitGridSpan(X(f));
    var r := AppendRule(f).value;
    assert Rate(f) == 1;
    var nb := NullBlock(AbsInt(o), 1, if o > 0 then Rule(r.head, false) else Rule(false, r.tail));
    SingleWave(nb);
    if o > 0 {
      ConcatSynthesizedLength([nb], f.waveList);
      assert Offset(f, o).value.waveList == [nb] + f.waveList;
    } else {
      ConcatSynthesizedLength(f.waveList, [nb]);
      assert Offset(f, o).value.waveList == f.waveList + [nb];
    }
  }

  /** An offset smaller than one sample period leaves the waveform as it is. */
  lemma OffsetBelowPeriod(f: WaveformData)
    requires Samples(f) >= 2
    ensures Offset(f, 0) == Ok(f)
  {
    UnitGridSpan(X(f));
  }

  /** `fill_total_point(total)` as written: when the waveform is short of total
      samples by k > 0, it is shifted left by (k + 1) sample periods, i.e. a null
      block of that span is appended. */
  function FillTotalPointAsWritten(f: WaveformData, total: int): (r: Result<WaveformData>)
    ensures total <= Samples(f) ==> r == Ok(f)
  {
    var add := total - Samples(f);
    if add <= 0 then Ok(f) else Offset(f, -((add + 1) * Dx(X(f))))
  }

  /** As written, filling a waveform of n >= 2 samples up to total > n samples
      ends one sample past total: 2 samples filled to 3 give 4. */
  lemma FillTotalPointOvershoots(f: WaveformData, total: int)
    requires Samples(f) >= 2 && total > Samples(f)
    ensures FillTotalPointAsWritten(f, total).Ok?
    ensures Samples(FillTotalPointAsWritten(f, total).value) == total + 1
  {
    UnitGridSpan(X(f));
    OffsetSamples(f, -(total - Samples(f) + 1));
  }

  /** The evidently intended fill: a null block of k sample periods, which adds
      exactly the k missing samples. */
  function FillTotalPoint(f: WaveformData, total: int): (r: Result<WaveformData>)
    ensures total <= Samples(f) ==> r == Ok(f)
  {
    var add := total - Samples(f);
    if add <= 0 then Ok(f) else Offset(f, -(add * Dx(X(f))))
  }

  /** The corrected fill reaches exactly total samples and keeps the head rule. */
  lemma FillTotalPointReaches(f: WaveformData, total: int)
    requires Samples(f) >= 2 && total > Samples(f)
    ensures FillTotalPoint(f, total).Ok?
    ensures Samples(FillTotalPoint(f, total).value) == total
    ensures AppendRule(FillTotalPoint(f, total).value).value.head == AppendRule(f).value.head
  {
    UnitGridSpan(X(f));
    OffsetSamples(f, -(total - Samples(f)));
  }

  /** The span of a waveform's synthesized axis; an empty one raises IndexError. */
  function WaveformSpan(f: WaveformData, rule: SpanRule): (r: Result<nat>)
    ensures r.Fail? <==> Samples(f) == 0
    ensures r.Fail? ==> r.error == IndexError
    ensures r.Ok? && rule == Endpoints ==> r.value == Samples(f) - 1
    ensures r.Ok? && rule == WithDx ==> r.value == (if Samples(f) >= 2 then Samples(f) else 0)
  {
    var x := X(f);
    if |x| == 0 then Fail(IndexError)
    else
      UnitGridSpan(x);
      Ok(Span(x, rule).value)
  }

  /** f' is f under its own name with one more wave: f's waves in order and a
      null block of n samples after them (atTail) or before them. */
  predicate PaddedBy(f': WaveformData, f: WaveformData, n: nat, atTail: bool)
  {
    && f'.name == f.name && |f'.waveList| == |f.waveList| + 1
    && (atTail ==> f'.waveList[..|f.waveList|] == f.waveList && IsNullBlock(f'.waveList[|f.waveList|], n))
    && (!atTail ==> f'.waveList[1..] == f.waveList && IsNullBlock(f'.waveList[0], n))
  }

  /** The span of a waveform, 0 for an empty one (whose alignment fails). */
  function SpanOrZero(f: WaveformData, rule: SpanRule): nat
  {
    if WaveformSpan(f, rule).Ok? then WaveformSpan(f, rule).value else 0
  }

  /** The span difference alignwith pads the shorter of two waveforms by. */
  function SpanGapOf(a: WaveformData, b: WaveformData, rule: SpanRule): nat
  {
    AbsInt(SpanOrZero(a, rule) - SpanOrZero(b, rule))
  }

  /** `a.alignwith(b, use_1st_head, align_2nd_head)` on values, giving the new
      (a, b). Equal sample counts change nothing. With differing flags both get
      a null block as long as the other: b's before a and a's after b
      (use_1st_head), or the reverse. With equal flags only the shorter one is
      padded by the span difference, at its tail (use_1st_head) or its head. */
  function AlignPair(a: WaveformData, b: WaveformData, use1stHead: bool, align2ndHead: bool, rule: SpanRule)
    : (r: Result<(WaveformData, WaveformData)>)
    ensures Samples(a) == Samples(b) ==> r == Ok((a, b))
    ensures r.Ok? ==> r.value.0.name == a.name && r.value.1.name == b.name
    ensures r.Ok? && use1stHead == align2ndHead && Samples(a) > Samples(b) ==>
      r.value.0 == a && PaddedBy(r.value.1, b, SpanGapOf(a, b, rule) * Rate(a) + 1, use1stHead)
    ensures r.Ok? && use1stHead == align2ndHead && Samples(a) < Samples(b) ==>
      PaddedBy(r.value.0, a, SpanGapOf(a, b, rule) * Rate(a) + 1, use1stHead) && r.value.1 == b
    ensures r.Ok? && use1stHead != align2ndHead && Samples(a) != Samples(b) ==>
      && PaddedBy(r.value.0, a, SpanOrZero(b, rule) * Rate(a) + 1, !use1stHead)
      && PaddedBy(r.value.1, b, SpanOrZero(a, rule) * Rate(a) + 1, use1stHead)
    ensures r.Fail? <==> Samples(a) != Samples(b) && (Samples(a) == 0 || Samples(b) == 0)
    ensures r.Fail? ==> r.error == IndexError
  {
    if use1stHead == align2ndHead then AlignShorter(a, b, use1stHead, rule)
    else if Samples(a) == Samples(b) then Ok((a, b))
    else PadEach(a, b, use1stHead, rule)
  }

  /** alignwith with equal flags (both True by default): only the shorter side
      is padded, and nothing changes when the lengths agree. */
  function AlignShorter(a: WaveformData, b: WaveformData, use1stHead: bool, rule: SpanRule)
    : (r: Result<(WaveformData, WaveformData)>)
    ensures r.Ok? ==> r.value.0.name == a.name && r.value.1.name == b.name
    ensures r.Ok? && Samples(a) > Samples(b) ==>
      r.value.0 == a && PaddedBy(r.value.1, b, SpanGapOf(a, b, rule) * Rate(a) + 1, use1stHead)
    ensures r.Ok? && Samples(a) < Samples(b) ==>
      PaddedBy(r.value.0, a, SpanGapOf(a, b, rule) * Rate(a) + 1, use1stHead) && r.value.1 == b
    ensures r.Fail? <==> Samples(a) != Samples(b) && (Samples(a) == 0 || Samples(b) == 0)
    ensures r.Fail? ==> r.error == IndexError
  {
    if Samples(a) == Samples(b) then Ok((a, b))
    else PadShorter(a, b, use1stHead, rule)
  }

  /** The differing-flags branch of alignwith (both sides padded). */
  function PadEach(a: WaveformData, b: WaveformData, use1stHead: bool, rule: SpanRule)
    : (r: Result<(WaveformData, WaveformData)>)
    ensures r.Fail? <==> Samples(a) == 0 || Samples(b) == 0
    ensures r.Fail? ==> r.error == IndexError
    ensures r.Ok? ==> PaddedBy(r.value.0, a, SpanOrZero(b, rule) * Rate(a) + 1, !use1stHead)
    ensures r.Ok? ==> PaddedBy(r.value.1, b, SpanOrZero(a, rule) * Rate(a) + 1, use1stHead)
  {
    if WaveformSpan(a, rule).Fail? || AppendRule(a).Fail? || WaveformSpan(b, rule).Fail? || AppendRule(b).Fail? then
      Fail(IndexError)
    else
      var blockA := NullBlock(WaveformSpan(a, rule).value, Rate(a), AppendRule(a).value);
      var blockB := NullBlock(WaveformSpan(b, rule).value, Rate(a), AppendRule(b).value);
      if use1stHead then
        Ok((WaveformData([blockB] + a.waveList, a.name), WaveformData(b.waveList + [blockA], b.name)))
      else
        Ok((WaveformData(a.waveList + [blockB], a.name), WaveformData([blockA] + b.waveList, b.name)))
  }

  /** The equal-flags branch of alignwith (only the shorter side padded). */
  function PadShorter(a: WaveformData, b: WaveformData, use1stHead: bool, rule: SpanRule)
    : (r: Result<(WaveformData, WaveformData)>)
  {
    if WaveformSpan(a, rule).Fail? || WaveformSpan(b, rule).Fail? then Fail(IndexError)
    else
      var aLonger := Samples(a) > Samples(b);
      var longer := if aLonger then a else b;
      var shorter := if aLonger then b else a;
      var padded := PadWith(shorter, AbsInt(WaveformSpan(a, rule).value - WaveformSpan(b, rule).value), Rate(a), AppendRule(longer), use1stHead);
      if aLonger then Ok((a, padded)) else Ok((padded, b))
  }

  /** The shorter waveform with a null block of the span difference added at its
      tail (hard head, the longer's tail rule) or at its head (the longer's head
      rule, hard tail). */
  function PadWith(shorter: WaveformData, span: nat, rate: nat, longerRule: Result<Rule>, atTail: bool): (r: WaveformData)
    ensures PaddedBy(r, shorter, span * rate + 1, atTail)
  {
    var lr := if longerRule.Ok? then longerRule.value else Rule(false, false);
    if atTail then WaveformData(shorter.waveList + [NullBlock(span, rate, Rule(true, lr.tail))], shorter.name)
    else WaveformData([NullBlock(span, rate, Rule(lr.head, true))] + shorter.waveList, shorter.name)
  }

  lemma PadTail(f: WaveformData, nb: Wave, name: string)
    requires Samples(f) > 0 && |nb.x| > 0
    ensures Samples(WaveformData(f.waveList + [nb], name)) == Samples(f) + |nb.x| - 1
  {
    SamplesPositive(f);
    SingleWave(nb);
    ConcatSynthesizedLength(f.waveList, [nb]);
  }

  lemma PadHead(f: WaveformData, nb: Wave, name: string)
    requires Samples(f) > 0 && |nb.x| > 0
    ensures Samples(WaveformData([nb] + f.waveList, name)) == Samples(f) + |nb.x| - 1
  {
    SamplesPositive(f);
    SingleWave(nb);
    ConcatSynthesizedLength([nb], f.waveList);
  }

  /** `<<=` (use_1st_head) only ever adds waves after the ones each side had. */
  lemma AlignShorterExtends(a: WaveformData, b: WaveformData, rule: SpanRule)
    ensures var r := AlignShorter(a, b, true, rule);
      r.Ok? ==> a.waveList <= r.value.0.waveList && b.waveList <= r.value.1.waveList
  {
  }

  /** Equal sample counts: alignwith is a no-op. */
  lemma AlignPairEqual(a: WaveformData, b: WaveformData, u: bool, v: bool, rule: SpanRule)
    requires Samples(a) == Samples(b)
    ensures AlignPair(a, b, u, v, rule) == Ok((a, b))
  {
  }

  lemma AlignPairDiffering(a: WaveformData, b: WaveformData, u: bool, rule: SpanRule)
    requires Samples(a) >= 2 && Samples(b) >= (if rule == WithDx then 2 else 1)
    requires Samples(a) != Samples(b)
    ensures AlignPair(a, b, u, !u, rule).Ok?
    ensures var (a', b') := AlignPair(a, b, u, !u, rule).value;
      && a'.name == a.name && b'.name == b.name
      && Samples(a') == Samples(b') == Samples(a) + Samples(b) - (if rule == Endpoints then 1 else 0)
  {
    assert Rate(a) == 1;
    var sa := WaveformSpan(a, rule).value;
    var sb := WaveformSpan(b, rule).value;
    var blockA := NullBlock(sa, 1, AppendRule(a).value);
    var blockB := NullBlock(sb, 1, AppendRule(b).value);
    if u {
      assert AlignPair(a, b, u, !u, rule)
        == Ok((WaveformData([blockB] + a.waveList, a.name), WaveformData(b.waveList + [blockA], b.name)));
      PadHead(a, blockB, a.name);
      PadTail(b, blockA, b.name);
    } else {
      assert AlignPair(a, b, u, !u, rule)
        == Ok((WaveformData(a.waveList + [blockB], a.name), WaveformData([blockA] + b.waveList, b.name)));
      PadTail(a, blockB, a.name);
      PadHead(b, blockA, b.name);
    }
  }

  /** The span difference of two waveforms is their sample-count difference
      (under the top-level rule only when both have two samples). */
  lemma SpanGap(a: WaveformData, b: WaveformData, rule: SpanRule)
    requires Samples(a) >= 1 && Samples(b) >= 1
    requires rule == WithDx ==> Samples(a) >= 2 && Samples(b) >= 2
    ensures AbsInt(WaveformSpan(a, rule).value - WaveformSpan(b, rule).value) == AbsInt(Samples(a) - Samples(b))
  {
  }

  lemma PadWithSamples(shorter: WaveformData, span: nat, longerRule: Result<Rule>, atTail: bool)
    requires Samples(shorter) > 0
    ensures Samples(PadWith(shorter, span, 1, longerRule, atTail)) == Samples(shorter) + span
  {
    var lr := if longerRule.Ok? then longerRule.value else Rule(false, false);
    if atTail {
      PadTail(shorter, NullBlock(span, 1, Rule(true, lr.tail)), shorter.name);
    } else {
      PadHead(shorter, NullBlock(span, 1, Rule(lr.head, true)), shorter.name);
    }
  }

  lemma AlignPairSame(a: WaveformData, b: WaveformData, u: bool, rule: SpanRule)
    requires Samples(a) >= 2 && Samples(b) >= (if rule == WithDx then 2 else 1)
    requires Samples(a) != Samples(b)
    ensures AlignPair(a, b, u, u, rule).Ok?
    ensures AlignPair(a, b, u, u, rule).value.0.name == a.name
    ensures AlignPair(a, b, u, u, rule).value.1.name == b.name
    ensures Samples(AlignPair(a, b, u, u, rule).value.0) == Samples(AlignPair(a, b, u, u, rule).value.1)
    ensures Samples(AlignPair(a, b, u, u, rule).value.0) == (if Samples(a) > Samples(b) then Samples(a) else Samples(b))
    ensures Samples(a) > Samples(b) ==> AlignPair(a, b, u, u, rule).value.0 == a
    ensures Samples(a) < Samples(b) ==> AlignPair(a, b, u, u, rule).value.1 == b
  {
    assert Rate(a) == 1;
    SpanGap(a, b, rule);
    var gap := AbsInt(WaveformSpan(a, rule).value - WaveformSpan(b, rule).value);
    assert AlignPair(a, b, u, u, rule) == PadShorter(a, b, u, rule);
    if Samples(a) > Samples(b) {
      var padded := PadWith(b, gap, 1, AppendRule(a), u);
      assert PadShorter(a, b, u, rule) == Ok((a, padded));
      PadWithSamples(b, gap, AppendRule(a), u);
    } else {
      var padded := PadWith(a, gap, 1, AppendRule(b), u);
      assert PadShorter(a, b, u, rule) == Ok((padded, b));
      PadWithSamples(a, gap, AppendRule(b), u);
    }
  }

  /** When the waveform aligned from has at least two samples (so its rate is 1)
      and the other is non-empty, alignwith leaves both with the same number of
      samples, provided the other has two samples too under the top-level span
      rule. With equal flags only the shorter one changes and ends as long as
      the longer; with differing flags both change and end at the sum of the two
      lengths (top-level rule) or one less (package rule). Names are kept. */
  lemma AlignPairEqualizes(a: WaveformData, b: WaveformData, u: bool, v: bool, rule: SpanRule)
    requires Samples(a) >= 2 && Samples(b) >= (if rule == WithDx then 2 else 1)
    ensures AlignPair(a, b, u, v, rule).Ok?
    ensures var (a', b') := AlignPair(a, b, u, v, rule).value;
      && Samples(a') == Samples(b')
      && a'.name == a.name && b'.name == b.name
  {
    if Samples(a) == Samples(b) {
    } else if u == v {
      AlignPairSame(a, b, u, rule);
    } else {
      AlignPairDiffering(a, b, u, rule);
    }
  }

  /** Under the top-level span rule a one-sample waveform has span 0, so aligning
      a 3-sample waveform with it pads it to 4 samples, not 3. */
  lemma AlignPairOneSampleWithDx(a: WaveformData, b: WaveformData)
    requires Samples(a) == 3 && Samples(b) == 1
    ensures AlignPair(a, b, true, true, WithDx).Ok?
    ensures Samples(AlignPair(a, b, true, true, WithDx).value.1) == 4
    ensures Samples(AlignPair(a, b, true, true, Endpoints).value.1) == 3
  {
    assert Rate(a) == 1;
    var lr := AppendRule(a).value;
    PadTail(b, NullBlock(3, 1, Rule(true, lr.tail)), b.name);
    PadTail(b, NullBlock(2, 1, Rule(true, lr.tail)), b.name);
  }
}
