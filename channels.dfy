// QubitChannel of WaveModule.py on values: a bundle of waveforms ("wires"),
// one name per wire and a channel name. Construction aligns the wires to the
// longest one; channels are aligned against each other through null blocks.

module Channels {
  import opened Common
  import opened Comparables
  import opened Waves
  import opened Synthesis
  import opened Waveforms

  datatype ChannelData = ChannelData(wires: seq<WaveformData>, wireNames: seq<string>, name: string)

  /** A channel always has at least one wire (building one with none fails). */
  type Channel = c: ChannelData | |c.wires| > 0 witness ChannelData([WaveformData([], "")], [""], "")

  /** len(channel) and its x are those of the first wire. */
  function ChannelSamples(c: Channel): nat { Samples(c.wires[0]) }

  function Lengths(wires: seq<WaveformData>): (r: seq<nat>)
    ensures |r| == |wires| && forall i :: 0 <= i < |wires| ==> r[i] == Samples(wires[i])
  {
    seq(|wires|, i requires 0 <= i < |wires| => Samples(wires[i]))
  }

  /** Every wire has exactly n samples. */
  predicate Uniform(wires: seq<WaveformData>, n: nat)
  {
    forall i :: 0 <= i < |wires| ==> Samples(wires[i]) == n
  }

  /** Every wire of r starts with the waves of the same wire of wires. */
  predicate WiresExtend(r: seq<WaveformData>, wires: seq<WaveformData>)
  {
    |r| == |wires| && forall k :: 0 <= k < |wires| ==> wires[k].waveList <= r[k].waveList
  }

  /** The least number of samples for which a null block reproduces a span:
      the top-level rule gives one sample a span of 0. */
  function MinSamples(rule: SpanRule): nat { if rule == WithDx then 2 else 1 }

  /** One pass of `longest <<= wires[j]` with the longest wire at index k:
      both wires are written back. */
  function PadAgainstLongest(wires: seq<WaveformData>, k: nat, j: nat, rule: SpanRule)
    : (r: Result<seq<WaveformData>>)
    requires k < |wires| && j < |wires|
    ensures r.Ok? ==> |r.value| == |wires|
  {
    match AlignShorter(wires[k], wires[j], true, rule)
    case Fail(e) => Fail(e)
    case Ok(pair) => Ok(wires[j := pair.1][k := pair.0])
  }

  /** The loop `for waveform in wires: if waveform is not longest: longest <<= waveform`
      from wire n on, ws being the wires as the earlier passes left them. */
  function LongestFrom(ws: seq<WaveformData>, k: nat, n: nat, rule: SpanRule): (r: Result<seq<WaveformData>>)
    requires k < |ws| && n <= |ws|
    ensures r.Ok? ==> |r.value| == |ws|
    decreases |ws| - n
  {
    if n == |ws| then Ok(ws)
    else if k == n then LongestFrom(ws, k, n + 1, rule)
    else
      match PadAgainstLongest(ws, k, n, rule)
      case Fail(e) => Fail(e)
      case Ok(next) => LongestFrom(next, k, n + 1, rule)
  }

  /** One pass of `ref <<= wires[j]` against an external reference waveform,
      which may itself be padded. */
  function PadAgainstRef(wires: seq<WaveformData>, ref: WaveformData, j: nat, rule: SpanRule)
    : (r: Result<(seq<WaveformData>, WaveformData)>)
    requires j < |wires|
    ensures r.Ok? ==> |r.value.0| == |wires|
  {
    match AlignShorter(ref, wires[j], true, rule)
    case Fail(e) => Fail(e)
    case Ok(pair) => Ok((wires[j := pair.1], pair.0))
  }

  /** The same loop against an external reference from wire n on, ws and ref
      being the wires and the reference as the earlier passes left them. */
  function RefFrom(ws: seq<WaveformData>, ref: WaveformData, n: nat, rule: SpanRule)
    : (r: Result<(seq<WaveformData>, WaveformData)>)
    requires n <= |ws|
    ensures r.Ok? ==> |r.value.0| == |ws|
    decreases |ws| - n
  {
    if n == |ws| then Ok((ws, ref))
    else
      match PadAgainstRef(ws, ref, n, rule)
      case Fail(e) => Fail(e)
      case Ok(st) => RefFrom(st.0, st.1, n + 1, rule)
  }

  /** What `align` may be given as `ref`: nothing, a time span, or a channel.
      A zero span and an empty channel are falsy and count as no reference. */
  datatype AlignRef = NoRef | TimeRef(span: nat) | ChannelRef(ch: Channel)

  predicate Truthy(ref: AlignRef)
  {
    match ref
    case NoRef => false
    case TimeRef(s) => s != 0
    case ChannelRef(c) => ChannelSamples(c) > 0
  }

  /** A waveform holding one null block (default rule: soft head and tail). */
  function NullWaveform(span: nat, rate: nat): (r: WaveformData)
    ensures Samples(r) == span * rate + 1
  {
    var nb := NullBlock(span, rate, Rule(false, false));
    SingleWave(nb);
    WaveformData([nb], "")
  }

  function ChannelRate(c: Channel): nat { Rate(c.wires[0]) }

  /** The null waveform `align` builds from a truthy reference, at the rate of
      the channel being aligned. */
  function RefWaveform(c: Channel, ref: AlignRef, rule: SpanRule): (r: WaveformData)
    requires Truthy(ref)
    ensures ref.TimeRef? ==> Samples(r) == ref.span * ChannelRate(c) + 1
    ensures ref.ChannelRef? ==> Samples(r) == WaveformSpan(ref.ch.wires[0], rule).value * ChannelRate(c) + 1
  {
    match ref
    case TimeRef(s) => NullWaveform(s, ChannelRate(c))
    case ChannelRef(rc) => NullWaveform(WaveformSpan(rc.wires[0], rule).value, ChannelRate(c))
  }

  /** `QubitChannel.align(qc, ref)`: wires padded against the reference (or the
      first longest wire when there is none); names are untouched. */
  function Align(c: Channel, ref: AlignRef, rule: SpanRule): (r: Result<Channel>)
    ensures r.Ok? ==> |r.value.wires| == |c.wires| && r.value.wireNames == c.wireNames && r.value.name == c.name
  {
    var aligned :=
      if Truthy(ref) then
        match RefFrom(c.wires, RefWaveform(c, ref, rule), 0, rule)
        case Fail(e) => Fail(e)
        case Ok(st) => Ok(st.0)
      else LongestFrom(c.wires, FirstLongest(Lengths(c.wires)), 0, rule);
    match aligned
    case Fail(e) => Fail(e)
    case Ok(ws) =>
      var d: Channel := ChannelData(ws, c.wireNames, c.name);
      Ok(d)
  }

  /** `if ref:`: a zero time span and a channel without samples are falsy, so
      aligning against them is aligning against the longest wire. */
  lemma AlignFalsyRef(c: Channel, ref: AlignRef, rule: SpanRule)
    requires ref == TimeRef(0) || (ref.ChannelRef? && ChannelSamples(ref.ch) == 0)
    ensures Align(c, ref, rule) == Align(c, NoRef, rule)
  {
  }

  /** `QubitChannel(*waveforms)`: wire names from the waveforms, wires aligned to
      the longest, channel name empty; no waveform at all is a ValueError. */
  function Make(waveforms: seq<WaveformData>, rule: SpanRule): (r: Result<Channel>)
    ensures waveforms == [] ==> r == Fail(ValueError)
    ensures r.Ok? ==> |r.value.wires| == |waveforms| && r.value.name == ""
    ensures r.Ok? ==> r.value.wireNames == seq(|waveforms|, i requires 0 <= i < |waveforms| => waveforms[i].name)
  {
    if |waveforms| == 0 then Fail(ValueError)
    else
      var names := seq(|waveforms|, i requires 0 <= i < |waveforms| => waveforms[i].name);
      Align(ChannelData(waveforms, names, ""), NoRef, rule)
  }

  // ----- the alignment loops -----

  /** `for waveform in wires: if waveform is not longest: longest <<= waveform`,
      the longest wire being wire k. */
  method PadToLongest(wires: seq<WaveformData>, k: nat, rule: SpanRule) returns (r: Result<seq<WaveformData>>)
    requires k < |wires|
    ensures r == LongestFrom(wires, k, 0, rule)
  {
    var ws := wires;
    var i := 0;
    while i < |wires|
      invariant 0 <= i <= |wires| == |ws|
      invariant LongestFrom(ws, k, i, rule) == LongestFrom(wires, k, 0, rule)
    {
      if i != k {
        var pass := PadAgainstLongest(ws, k, i, rule);
        if pass.Fail? {
          return pass;
        }
        ws := pass.value;
      }
      i := i + 1;
    }
    return Ok(ws);
  }

  /** The same loop against an external reference, which the passes may pad. */
  method PadToRef(wires: seq<WaveformData>, ref: WaveformData, rule: SpanRule)
    returns (r: Result<(seq<WaveformData>, WaveformData)>)
    ensures r == RefFrom(wires, ref, 0, rule)
  {
    var st := (wires, ref);
    var i := 0;
    while i < |wires|
      invariant 0 <= i <= |wires| == |st.0|
      invariant RefFrom(st.0, st.1, i, rule) == RefFrom(wires, ref, 0, rule)
    {
      var pass := PadAgainstRef(st.0, st.1, i, rule);
      if pass.Fail? {
        return Fail(pass.error);
      }
      st := pass.value;
      i := i + 1;
    }
    return Ok(st);
  }

  /** `QubitChannel.align(qc, ref)`: the reference (or the first longest wire)
      chosen, then the loop over the wires. */
  method PadWires(c: Channel, ref: AlignRef, rule: SpanRule) returns (r: Result<Channel>)
    ensures r == Align(c, ref, rule)
  {
    var ws: seq<WaveformData>;
    if Truthy(ref) {
      var st := PadToRef(c.wires, RefWaveform(c, ref, rule), rule);
      if st.Fail? {
        return Fail(st.error);
      }
      ws := st.value.0;
    } else {
      var padded := PadToLongest(c.wires, FirstLongest(Lengths(c.wires)), rule);
      if padded.Fail? {
        return Fail(padded.error);
      }
      ws := padded.value;
    }
    var d: Channel := ChannelData(ws, c.wireNames, c.name);
    return Ok(d);
  }

  // ----- alignment against the longest wire -----

  /** A pass against the longest wire pads wire j to its length, after the waves
      it had, and touches nothing else. */
  lemma PadAgainstLongestPads(wires: seq<WaveformData>, k: nat, j: nat, rule: SpanRule)
    requires k < |wires| && j < |wires| && j != k && Samples(wires[k]) >= 2
    requires MinSamples(rule) <= Samples(wires[j]) <= Samples(wires[k])
    ensures PadAgainstLongest(wires, k, j, rule).Ok?
    ensures var ws := PadAgainstLongest(wires, k, j, rule).value;
      && (forall i :: 0 <= i < |wires| && i != j ==> ws[i] == wires[i])
      && Samples(ws[j]) == Samples(wires[k]) && ws[j].name == wires[j].name
      && wires[j].waveList <= ws[j].waveList
  {
    AlignShorterExtends(wires[k], wires[j], rule);
    if Samples(wires[k]) == Samples(wires[j]) {
      AlignPairEqual(wires[k], wires[j], true, true, rule);
    } else {
      AlignPairSame(wires[k], wires[j], true, rule);
    }
  }

  /** After n passes against the longest wire k: wire k is untouched, the first
      n wires have its length, the rest are untouched, no name changed, and
      every wire starts with the waves it had. */
  predicate LongestPadded(wires: seq<WaveformData>, k: nat, n: nat, r: seq<WaveformData>)
    requires k < |wires| && n <= |wires|
  {
    && |r| == |wires| && r[k] == wires[k]
    && (forall i :: n <= i < |wires| ==> r[i] == wires[i])
    && (forall i :: 0 <= i < n ==> Samples(r[i]) == Samples(wires[k]))
    && (forall i :: 0 <= i < |wires| ==> r[i].name == wires[i].name)
    && WiresExtend(r, wires)
  }

  lemma LongestPaddedNext(wires: seq<WaveformData>, k: nat, n: nat, r: seq<WaveformData>, r2: seq<WaveformData>)
    requires k < |wires| && 0 < n <= |wires| && LongestPadded(wires, k, n - 1, r) && |r2| == |r|
    requires forall i :: 0 <= i < |r| && i != n - 1 ==> r2[i] == r[i]
    requires Samples(r2[n - 1]) == Samples(r[k]) && r2[n - 1].name == r[n - 1].name && r2[k] == r[k]
    requires r[n - 1].waveList <= r2[n - 1].waveList
    ensures LongestPadded(wires, k, n, r2)
  {
  }

  /** Wire k is the longest, with two samples or more, and every wire has the
      samples its span needs under the rule. */
  predicate Paddable(wires: seq<WaveformData>, k: nat, rule: SpanRule)
    requires k < |wires|
  {
    Samples(wires[k]) >= 2 && forall i :: 0 <= i < |wires| ==> MinSamples(rule) <= Samples(wires[i]) <= Samples(wires[k])
  }

  /** The passes from wire n on complete the padding the first n began. */
  lemma {:induction false} LongestFromPads(wires: seq<WaveformData>, k: nat, n: nat, ws: seq<WaveformData>, rule: SpanRule)
    requires k < |wires| && n <= |wires| && Paddable(wires, k, rule) && LongestPadded(wires, k, n, ws)
    ensures AllPadded(wires, k, LongestFrom(ws, k, n, rule))
    decreases |wires| - n
  {
    if n < |wires| {
      var next := LongestFromStep(wires, k, n, ws, rule);
      LongestFromPads(wires, k, n + 1, next, rule);
    } else {
      assert LongestFrom(ws, k, n, rule) == Ok(ws);
    }
  }

  /** The loop succeeded and every wire has the longest's length. */
  predicate AllPadded(wires: seq<WaveformData>, k: nat, r: Result<seq<WaveformData>>)
    requires k < |wires|
  {
    r.Ok? && LongestPadded(wires, k, |wires|, r.value)
  }

  /** Pass n keeps the padding invariant and hands the rest of the loop its result. */
  lemma LongestFromStep(wires: seq<WaveformData>, k: nat, n: nat, ws: seq<WaveformData>, rule: SpanRule)
    returns (next: seq<WaveformData>)
    requires k < |wires| && n < |wires| && Paddable(wires, k, rule) && LongestPadded(wires, k, n, ws)
    ensures LongestPadded(wires, k, n + 1, next)
    ensures LongestFrom(ws, k, n, rule) == LongestFrom(next, k, n + 1, rule)
  {
    if k != n {
      assert ws[n] == wires[n] && ws[k] == wires[k];
      assert MinSamples(rule) <= Samples(wires[n]) <= Samples(wires[k]);
      PadAgainstLongestPads(ws, k, n, rule);
      next := PadAgainstLongest(ws, k, n, rule).value;
      LongestPaddedNext(wires, k, n + 1, ws, next);
    } else {
      next := ws;
      LongestPaddedNext(wires, k, n + 1, ws, ws);
    }
  }

  /** Building a channel pads every wire to the longest one, after the waves it
      was given, provided each wire has enough samples for its span to be
      meaningful (and the longest has two). */
  lemma MakeAligned(waveforms: seq<WaveformData>, rule: SpanRule)
    requires |waveforms| > 0
    requires forall i :: 0 <= i < |waveforms| ==> Samples(waveforms[i]) >= MinSamples(rule)
    requires exists i :: 0 <= i < |waveforms| && Samples(waveforms[i]) >= 2
    ensures Make(waveforms, rule).Ok?
    ensures var k := FirstLongest(Lengths(waveforms));
      Uniform(Make(waveforms, rule).value.wires, Samples(waveforms[k]))
    ensures WiresExtend(Make(waveforms, rule).value.wires, waveforms)
  {
    var k := FirstLongest(Lengths(waveforms));
    LongestFromPads(waveforms, k, 0, waveforms, rule);
    assert LongestPadded(waveforms, k, |waveforms|, Make(waveforms, rule).value.wires);
  }

  /** Aligning wires that are already of one length changes nothing. */
  lemma {:induction false} LongestFromUniform(wires: seq<WaveformData>, k: nat, n: nat, l: nat, rule: SpanRule)
    requires k < |wires| && n <= |wires| && Uniform(wires, l)
    ensures LongestFrom(wires, k, n, rule) == Ok(wires)
    decreases |wires| - n
  {
    if n < |wires| {
      if k != n {
        LongestFromUniformStep(wires, k, n, l, rule);
      }
      LongestFromUniform(wires, k, n + 1, l, rule);
    }
  }

  lemma LongestFromUniformStep(wires: seq<WaveformData>, k: nat, n: nat, l: nat, rule: SpanRule)
    requires k < |wires| && n < |wires| && Uniform(wires, l) && k != n
    ensures PadAgainstLongest(wires, k, n, rule) == Ok(wires)
  {
    assert AlignShorter(wires[k], wires[n], true, rule) == Ok((wires[k], wires[n]));
    assert wires[n := wires[n]][k := wires[k]] == wires;
  }

  lemma MakeUniform(waveforms: seq<WaveformData>, l: nat, rule: SpanRule)
    requires |waveforms| > 0 && Uniform(waveforms, l)
    ensures Make(waveforms, rule).Ok? && Make(waveforms, rule).value.wires == waveforms
  {
    LongestFromUniform(waveforms, FirstLongest(Lengths(waveforms)), 0, l, rule);
  }

  // ----- alignment against an external null waveform -----

  /** A reference shorter than the wire only pads itself (never beyond the
      wire's length); the wire is left alone. */
  lemma AlignPairShorterRef(a: WaveformData, b: WaveformData, rule: SpanRule)
    requires 1 <= Samples(a) < Samples(b) && Samples(b) >= MinSamples(rule)
    ensures AlignPair(a, b, true, true, rule).Ok?
    ensures AlignPair(a, b, true, true, rule).value.1 == b
    ensures 1 <= Samples(AlignPair(a, b, true, true, rule).value.0) <= Samples(b)
  {
    if Samples(a) >= 2 && Samples(a) >= MinSamples(rule) {
      AlignPairSame(a, b, true, rule);
    } else {
      assert Rate(a) == 0;
      var gap := AbsInt(WaveformSpan(a, rule).value - WaveformSpan(b, rule).value);
      var padded := PadWith(a, gap, 0, AppendRule(b), true);
      assert PadShorter(a, b, true, rule) == Ok((padded, b));
      var lr := AppendRule(b).value;
      PadTail(a, NullBlock(gap, 0, Rule(true, lr.tail)), a.name);
    }
  }

  /** A pass against an external reference: the wire grows to the reference when
      it is shorter, after the waves it had, otherwise only the reference may
      grow (up to the wire). */
  lemma PadAgainstRefPads(wires: seq<WaveformData>, ref: WaveformData, j: nat, rule: SpanRule)
    requires j < |wires| && 1 <= Samples(ref) && Samples(wires[j]) >= MinSamples(rule)
    requires Samples(ref) > Samples(wires[j]) ==> Samples(ref) >= 2
    ensures PadAgainstRef(wires, ref, j, rule).Ok?
    ensures var st := PadAgainstRef(wires, ref, j, rule).value;
      && (forall i :: 0 <= i < |wires| && i != j ==> st.0[i] == wires[i]) && st.0[j].name == wires[j].name
      && wires[j].waveList <= st.0[j].waveList
      && (Samples(ref) > Samples(wires[j]) ==> st.1 == ref && Samples(st.0[j]) == Samples(ref))
      && (Samples(ref) <= Samples(wires[j]) ==> st.0[j] == wires[j] && 1 <= Samples(st.1) <= Samples(wires[j]))
  {
    var w := wires[j];
    AlignShorterExtends(ref, w, rule);
    if Samples(ref) == Samples(w) {
      AlignPairEqual(ref, w, true, true, rule);
    } else if Samples(ref) > Samples(w) {
      AlignPairSame(ref, w, true, rule);
    } else {
      AlignPairShorterRef(ref, w, rule);
    }
  }

  function Max(a: nat, b: nat): nat { if a > b then a else b }

  /** After n passes against a reference that started with m samples, over wires
      of l samples: the first n wires have max(l, m) samples, the rest are
      untouched, no name changed, every wire starts with the waves it had, and
      the reference is either the original
      (m > l) or at most l long. */
  predicate RefPadded(wires: seq<WaveformData>, ref: WaveformData, n: nat, l: nat, r: seq<WaveformData>, e: WaveformData)
    requires n <= |wires|
  {
    && |r| == |wires|
    && (forall i :: 0 <= i < n ==> Samples(r[i]) == Max(l, Samples(ref)))
    && (forall i :: n <= i < |wires| ==> r[i] == wires[i])
    && (forall i :: 0 <= i < |wires| ==> r[i].name == wires[i].name)
    && WiresExtend(r, wires)
    && (if Samples(ref) > l then e == ref else 1 <= Samples(e) <= l)
  }

  lemma RefPaddedNext(wires: seq<WaveformData>, ref: WaveformData, n: nat, l: nat,
                      r: seq<WaveformData>, e: WaveformData, r2: seq<WaveformData>, e2: WaveformData)
    requires 0 < n <= |wires| && Uniform(wires, l) && RefPadded(wires, ref, n - 1, l, r, e) && |r2| == |r|
    requires forall i :: 0 <= i < |r| && i != n - 1 ==> r2[i] == r[i]
    requires r2[n - 1].name == r[n - 1].name && r[n - 1].waveList <= r2[n - 1].waveList
    requires Samples(e) > Samples(r[n - 1]) ==> e2 == e && Samples(r2[n - 1]) == Samples(e)
    requires Samples(e) <= Samples(r[n - 1]) ==> r2[n - 1] == r[n - 1] && 1 <= Samples(e2) <= Samples(r[n - 1])
    ensures RefPadded(wires, ref, n, l, r2, e2)
  {
  }

  /** The passes from wire n on complete the padding the first n began. */
  lemma {:induction false} RefFromPads(wires: seq<WaveformData>, ref: WaveformData, n: nat, l: nat, rule: SpanRule,
                                       ws: seq<WaveformData>, e: WaveformData)
    requires n <= |wires| && l >= MinSamples(rule) && 1 <= Samples(ref)
    requires Samples(ref) > l ==> Samples(ref) >= 2
    requires Uniform(wires, l) && RefPadded(wires, ref, n, l, ws, e)
    ensures RefFrom(ws, e, n, rule).Ok?
    ensures var st := RefFrom(ws, e, n, rule).value; RefPadded(wires, ref, |wires|, l, st.0, st.1)
    decreases |wires| - n
  {
    if n < |wires| {
      var st := RefFromStep(wires, ref, n, l, rule, ws, e);
      RefFromPads(wires, ref, n + 1, l, rule, st.0, st.1);
    } else {
      assert RefFrom(ws, e, n, rule) == Ok((ws, e));
    }
  }

  /** Pass n keeps the padding invariant and hands the rest of the loop its result. */
  lemma RefFromStep(wires: seq<WaveformData>, ref: WaveformData, n: nat, l: nat, rule: SpanRule,
                    ws: seq<WaveformData>, e: WaveformData) returns (st: (seq<WaveformData>, WaveformData))
    requires n < |wires| && l >= MinSamples(rule) && 1 <= Samples(ref)
    requires Samples(ref) > l ==> Samples(ref) >= 2
    requires Uniform(wires, l) && RefPadded(wires, ref, n, l, ws, e)
    ensures RefPadded(wires, ref, n + 1, l, st.0, st.1)
    ensures RefFrom(ws, e, n, rule) == RefFrom(st.0, st.1, n + 1, rule)
  {
    RefPaddedPass(wires, ref, n, l, rule, ws, e);
    st := PadAgainstRef(ws, e, n, rule).value;
    RefFromUnfold(ws, e, n, rule);
  }

  /** Pass n succeeds and keeps the padding invariant. */
  lemma RefPaddedPass(wires: seq<WaveformData>, ref: WaveformData, n: nat, l: nat, rule: SpanRule,
                      ws: seq<WaveformData>, e: WaveformData)
    requires n < |wires| && l >= MinSamples(rule) && 1 <= Samples(ref)
    requires Samples(ref) > l ==> Samples(ref) >= 2
    requires Uniform(wires, l) && RefPadded(wires, ref, n, l, ws, e)
    ensures PadAgainstRef(ws, e, n, rule).Ok?
    ensures var st := PadAgainstRef(ws, e, n, rule).value; RefPadded(wires, ref, n + 1, l, st.0, st.1)
  {
    assert ws[n] == wires[n] && Samples(ws[n]) == l;
    PadAgainstRefPads(ws, e, n, rule);
    var st := PadAgainstRef(ws, e, n, rule).value;
    RefPaddedNext(wires, ref, n + 1, l, ws, e, st.0, st.1);
  }

  /** One pass of the reference loop, when it succeeds. */
  lemma RefFromUnfold(ws: seq<WaveformData>, e: WaveformData, n: nat, rule: SpanRule)
    requires n < |ws| && PadAgainstRef(ws, e, n, rule).Ok?
    ensures var st := PadAgainstRef(ws, e, n, rule).value;
      RefFrom(ws, e, n, rule) == RefFrom(st.0, st.1, n + 1, rule)
  {
  }

  /** Aligning a channel whose wires all have l samples against a reference
      leaves every wire with the larger of l and the reference's sample count,
      after the waves it had. */
  lemma AlignToReference(c: Channel, ref: AlignRef, l: nat, rule: SpanRule)
    requires Truthy(ref) && Uniform(c.wires, l) && l >= 2
    ensures Align(c, ref, rule).Ok?
    ensures Uniform(Align(c, ref, rule).value.wires, Max(l, Samples(RefWaveform(c, ref, rule))))
    ensures WiresExtend(Align(c, ref, rule).value.wires, c.wires)
  {
    var m := RefWaveform(c, ref, rule);
    RefFromPads(c.wires, m, 0, l, rule, c.wires, m);
    var st := RefFrom(c.wires, m, 0, rule).value;
    AlignByRef(c, ref, rule);
    assert RefPadded(c.wires, m, |c.wires|, l, st.0, st.1);
  }

  /** With a truthy reference, `align` keeps the wires its reference loop leaves. */
  lemma AlignByRef(c: Channel, ref: AlignRef, rule: SpanRule)
    requires Truthy(ref) && RefFrom(c.wires, RefWaveform(c, ref, rule), 0, rule).Ok?
    ensures Align(c, ref, rule).Ok?
    ensures Align(c, ref, rule).value.wires == RefFrom(c.wires, RefWaveform(c, ref, rule), 0, rule).value.0
  {
  }

  // ----- aligning channels against each other -----

  function ChannelLengths(chs: seq<Channel>): (r: seq<nat>)
    ensures |r| == |chs| && forall i :: 0 <= i < |chs| ==> r[i] == ChannelSamples(chs[i])
  {
    seq(|chs|, i requires 0 <= i < |chs| => ChannelSamples(chs[i]))
  }

  /** The loop of `alignQubitChannels` from channel n on, cs being the channels
      as the earlier steps left them: each one is aligned against channel k as
      it stands at that moment (k itself is aligned, against its own span, when
      its turn comes). */
  function ChannelsFrom(cs: seq<Channel>, k: nat, n: nat, rule: SpanRule): (r: Result<seq<Channel>>)
    requires k < |cs| && n <= |cs|
    ensures r.Ok? ==> |r.value| == |cs|
    decreases |cs| - n
  {
    if n == |cs| then Ok(cs)
    else
      match Align(cs[n], ChannelRef(cs[k]), rule)
      case Fail(e) => Fail(e)
      case Ok(c) => ChannelsFrom(cs[n := c], k, n + 1, rule)
  }

  /** `QubitChannel.alignQubitChannels(*channels)`: a single channel is returned
      as is, none at all is a ValueError (the maximum of nothing); otherwise
      every channel is aligned against the first longest one. */
  function AlignChannels(chs: seq<Channel>, rule: SpanRule): (r: Result<seq<Channel>>)
    ensures chs == [] ==> r == Fail(ValueError)
    ensures |chs| == 1 ==> r == Ok(chs)
    ensures r.Ok? ==> |r.value| == |chs|
  {
    if |chs| == 0 then Fail(ValueError)
    else if |chs| == 1 then Ok(chs)
    else ChannelsFrom(chs, FirstLongest(ChannelLengths(chs)), 0, rule)
  }

  /** `alignQubitChannels`: one channel is returned as is; otherwise the loop
      `for qcObj in qcObjList: align(qcObj, longest)` over the channels, each
      aligned in turn against the first longest one as it stands. */
  method PadChannels(chs: seq<Channel>, rule: SpanRule) returns (r: Result<seq<Channel>>)
    ensures r == AlignChannels(chs, rule)
  {
    if |chs| == 0 {
      return Fail(ValueError);
    }
    if |chs| == 1 {
      return Ok(chs);
    }
    var k := FirstLongest(ChannelLengths(chs));
    var cs: seq<Channel> := chs;
    var i := 0;
    while i < |chs|
      invariant 0 <= i <= |chs| == |cs|
      invariant ChannelsFrom(cs, k, i, rule) == ChannelsFrom(chs, k, 0, rule)
    {
      var aligned := PadWires(cs[i], ChannelRef(cs[k]), rule);
      if aligned.Fail? {
        return Fail(aligned.error);
      }
      cs := cs[i := aligned.value];
      i := i + 1;
    }
    return Ok(cs);
  }

  /** Every channel's wires share its sample count, of at least two. */
  predicate WellFormed(chs: seq<Channel>)
  {
    forall i :: 0 <= i < |chs| ==> Uniform(chs[i].wires, ChannelSamples(chs[i])) && ChannelSamples(chs[i]) >= 2
  }

  /** After n channels: those are at m samples, keep their wire count and
      names and have every wire start with the waves it had; the rest are
      untouched, and channel k still has m samples. */
  predicate ChannelsAligned(chs: seq<Channel>, k: nat, n: nat, m: nat, cs: seq<Channel>)
    requires k < |chs| && n <= |chs|
  {
    |cs| == |chs| && ChannelSamples(cs[k]) == m
    && (forall i :: 0 <= i < n ==> Uniform(cs[i].wires, m) && |cs[i].wires| == |chs[i].wires|
                                   && cs[i].wireNames == chs[i].wireNames && cs[i].name == chs[i].name
                                   && WiresExtend(cs[i].wires, chs[i].wires))
    && (forall i :: n <= i < |chs| ==> cs[i] == chs[i])
  }

  /** One step of the channel loop, when its alignment succeeds. */
  lemma ChannelsFromUnfold(cs: seq<Channel>, k: nat, n: nat, rule: SpanRule)
    requires k < |cs| && n < |cs| && Align(cs[n], ChannelRef(cs[k]), rule).Ok?
    ensures ChannelsFrom(cs, k, n, rule) == ChannelsFrom(cs[n := Align(cs[n], ChannelRef(cs[k]), rule).value], k, n + 1, rule)
  {
  }

  /** One channel of the loop under the endpoint span rule: it grows to m. */
  lemma ChannelsStep(chs: seq<Channel>, k: nat, n: nat, m: nat, rule: SpanRule, cs: seq<Channel>)
    returns (next: seq<Channel>)
    requires rule == Endpoints && k < |chs| && n < |chs| && WellFormed(chs)
    requires m == ChannelSamples(chs[k]) && forall i :: 0 <= i < |chs| ==> ChannelSamples(chs[i]) <= m
    requires ChannelsAligned(chs, k, n, m, cs)
    ensures ChannelsAligned(chs, k, n + 1, m, next)
    ensures ChannelsFrom(cs, k, n, rule) == ChannelsFrom(next, k, n + 1, rule)
  {
    var c := cs[n];
    assert c == chs[n];
    var l := ChannelSamples(c);
    assert Uniform(c.wires, l) && l >= 2;
    AlignToReference(c, ChannelRef(cs[k]), l, rule);
    var d := Align(c, ChannelRef(cs[k]), rule).value;
    assert Samples(RefWaveform(c, ChannelRef(cs[k]), rule)) == m;
    assert Uniform(d.wires, m);
    next := cs[n := d];
    assert ChannelSamples(next[k]) == m;
    ChannelsFromUnfold(cs, k, n, rule);
  }

  /** The loop succeeded and every channel is at channel k's sample count. */
  predicate AllAligned(chs: seq<Channel>, k: nat, r: Result<seq<Channel>>)
    requires k < |chs|
  {
    r.Ok? && ChannelsAligned(chs, k, |chs|, ChannelSamples(chs[k]), r.value)
  }

  /** The steps from channel n on complete the alignment the first n began. */
  lemma ChannelsFromEqualizes(chs: seq<Channel>, k: nat, n: nat, rule: SpanRule, cs: seq<Channel>)
    requires rule == Endpoints && k < |chs| && n <= |chs| && WellFormed(chs)
    requires forall i :: 0 <= i < |chs| ==> ChannelSamples(chs[i]) <= ChannelSamples(chs[k])
    requires ChannelsAligned(chs, k, n, ChannelSamples(chs[k]), cs)
    ensures AllAligned(chs, k, ChannelsFrom(cs, k, n, rule))
  {
    var m := ChannelSamples(chs[k]);
    var cur, i := cs, n;
    while i < |chs|
      invariant n <= i <= |chs| && ChannelsAligned(chs, k, i, m, cur)
      invariant ChannelsFrom(cur, k, i, rule) == ChannelsFrom(cs, k, n, rule)
    {
      cur := ChannelsStep(chs, k, i, m, rule, cur);
      i := i + 1;
    }
    assert ChannelsFrom(cur, k, i, rule) == Ok(cur);
  }

  /** Under the endpoint span rule, aligning channels leaves every wire of every
      channel at the sample count of the longest channel, after the waves it
      had, and keeps wire counts and names. */
  lemma AlignChannelsEqualizes(chs: seq<Channel>)
    requires |chs| >= 2 && WellFormed(chs)
    ensures AlignChannels(chs, Endpoints).Ok?
    ensures var r := AlignChannels(chs, Endpoints).value;
      var m := ChannelSamples(chs[FirstLongest(ChannelLengths(chs))]);
      (forall i :: 0 <= i < |chs| ==> ChannelSamples(chs[i]) <= m)
      && forall i :: 0 <= i < |r| ==> Uniform(r[i].wires, m) && |r[i].wires| == |chs[i].wires|
                                       && r[i].wireNames == chs[i].wireNames && r[i].name == chs[i].name
                                       && WiresExtend(r[i].wires, chs[i].wires)
  {
    var k := FirstLongest(ChannelLengths(chs));
    ChannelsFromEqualizes(chs, k, 0, Endpoints, chs);
  }

  /** Under the top-level span rule (one period added to the span), the longest
      channel is first grown by one sample against its own span, and the next
      channel is then aligned against that grown span: two channels of m and l
      samples end at m + 1 and m + 2 samples, so they are not aligned. */
  lemma AlignChannelsWithDxDrifts(a: Channel, b: Channel)
    requires WellFormed([a, b]) && ChannelSamples(a) > ChannelSamples(b)
    ensures AlignChannels([a, b], WithDx).Ok?
    ensures var r := AlignChannels([a, b], WithDx).value;
      Uniform(r[0].wires, ChannelSamples(a) + 1) && Uniform(r[1].wires, ChannelSamples(a) + 2)
  {
    var m := ChannelSamples(a);
    assert ChannelSamples([a, b][0]) == m && ChannelSamples([a, b][1]) == ChannelSamples(b);
    var k := FirstLongest(ChannelLengths([a, b]));
    assert k == 0;
    AlignToReference(a, ChannelRef(a), m, WithDx);
    var a2 := Align(a, ChannelRef(a), WithDx).value;
    assert Samples(RefWaveform(a, ChannelRef(a), WithDx)) == m + 1;
    ChannelsFromUnfold([a, b], 0, 0, WithDx);
    assert [a, b][0 := a2] == [a2, b];
    assert ChannelSamples(a2) == m + 1;
    var l := ChannelSamples(b);
    assert Uniform(b.wires, l);
    AlignToReference(b, ChannelRef(a2), l, WithDx);
    assert Samples(RefWaveform(b, ChannelRef(a2), WithDx)) == m + 2;
    var b2 := Align(b, ChannelRef(a2), WithDx).value;
    ChannelsFromUnfold([a2, b], 0, 1, WithDx);
    assert [a2, b][1 := b2] == [a2, b2];
    assert ChannelsFrom([a2, b2], 0, 2, WithDx) == Ok([a2, b2]);
  }

  // ----- wire names -----

  /** r is names followed by '' up to n entries (names alone when longer). */
  predicate PaddedNames(r: seq<string>, names: seq<string>, n: nat)
  {
    |r| == Max(|names|, n) && r[..|names|] == names && forall i :: |names| <= i < |r| ==> r[i] == ""
  }

  /** The `wire_names` setter: the given names, then '' for each current name
      beyond them; the wires and the channel name are untouched. */
  function SetWireNames(c: Channel, names: seq<string>): (r: Channel)
    ensures r.wires == c.wires && r.name == c.name
    ensures PaddedNames(r.wireNames, names, |c.wireNames|)
  {
    var pad := if |c.wireNames| > |names| then |c.wireNames| - |names| else 0;
    c.(wireNames := names + seq(pad, _ => ""))
  }

  /** `get_wire(name)`: the wire at the first position carrying that name; an
      unknown name is a ValueError, a name past the last wire an IndexError. */
  function GetWire(c: Channel, name: string): (r: Result<WaveformData>)
    ensures r.Ok? <==> name in c.wireNames && IndexOf(c.wireNames, name).value < |c.wires|
    ensures name !in c.wireNames ==> r == Fail(ValueError)
    ensures r.Ok? ==> exists i :: 0 <= i < |c.wires| && i < |c.wireNames| && c.wireNames[i] == name
                                  && r.value == c.wires[i] && name !in c.wireNames[..i]
  {
    match IndexOf(c.wireNames, name)
    case None => Fail(ValueError)
    case Some(i) =>
      if i < |c.wires| then
        assert name !in c.wireNames[..i];
        Ok(c.wires[i])
      else Fail(IndexError)
  }

  // ----- arithmetic on channels -----

  /** `a + b`: wire-wise concatenation, realigned, with the wire names of a;
      channels with different wire counts are a ValueError. */
  function Plus(a: Channel, b: Channel, rule: SpanRule): (r: Result<Channel>)
    ensures |a.wires| != |b.wires| ==> r == Fail(ValueError)
    ensures r.Ok? ==> |r.value.wires| == |a.wires| && r.value.name == ""
    ensures r.Ok? ==> PaddedNames(r.value.wireNames, a.wireNames, |a.wires|)
  {
    if |a.wires| != |b.wires| then Fail(ValueError)
    else
      var sums := seq(|a.wires|, i requires 0 <= i < |a.wires| =>
                        WaveformData(a.wires[i].waveList + b.wires[i].waveList, ""));
      match Make(sums, rule)
      case Fail(e) => Fail(e)
      case Ok(t) => Ok(SetWireNames(t, a.wireNames))
  }

  /** Adding two channels whose wires are uniform concatenates wire by wire:
      every wire is the element-wise waveform sum, of la + lb - 1 samples. */
  lemma PlusUniform(a: Channel, b: Channel, la: nat, lb: nat, rule: SpanRule)
    requires |a.wires| == |b.wires| && Uniform(a.wires, la) && Uniform(b.wires, lb) && la > 0 && lb > 0
    ensures Plus(a, b, rule).Ok?
    ensures Uniform(Plus(a, b, rule).value.wires, la + lb - 1)
    ensures forall i :: 0 <= i < |a.wires| ==>
              Ok(Plus(a, b, rule).value.wires[i]) == Waveforms.Plus(a.wires[i], OfWaveform(b.wires[i]))
    ensures forall i :: 0 <= i < |a.wires| ==>
              Plus(a, b, rule).value.wires[i].waveList == a.wires[i].waveList + b.wires[i].waveList
  {
    var sums := seq(|a.wires|, i requires 0 <= i < |a.wires| =>
                      WaveformData(a.wires[i].waveList + b.wires[i].waveList, ""));
    forall i | 0 <= i < |a.wires|
      ensures Samples(sums[i]) == la + lb - 1
      ensures Ok(sums[i]) == Waveforms.Plus(a.wires[i], OfWaveform(b.wires[i]))
    {
      PlusWaveform(a.wires[i], b.wires[i]);
    }
    MakeUniform(sums, la + lb - 1, rule);
  }

  /** `c * n`: every wire repeated n times, realigned, with the wire names of c. */
  function Times(c: Channel, n: int, rule: SpanRule): (r: Result<Channel>)
    ensures r.Ok? ==> |r.value.wires| == |c.wires| && r.value.name == ""
    ensures r.Ok? ==> PaddedNames(r.value.wireNames, c.wireNames, |c.wires|)
  {
    var products := seq(|c.wires|, i requires 0 <= i < |c.wires| => Waveforms.Times(c.wires[i], n));
    match Make(products, rule)
    case Fail(e) => Fail(e)
    case Ok(t) => Ok(SetWireNames(t, c.wireNames))
  }

  /** The sample count of n copies of l samples joined end to end. */
  function RepeatedSamples(n: nat, l: nat): nat
    requires l > 0
  {
    n * (l - 1) + 1
  }

  /** Every wire of r is the same wire of wires with its wave list repeated n times. */
  predicate RepeatedWires(r: seq<WaveformData>, wires: seq<WaveformData>, n: int)
  {
    |r| == |wires| && forall i :: 0 <= i < |wires| ==> r[i].waveList == Repeat(wires[i].waveList, n)
  }

  /** Repeating a uniform channel n >= 1 times repeats each wire's wave list and
      leaves every wire at n * (l - 1) + 1 samples. */
  lemma TimesUniform(c: Channel, n: nat, l: nat, rule: SpanRule)
    requires Uniform(c.wires, l) && l > 0 && n >= 1
    ensures var r := Times(c, n, rule);
      r.Ok? && Uniform(r.value.wires, RepeatedSamples(n, l)) && RepeatedWires(r.value.wires, c.wires, n)
  {
    var products := seq(|c.wires|, i requires 0 <= i < |c.wires| => Waveforms.Times(c.wires[i], n));
    forall i | 0 <= i < |c.wires|
      ensures Samples(products[i]) == n * (l - 1) + 1
    {
      TimesSamples(c.wires[i], n);
    }
    MakeUniform(products, n * (l - 1) + 1, rule);
  }

  // ----- adding wires and null channels -----

  /** What `add_wire` (and `/`) accepts: a channel, one waveform, a list of
      waveforms, or anything else (a TypeError). */
  datatype WireSource = FromChannel(Channel) | FromWaveform(WaveformData) | FromList(seq<WaveformData>) | Other

  function WaveformsOf(s: WireSource): (r: Result<seq<WaveformData>>)
    ensures r.Fail? <==> s.Other?
    ensures r.Fail? ==> r.error == TypeError
  {
    match s
    case FromChannel(c) => Ok(c.wires)
    case FromWaveform(f) => Ok([f])
    case FromList(l) => Ok(l)
    case Other => Fail(TypeError)
  }

  /** `add_wire(source)`: a new channel over the old wires followed by the new
      ones; the wire names are those of the waveforms themselves. */
  function AddWire(c: Channel, s: WireSource, rule: SpanRule): (r: Result<Channel>)
    ensures s.Other? ==> r == Fail(TypeError)
    ensures r.Ok? ==> |r.value.wires| == |c.wires| + |WaveformsOf(s).value|
    ensures r.Ok? ==> |r.value.wireNames| == |r.value.wires|
                      && forall i :: 0 <= i < |c.wires| ==> r.value.wireNames[i] == c.wires[i].name
  {
    match WaveformsOf(s)
    case Fail(e) => Fail(e)
    case Ok(l) => Make(c.wires + l, rule)
  }

  /** Adding uniform wires of the channel's own length appends them unchanged. */
  lemma AddWireUniform(c: Channel, l: seq<WaveformData>, n: nat, rule: SpanRule)
    requires Uniform(c.wires, n) && Uniform(l, n)
    ensures AddWire(c, FromList(l), rule).Ok?
    ensures AddWire(c, FromList(l), rule).value.wires == c.wires + l
  {
    assert Uniform(c.wires + l, n);
    MakeUniform(c.wires + l, n, rule);
  }

  /** The span argument of `null`: a time span, counted in sample periods at
      the default rate, or a channel whose span and rate are taken. */
  datatype NullSpan = TimeSpan(periods: nat) | SpanOf(Channel)

  /** The wire-count argument of `null`: a number, or a channel whose wire count is taken. */
  datatype WireRef = Count(n: int) | WiresOf(c: Channel)

  /** `QubitChannel.null(spanRef, wireRef)`: one null block repeated over the
      wires; a channel with no samples has no span (IndexError) and no wires at
      all is a ValueError. */
  function Null(span: NullSpan, wires: WireRef, rule: SpanRule): (r: Result<Channel>)
    ensures wires.Count? && wires.n <= 0 ==> r.Fail?
    ensures r.Ok? && wires.WiresOf? ==> |r.value.wires| == |wires.c.wires|
    ensures r.Ok? && wires.Count? ==> |r.value.wires| == wires.n
  {
    var block :=
      match span
      case TimeSpan(p) => Ok(NullWaveform(p, 1))
      case SpanOf(c) =>
        if WaveformSpan(c.wires[0], rule).Fail? then Fail(IndexError)
        else Ok(NullWaveform(WaveformSpan(c.wires[0], rule).value, ChannelRate(c)));
    var count := match wires case Count(n) => n case WiresOf(c) => |c.wires|;
    match block
    case Fail(e) => Fail(e)
    case Ok(nb) =>
      var copies := Repeat([nb], count);
      assert count > 0 ==> |copies| == count by {
        if count > 0 { RepeatOne(nb, count); }
      }
      Make(copies, rule)
  }

  lemma RepeatOne<T>(x: T, n: nat)
    ensures |Repeat([x], n)| == n && forall i :: 0 <= i < n ==> Repeat([x], n)[i] == x
  {
    if n > 0 {
      RepeatOne(x, n - 1);
    }
  }

  /** A null channel over a time span of p periods has the requested number of
      wires, each one null block of p + 1 samples. */
  lemma NullShape(p: nat, n: nat, rule: SpanRule)
    requires n >= 1
    ensures Null(TimeSpan(p), Count(n), rule).Ok?
    ensures var c := Null(TimeSpan(p), Count(n), rule).value;
      |c.wires| == n && Uniform(c.wires, p + 1) && forall i :: 0 <= i < n ==> c.wires[i] == NullWaveform(p, 1)
  {
    RepeatOne(NullWaveform(p, 1), n);
    MakeUniform(Repeat([NullWaveform(p, 1)], n), p + 1, rule);
  }

  /** Under the package span rule, a null channel spanning like a channel c of
      m >= 2 samples has the wire count of its wire reference d, and every wire
      is one null block of m samples. */
  lemma NullFromChannel(c: Channel, d: Channel)
    requires ChannelSamples(c) >= 2
    ensures Null(SpanOf(c), WiresOf(d), Endpoints).Ok?
    ensures var r := Null(SpanOf(c), WiresOf(d), Endpoints).value;
      |r.wires| == |d.wires| && Uniform(r.wires, ChannelSamples(c))
      && forall i :: 0 <= i < |r.wires| ==> r.wires[i] == NullWaveform(ChannelSamples(c) - 1, 1)
  {
    var m := ChannelSamples(c);
    assert WaveformSpan(c.wires[0], Endpoints) == Ok(m - 1);
    assert ChannelRate(c) == 1;
    RepeatOne(NullWaveform(m - 1, 1), |d.wires|);
    MakeUniform(Repeat([NullWaveform(m - 1, 1)], |d.wires|), m, Endpoints);
  }
}
