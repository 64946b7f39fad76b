# A verified model of the quantum waveform compiler

The repository builds control pulses for an arbitrary-waveform generator. It
works in four layers:

- a `Wave` is an amplitude sequence `y` over a time axis `x`, with a name and
  an append rule `(head, tail)`;
- a `Waveform` stitches an ordered list of waves into one pulse train;
- a `QubitChannel` bundles several waveforms ("wires") of equal sample count;
- a `QuantumCircuit` places channels on a row × time-slot grid and compiles
  each row into one channel.

This project restates that core in Dafny and proves what it promises. It
covers the current module (`WaveModule.py`), both template modules, both
circuit classes, `dispose_point`, and the two archived versions of the wave
tools (version 6 and the first version), each in a module of its own.

Modelling choices that hold throughout:

- **Time.** Time is counted in sample periods. An axis is the integer grid
  `0, 1, …, n-1`, so `dx` is 1 for two or more samples and 0 below that. The
  sampling rate is `1/dx`, or 0 when `dx` is 0. Amplitudes are `real`, so the
  junction average `(a + b) / 2` is exact.
- **Null blocks.** A null block of span `s` at rate `r` is `s * r + 1` zero
  samples. In version 6 the end point is dropped, which leaves `s` samples.
- **Span rules.** The code base has two definitions of `span`. The top-level
  `TemplateModule.py` uses `x[-1] - x[0] + dx`; the package template uses
  `x[-1] - x[0]`. `Comparables.SpanRule` names both. `WaveModule.py` and the
  top-level circuit use the first. The package circuit uses the second: it
  imports a package-local wave module that is not part of this model, and
  that module is assumed to be `WaveModule.py` over the package template.
- **Errors.** Python exceptions become the `Fail` case of `Common.Result`,
  or a returned `Option<Error>` for methods that change state.
- **Objects.** An object the source updates in place is a Dafny `class`:
  - `WaveformObjects.Waveform`;
  - `Circuits.Circuit`;
  - `LegacyCircuits.LegacyCircuit`;
  - `Gates.Gate`;
  - `Wavetools1.Waveform1`.

  Everything else is a value. Loops in the source are methods with loop
  invariants, proved equal to a recursive specification function. The
  exceptions are the index checks of the circuit constructors
  (QuantumCircuit.py:36-40, QuantumCompiler/QuantumCircuit.py:73-78), which
  only test every index and are the functions LegacyCircuits.BoundsAsWritten
  and CircuitNames.CheckBounds.

## Model

| member | source | states |
|---|---|---|
| Common.Range | WaveModule.py:578-581 | `range(n)`: n entries, entry i is i |
| Common.Repeat | WaveModule.py:450-466 | `list * n`: empty for n <= 0, starts with the list, holds only its elements |
| Common.RepeatSize | WaveModule.py:450-466 | `len(list * n) == len(list) * n` |
| Common.PyIndex | WaveModule.py:545-561 | Python indexing: valid exactly for -n <= i < n, and a negative index counts from the end |
| Common.InsertPos | WaveModule.py:603-604 | `list.insert`'s position: clamped into 0..n, a negative index counted from the end |
| Common.ListInsert | WaveModule.py:603-604 | `list.insert(i, v)`: one longer, v at the clamped position, the rest shifted |
| Common.IndexOf | WaveModule.py:937-953 | `list.index(x)`: the first position holding x, and absent exactly when x is not in the list |
| Waves.Neg | WaveModule.py:106-121 | `-w` reverses the samples over the same axis and keeps name and rule |
| Waves.NegInvolutive | WaveModule.py:106-121 | `-(-w) == w` |
| Waves.Abs | WaveModule.py:304-319 | every sample becomes non-negative with the same magnitude; axis, name and rule are kept |
| Waves.AbsIdempotent | WaveModule.py:304-319 | `abs(abs(w)) == abs(w)` |
| Waves.WithScalar | WaveModule.py:138-144 | `w + c`, `w - c`, `w * c` combine every sample with c and keep axis, name and rule |
| Waves.CombineShape | WaveModule.py:123-161 | wave (+,-,*) wave: the longer operand's axis (self on a tie), the overlapping prefix combined, the longer's tail copied, self's name, the rules OR-ed |
| Waves.SubtractsShorterFromLonger | WaveModule.py:168-206 | subtraction takes the shorter from the longer, so `a - b` and `b - a` have the same samples when the lengths differ |
| Waves.AddMulCommuteOnSamples | WaveModule.py:213-251 | `+` and `*` of two waves commute on the samples, and on the axis when the lengths differ |
| Waves.Reflected | WaveModule.py:163-166 | `c + w`, `c * w` and `c - w` combine every sample of w with c, with w on the left |
| Waves.ReflectedSubtractionCounterexample | WaveModule.py:208-211 | as written, `1 - w` on the samples `[0]` gives `[-1]` |
| Waves.ReflectedSubFixed | WaveModule.py:208-211 | the corrected `c - w`: c minus every sample, axis, name and rule kept |
| Waves.ReflectedSubNegatesAsWritten | WaveModule.py:208-211 | the corrected `c - w` is the as-written `w - c` with every sample negated; the two agree exactly when every sample equals c |
| Waves.DivideByNumberAsWritten | WaveModule.py:273-279 | as written, `w / c` always raises AttributeError |
| Waves.DivideByNumber | OldArchives/WavetoolsV6.py:664-689 | the intended `w / c`, as version 6 has it: each result sample times c is the original sample; axis, name and rule kept |
| Waves.DivideThenMultiply | WaveModule.py:258-282 | `(w / c) * c == w` for the corrected division |
| Waves.DivideByWave | WaveModule.py:280-282 | dividing by a wave returns the wave itself |
| Waves.EqualityIgnoresSamples | TemplateModule.py:222-237 | two waves with different samples and names compare equal when their lengths agree |
| Comparables.Dx | TemplateModule.py:112-119 | `dx` is `x[1] - x[0]`, or 0 below two samples |
| Comparables.Df | QuantumCompiler/TemplateModule.py:255-261 | `df` is 0 exactly when `dx` is 0, and otherwise `1/dx` |
| Comparables.Period | QuantumCompiler/TemplateModule.py:255-261 | the sampling rate passed to null blocks: `1/df` when `df` is positive, else 0 |
| Comparables.Span | TemplateModule.py:82-86 | `span` under either rule, relating the first and last axis values (plus `dx` under the top-level rule); an empty axis has none |
| Comparables.Grid | WaveModule.py:745-773 | the unit grid of n points |
| Comparables.UnitGridSpan | QuantumCompiler/TemplateModule.py:238-242 | on the unit grid, n >= 2 samples span n under the top-level rule, 0 for one sample; under the package rule they span n-1 |
| Comparables.ComparisonsConsistent | QuantumCompiler/TemplateModule.py:314-415 | the six comparisons compare only sample counts and form a consistent total preorder |
| Comparables.FirstLongest | QuantumCompiler/TemplateModule.py:278-294 | `max(..., key=len)`: an index of greatest length, with every earlier one strictly shorter |
| Synthesis.Shift | WaveModule.py:823-837 | every axis value moved by the running offset |
| Synthesis.Step | WaveModule.py:798-842 | one loop iteration keeps the loop invariant (offset is the last axis value, previous set once the axis is non-empty) |
| Synthesis.Synth | WaveModule.py:775-843 | the loop over the whole list keeps the invariant |
| Synthesis.SynthSnoc | WaveModule.py:798-842 | synthesizing a list plus one wave is one more step |
| Synthesis.JoinForm | WaveModule.py:812-836 | every join after the first non-empty wave replaces the last sample by the junction sample and appends the rest of the new wave: len(w) - 1 new samples |
| Synthesis.NonEmptyBound | WaveModule.py:803-804 | the number of non-empty waves is at most the total sample count, and 0 only when that count is 0 |
| Synthesis.SynthLength | WaveModule.py:798-842 | `len(y) == len(x) ==` the sum of the k non-empty waves' lengths minus k - 1 |
| Synthesis.PreviousIsLastNonEmpty | WaveModule.py:803-804 | empty waves are skipped: `previous` is always the last non-empty wave |
| Synthesis.TotalAppend | WaveModule.py:798-842 | sample counts and non-empty counts add up over concatenated lists |
| Synthesis.ConcatSynthesizedLength | WaveModule.py:431-448 | two lists with a non-empty wave each share exactly one junction sample |
| Synthesis.ConcatLength | WaveModule.py:431-448 | the same, on the synthesized axis and samples |
| Synthesis.SynthUnitGrid | WaveModule.py:805-808 | waves on the unit grid synthesize to the unit grid: no gap and no repeat at any junction |
| Synthesis.StepUnitGrid | WaveModule.py:823-837 | one join keeps the axis on the unit grid |
| Synthesis.Join | WaveModule.py:812-836 | the loop body, with its `delEnd` flag, computes the junction form of Step |
| Synthesis.Synthesize | WaveModule.py:775-843 | the `_synthesize` loop returns exactly the synthesized samples and axis |
| Synthesis.SoftJunctionExample | WaveModule.py:812-836 | two soft constant waves 1 and 2 join into `[1, 1, 1.5, 2, 2]` |
| Synthesis.HardJunctionExample | WaveModule.py:812-836 | hard tail meeting hard head drops the left's last sample and keeps the right whole |
| Waveforms.X | WaveModule.py:324-345 | a waveform's axis is the unit grid of its sample count |
| Waveforms.Y | WaveModule.py:324-345 | a waveform has one sample per axis point |
| Waveforms.XIsSynthesized | WaveModule.py:775-843 | that axis is the one synthesis computes |
| Waveforms.SamplesPositive | WaveModule.py:798-842 | a waveform has samples exactly when one of its waves does |
| Waveforms.FromWave | WaveModule.py:94-104 | `~wave` is a one-wave waveform named after the wave, with the wave's axis and samples |
| Waveforms.AppendRule | WaveModule.py:378-390 | the first wave's head rule and the last wave's tail rule; an empty list raises IndexError |
| Waveforms.SetWaveList | WaveModule.py:361-375 | the setter raises ValueError exactly on an empty list, and otherwise replaces the list and keeps the name |
| Waveforms.Pick | WaveModule.py:545-561 | `[ref[i] for i in order]`: defined exactly when every index is valid, and then the named waves in order |
| Waveforms.PermuteIdentity | WaveModule.py:545-561 | permuting by `range(n)` keeps the waveform |
| Waveforms.PermuteResult | WaveModule.py:545-561 | permute fails with IndexError exactly on an invalid index; otherwise position j holds the wave the order names |
| Waveforms.Kept | WaveModule.py:563-582 | the waves whose positions are not listed, and no others |
| Waveforms.KeptNone | WaveModule.py:563-582 | listing no valid position keeps the whole list |
| Waveforms.KeptAll | WaveModule.py:563-582 | listing every position keeps nothing |
| Waveforms.KeptOne | WaveModule.py:563-582 | listing one position drops exactly that wave |
| Waveforms.RemoveAllFails | WaveModule.py:563-582 | removing every index empties the list, which the setter refuses with ValueError |
| Waveforms.RemoveOne | WaveModule.py:563-582 | removing one valid index from a longer list drops exactly that wave |
| Waveforms.ExpandIndices | WaveModule.py:601-602 | more waves than indices turn the indices into `indices[0] + k`; with no index at all that is an IndexError |
| Waveforms.InsertAll | WaveModule.py:600-605 | the list grows by one per zipped pair |
| Waveforms.InsertOne | WaveModule.py:584-605 | inserting one wave at a position within the list puts it there |
| Waveforms.InsertThenRemove | WaveModule.py:584-605 | insert then remove at the same position gives the waveform back |
| Waveforms.ReplaceAll | WaveModule.py:623-631 | replacing never shortens the list |
| Waveforms.ReplaceOne | WaveModule.py:607-631 | an in-range index overwrites only that wave; an out-of-range one appends the wave |
| Waveforms.WaveListOf | WaveModule.py:845-870 | waveform, wave or list of waves are accepted; anything else is a TypeError |
| Waveforms.Plus | WaveModule.py:431-448 | `f + other` is a new unnamed waveform whose list is f's followed by the operand's waves (the waveform's list, the one wave, or the list); it fails with TypeError exactly on an unsupported operand |
| Waveforms.PlusWaveform | WaveModule.py:431-448 | two non-empty waveforms concatenate into one sample fewer than their sum, with f's head rule and g's tail rule |
| Waveforms.Times | WaveModule.py:450-466 | `f * n` is the list repeated n times, unnamed |
| Waveforms.RepeatStep | WaveModule.py:450-466 | one more copy adds the copy's samples minus the shared one |
| Waveforms.RepeatLength | WaveModule.py:450-466 | n copies of a non-empty list have n * (len - 1) + 1 samples |
| Waveforms.TimesSamples | WaveModule.py:450-466 | `f * n` has n * (len(f) - 1) + 1 samples |
| Waveforms.NullBlock | WaveModule.py:745-773 | a null block has span * rate + 1 zero samples and the given rule |
| Waveforms.Rate | WaveModule.py:723 | a waveform's rate is 1 from two samples on, else 0 |
| Waveforms.Offset | WaveModule.py:704-735 | unchanged when abs(o) < dx; fails (IndexError) exactly on an empty wave list; otherwise a new unnamed waveform of one more wave: for o > 0 a null block of abs(o) * rate + 1 samples in front of f's waves, otherwise behind them, f's waves unchanged and in order, the block hard towards them and keeping f's outer rule |
| Waveforms.SingleWave | WaveModule.py:798-811 | a one-wave list synthesizes to that wave |
| Waveforms.OffsetSamples | WaveModule.py:704-735 | an offset o != 0 adds abs(o) samples and keeps the outer rule on the side away from the new block |
| Waveforms.OffsetBelowPeriod | WaveModule.py:719-721 | an offset below one period leaves the waveform as it is |
| Waveforms.FillTotalPointAsWritten | WaveModule.py:737-743 | as written, a waveform with at least total samples is returned as is |
| Waveforms.FillTotalPointOvershoots | WaveModule.py:737-743 | as written, filling n >= 2 samples up to total > n ends at total + 1 samples |
| Waveforms.FillTotalPoint | WaveModule.py:737-743 | the corrected fill returns a waveform with at least total samples unchanged |
| Waveforms.FillTotalPointReaches | WaveModule.py:737-743 | the corrected fill reaches exactly total samples and keeps the head rule |
| Waveforms.WaveformSpan | TemplateModule.py:82-86 | a waveform's span: IndexError exactly when empty, n under the top-level rule from two samples, n - 1 under the package rule |
| Waveforms.PadWith | WaveModule.py:687-702 | the padded waveform keeps its name and its waves in order, with one null block of span·rate+1 zero samples after them (use_1st_head) or before them |
| Waveforms.PadTail | WaveModule.py:693-697 | a null block appended to a non-empty waveform adds its samples minus the shared one |
| Waveforms.PadHead | WaveModule.py:698-702 | the same for a block in front |
| Waveforms.AlignPair | WaveModule.py:651-702 | `alignwith` on values: equal sample counts change nothing; with equal flags the longer is kept and the shorter keeps its waves with a null block of the span difference at its tail (use_1st_head) or head; with differing flags each keeps its waves with a null block of the other's span, a's before and b's after them (use_1st_head) or the reverse; names kept; IndexError exactly when the counts differ and one is empty |
| Waveforms.AlignShorter | WaveModule.py:687-702 | the equal-flags branch: the longer waveform is returned untouched and the shorter keeps its name and waves, with a null block of the span difference at its tail (use_1st_head) or head; IndexError exactly when the counts differ and one is empty |
| Waveforms.PadEach | WaveModule.py:673-686 | the differing-flags branch: each waveform keeps its name and waves, with a null block of the other's span before a and after b (use_1st_head) or after a and before b; IndexError exactly when one is empty |
| Waveforms.AlignShorterExtends | WaveModule.py:687-697 | `<<=` only adds waves after the ones each side had |
| Waveforms.AlignPairEqual | WaveModule.py:671-672 | equal sample counts: alignwith changes nothing |
| Waveforms.AlignPairDiffering | WaveModule.py:674-686 | differing flags: both waveforms are padded, to the sum of the two lengths (one less under the package rule), names kept |
| Waveforms.SpanGap | WaveModule.py:688-689 | the span difference of two waveforms is their sample-count difference |
| Waveforms.PadWithSamples | WaveModule.py:687-702 | padding by a span at rate 1 adds exactly that many samples |
| Waveforms.AlignPairSame | WaveModule.py:687-702 | equal flags: only the shorter one changes and it ends as long as the longer; names kept |
| Waveforms.AlignPairEqualizes | WaveModule.py:651-702 | from two samples on (in a, and in b under the top-level rule), alignwith leaves both waveforms with the same sample count, names kept |
| Waveforms.AlignPairOneSampleWithDx | TemplateModule.py:82-86 | under the top-level rule a one-sample waveform has span 0, so aligning 3 samples with it pads it to 4, not 3 |
| WaveformObjects.Waveform.constructor | WaveModule.py:324-345 | a new waveform caches the synthesis of its list |
| WaveformObjects.Waveform.Resynthesize | WaveModule.py:374-375 | re-synthesis restores the cached axis and samples without touching list or name |
| WaveformObjects.Waveform.SetWaveList | WaveModule.py:361-375 | the setter in place: the object's new state is Waveforms.SetWaveList's, and a failure changes nothing |
| WaveformObjects.Waveform.Permute | WaveModule.py:545-561 | permute in place, as Waveforms.Permute |
| WaveformObjects.Waveform.Remove | WaveModule.py:563-582 | remove in place, as Waveforms.Remove |
| WaveformObjects.Waveform.Insert | WaveModule.py:584-605 | the insertion loop on the object's list ends in the state Waveforms.Insert gives |
| WaveformObjects.Waveform.InsertEach | WaveModule.py:603-604 | the `list.insert` loop leaves the object's list as InsertAll of the old list, and nothing else changed |
| WaveformObjects.Waveform.Replace | WaveModule.py:607-631 | the replacement loop on the object's list ends in the state Waveforms.Replace gives |
| WaveformObjects.Waveform.ReplaceEach | WaveModule.py:626-630 | the overwrite-or-append loop leaves the object's list as ReplaceAll of the old list, and nothing else changed |
| WaveformObjects.Waveform.AlignWith | WaveModule.py:651-702 | both objects take the values Waveforms.AlignPair gives, and keep their caches valid |
| Channels.Lengths | WaveModule.py:1167 | the sample count of every wire |
| Channels.PadAgainstLongest | WaveModule.py:1166-1170 | one `longest <<= wire` pass keeps the wire count |
| Channels.LongestFrom | WaveModule.py:1166-1170 | the pass loop from wire n on keeps the wire count |
| Channels.PadAgainstRef | WaveModule.py:1161-1170 | one `ref <<= wire` pass keeps the wire count |
| Channels.RefFrom | WaveModule.py:1161-1170 | the pass loop against a reference, from wire n on, keeps the wire count |
| Channels.NullWaveform | WaveModule.py:1161-1165 | a null waveform of span s at rate r has s * r + 1 samples |
| Channels.RefWaveform | WaveModule.py:1161-1165 | the null reference of a time span or a channel has span * rate + 1 samples at the aligned channel's rate |
| Channels.PadToLongest | WaveModule.py:1166-1170 | the `for waveform in wires` loop against the longest wire returns exactly the LongestFrom fold from wire 0 |
| Channels.PadToRef | WaveModule.py:1161-1170 | the same loop against an external reference returns exactly the RefFrom fold from wire 0 |
| Channels.Align | WaveModule.py:1139-1171 | `align` keeps wire count, wire names and channel name |
| Channels.AlignFalsyRef | WaveModule.py:1161-1165 | `if ref:`: a zero time span or a channel without samples aligns exactly as no reference does |
| Channels.PadWires | WaveModule.py:1139-1171 | `align` as written, reference chosen and then the wire loop, returns exactly Align's result |
| Channels.Make | WaveModule.py:874-894 | `QubitChannel(*waveforms)`: ValueError without waveforms; wire names from the waveforms, channel name empty |
| Channels.PadAgainstLongestPads | WaveModule.py:1166-1170 | a pass pads wire j to the longest wire's length, its waves kept in front, and touches nothing else |
| Channels.LongestFromPads | WaveModule.py:1166-1170 | when wire k is the longest (two samples or more) and every wire has the samples its span needs, the passes from wire n on finish what the first n began: they succeed, every wire ends at the longest's length, wire k is untouched and no name changes, and every wire starts with the waves it had |
| Channels.MakeAligned | WaveModule.py:874-894 | building a channel pads every wire to the first longest one, each wire starting with the given waveform's waves |
| Channels.LongestFromUniform | WaveModule.py:1166-1170 | wires of one length are left alone, from any wire on |
| Channels.MakeUniform | WaveModule.py:874-894 | building a channel from wires of one length keeps them as they are |
| Channels.AlignPairShorterRef | WaveModule.py:1161-1170 | a reference shorter than the wire pads only itself, and never beyond the wire |
| Channels.PadAgainstRefPads | WaveModule.py:1161-1170 | a pass against a reference grows the wire to the reference when it is shorter, its waves kept in front, otherwise only the reference may grow |
| Channels.AlignToReference | WaveModule.py:1139-1171 | aligning uniform wires of l samples to a reference leaves every wire at max(l, reference length), starting with the waves it had |
| Channels.RefFromPads | WaveModule.py:1161-1170 | against a reference of m samples over wires of l samples, the passes from wire n on succeed and leave every wire at max(l, m), names kept and each wire starting with its waves; the reference is kept when longer, else at most l |
| Channels.ChannelLengths | WaveModule.py:1173-1196 | the sample count of every channel |
| Channels.ChannelsFrom | WaveModule.py:1192-1195 | the alignment loop over channels, from channel n on, keeps the channel count |
| Channels.AlignChannels | WaveModule.py:1173-1196 | none is a ValueError, one is returned as is, otherwise the count is kept |
| Channels.PadChannels | WaveModule.py:1173-1196 | the `alignQubitChannels` loop, each channel aligned against the first longest as it stands, returns exactly AlignChannels' result |
| Channels.ChannelsStep | WaveModule.py:1192-1195 | under the package rule one loop step grows a channel to the longest's length |
| Channels.ChannelsFromEqualizes | WaveModule.py:1192-1195 | under the package rule the steps from channel n on finish what the first n began: every channel ends at the longest's length with its wire count and names |
| Channels.AlignChannelsEqualizes | WaveModule.py:1173-1196 | under the package rule every wire of every channel ends at the longest channel's length, starting with the waves it had; wire counts and names kept |
| Channels.AlignChannelsWithDxDrifts | WaveModule.py:1173-1196 | under the top-level rule two channels of m > l samples end at m + 1 and m + 2 samples |
| Channels.SetWireNames | WaveModule.py:919-935 | the given names, then '' for every further wire; wires and channel name kept |
| Channels.GetWire | WaveModule.py:937-953 | the wire at the first position with that name; ValueError for an unknown name |
| Channels.Plus | WaveModule.py:971-990 | ValueError on different wire counts; otherwise as many wires, self's wire names, empty channel name |
| Channels.PlusUniform | WaveModule.py:971-990 | wire i of the sum is wire i of self plus wire i of the operand, la + lb - 1 samples each |
| Channels.Times | WaveModule.py:992-1009 | `c * n` keeps the wire count and c's wire names |
| Channels.TimesUniform | WaveModule.py:992-1009 | every wire's list is repeated n times, n * (l - 1) + 1 samples each (RepeatedSamples) |
| Channels.WaveformsOf | WaveModule.py:1236-1262 | channel, waveform or list are accepted; anything else is a TypeError |
| Channels.AddWire | WaveModule.py:1050-1066 | the old wires followed by the new ones, with the old wires' waveform names |
| Channels.AddWireUniform | WaveModule.py:1050-1066 | wires of the channel's own length are appended unchanged |
| Channels.Null | WaveModule.py:1198-1233 | a wire count of 0 or less fails; the result has the requested number of wires |
| Channels.RepeatOne | WaveModule.py:1229-1233 | `[x] * n` is n copies of x |
| Channels.NullShape | WaveModule.py:1198-1233 | a null channel over p periods has n wires, each one null block of p + 1 samples |
| Channels.NullFromChannel | WaveModule.py:1198-1233 | under the package rule a null channel spanning like a channel of m >= 2 samples has the wire reference's wire count, and every wire is one null block of m samples |
| CircuitNames.ZipDict | QuantumCompiler/QuantumCircuit.py:55-57 | `dict(zip(names, idx))` has exactly the zipped names as keys |
| CircuitNames.Zip | QuantumCompiler/QuantumCircuit.py:55-57 | the pairs run out with the shorter sequence |
| CircuitNames.ZipAt | QuantumCompiler/QuantumCircuit.py:55-57 | a name not repeated later keeps the index paired with it |
| CircuitNames.ZipDistinct | QuantumCompiler/QuantumCircuit.py:55-57 | with no repeated name each name gets the index at its position |
| CircuitNames.Unused | QuantumCompiler/QuantumCircuit.py:61-68 | the integers below the bound that no qubit uses, ascending, all of them |
| CircuitNames.Consecutive | QuantumCircuit.py:21-30 | `range(start, start + n)` |
| CircuitNames.Resolve | QuantumCompiler/QuantumCircuit.py:141-161 | an index passes through; a name is looked up in the qubit dict, then the second dict; KeyError for neither |
| CircuitNames.CheckBounds | QuantumCompiler/QuantumCircuit.py:73-78 | accepted exactly when every index is below the row count (and a column exists); IndexError without columns, else ValueError |
| Circuits.QubitMap | QuantumCompiler/QuantumCircuit.py:55-60 | list or dict qubits are accepted, anything else is a TypeError |
| Circuits.AuxiliaryMap | QuantumCompiler/QuantumCircuit.py:61-71 | list or dict auxiliaries are accepted, anything else is a TypeError |
| Circuits.NewLayout | QuantumCompiler/QuantumCircuit.py:31-84 | len(qubit) + len(auxiliary) rows, every index below it, blockNum columns; TypeError for an unsupported container |
| Circuits.NonEmptySpec | QuantumCompiler/QuantumCircuit.py:50-71 | a non-empty specification gives a non-empty dictionary |
| Circuits.ListQubitsConsecutive | QuantumCompiler/QuantumCircuit.py:55-57 | distinct list-form qubits get rows 0..n-1 in list order |
| Circuits.ListAuxiliaryUnused | QuantumCompiler/QuantumCircuit.py:61-68 | distinct list-form auxiliaries get the unused rows in ascending order |
| Circuits.WidenBoth | QuantumCompiler/QuantumCircuit.py:115-126 | the diagram and the gate-name grid are widened together and keep one shape |
| Circuits.PlaceGate | QuantumCompiler/QuantumCircuit.py:113-128 | a successful entry writes the gate's channel into the widened diagram at the resolved cell |
| Circuits.PlaceEntries | QuantumCompiler/QuantumCircuit.py:113-128 | the entry loop keeps both grids framed and shaped alike |
| Circuits.AssignGate | QuantumCompiler/QuantumCircuit.py:109-128 | gate mode on a circuit without rows is an IndexError that changes nothing |
| Circuits.AssignChannel | QuantumCompiler/QuantumCircuit.py:129-139 | corrected channel mode: both grids widened, so they keep one shape |
| Circuits.AssignChannelAsWritten | QuantumCompiler/QuantumCircuit.py:129-139 | as written, channel mode never touches the gate-name grid |
| Circuits.AssignChannelPlaces | QuantumCompiler/QuantumCircuit.py:129-139 | a successful channel assignment fills the addressed cell, keeps every other cell, and never shrinks the grid |
| Circuits.PlaceGateShapedSucceeds | QuantumCompiler/QuantumCircuit.py:113-128 | with both grids one shape, a writable gate entry also gets its gate name written |
| Circuits.GateAfterChannelAsWritten | QuantumCompiler/QuantumCircuit.py:113-139 | as written, a gate assigned to a column a channel opened fails with IndexError after writing its channel |
| Circuits.GateAfterChannel | QuantumCompiler/QuantumCircuit.py:113-139 | corrected, the same two assignments succeed and the gate name lands beside the channel |
| Circuits.ChannelOpensColumn | QuantumCompiler/QuantumCircuit.py:129-139 | corrected, a channel at column 1 of a one-by-one circuit leaves both grids one row by two columns |
| Circuits.GateIntoOpenColumn | QuantumCompiler/QuantumCircuit.py:113-128 | a gate entry for column 1 of a one-row, two-column circuit writes the channel and the gate name |
| Circuits.Circuit.Init | QuantumCompiler/QuantumCircuit.py:50-83 | a blank rows × blocks diagram and gate-name grid, nothing compiled |
| Circuits.Circuit.New | QuantumCompiler/QuantumCircuit.py:31-84 | the circuit built from NewLayout, or its error |
| Circuits.Circuit.GetIndex | QuantumCompiler/QuantumCircuit.py:141-161 | `get_index` resolves qubits first, then auxiliaries |
| Circuits.Circuit.Assign | QuantumCompiler/QuantumCircuit.py:93-128 | gate mode in place: the new grids and error are AssignGate's; dictionaries and compilation untouched |
| Circuits.Circuit.AssignChannelAt | QuantumCompiler/QuantumCircuit.py:129-139 | channel mode in place, as written: the new grids and error are AssignChannelAsWritten's, which widens only the diagram; the gate names stay the diagram's rows and never wider |
| Circuits.Circuit.SetItem | QuantumCompiler/QuantumCircuit.py:308-328 | the row is resolved first (KeyError, nothing changes); a pair goes to gate mode (AssignGate), a channel to channel mode as written (AssignChannelAsWritten) |
| Circuits.Circuit.GetItem | QuantumCompiler/QuantumCircuit.py:330-347 | `circuit[row, t]`: KeyError for an unknown name, else the cell read with numpy's index rules |
| Circuits.Circuit.Compile | QuantumCompiler/QuantumCircuit.py:251-289 | the diagram is untouched and its copy kept; a diagram without rows or with an unassigned row is a ValueError; compiled rows stored on success, kept on failure |
| CircuitGrid.Blank | QuantumCompiler/QuantumCircuit.py:50-53 | a rows × cols grid of one value |
| CircuitGrid.Widen | QuantumCompiler/QuantumCircuit.py:115-121 | extra columns of the fill value on the right; old cells kept |
| CircuitGrid.WidenTo | QuantumCompiler/QuantumCircuit.py:115-121 | widened to column t when needed; never shrinks; old cells kept, new ones the fill value |
| CircuitGrid.Write | QuantumCompiler/QuantumCircuit.py:127-128 | `g[r, t] = v`: IndexError exactly out of range; otherwise only that cell changes |
| CircuitGrid.Read | QuantumCompiler/QuantumCircuit.py:345-347 | `g[r, t]`: IndexError exactly out of range; otherwise that cell |
| CircuitGrid.KeptColumns | QuantumCompiler/QuantumCircuit.py:263-266 | exactly the assigned columns, ascending |
| CircuitGrid.Select | QuantumCompiler/QuantumCircuit.py:265 | `g[:, ks]`: the listed columns of every row |
| CircuitGrid.FilledRows | QuantumCompiler/QuantumCircuit.py:268-271 | exactly the rows whose cell in column t holds a channel, ascending |
| CircuitGrid.ChannelsAt | QuantumCompiler/QuantumCircuit.py:268-271 | the channels of those cells, in order |
| CircuitGrid.WriteBack | QuantumCircuit.py:151-155 | the aligned channels written back into their cells; every other column kept |
| CircuitGrid.AlignColumn | QuantumCompiler/QuantumCircuit.py:268-271 | aligning a column keeps the shape and which cells are filled |
| CircuitGrid.AlignFrom | QuantumCompiler/QuantumCircuit.py:268-271 | the column loop keeps the shape and which cells are filled |
| CircuitGrid.FirstFilledRow | QuantumCompiler/QuantumCircuit.py:281 | `np.where(...)[0][0]` over a column: the first filled row, none when all are empty |
| CircuitGrid.FirstFilledRowFrom | QuantumCompiler/QuantumCircuit.py:281 | the same search from row i on |
| CircuitGrid.FirstFilled | QuantumCompiler/QuantumCircuit.py:282 | the first filled cell of a row, none when the row has no channel |
| CircuitGrid.FillCell | QuantumCompiler/QuantumCircuit.py:277-285 | one pass fills the cell, changes nothing else, and leaves a filled cell alone |
| CircuitGrid.SetCell | QuantumCompiler/QuantumCircuit.py:283-285 | `grid[q][t] = c` changes only that cell |
| CircuitGrid.FillRowFrom | QuantumCompiler/QuantumCircuit.py:278-285 | the inner loop keeps the shape |
| CircuitGrid.FillFrom | QuantumCompiler/QuantumCircuit.py:277-285 | the outer loop keeps the shape |
| CircuitGrid.RowSums | QuantumCompiler/QuantumCircuit.py:286-287 | one sum per row |
| CircuitGrid.Kept | QuantumCompiler/QuantumCircuit.py:263-266 | dropping columns keeps the rows |
| CircuitGrid.Compiled | QuantumCompiler/QuantumCircuit.py:251-289 | a diagram without rows, or with an unassigned row, is a ValueError before anything else; success gives one channel per row |
| CircuitGrid.AlignLoop | QuantumCompiler/QuantumCircuit.py:268-271 | the column loop computes AlignFrom |
| CircuitGrid.FillRowLoop | QuantumCompiler/QuantumCircuit.py:279-285 | the inner fill loop computes FillRowFrom |
| CircuitGrid.FillLoop | QuantumCompiler/QuantumCircuit.py:277-285 | the outer fill loop computes FillFrom |
| CircuitGrid.Compile | QuantumCompiler/QuantumCircuit.py:251-289 | the compile steps compute Compiled |
| CircuitGrid.Outcome | QuantumCompiler/QuantumCircuit.py:286-289 | an error exactly on failure; success stores the rows, failure keeps the previous ones |
| CircuitGrid.CompileRows | QuantumCircuit.py:135-166 | the compilation loops give Outcome of Compiled |
| CircuitGrid.KeptAssigned | QuantumCompiler/QuantumCircuit.py:259-266 | after dropping the empty columns every row and every column holds a channel |
| CircuitGrid.FillCellFills | QuantumCompiler/QuantumCircuit.py:279-285 | one cell keeps the inner loop's invariant |
| CircuitGrid.FillRowFromFilled | QuantumCompiler/QuantumCircuit.py:279-285 | the inner loop fills its row before the end |
| CircuitGrid.FillRowFills | QuantumCompiler/QuantumCircuit.py:279-285 | the inner loop fills its row and changes no other cell |
| CircuitGrid.FillRowKeeps | QuantumCompiler/QuantumCircuit.py:277-285 | one row keeps the outer loop's invariant |
| CircuitGrid.FillFromFilled | QuantumCompiler/QuantumCircuit.py:277-285 | the outer loop fills every row |
| CircuitGrid.FillFills | QuantumCompiler/QuantumCircuit.py:277-285 | null filling fills every cell and leaves the filled ones alone |
| CircuitGrid.FirstFilledWrite | QuantumCompiler/QuantumCircuit.py:282-285 | filling an empty cell leaves the row's first channel in place or moves it to that cell |
| CircuitGrid.FillCellWires | QuantumCompiler/QuantumCircuit.py:282-285 | one cell keeps the wire-count invariant |
| CircuitGrid.FillRowFromWires | QuantumCompiler/QuantumCircuit.py:279-285 | the inner loop keeps the wire-count invariant |
| CircuitGrid.FillRowWires | QuantumCompiler/QuantumCircuit.py:277-285 | every null channel in a row has as many wires as the row's first channel |
| CircuitGrid.SumCellsFilled | QuantumCompiler/QuantumCircuit.py:286-287 | a row adds up only when every cell holds a channel (TypeError otherwise), and the sum keeps the first channel's wire count |
| CircuitGrid.ColumnMaxAttained | QuantumCompiler/QuantumCircuit.py:268-271 | a column holding a channel has one whose sample count is the column's largest |
| CircuitGrid.LongestIsColumnMax | QuantumCompiler/QuantumCircuit.py:268-271 | the longest channel `alignQubitChannels` picks in a column has the column's largest sample count |
| CircuitGrid.AlignChannelsToLongest | WaveModule.py:1173-1196 | under the package span rule, aligning one or more well-formed channels succeeds and brings every wire to the longest channel's sample count, each wire starting with the waves it had, wire counts kept |
| CircuitGrid.AlignColumnEqualizes | QuantumCompiler/QuantumCircuit.py:268-271 | under the package span rule, aligning a column that holds a channel pads every channel in it to the column's largest sample count, wire by wire, each wire starting with the waves it had, and changes no other column |
| CircuitGrid.PaddedKeeps | QuantumCompiler/QuantumCircuit.py:268-271 | a padded column keeps the grid well formed and every other column's largest sample count |
| CircuitGrid.PaddedCompose | QuantumCompiler/QuantumCircuit.py:268-271 | padding column t and then the columns after it pads every column from t on |
| CircuitGrid.AlignFromAligns | QuantumCompiler/QuantumCircuit.py:268-271 | under the package span rule, the column loop over well-formed columns that each hold a channel succeeds and leaves every channel of every column at that column's largest sample count, each wire starting with the waves it had, shape and filledness kept |
| CircuitGrid.FirstOfColumn | QuantumCompiler/QuantumCircuit.py:281 | in a shaped grid the first channel of a column has the column's sample count |
| CircuitGrid.FirstOfRow | QuantumCompiler/QuantumCircuit.py:282 | in a shaped grid the first channel of a row has the row's wire count |
| CircuitGrid.FillCellShapes | QuantumCompiler/QuantumCircuit.py:277-285 | under the package span rule, filling a cell of a shaped grid succeeds, and a null channel put there spans like the first channel of its column with the wire count of its row |
| CircuitGrid.FillShapes | QuantumCompiler/QuantumCircuit.py:277-285 | under the package span rule, the null-filling loops fill every cell of a shaped grid, keep the channels already there, and give every inserted null channel its row's wire count and, wire by wire, one null block of its column's sample count |
| CircuitGrid.SumCellsShapes | QuantumCompiler/QuantumCircuit.py:286-287 | under the package span rule, the first n cells of a row of channels of w wires add up to w wires of the joined sample count, wire k being wire k of every cell, their wave lists one after another |
| CircuitGrid.RowSumsCells | QuantumCompiler/QuantumCircuit.py:286-287 | `np.sum(diagram, axis=1)` succeeds exactly when every row's cells add up, and sum q is then what row q adds up to |
| CircuitGrid.RowSumsShapes | QuantumCompiler/QuantumCircuit.py:286-287 | under the package span rule, summing the rows of a fully filled shaped grid succeeds, and every sum joins its row with the row's wire count |
| CircuitGrid.KeptShapes | QuantumCompiler/QuantumCircuit.py:263-266 | dropping the empty columns keeps every channel well formed and every row's wire count |
| CircuitGrid.WellShapedCompiles | QuantumCompiler/QuantumCircuit.py:267-289 | under the package span rule, aligning, filling and summing a well-shaped grid succeeds, through a full grid of the columns' largest sample counts whose null channels stand where the grid was empty and whose other channels are the grid's with every wire starting with the waves it had, and every sum joins its filled row |
| CircuitGrid.PulsesSurviveFill | QuantumCompiler/QuantumCircuit.py:277-280 | filling leaves the aligned channels in place, so each still starts with the waves assigned to it |
| CircuitGrid.CompiledShapes | QuantumCompiler/QuantumCircuit.py:251-289 | under the package span rule, a diagram with rows, every row assigned, every channel well formed and one wire count per row compiles to one channel per row; compiled row q joins filled row q, wire by wire; every assigned channel is still in its kept cell with each wire starting with the waves assigned to it, so the assigned pulses reach the compiled rows; kept column j holds the column's largest sample count on every wire, and a cell that was empty holds a null channel of that sample count with the row's wire count |
| LegacyCircuits.NameMaps | QuantumCircuit.py:20-34 | list or dict qubit and readout arguments are accepted; anything else is a TypeError |
| LegacyCircuits.BoundsAsWritten | QuantumCircuit.py:36-40 | as written, only an index above the row count is rejected |
| LegacyCircuits.NewLayoutAsWritten | QuantumCircuit.py:15-42 | as written, len(qubit) + len(readout) rows and every index at most that count |
| LegacyCircuits.NewLayout | QuantumCircuit.py:15-42 | corrected, every index is below the row count |
| LegacyCircuits.BoundsDiffer | QuantumCircuit.py:36-40 | the two checks differ exactly when an index equals the row count |
| LegacyCircuits.RowCountAccepted | QuantumCircuit.py:36-40 | as written, row 1 of a one-row circuit is accepted and then fails on assignment; corrected, it is a ValueError |
| LegacyCircuits.ListReadoutRows | QuantumCircuit.py:27-30 | list-form readouts get rows len(qubit) + i |
| LegacyCircuits.Place | QuantumCircuit.py:91-111 | a placement succeeds exactly when row, key and cell are valid, then writes only that cell; the grid never shrinks |
| LegacyCircuits.PlaceAll | QuantumCircuit.py:91-101 | the entry loop keeps the grid rectangular and never shrinks it |
| LegacyCircuits.PlaceAllResolves | QuantumCircuit.py:91-101 | an error-free gate assignment found every key and every row |
| LegacyCircuits.LegacyCircuit.Init | QuantumCircuit.py:16-34 | a blank diagram and the two dictionaries |
| LegacyCircuits.LegacyCircuit.New | QuantumCircuit.py:15-42 | the circuit built from NewLayoutAsWritten, whose check lets an index equal to the row count through, or its error |
| LegacyCircuits.LegacyCircuit.SetQubitDict | QuantumCircuit.py:56-59 | a mapping of another size is a ValueError and changes nothing |
| LegacyCircuits.LegacyCircuit.SetReadoutDict | QuantumCircuit.py:66-69 | the same for readouts |
| LegacyCircuits.LegacyCircuit.SetName | QuantumCircuit.py:48-49 | only the name changes |
| LegacyCircuits.LegacyCircuit.GetIndex | QuantumCircuit.py:113-133 | qubits first, then readouts |
| LegacyCircuits.LegacyCircuit.Assign | QuantumCircuit.py:71-101 | gate mode in place, as PlaceAll |
| LegacyCircuits.LegacyCircuit.AssignChannel | QuantumCircuit.py:102-111 | channel mode in place, as Place |
| LegacyCircuits.LegacyCircuit.CompileCkt | QuantumCircuit.py:135-166 | the diagram is left alone; a diagram without rows or with an unassigned row is a ValueError; compiled rows stored on success under the top-level span rule |
| Gates.Empty | QuantumCompiler/TemplateModule.py:469-473 | the empty dictionary |
| Gates.Put | QuantumCompiler/TemplateModule.py:510-523 | `d[k] = v`: a new key goes to the end, an existing one keeps its place |
| Gates.Lookup | QuantumCompiler/TemplateModule.py:525-540 | `d[k]`: KeyError exactly for a missing key |
| Gates.Size | TemplateModule.py:459-460 | `len(d)` is the number of mapped keys |
| Gates.DistinctCard | QuantumCompiler/TemplateModule.py:484-489 | distinct keys number as many as their sequence |
| Gates.LookupAfterPut | QuantumCompiler/TemplateModule.py:510-540 | a key reads back the value written; every other key reads as before |
| Gates.FirstOccurrencesElements | TemplateModule.py:444-448 | first occurrences hold exactly the names of the sequence |
| Gates.Names | TemplateModule.py:444-448 | the channel names in order |
| Gates.Keyed | TemplateModule.py:444-448 | `{qc.name: qc for qc in channels}` is a well-formed dictionary |
| Gates.KeyedKeys | QuantumCompiler/TemplateModule.py:469-473 | keys in order of first appearance, each once |
| Gates.KeyedValues | QuantumCompiler/TemplateModule.py:469-473 | each name holds the last channel of that name |
| Gates.LastNamedExtends | QuantumCompiler/TemplateModule.py:469-473 | a later channel of another name does not displace a name's channel |
| Gates.Gate.Init | QuantumCompiler/TemplateModule.py:469-473 | a gate over a dictionary, unnamed |
| Gates.Gate.New | QuantumCompiler/TemplateModule.py:469-473 | no channel is an IndexError; otherwise the channels aligned against each other and keyed by name |
| Gates.Gate.NumOfQubits | QuantumCompiler/TemplateModule.py:484-485 | the dictionary size |
| Gates.Gate.QubitNames | QuantumCompiler/TemplateModule.py:488-489 | the keys in insertion order, as many as the dictionary size |
| Gates.Gate.Get | TemplateModule.py:477-492 | `gate @ name` and `gate[name]`: the stored channel, KeyError when missing |
| Gates.Gate.Set | QuantumCompiler/TemplateModule.py:510-523 | `gate[name] = qc` changes only that key, and reading it gives qc |
| Gates.Gate.SetName | QuantumCompiler/TemplateModule.py:480-481 | only the name changes |
| GateDesign.DisposePoint | QuantumCompiler/Gate_Design.py:12-18 | the longest prefix whose length is a multiple of 10: fewer than 10 removed, none when already a multiple |
| WavetoolsV6.Step | OldArchives/WavetoolsV6.py:1234-1268 | one iteration keeps the loop invariant; only soft/soft with an empty side fails (IndexError) |
| WavetoolsV6.Joined | OldArchives/WavetoolsV6.py:1249-1267 | a join extends the axis by the shifted part and makes its end the offset |
| WavetoolsV6.Run | OldArchives/WavetoolsV6.py:1234-1268 | the loop keeps the invariant |
| WavetoolsV6.Synthesize | OldArchives/WavetoolsV6.py:1211-1268 | the V6 `_synthesize` loop computes Run from the start state |
| WavetoolsV6.LeadingEmptySkipped | OldArchives/WavetoolsV6.py:1238-1248 | leading empty waves leave no trace |
| WavetoolsV6.JoinForm | OldArchives/WavetoolsV6.py:1249-1267 | hard/hard keeps both waves whole (a + b, the right starting one dx later); the other pairs overlap by one sample (a + b - 1) |
| WavetoolsV6.JoinSize | OldArchives/WavetoolsV6.py:1249-1267 | a join keeps the loop invariant, remembers the new wave and adds its length less the junction's loss |
| WavetoolsV6.JoinHardHard | OldArchives/WavetoolsV6.py:1257-1260 | the hard/hard case |
| WavetoolsV6.JoinMixed | OldArchives/WavetoolsV6.py:1251-1256 | the hard/soft and soft/hard cases |
| WavetoolsV6.JoinSoftSoft | OldArchives/WavetoolsV6.py:1261-1265 | the soft/soft average |
| WavetoolsV6.RunLength | OldArchives/WavetoolsV6.py:1234-1268 | non-empty waves always join, each adding its length less its junction's loss |
| WavetoolsV6.SynthLength | OldArchives/WavetoolsV6.py:1211-1268 | non-empty waves synthesize to Length samples and remember the last wave |
| WavetoolsV6.GrowthConcat | OldArchives/WavetoolsV6.py:1234-1268 | growth adds up over concatenated lists |
| WavetoolsV6.LengthAppend | OldArchives/WavetoolsV6.py:1234-1268 | an appended wave adds its length less the loss at its junction |
| WavetoolsV6.LengthPrepend | OldArchives/WavetoolsV6.py:1234-1268 | the same for a wave in front |
| WavetoolsV6.RunConcat | OldArchives/WavetoolsV6.py:1234-1268 | running over a concatenation runs over each part in turn |
| WavetoolsV6.NullBlock | OldArchives/WavetoolsV6.py:1171-1208 | int(span + 1) - 1 zero samples with the given rule; a negative point count is a ValueError |
| WavetoolsV6.Make | OldArchives/WavetoolsV6.py:745-766 | a waveform exists exactly when its list synthesizes |
| WavetoolsV6.SetWaveList | OldArchives/WavetoolsV6.py:782-797 | an empty list is a ValueError; otherwise a new synthesis |
| WavetoolsV6.AppendRule | OldArchives/WavetoolsV6.py:799-811 | first head and last tail; IndexError when empty |
| WavetoolsV6.WaveformPeriod | OldArchives/WavetoolsV6.py:57-64 | a waveform's dx is 0 or 1 |
| WavetoolsV6.EmptyListEmptyAxis | OldArchives/WavetoolsV6.py:1234-1248 | no waves, no samples |
| WavetoolsV6.Offset | OldArchives/WavetoolsV6.py:1136-1168 | unchanged when abs(o) < dx; ZeroDivisionError when dx is 0; otherwise a new unnamed waveform with one more wave: a hard null block of o samples (o + 1 after a soft head) in front of the waves for o > 0, and for o <= 0 the waves followed by a hard block without samples |
| WavetoolsV6.OffsetForward | OldArchives/WavetoolsV6.py:1151-1161 | a positive offset adds exactly o samples in front and keeps the tail rule |
| WavetoolsV6.OffsetBackwardDropsSample | OldArchives/WavetoolsV6.py:1162-1168 | as written, -1 on a soft tail drops a sample while the axis keeps its length |
| WavetoolsV6.OffsetBackwardFails | OldArchives/WavetoolsV6.py:1162-1168 | as written, a larger backward offset asks for a negative point count (ValueError) |
| WavetoolsV6.SpanOf | OldArchives/WavetoolsV6.py:29-31 | IndexError exactly when empty; n - 1 on the unit grid |
| WavetoolsV6.AlignWith | OldArchives/WavetoolsV6.py:1072-1122 | equal sample counts change nothing |
| WavetoolsV6.PadBoth | OldArchives/WavetoolsV6.py:1094-1104 | differing flags: an empty first waveform is an IndexError; on success both keep their names and waves in order, each with one null block added, a's in front and b's behind (use_1st_head) or the reverse |
| WavetoolsV6.PadShorter | OldArchives/WavetoolsV6.py:1106-1122 | equal flags: names kept, and the longer waveform is returned untouched |
| WavetoolsV6.SamplesMatchAxis | OldArchives/WavetoolsV6.py:1211-1268 | non-empty waves give as many samples as axis points |
| WavetoolsV6.AddNonEmpty | OldArchives/WavetoolsV6.py:1095-1122 | adding a non-empty block keeps every wave non-empty |
| WavetoolsV6.PadEqualizes | OldArchives/WavetoolsV6.py:1106-1122 | padding by the sample-count difference brings the shorter one to the longer's length, on either side |
| WavetoolsV6.PadBlock | OldArchives/WavetoolsV6.py:1106-1122 | the block is one period longer when the shorter's abutting end is soft, and takes the longer's outer rule |
| WavetoolsV6.PadValue | OldArchives/WavetoolsV6.py:1106-1122 | `Pad` sets the shorter waveform's list to its own waves, in order, plus that block at its tail (use_1st_head) or its head, and keeps its name |
| WavetoolsV6.PadAtTail | OldArchives/WavetoolsV6.py:1111-1116 | tail padding reaches the longer's length |
| WavetoolsV6.PadAtHead | OldArchives/WavetoolsV6.py:1117-1122 | head padding reaches the longer's length |
| WavetoolsV6.PadShorterSpan | OldArchives/WavetoolsV6.py:1107 | on the unit grid the span difference is the sample-count difference |
| WavetoolsV6.AlignWithSameFlagsEqualizes | OldArchives/WavetoolsV6.py:1106-1122 | equal flags: both end at the longer's length, the longer untouched |
| Wavetools1.Zeros | OldArchives/Wavetools.py:357-366 | n zero samples |
| Wavetools1.PyPrefix | OldArchives/Wavetools.py:367-369 | Python's `s[:k]`, a negative k counting from the end, both ends clamped |
| Wavetools1.PyDrop | OldArchives/Wavetools.py:367-369 | Python's `s[p:]` |
| Wavetools1.Points | OldArchives/Wavetools.py:357 | `int(abs(offset/dx))` is |offset| points on the unit grid |
| Wavetools1.Linspace | OldArchives/Wavetools.py:360-362 | numpy's `linspace(a, b, n)`: n points from a, ending at b from two points on |
| Wavetools1.LinspaceUnitStep | OldArchives/Wavetools.py:360-362 | `linspace(a, a + p - 1, p)` steps by one |
| Wavetools1.AddOffsetAsWritten | OldArchives/Wavetools.py:332-373 | as written: reset returns the recorded wave (the wave itself for another dict, TypeError for list variables); offset >= 0 always succeeds with the axis continued on the unit grid and `pnts` zeros at tail or head; offset < 0 keeps a prefix of the axis of at least two points and a prefix or suffix of the samples, or fails with IndexError; unnamed, recording the wave it came from |
| Wavetools1.OffsetAxisIsLinspace | OldArchives/Wavetools.py:357-363 | the axis a non-negative offset appends is `linspace(2*x[-1] - x[-2], x[-1] + offset, pnts)` point for point |
| Wavetools1.AddOffset | OldArchives/Wavetools.py:332-373 | reset gives back the recorded wave (the wave itself without a record, TypeError for list variables); offset >= 0 adds that many zeros at tail or head; offset < 0 cuts that many samples; IndexError below two samples |
| Wavetools1.ResetUndoesOffset | OldArchives/Wavetools.py:352-356 | resetting an offset wave gives back the original |
| Wavetools1.AddOffsetAgrees | OldArchives/Wavetools.py:332-373 | wherever the clamped cut succeeds, the code as written gives the same wave |
| Wavetools1.CutAgrees | OldArchives/Wavetools.py:367-369 | the cut case of that agreement |
| Wavetools1.AddOffsetOverdraw | OldArchives/Wavetools.py:367-369 | as written, cutting 4 off 3 samples leaves 2 axis points and no sample |
| Wavetools1.WithScalar | OldArchives/Wavetools.py:485-491 | `w + c`, `w - c`, `w * c` keep axis, name and record |
| Wavetools1.DivScalar | OldArchives/Wavetools.py:594-618 | `w / c`: each result sample times c is the original |
| Wavetools1.Neg | OldArchives/Wavetools.py:414-424 | `-w` flips the sign of every sample |
| Wavetools1.NegInvolutive | OldArchives/Wavetools.py:414-424 | `-(-w) == w` |
| Wavetools1.Reverse | OldArchives/Wavetools.py:676-691 | `reverse()` reverses the samples over the same axis |
| Wavetools1.ReverseInvolutive | OldArchives/Wavetools.py:676-691 | reversing twice gives the wave back |
| Wavetools1.NegReverseCommute | OldArchives/Wavetools.py:414-424 | sign flip and reversal commute |
| Wavetools1.Combine | OldArchives/Wavetools.py:470-504 | wave (+,-,*) wave: the longer's axis, the prefix combined, the tail passed through, no name and no offset record |
| Wavetools1.SubtractsShorterFromLonger | OldArchives/Wavetools.py:511-545 | subtraction takes the shorter from the longer |
| Wavetools1.AddMulCommuteOnSamples | OldArchives/Wavetools.py:552-587 | `+` and `*` commute on the samples |
| Wavetools1.Step | OldArchives/Wavetools.py:1192-1210 | one iteration keeps the invariant and leaves a non-empty axis |
| Wavetools1.Run | OldArchives/Wavetools.py:1189-1211 | the loop keeps the invariant |
| Wavetools1.Synthesize | OldArchives/Wavetools.py:1167-1211 | the V1 `_synthesize` loop computes Run |
| Wavetools1.RunLength | OldArchives/Wavetools.py:1189-1211 | each join adds len(w), less one in overlap mode |
| Wavetools1.SynthLength | OldArchives/Wavetools.py:1189-1211 | overlap mode loses one sample per junction, plain mode none; at least two samples |
| Wavetools1.TotalBound | OldArchives/Wavetools.py:328-329 | every V1 wave has at least two samples |
| Wavetools1.RunConcatenates | OldArchives/Wavetools.py:1207-1209 | plain mode appends samples unchanged |
| Wavetools1.PlainConcatenates | OldArchives/Wavetools.py:1189-1211 | without overlap the samples are all the waves' samples in order |
| Wavetools1.Waveform1.Init | OldArchives/Wavetools.py:720-749 | the fields as given |
| Wavetools1.Waveform1.New | OldArchives/Wavetools.py:720-749 | an empty list is an IndexError; otherwise a synthesized waveform |
| Wavetools1.Waveform1.SetWaveList | OldArchives/Wavetools.py:751-771 | an empty list changes nothing; any other is stored and then raises TypeError with the old samples |
| Wavetools1.Waveform1.Contains | OldArchives/Wavetools.py:818-833 | one flag per wave, true exactly where it is the given wave |
| Wavetools1.Waveform1.In | OldArchives/Wavetools.py:818-833 | as written, `w in f` is true exactly when the list is non-empty |
| Wavetools1.Waveform1.Member | OldArchives/Wavetools.py:818-833 | the intended membership: some flag is true |
| Wavetools1.InIgnoresTheWave | OldArchives/Wavetools.py:818-833 | as written, a waveform "contains" a wave it does not hold |
| Wavetools1.ChannelAdd | OldArchives/Wavetools.py:1365-1385 | different wire counts give None; equal counts raise TypeError in the waveform addition |

## Left out

- Plotting, viewing, drawing, FFT, `psd`, `diff`, `__str__`, `save`/`load`, path dialogs and interpolation (`__matmul__` on waves and channels) are display, numerics or I/O.
- The circuits' `__matmul__` only reads `compiled[row].y` and is not modelled.
- Time rounding (`EFF_TIME_DIGIT`, `EFF_FREQ_DIGIT`) and non-integer spans are not modelled. Time is integer sample periods, and offsets are whole periods.
- `ShapeModule` is not part of this model. A null block is a run of zero samples whose count follows `span * rate + 1`.
- The `Namables` base class of the package circuit is not part of this model. Neither is the package-local wave module it imports; `WaveModule.py` with the package span rule stands in for it.
- Object identity and aliasing are not modelled: values are compared by value, and an update in place reaches only the value it is applied to. This shows in these places:
  - `if waveform is not longest` in `align`;
  - `self is waveObj` in wave arithmetic;
  - `QubitChannel.null` repeating one shared waveform object;
  - V1 `__contains__`, which uses `is`;
  - the package circuit's `compildDiagram`, whose channel objects alignment pads in place;
  - the channel constructor, which keeps the caller's waveform objects (WaveModule.py:888), so `align` pads the caller's waveforms in place with `longest <<= waveform` (WaveModule.py:1165-1167);
  - `add_wire`, which rebuilds a channel from the old channel's waveform objects (WaveModule.py:1066), so adding a wire also pads the old channel's and the caller's waveforms;
  - the first circuit's `assign`, which stores the channel object itself (QuantumCircuit.py:101, 111); when one object sits in several cells, as in the file's own demo (QuantumCircuit.py:245-253), `compileCkt` pads that shared object once per cell and column, so its compiled rows can differ from the per-cell values the model sums.
- Circuits.Circuit.Compile: keeps `compildDiagram` as the unaligned copy. In the source it shares channel objects with the aligned grid.
- LegacyCircuits.LegacyCircuit.CompileCkt: keeps the diagram unchanged. In the source, alignment pads the channel objects stored in `self.diagram` itself, because nothing is copied. A channel object assigned to several cells is padded once per cell, so the compiled rows are the model's only when no object is shared.
- WaveformObjects.Waveform.AlignWith: when the second `waveList` assignment fails, the model keeps both waveforms unchanged. The source keeps the first assignment. The same partial update is not modelled for version 6's `alignwith`.
- Waves.DivideByNumber and Wavetools1.DivScalar require a non-zero divisor. numpy's `inf`/`nan` results have no counterpart in `real`.
- `c / w` (`__rtruediv__`) is evaluated as `w / c` and is not modelled on its own.
- `Wave.__pos__`, `Waveform.__pos__`, `toWaveform`, `toQubitChannel` and `Waveform.__invert__` (a one-wire channel) are copies or wrappers and are not modelled separately. `~wave` is Waveforms.FromWave.
- `Waveform.split` and `QubitChannel.add_null_wire` are not modelled. `add_null_wire` is `null` followed by `add_wire`, both of which are modelled.
- `QubitChannel.__truediv__` is `add_wire` (Channels.AddWire).
- `>>`/`<<` are `offset(±o)` and `>>=`/`<<=` are `alignwith` with both flags False or True. They are covered by Waveforms.Offset and WaveformObjects.Waveform.AlignWith.
- The `appendRule` setter of a wave and the name setters are plain field writes.
- AlignFrom: its own contract states only that shape and filledness are kept. That every kept column ends aligned is stated by CircuitGrid.AlignFromAligns, under the package span rule and for well-formed channels. Under the top-level span rule columns do not end aligned (Channels.AlignChannelsWithDxDrifts).
- Common.Repeat: its own contract states only the prefix and the elements. Common.RepeatSize gives the exact length.
- Channels.Align, Channels.Plus, Channels.Times, Channels.AddWire and Channels.Null: their own contracts state shape and names. The sample counts are in the lemmas beside them, which need enough samples for a span to be meaningful.
- Version 6's `permute`/`remove`/`insert`/`replace` and waveform `+`/`*` have the same list logic as `WaveModule.py` (Waveforms). They are not restated over version 6's synthesis; WavetoolsV6.SetWaveList and WavetoolsV6.Make synthesize any list they produce.
- Version 6's `>>` and `<<` pass an `add_tail` argument that version 6's `offset` does not accept, so they raise TypeError. WavetoolsV6.Offset models `offset` itself.
- Version 6's `QubitChannel`, `split` and `toQubitChannel` are not modelled.
- Version 6's Wave operators (`-w`, `+`, `-`, `*` and their reflected forms, OldArchives/WavetoolsV6.py:498-558 and on) compute the samples `WaveModule.py`'s do. Waves models them once. The `variables` record they attach is not modelled. Version 6's wave division by a number is Waves.DivideByNumber.
- In the first version, `permute`, `remove`, `insert`, `replace`, `_offset`, `set_appendOverlap` and waveform `+`/`*` all end in a getter call that lacks its `show` argument. That raises TypeError. Wavetools1.Waveform1.SetWaveList and Wavetools1.ChannelAdd model this; the list logic before it is the one in Waveforms.
- Wavetools1.WellFormed: a first-version wave's axis is the unit grid `0, 1, …, n-1`, as for `Waves.Wave`. Its shape function may return any `linspace` axis. On an axis of step dx, `add_offset` counts `int(abs(offset/dx))` points stepping by dx; waves on such axes are not modelled.
- Wavetools1.AddOffsetAsWritten and Wavetools1.AddOffset: offsets are whole periods. On the unit grid `pnts` is |offset| (Wavetools1.Points), and the appended axis is the source's `linspace` (Wavetools1.OffsetAxisIsLinspace).

## Findings

| source | as written | input that shows it | evidently intended | confidence | as-written member | corrected member |
|---|---|---|---|---|---|---|
| QuantumCompiler/QuantumCircuit.py:129-139 | channel-mode `assign` widens the diagram but not the gate-name grid | a channel at column 1 of a one-column circuit, then a gate at column 1 | both grids widened together, as gate mode does | not executed | Circuits.GateAfterChannelAsWritten | Circuits.AssignChannel |
| QuantumCircuit.py:36-40 | the index check rejects only `val > len(diagram)` | dict qubit `{'q': 1}` with one row | reject `val >= len(diagram)`, as the package circuit does | not executed | LegacyCircuits.RowCountAccepted | LegacyCircuits.NewLayout |
| WaveModule.py:208-211 | `c - w` returns `w - c` | `1 - w` with `w.y = [0]` gives `[-1]` | `c - w.y` | not executed | Waves.ReflectedSubtractionCounterexample | Waves.ReflectedSubFixed |
| WaveModule.py:1173-1196 | under the top-level span rule (`x[-1] - x[0] + dx`), `alignQubitChannels` grows the longest channel against its own span, so channels end one sample apart | two channels of 3 and 2 samples end at 4 and 5 | every channel at the longest's length, which the package span rule gives | not executed | Channels.AlignChannelsWithDxDrifts | Channels.AlignChannelsEqualizes |
| OldArchives/Wavetools.py:367-369 | a negative offset past the length wraps the slice stop round from the end | `add_offset(-4)` on 3 samples leaves 2 axis points and no sample | a cut clamped at zero, so fewer than two samples left is an IndexError | not executed | Wavetools1.AddOffsetOverdraw | Wavetools1.AddOffset |
| OldArchives/Wavetools.py:818-833 | `__contains__` returns a list, whose truth is its non-emptiness | `w in f` for a wave f does not hold | true exactly when some flag is true | not executed | Wavetools1.InIgnoresTheWave | Wavetools1.Waveform1.Member |
| WaveModule.py:258-282 | dividing by a number reads a nonexistent attribute for the name | `w / 2` raises AttributeError | the name kept, as version 6 does | not executed | Waves.DivideByNumberAsWritten | Waves.DivideByNumber |
| WaveModule.py:737-743 | `fill_total_point` shifts by `add_point + 1` periods | 2 samples filled to 3 give 4 | exactly `total_point` samples | not executed | Waveforms.FillTotalPointOvershoots | Waveforms.FillTotalPoint |
