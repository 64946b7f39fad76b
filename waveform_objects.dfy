// The mutable `Waveform` object of WaveModule.py: its list of waves, its name
// and the synthesized axis and samples it caches. Every list edit ends in the
// `waveList` setter, which refuses an empty list and re-synthesizes.

module WaveformObjects {
  import opened Common
  import opened Comparables
  import opened Waves
  import opened Synthesis
  import opened Waveforms

  class Waveform {
    var waveList: seq<Wave>
    var name: string
    var x: seq<int>
    var y: seq<real>

    /** The cached x and y are the synthesis of the current list. */
    ghost predicate Valid()
      reads this
    {
      x == X(Data()) && y == Y(Data())
    }

    function Data(): WaveformData
      reads this
    {
      WaveformData(waveList, name)
    }

    /** `Waveform(waveObjList, name)`: an empty list is accepted here. */
    constructor (waveObjList: seq<Wave>, name: string)
      ensures Valid() && Data() == WaveformData(waveObjList, name)
    {
      var ys, xs := Synthesize(waveObjList);
      this.waveList := waveObjList;
      this.name := name;
      this.x := xs;
      this.y := ys;
      XIsSynthesized(WaveformData(waveObjList, name));
    }

    method Resynthesize()
      modifies this
      ensures Valid() && waveList == old(waveList) && name == old(name)
    {
      y, x := Synthesize(waveList);
      XIsSynthesized(Data());
    }

    /** The `waveList` setter. */
    method SetWaveList(waveObjList: seq<Wave>) returns (raised: Option<Error>)
      requires Valid()
      modifies this
      ensures Valid()
      ensures var r := Waveforms.SetWaveList(old(Data()), waveObjList);
        && (r.Ok? ==> raised == None && Data() == r.value)
        && (r.Fail? ==> raised == Some(r.error) && Data() == old(Data()))
    {
      if waveObjList == [] {
        return Some(ValueError);
      }
      waveList := waveObjList;
      Resynthesize();
      return None;
    }

    method Permute(order: seq<int>) returns (raised: Option<Error>)
      requires Valid()
      modifies this
      ensures Valid()
      ensures var r := Waveforms.Permute(old(Data()), order);
        && (r.Ok? ==> raised == None && Data() == r.value)
        && (r.Fail? ==> raised == Some(r.error) && Data() == old(Data()))
    {
      var picked := Pick(waveList, order);
      if picked.None? {
        return Some(IndexError);
      }
      raised := SetWaveList(picked.value);
    }

    method Remove(indices: seq<int>) returns (raised: Option<Error>)
      requires Valid()
      modifies this
      ensures Valid()
      ensures var r := Waveforms.Remove(old(Data()), indices);
        && (r.Ok? ==> raised == None && Data() == r.value)
        && (r.Fail? ==> raised == Some(r.error) && Data() == old(Data()))
    {
      raised := SetWaveList(Kept(waveList, indices));
    }

    /** `insert`: the waves go into the list one by one, in place, then the
        setter re-synthesizes. */
    method Insert(indices: seq<int>, waveObjList: seq<Wave>) returns (raised: Option<Error>)
      requires Valid()
      modifies this
      ensures Valid()
      ensures var r := Waveforms.Insert(old(Data()), indices, waveObjList);
        && (r.Ok? ==> raised == None && Data() == r.value)
        && (r.Fail? ==> raised == Some(r.error) && Data() == old(Data()))
    {
      var expanded := ExpandIndices(indices, |waveObjList|);
      if expanded.Fail? {
        return Some(expanded.error);
      }
      InsertEach(expanded.value, waveObjList);
      if waveList == [] {
        // Nothing was inserted into an empty list.
        return Some(ValueError);
      }
      Resynthesize();
      return None;
    }

    /** The loop of `insert`: `list.insert(index, wave)` on the object's own
        list for each zipped pair, before the setter runs. */
    method InsertEach(idx: seq<int>, waveObjList: seq<Wave>)
      modifies this
      ensures waveList == InsertAll(old(waveList), idx, waveObjList)
      ensures name == old(name) && x == old(x) && y == old(y)
    {
      var i := 0;
      while i < |idx| && i < |waveObjList|
        invariant 0 <= i <= |waveObjList| && i <= |idx|
        invariant InsertAll(waveList, idx[i..], waveObjList[i..]) == InsertAll(old(waveList), idx, waveObjList)
        invariant name == old(name) && x == old(x) && y == old(y)
      {
        InsertAllFrom(waveList, idx, waveObjList, i);
        waveList := ListInsert(waveList, idx[i], waveObjList[i]);
        i := i + 1;
      }
    }

    /** `replace`: each wave overwrites its position, or is appended when the
        position is out of range; then the setter re-synthesizes. */
    method Replace(indices: seq<int>, waveObjList: seq<Wave>) returns (raised: Option<Error>)
      requires Valid()
      modifies this
      ensures Valid()
      ensures var r := Waveforms.Replace(old(Data()), indices, waveObjList);
        && (r.Ok? ==> raised == None && Data() == r.value)
        && (r.Fail? ==> raised == Some(r.error) && Data() == old(Data()))
    {
      var expanded := ExpandIndices(indices, |waveObjList|);
      if expanded.Fail? {
        return Some(expanded.error);
      }
      ReplaceEach(expanded.value, waveObjList);
      if waveList == [] {
        return Some(ValueError);
      }
      Resynthesize();
      return None;
    }

    /** The loop of `replace`: `list[index] = wave` on the object's own list
        for each zipped pair, appending on an IndexError. */
    method ReplaceEach(idx: seq<int>, waveObjList: seq<Wave>)
      modifies this
      ensures waveList == ReplaceAll(old(waveList), idx, waveObjList)
      ensures name == old(name) && x == old(x) && y == old(y)
    {
      var i := 0;
      while i < |idx| && i < |waveObjList|
        invariant 0 <= i <= |waveObjList| && i <= |idx|
        invariant ReplaceAll(waveList, idx[i..], waveObjList[i..]) == ReplaceAll(old(waveList), idx, waveObjList)
        invariant name == old(name) && x == old(x) && y == old(y)
      {
        ReplaceAllFrom(waveList, idx, waveObjList, i);
        var p := PyIndex(idx[i], |waveList|);
        if p.Some? {
          waveList := waveList[p.value := waveObjList[i]];
        } else {
          waveList := waveList + [waveObjList[i]];
        }
        i := i + 1;
      }
    }

    /** `self.alignwith(waveform, use_1st_head, align_2nd_head)`: both objects
        take the values `AlignPair` gives; `<<=` is (true, true) and `>>=` is
        (false, false). */
    method AlignWith(waveform: Waveform, use1stHead: bool, align2ndHead: bool, rule: SpanRule)
        returns (raised: Option<Error>)
      requires Valid() && waveform.Valid()
      modifies this, waveform
      ensures Valid() && waveform.Valid()
      ensures var r := AlignPair(old(Data()), old(waveform.Data()), use1stHead, align2ndHead, rule);
        && (r.Ok? ==> raised == None && Data() == r.value.0 && waveform.Data() == r.value.1)
        && (r.Fail? ==> raised == Some(r.error) && Data() == old(Data()) && waveform.Data() == old(waveform.Data()))
    {
      if |waveform.x| == |x| {
        return None;
      }
      var r := AlignPair(Data(), waveform.Data(), use1stHead, align2ndHead, rule);
      if r.Fail? {
        return Some(r.error);
      }
      waveList := r.value.0.waveList;
      Resynthesize();
      waveform.waveList := r.value.1.waveList;
      waveform.Resynthesize();
      return None;
    }
  }
}
