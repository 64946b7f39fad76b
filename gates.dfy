// GenericGate of both TemplateModules: a dictionary from qubit name to an
// aligned QubitChannel. A Python dict keeps its keys in insertion order and a
// repeated key keeps its first position but takes the last value.

module Gates {
  import opened Common
  import opened Comparables
  import opened Channels

  /** An insertion-ordered dictionary with string keys. */
  datatype Dict<V> = Dict(keys: seq<string>, values: map<string, V>)
  {
    /** Every key appears once, and exactly the mapped keys appear. */
    ghost predicate Valid()
    {
      (forall i, j :: 0 <= i < j < |keys| ==> keys[i] != keys[j])
      && forall k :: k in values <==> k in keys
    }
  }

  function Empty<V>(): (r: Dict<V>)
    ensures r.Valid() && r.values == map[]
  {
    Dict([], map[])
  }

  /** `d[k] = v`: a new key goes to the end, an existing one keeps its place. */
  function Put<V>(d: Dict<V>, k: string, v: V): (r: Dict<V>)
    requires d.Valid()
    ensures r.Valid()
    ensures r.values == d.values[k := v]
    ensures k in d.values ==> r.keys == d.keys
    ensures k !in d.values ==> r.keys == d.keys + [k]
  {
    if k in d.values then Dict(d.keys, d.values[k := v])
    else Dict(d.keys + [k], d.values[k := v])
  }

  /** `d[k]`: a missing key is a KeyError. */
  function Lookup<V>(d: Dict<V>, k: string): (r: Result<V>)
    ensures r.Ok? <==> k in d.values
    ensures r.Fail? ==> r.error == KeyError
    ensures r.Ok? ==> r.value == d.values[k]
  {
    if k in d.values then Ok(d.values[k]) else Fail(KeyError)
  }

  /** `len(d)`: the number of keys, which is the number of mapped keys. */
  function Size<V>(d: Dict<V>): (r: nat)
    requires d.Valid()
    ensures r == |d.values|
  {
    DistinctCard(d.keys);
    assert d.values.Keys == set k | k in d.keys;
    |d.keys|
  }

  lemma {:induction false} DistinctCard(s: seq<string>)
    requires forall i, j :: 0 <= i < j < |s| ==> s[i] != s[j]
    ensures |set k | k in s| == |s|
  {
    if |s| > 0 {
      var t := s[..|s| - 1];
      DistinctCard(t);
      assert (set k | k in s) == (set k | k in t) + {s[|s| - 1]};
      assert s[|s| - 1] !in t;
    }
  }

  /** Writing a key and reading it back gives the value written; every other
      key reads as before. */
  lemma LookupAfterPut<V>(d: Dict<V>, k: string, v: V, other: string)
    requires d.Valid() && other != k
    ensures Lookup(Put(d, k, v), k) == Ok(v)
    ensures Lookup(Put(d, k, v), other) == Lookup(d, other)
  {
  }

  /** The names of a sequence in order of first appearance, each once. */
  function FirstOccurrences(names: seq<string>): (r: seq<string>)
  {
    if |names| == 0 then []
    else
      var init := FirstOccurrences(names[..|names| - 1]);
      if names[|names| - 1] in names[..|names| - 1] then init else init + [names[|names| - 1]]
  }

  lemma {:induction false} FirstOccurrencesElements(names: seq<string>)
    ensures forall k :: k in FirstOccurrences(names) <==> k in names
  {
    if |names| > 0 {
      var init := names[..|names| - 1];
      FirstOccurrencesElements(init);
      assert names == init + [names[|names| - 1]];
    }
  }

  function Names(chs: seq<Channel>): (r: seq<string>)
    ensures |r| == |chs| && forall i :: 0 <= i < |chs| ==> r[i] == chs[i].name
  {
    seq(|chs|, i requires 0 <= i < |chs| => chs[i].name)
  }

  /** `{qc.name: qc for qc in channels}`. */
  function Keyed(chs: seq<Channel>): (r: Dict<Channel>)
    ensures r.Valid()
  {
    if |chs| == 0 then Empty()
    else Put(Keyed(chs[..|chs| - 1]), chs[|chs| - 1].name, chs[|chs| - 1])
  }

  /** The dictionary comprehension keeps each name once, in order of first
      appearance. */
  lemma {:induction false} KeyedKeys(chs: seq<Channel>)
    ensures Keyed(chs).keys == FirstOccurrences(Names(chs))
  {
    if |chs| > 0 {
      var n := |chs| - 1;
      var init := chs[..n];
      KeyedKeys(init);
      FirstOccurrencesElements(Names(init));
      assert Names(chs)[..n] == Names(init);
    }
  }

  /** Each name holds the last channel of that name. */
  lemma {:induction false} KeyedValues(chs: seq<Channel>)
    ensures forall k :: k in Keyed(chs).values ==> LastNamed(chs, k, Keyed(chs).values[k])
  {
    if |chs| > 0 {
      var n := |chs| - 1;
      var init := chs[..n];
      KeyedValues(init);
      forall k | k in Keyed(chs).values
        ensures LastNamed(chs, k, Keyed(chs).values[k])
      {
        if k == chs[n].name {
          assert Keyed(chs).values[k] == chs[n];
        } else {
          LastNamedExtends(init, chs[n], k, Keyed(init).values[k]);
          assert init + [chs[n]] == chs;
        }
      }
    }
  }

  /** v is a channel named k that no later channel's name repeats. */
  ghost predicate LastNamed(chs: seq<Channel>, k: string, v: Channel)
  {
    exists i :: 0 <= i < |chs| && chs[i].name == k && v == chs[i]
                && forall j :: i < j < |chs| ==> chs[j].name != k
  }

  lemma LastNamedExtends(chs: seq<Channel>, c: Channel, k: string, v: Channel)
    requires LastNamed(chs, k, v) && c.name != k
    ensures LastNamed(chs + [c], k, v)
  {
    var i :| 0 <= i < |chs| && chs[i].name == k && v == chs[i]
             && forall j :: i < j < |chs| ==> chs[j].name != k;
    assert (chs + [c])[i] == chs[i];
  }

  /** GenericGate: its qubit dictionary and its name. */
  class Gate {
    var qubits: Dict<Channel>
    var name: string

    ghost predicate Valid()
      reads this
    {
      qubits.Valid()
    }

    constructor Init(d: Dict<Channel>)
      requires d.Valid()
      ensures Valid() && qubits == d && name == ""
    {
      qubits := d;
      name := "";
    }

    /** `GenericGate(*channels)`: copies of the channels, aligned against each
        other, keyed by name; no channel at all is an IndexError. */
    static method New(chs: seq<Channel>, rule: SpanRule) returns (r: Result<Gate>)
      ensures chs == [] ==> r == Fail(IndexError)
      ensures chs != [] && AlignChannels(chs, rule).Fail? ==> r == Fail(AlignChannels(chs, rule).error)
      ensures r.Ok? ==> chs != [] && AlignChannels(chs, rule).Ok? && fresh(r.value) && r.value.Valid()
                        && r.value.qubits == Keyed(AlignChannels(chs, rule).value) && r.value.name == ""
    {
      if |chs| == 0 {
        return Fail(IndexError);
      }
      var aligned := AlignChannels(chs, rule);
      if aligned.Fail? {
        return Fail(aligned.error);
      }
      var g := new Gate.Init(Keyed(aligned.value));
      return Ok(g);
    }

    /** `numOfQubits`: the size of the dictionary. */
    function NumOfQubits(): (r: nat)
      reads this
      requires Valid()
      ensures r == |qubits.values|
    {
      Size(qubits)
    }

    /** `qubitNames`: the keys in insertion order. */
    function QubitNames(): (r: seq<string>)
      reads this
      requires Valid()
      ensures |r| == NumOfQubits() && forall k :: k in r <==> k in qubits.values
      ensures r == qubits.keys
    {
      qubits.keys
    }

    /** `gate[name]` (and `gate @ name`): a missing name is a KeyError. */
    function Get(k: string): (r: Result<Channel>)
      reads this
      ensures r == Lookup(qubits, k)
    {
      Lookup(qubits, k)
    }

    /** `gate[name] = channel`: only that key changes. */
    method Set(k: string, c: Channel)
      requires Valid()
      modifies this
      ensures Valid() && qubits == Put(old(qubits), k, c) && name == old(name)
      ensures Get(k) == Ok(c)
    {
      qubits := Put(qubits, k, c);
    }

    method SetName(n: string)
      modifies this
      ensures qubits == old(qubits) && name == n
    {
      name := n;
    }
  }
}
