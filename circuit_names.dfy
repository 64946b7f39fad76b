// How both QuantumCircuit versions map qubit names to diagram rows: a list of
// names takes consecutive rows, a dict gives the rows outright, and a row is
// looked up by index or by name.

module CircuitNames {
  import opened Common

  /** A qubit (or auxiliary, or readout) argument: a list of names, a dict from
      name to row, or something else. */
  datatype NameSpec = ListSpec(names: seq<string>) | DictSpec(m: map<string, int>) | OtherSpec

  /** `len(spec)`: a list counts its entries, repeated names included. */
  function SpecLen(s: NameSpec): nat
  {
    match s
    case ListSpec(l) => |l|
    case DictSpec(m) => |m|
    case OtherSpec => 0
  }

  /** `dict(zip(names, idx))` over the first n pairs: a repeated name keeps the
      index paired with its last occurrence. */
  function ZipDict(names: seq<string>, idx: seq<int>, n: nat): (r: map<string, int>)
    requires n <= |names| && n <= |idx|
    ensures forall k :: k in r <==> k in names[..n]
  {
    if n == 0 then map[]
    else ZipDict(names, idx, n - 1)[names[n - 1] := idx[n - 1]]
  }

  function Min(a: nat, b: nat): nat { if a < b then a else b }

  /** `dict(zip(names, idx))`: the pairs run out with the shorter sequence. */
  function Zip(names: seq<string>, idx: seq<int>): (r: map<string, int>)
    ensures forall k :: k in r <==> k in names[..Min(|names|, |idx|)]
  {
    ZipDict(names, idx, Min(|names|, |idx|))
  }

  /** A name not repeated after position i keeps the index paired with it. */
  lemma {:induction false} ZipAt(names: seq<string>, idx: seq<int>, n: nat, i: nat)
    requires i < n <= |names| && n <= |idx|
    requires forall j :: i < j < n ==> names[j] != names[i]
    ensures names[i] in ZipDict(names, idx, n) && ZipDict(names, idx, n)[names[i]] == idx[i]
  {
    if i < n - 1 {
      ZipAt(names, idx, n - 1, i);
      assert names[n - 1] != names[i];
    }
  }

  /** With no repeated name, each name gets the index at its own position. */
  lemma ZipDistinct(names: seq<string>, idx: seq<int>, n: nat)
    requires n <= |names| && n <= |idx|
    requires forall i, j :: 0 <= i < j < |names| ==> names[i] != names[j]
    ensures forall i :: 0 <= i < n ==> names[i] in ZipDict(names, idx, n) && ZipDict(names, idx, n)[names[i]] == idx[i]
  {
    forall i | 0 <= i < n
      ensures names[i] in ZipDict(names, idx, n) && ZipDict(names, idx, n)[names[i]] == idx[i]
    {
      ZipAt(names, idx, n, i);
    }
  }

  /** The integers below bound that `used` misses, in ascending order:
      `sorted(v for v in range(bound) if v not in used)`. */
  function Unused(used: set<int>, bound: nat): (r: seq<int>)
    ensures forall k :: 0 <= k < |r| ==> 0 <= r[k] < bound && r[k] !in used
    ensures forall v :: 0 <= v < bound && v !in used ==> v in r
    ensures forall a, b :: 0 <= a < b < |r| ==> r[a] < r[b]
  {
    if bound == 0 then []
    else Unused(used, bound - 1) + (if bound - 1 in used then [] else [bound - 1])
  }

  /** `list(range(start, start + n))` as the rows of a list of names. */
  function Consecutive(start: int, n: nat): (r: seq<int>)
    ensures |r| == n && forall i :: 0 <= i < n ==> r[i] == start + i
  {
    seq(n, i => start + i)
  }

  /** A row reference: an index, passed through, or a name. */
  datatype RowRef = ByIndex(i: int) | ByName(name: string)

  /** An entry `key: (row, time)` of an `assign` mapping: the gate's channel
      for key goes to that row and time slot. */
  datatype Entry = Entry(key: string, row: RowRef, t: int)

  /** `get_index`: an index is returned as is; a name is looked up in the qubit
      dict first, then in the second dict, and a name in neither is a KeyError. */
  function Resolve(qubits: map<string, int>, others: map<string, int>, ref: RowRef): (r: Result<int>)
    ensures ref.ByIndex? ==> r == Ok(ref.i)
    ensures ref.ByName? ==> (r.Ok? <==> ref.name in qubits || ref.name in others)
    ensures ref.ByName? && ref.name in qubits ==> r == Ok(qubits[ref.name])
    ensures ref.ByName? && ref.name !in qubits && ref.name in others ==> r == Ok(others[ref.name])
    ensures r.Fail? ==> r.error == KeyError
  {
    match ref
    case ByIndex(i) => Ok(i)
    case ByName(n) =>
      if n in qubits then Ok(qubits[n])
      else if n in others then Ok(others[n])
      else Fail(KeyError)
  }

  /** The index check of the constructor over `{**qubits, **others}`: with a
      row but no column, reading the first column is an IndexError; otherwise
      an index of rows or more is a ValueError. */
  function CheckBounds(merged: map<string, int>, rows: nat, blockNum: int): (r: Option<Error>)
    ensures r == None <==> (|merged| == 0 || blockNum > 0) && forall k :: k in merged ==> merged[k] < rows
    ensures |merged| > 0 && blockNum <= 0 ==> r == Some(IndexError)
    ensures r.Some? && (|merged| == 0 || blockNum > 0) ==> r == Some(ValueError)
  {
    if |merged| > 0 && blockNum <= 0 then Some(IndexError)
    else if exists k :: k in merged && merged[k] >= rows then Some(ValueError)
    else None
  }
}
