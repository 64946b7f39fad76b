// The older QuantumCircuit at the repository root: qubit and readout rows,
// a diagram of channels only (no gate names), `assign` storing the object
// itself, and `compileCkt` over the root TemplateModule's channels.

module LegacyCircuits {
  import opened Common
  import opened Comparables
  import opened Channels
  import opened Gates
  import opened CircuitGrid
  import opened CircuitNames

  // ----- construction -----

  /** The dictionaries and the diagram size a new circuit starts from. */
  datatype Layout = Layout(qubits: map<string, int>, readout: map<string, int>, rows: nat, blocks: nat)

  /** The qubit and readout dictionaries: list-form qubits take rows 0..n-1
      and list-form readouts the rows after them; any other container is a
      TypeError, the qubit argument checked first. */
  function NameMaps(qubit: NameSpec, readout: NameSpec): (r: Result<(map<string, int>, map<string, int>)>)
    ensures r.Fail? <==> qubit.OtherSpec? || readout.OtherSpec?
    ensures r.Fail? ==> r.error == TypeError
  {
    if qubit.OtherSpec? || readout.OtherSpec? then Fail(TypeError)
    else
      var qd := match qubit
        case ListSpec(l) => Zip(l, Range(|l|))
        case DictSpec(m) => m
        case OtherSpec => map[];
      var rd := match readout
        case ListSpec(l) => Zip(l, Consecutive(SpecLen(qubit), |l|))
        case DictSpec(m) => m
        case OtherSpec => map[];
      Ok((qd, rd))
  }

  /** The index check as written: with a row but no column, reading the first
      column is an IndexError; otherwise only an index strictly above the row
      count is a ValueError. */
  function BoundsAsWritten(merged: map<string, int>, rows: nat, blockNum: int): (r: Option<Error>)
    ensures r == None <==> (|merged| == 0 || blockNum > 0) && forall k :: k in merged ==> merged[k] <= rows
    ensures |merged| > 0 && blockNum <= 0 ==> r == Some(IndexError)
  {
    if |merged| > 0 && blockNum <= 0 then Some(IndexError)
    else if exists k :: k in merged && merged[k] > rows then Some(ValueError)
    else None
  }

  /** `QuantumCircuit(qubit, blockNum, readout)` with the index check as written. */
  function NewLayoutAsWritten(qubit: NameSpec, blockNum: int, readout: NameSpec): (r: Result<Layout>)
    ensures qubit.OtherSpec? || readout.OtherSpec? ==> r == Fail(TypeError)
    ensures r.Ok? ==> r.value.rows == SpecLen(qubit) + SpecLen(readout)
    ensures r.Ok? ==> var merged := r.value.qubits + r.value.readout;
      forall k :: k in merged ==> merged[k] <= r.value.rows
  {
    match NameMaps(qubit, readout)
    case Fail(e) => Fail(e)
    case Ok(maps) =>
      var rows := SpecLen(qubit) + SpecLen(readout);
      match BoundsAsWritten(maps.0 + maps.1, rows, blockNum)
      case Some(e) => Fail(e)
      case None => Ok(Layout(maps.0, maps.1, rows, if blockNum > 0 then blockNum else 0))
  }

  /** `QuantumCircuit(qubit, blockNum, readout)` with every index required to
      name a row of the diagram. */
  function NewLayout(qubit: NameSpec, blockNum: int, readout: NameSpec): (r: Result<Layout>)
    ensures qubit.OtherSpec? || readout.OtherSpec? ==> r == Fail(TypeError)
    ensures r.Ok? ==> r.value.rows == SpecLen(qubit) + SpecLen(readout)
    ensures r.Ok? ==> var merged := r.value.qubits + r.value.readout;
      forall k :: k in merged ==> merged[k] < r.value.rows
  {
    match NameMaps(qubit, readout)
    case Fail(e) => Fail(e)
    case Ok(maps) =>
      var rows := SpecLen(qubit) + SpecLen(readout);
      match CheckBounds(maps.0 + maps.1, rows, blockNum)
      case Some(e) => Fail(e)
      case None => Ok(Layout(maps.0, maps.1, rows, if blockNum > 0 then blockNum else 0))
  }

  /** The two checks differ exactly on an index equal to the row count. */
  lemma BoundsDiffer(merged: map<string, int>, rows: nat, blockNum: int)
    requires blockNum > 0
    ensures BoundsAsWritten(merged, rows, blockNum) != CheckBounds(merged, rows, blockNum)
            <==> (forall k :: k in merged ==> merged[k] <= rows) && exists k :: k in merged && merged[k] == rows
  {
  }

  /** As written, a qubit on row 1 of a one-row circuit is accepted, and a
      channel assigned to it then fails with an IndexError; the corrected check
      rejects the circuit up front. */
  lemma RowCountAccepted(c: Channel)
    ensures var l := NewLayoutAsWritten(DictSpec(map["q" := 1]), 1, DictSpec(map[]));
      l.Ok? && l.value.rows == 1 && l.value.qubits["q"] == 1
      && Place(Blank(1, 1, Empty), Resolve(l.value.qubits, l.value.readout, ByName("q")), 0, Ok(c)).1 == Some(IndexError)
    ensures NewLayout(DictSpec(map["q" := 1]), 1, DictSpec(map[])) == Fail(ValueError)
  {
    var m := map["q" := 1];
    assert m + map[] == m;
    assert BoundsAsWritten(m, 1, 1) == None;
    assert CheckBounds(m, 1, 1) == Some(ValueError) by {
      assert "q" in m && m["q"] >= 1;
    }
    var l := NewLayoutAsWritten(DictSpec(m), 1, DictSpec(map[]));
    assert l == Ok(Layout(m, map[], 1, 1));
    var d := Blank(1, 1, Empty);
    assert WidenTo(d, 0, Empty) == d;
  }

  /** Distinct list-form readout names take the rows right after the qubits,
      in list order. */
  lemma ListReadoutRows(qubit: NameSpec, names: seq<string>)
    requires !qubit.OtherSpec?
    requires forall i, j :: 0 <= i < j < |names| ==> names[i] != names[j]
    ensures var rd := NameMaps(qubit, ListSpec(names)).value.1;
      forall i :: 0 <= i < |names| ==> names[i] in rd && rd[names[i]] == SpecLen(qubit) + i
  {
    var idx := Consecutive(SpecLen(qubit), |names|);
    assert NameMaps(qubit, ListSpec(names)).value.1 == ZipDict(names, idx, |names|);
    ZipDistinct(names, idx, |names|);
  }

  // ----- assignment -----

  /** One placement: the row is resolved, reading the first row fails on a
      circuit without rows, the diagram is widened to column t, the gate's
      channel looked up and the cell written; each failure keeps what was
      already done. */
  function Place(d: Grid, row: Result<int>, t: int, cell: Result<Channel>): (r: (Grid, Option<Error>))
    requires Rect(d)
    ensures Rect(r.0) && |r.0| == |d| && (|d| > 0 ==> Cols(r.0) >= Cols(d))
    ensures r.1 == None <==> row.Ok? && cell.Ok? && |d| > 0 && PyIndex(row.value, |d|).Some? && PyIndex(t, Cols(WidenTo(d, t, Empty))).Some?
    ensures r.1 == None ==> Cols(r.0) == Cols(WidenTo(d, t, Empty))
    ensures r.1 == None ==> r.0[PyIndex(row.value, |d|).value][PyIndex(t, Cols(WidenTo(d, t, Empty))).value] == Filled(cell.value)
    ensures forall i, j :: 0 <= i < |d| && 0 <= j < Cols(d) && r.0[i][j] != d[i][j] ==>
      r.1 == None && (i, j) == (PyIndex(row.value, |d|).value, PyIndex(t, Cols(WidenTo(d, t, Empty))).value)
  {
    if row.Fail? then (d, Some(row.error))
    else if |d| == 0 then (d, Some(IndexError))
    else
      var w := WidenTo(d, t, Empty);
      if cell.Fail? then (w, Some(cell.error))
      else
        match Write(w, row.value, t, Filled(cell.value))
        case Fail(e) => (w, Some(e))
        case Ok(g) => (g, None)
  }

  /** The gate-mode loop over the entries from i on; it stops at the first error. */
  function PlaceAll(d: Grid, qd: map<string, int>, rd: map<string, int>, gate: Dict<Channel>,
                    mapping: seq<Entry>, i: nat): (r: (Grid, Option<Error>))
    requires Rect(d) && i <= |mapping|
    ensures Rect(r.0) && |r.0| == |d| && (|d| > 0 ==> Cols(r.0) >= Cols(d))
    decreases |mapping| - i
  {
    if i == |mapping| then (d, None)
    else
      var e := mapping[i];
      var step := Place(d, Resolve(qd, rd, e.row), e.t, Lookup(gate, e.key));
      if step.1.Some? then step else PlaceAll(step.0, qd, rd, gate, mapping, i + 1)
  }

  /** A gate assignment that finishes without error found every key in the
      gate and every row reference in the dictionaries. */
  lemma {:induction false} PlaceAllResolves(d: Grid, qd: map<string, int>, rd: map<string, int>, gate: Dict<Channel>,
                                            mapping: seq<Entry>, i: nat)
    requires Rect(d) && i <= |mapping| && PlaceAll(d, qd, rd, gate, mapping, i).1 == None
    ensures forall j :: i <= j < |mapping| ==> mapping[j].key in gate.values && Resolve(qd, rd, mapping[j].row).Ok?
    decreases |mapping| - i
  {
    if i < |mapping| {
      var e := mapping[i];
      var step := Place(d, Resolve(qd, rd, e.row), e.t, Lookup(gate, e.key));
      PlaceAllResolves(step.0, qd, rd, gate, mapping, i + 1);
    }
  }

  // ----- the circuit object -----

  class LegacyCircuit {
    var diagram: Grid
    var qubitDict: map<string, int>
    var readoutDict: map<string, int>
    var name: string
    var compiled: Option<seq<Channel>>

    ghost predicate Valid()
      reads this
    {
      Rect(diagram)
    }

    constructor Init(l: Layout)
      ensures Valid() && diagram == Blank(l.rows, l.blocks, Empty)
      ensures qubitDict == l.qubits && readoutDict == l.readout && name == "" && compiled == None
    {
      diagram := Blank(l.rows, l.blocks, Empty);
      qubitDict := l.qubits;
      readoutDict := l.readout;
      name := "";
      compiled := None;
    }

    /** `QuantumCircuit(qubit, blockNum, readout)`, with the index check as written:
        an index equal to the row count is accepted. */
    static method New(qubit: NameSpec, blockNum: int, readout: NameSpec) returns (r: Result<LegacyCircuit>)
      ensures NewLayoutAsWritten(qubit, blockNum, readout).Fail? ==> r == Fail(NewLayoutAsWritten(qubit, blockNum, readout).error)
      ensures r.Ok? ==> NewLayoutAsWritten(qubit, blockNum, readout).Ok? && fresh(r.value) && r.value.Valid()
      ensures r.Ok? ==> var l := NewLayoutAsWritten(qubit, blockNum, readout).value;
        r.value.diagram == Blank(l.rows, l.blocks, Empty) && r.value.qubitDict == l.qubits
        && r.value.readoutDict == l.readout && r.value.compiled == None
    {
      var l := NewLayoutAsWritten(qubit, blockNum, readout);
      if l.Fail? {
        return Fail(l.error);
      }
      var c := new LegacyCircuit.Init(l.value);
      return Ok(c);
    }

    /** The `qubitDict` setter: only a mapping of the same size is accepted. */
    method SetQubitDict(m: map<string, int>) returns (err: Option<Error>)
      modifies this
      ensures |m| != |old(qubitDict)| ==> err == Some(ValueError) && qubitDict == old(qubitDict)
      ensures |m| == |old(qubitDict)| ==> err == None && qubitDict == m
      ensures diagram == old(diagram) && readoutDict == old(readoutDict) && name == old(name) && compiled == old(compiled)
    {
      if |qubitDict| != |m| {
        return Some(ValueError);
      }
      qubitDict := m;
      return None;
    }

    /** The `readoutDict` setter: only a mapping of the same size is accepted. */
    method SetReadoutDict(m: map<string, int>) returns (err: Option<Error>)
      modifies this
      ensures |m| != |old(readoutDict)| ==> err == Some(ValueError) && readoutDict == old(readoutDict)
      ensures |m| == |old(readoutDict)| ==> err == None && readoutDict == m
      ensures diagram == old(diagram) && qubitDict == old(qubitDict) && name == old(name) && compiled == old(compiled)
    {
      if |readoutDict| != |m| {
        return Some(ValueError);
      }
      readoutDict := m;
      return None;
    }

    method SetName(n: string)
      modifies this
      ensures name == n && diagram == old(diagram) && qubitDict == old(qubitDict)
      ensures readoutDict == old(readoutDict) && compiled == old(compiled)
    {
      name := n;
    }

    /** `get_index`: qubits first, then readouts. */
    function GetIndex(ref: RowRef): (r: Result<int>)
      reads this
      ensures r == Resolve(qubitDict, readoutDict, ref)
    {
      Resolve(qubitDict, readoutDict, ref)
    }

    /** `assign(gate, mapping)`: the gate's own channels placed entry by entry. */
    method Assign(gate: Dict<Channel>, mapping: seq<Entry>) returns (err: Option<Error>)
      requires Valid()
      modifies this
      ensures Valid()
      ensures (diagram, err) == PlaceAll(old(diagram), qubitDict, readoutDict, gate, mapping, 0)
      ensures qubitDict == old(qubitDict) && readoutDict == old(readoutDict) && name == old(name) && compiled == old(compiled)
    {
      var i := 0;
      while i < |mapping|
        invariant 0 <= i <= |mapping| && Valid()
        invariant PlaceAll(diagram, qubitDict, readoutDict, gate, mapping, i)
                  == PlaceAll(old(diagram), qubitDict, readoutDict, gate, mapping, 0)
        invariant qubitDict == old(qubitDict) && readoutDict == old(readoutDict) && name == old(name) && compiled == old(compiled)
      {
        var e := mapping[i];
        var step := Place(diagram, GetIndex(e.row), e.t, Lookup(gate, e.key));
        diagram := step.0;
        if step.1.Some? {
          return step.1;
        }
        i := i + 1;
      }
      return None;
    }

    /** `assign(channel, [row, time])`. */
    method AssignChannel(row: RowRef, t: int, c: Channel) returns (err: Option<Error>)
      requires Valid()
      modifies this
      ensures Valid()
      ensures (diagram, err) == Place(old(diagram), Resolve(qubitDict, readoutDict, row), t, Ok(c))
      ensures qubitDict == old(qubitDict) && readoutDict == old(readoutDict) && name == old(name) && compiled == old(compiled)
    {
      var step := Place(diagram, GetIndex(row), t, Ok(c));
      diagram, err := step.0, step.1;
    }

    /** `compileCkt()`: the diagram is left alone; on success the compiled
        rows are stored. */
    method CompileCkt() returns (err: Option<Error>)
      requires Valid()
      modifies this
      ensures Valid() && diagram == old(diagram)
      ensures qubitDict == old(qubitDict) && readoutDict == old(readoutDict) && name == old(name)
      ensures (err, compiled) == Outcome(Compiled(old(diagram), WithDx), old(compiled))
    {
      var e, rows := CompileRows(diagram, WithDx, compiled);
      compiled := rows;
      err := e;
    }
  }
}
