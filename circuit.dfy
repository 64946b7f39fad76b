// QuantumCircuit of the QuantumCompiler package: a diagram of channel rows by
// time slots, a parallel grid of gate names, the name-to-row dictionaries,
// and the compiled row channels.

module Circuits {
  import opened Common
  import opened Comparables
  import opened Channels
  import opened Gates
  import opened CircuitGrid
  import opened CircuitNames

  // ----- construction -----

  /** The dictionaries and the diagram size a new circuit starts from. */
  datatype Layout = Layout(qubits: map<string, int>, auxiliary: map<string, int>, rows: nat, blocks: nat)

  /** List-form qubits take the rows 0..n-1 in order. */
  function QubitMap(qubit: NameSpec): (r: Result<map<string, int>>)
    ensures r.Fail? <==> qubit.OtherSpec?
    ensures r.Fail? ==> r.error == TypeError
  {
    match qubit
    case ListSpec(l) => Ok(Zip(l, Range(|l|)))
    case DictSpec(m) => Ok(m)
    case OtherSpec => Fail(TypeError)
  }

  /** List-form auxiliaries take, in order, the rows below the total that no
      qubit uses. */
  function AuxiliaryMap(aux: NameSpec, qubits: map<string, int>, qubitLen: nat): (r: Result<map<string, int>>)
    ensures r.Fail? <==> aux.OtherSpec?
    ensures r.Fail? ==> r.error == TypeError
  {
    match aux
    case ListSpec(l) => Ok(Zip(l, Unused(qubits.Values, |l| + qubitLen)))
    case DictSpec(m) => Ok(m)
    case OtherSpec => Fail(TypeError)
  }

  /** `QuantumCircuit(qubit, blockNum, auxiliary)`: rows for every qubit and
      auxiliary entry, an unsupported container is a TypeError and a row index
      outside the diagram a ValueError. */
  function NewLayout(qubit: NameSpec, blockNum: int, aux: NameSpec): (r: Result<Layout>)
    ensures qubit.OtherSpec? || aux.OtherSpec? ==> r == Fail(TypeError)
    ensures r.Ok? ==> r.value.rows == SpecLen(qubit) + SpecLen(aux)
    ensures r.Ok? ==> var merged := r.value.qubits + r.value.auxiliary;
      forall k :: k in merged ==> merged[k] < r.value.rows
    ensures r.Ok? && r.value.rows > 0 ==> r.value.blocks == blockNum
  {
    if qubit.OtherSpec? || aux.OtherSpec? then Fail(TypeError)
    else
      var rows := SpecLen(qubit) + SpecLen(aux);
      var qd := QubitMap(qubit).value;
      var ad := AuxiliaryMap(aux, qd, SpecLen(qubit)).value;
      match CheckBounds(qd + ad, rows, blockNum)
      case Some(e) => Fail(e)
      case None =>
        assert rows > 0 ==> |qd + ad| > 0 by {
          if rows > 0 && |qd + ad| == 0 {
            assert qd == map[] && ad == map[];
            NonEmptySpec(qubit, aux);
          }
        }
        Ok(Layout(qd, ad, rows, if blockNum > 0 then blockNum else 0))
  }

  lemma NonEmptySpec(qubit: NameSpec, aux: NameSpec)
    requires !qubit.OtherSpec? && !aux.OtherSpec? && SpecLen(qubit) + SpecLen(aux) > 0
    ensures QubitMap(qubit).value != map[] || AuxiliaryMap(aux, QubitMap(qubit).value, SpecLen(qubit)).value != map[]
  {
    var qd := QubitMap(qubit).value;
    if SpecLen(qubit) > 0 {
      if qubit.ListSpec? {
        assert qubit.names[0] in qubit.names[..Min(|qubit.names|, |Range(|qubit.names|)|)];
      } else {
        assert qd == qubit.m;
      }
    } else {
      assert qd.Values == {} by {
        if qubit.ListSpec? {
          assert qd == map[];
        } else {
          assert |qubit.m| == 0;
        }
      }
      if aux.ListSpec? {
        var un := Unused(qd.Values, |aux.names| + SpecLen(qubit));
        assert 0 in un;
        assert aux.names[0] in aux.names[..Min(|aux.names|, |un|)];
      } else {
        assert |aux.m| > 0;
      }
    }
  }

  /** Distinct list-form qubit names get the rows 0, 1, ... in list order. */
  lemma ListQubitsConsecutive(names: seq<string>)
    requires forall i, j :: 0 <= i < j < |names| ==> names[i] != names[j]
    ensures var qd := QubitMap(ListSpec(names)).value;
      forall i :: 0 <= i < |names| ==> names[i] in qd && qd[names[i]] == i
  {
    ZipDistinct(names, Range(|names|), |names|);
  }

  /** A list of auxiliary names is zipped with the unused rows. */
  lemma AuxiliaryFromList(names: seq<string>, qubits: map<string, int>, qubitLen: nat)
    ensures AuxiliaryMap(ListSpec(names), qubits, qubitLen) == Ok(Zip(names, Unused(qubits.Values, |names| + qubitLen)))
  {
  }

  /** Distinct list-form auxiliary names get, in order, the rows below the
      total that no qubit uses (Unused lists those in ascending order). */
  lemma ListAuxiliaryUnused(names: seq<string>, qubits: map<string, int>, qubitLen: nat)
    requires forall i, j :: 0 <= i < j < |names| ==> names[i] != names[j]
    ensures var ad := AuxiliaryMap(ListSpec(names), qubits, qubitLen).value;
      var un := Unused(qubits.Values, |names| + qubitLen);
      forall i :: 0 <= i < |names| && i < |un| ==> names[i] in ad && ad[names[i]] == un[i]
  {
    var un := Unused(qubits.Values, |names| + qubitLen);
    AuxiliaryFromList(names, qubits, qubitLen);
    var ad := Zip(names, un);
    forall i | 0 <= i < |names| && i < |un|
      ensures names[i] in ad && ad[names[i]] == un[i]
    {
      ZipAt(names, un, Min(|names|, |un|), i);
    }
  }

  // ----- assignment -----

  /** The diagram with its parallel grid of gate names. */
  datatype Board = Board(diagram: Grid, gateName: seq<seq<string>>)

  /** Both grids are rectangular with the same rows. */
  predicate Framed(b: Board)
  {
    Rect(b.diagram) && Rect(b.gateName) && |b.gateName| == |b.diagram|
  }

  /** ... and the same columns. */
  predicate Shaped(b: Board)
  {
    Framed(b) && Cols(b.gateName) == Cols(b.diagram)
  }

  /** ... or at least no wider gate-name grid, which is all that channel mode
      as written keeps. */
  predicate NamesWithin(b: Board)
  {
    Framed(b) && Cols(b.gateName) <= Cols(b.diagram)
  }

  /** The widening for column t: both grids get the columns the diagram lacks. */
  function WidenBoth(b: Board, t: int): (r: Board)
    requires Framed(b)
    ensures Framed(r) && (Shaped(b) ==> Shaped(r)) && (NamesWithin(b) ==> NamesWithin(r))
    ensures |r.diagram| == |b.diagram| && r.diagram == WidenTo(b.diagram, t, Empty)
  {
    var extra := t - Cols(b.diagram) + 1;
    if extra > 0 then Board(Widen(b.diagram, extra, Empty), Widen(b.gateName, extra, "")) else b
  }

  /** One entry of gate mode: the row is resolved, both grids widened, the
      gate's channel for the key looked up (a KeyError), then the diagram cell
      and the gate-name cell written in turn; each failure keeps what was
      already done. */
  function PlaceGate(b: Board, row: Result<int>, t: int, cell: Result<Channel>, gname: string)
    : (r: (Board, Option<Error>))
    requires Framed(b)
    ensures Framed(r.0) && (Shaped(b) ==> Shaped(r.0)) && (NamesWithin(b) ==> NamesWithin(r.0))
    ensures r.1 == None ==> row.Ok? && cell.Ok? && Write(WidenTo(b.diagram, t, Empty), row.value, t, Filled(cell.value)).Ok?
                            && r.0.diagram == Write(WidenTo(b.diagram, t, Empty), row.value, t, Filled(cell.value)).value
  {
    if row.Fail? then (b, Some(row.error))
    else
      var w := WidenBoth(b, t);
      if cell.Fail? then (w, Some(cell.error))
      else
        match Write(w.diagram, row.value, t, Filled(cell.value))
        case Fail(e) => (w, Some(e))
        case Ok(d) =>
          match Write(w.gateName, row.value, t, gname)
          case Fail(e) => (Board(d, w.gateName), Some(e))
          case Ok(n) => (Board(d, n), None)
  }

  /** The gate-mode loop over the entries from i on; it stops at the first error. */
  function PlaceEntries(b: Board, qd: map<string, int>, ad: map<string, int>, gate: Dict<Channel>,
                        gname: string, mapping: seq<Entry>, i: nat): (r: (Board, Option<Error>))
    requires Framed(b) && i <= |mapping|
    ensures Framed(r.0) && (Shaped(b) ==> Shaped(r.0)) && (NamesWithin(b) ==> NamesWithin(r.0))
    decreases |mapping| - i
  {
    if i == |mapping| then (b, None)
    else
      var e := mapping[i];
      var step := PlaceGate(b, Resolve(qd, ad, e.row), e.t, Lookup(gate, e.key), gname);
      if step.1.Some? then step else PlaceEntries(step.0, qd, ad, gate, gname, mapping, i + 1)
  }

  /** `assign(gate, mapping)`: reading the diagram's first column fails on a
      circuit without rows; then the entries in order. */
  function AssignGate(b: Board, qd: map<string, int>, ad: map<string, int>, gate: Dict<Channel>,
                      gname: string, mapping: seq<Entry>): (r: (Board, Option<Error>))
    requires Framed(b)
    ensures Framed(r.0) && (Shaped(b) ==> Shaped(r.0)) && (NamesWithin(b) ==> NamesWithin(r.0))
    ensures |b.diagram| == 0 ==> r == (b, Some(IndexError))
  {
    if |b.diagram| == 0 then (b, Some(IndexError)) else PlaceEntries(b, qd, ad, gate, gname, mapping, 0)
  }

  /** `assign(channel, (row, time))`, with the gate-name grid widened along with
      the diagram. */
  function AssignChannel(b: Board, qd: map<string, int>, ad: map<string, int>, row: RowRef, t: int, c: Channel)
    : (r: (Board, Option<Error>))
    requires Framed(b)
    ensures Framed(r.0) && (Shaped(b) ==> Shaped(r.0))
    ensures |b.diagram| == 0 ==> r == (b, Some(IndexError))
    ensures r.1 == None ==> r.0.gateName == WidenBoth(b, t).gateName
  {
    if |b.diagram| == 0 then (b, Some(IndexError))
    else
      match Resolve(qd, ad, row)
      case Fail(e) => (b, Some(e))
      case Ok(i) =>
        var w := WidenBoth(b, t);
        match Write(w.diagram, i, t, Filled(c))
        case Fail(e) => (w, Some(e))
        case Ok(d) => (Board(d, w.gateName), None)
  }

  /** `assign(channel, (row, time))` as written: only the diagram is widened. */
  function AssignChannelAsWritten(b: Board, qd: map<string, int>, ad: map<string, int>, row: RowRef, t: int, c: Channel)
    : (r: (Board, Option<Error>))
    requires Framed(b)
    ensures Framed(r.0) && r.0.gateName == b.gateName && (NamesWithin(b) ==> NamesWithin(r.0))
    ensures |r.0.diagram| == |b.diagram| && Cols(r.0.diagram) >= Cols(b.diagram)
    ensures |b.diagram| == 0 ==> r == (b, Some(IndexError))
  {
    if |b.diagram| == 0 then (b, Some(IndexError))
    else
      match Resolve(qd, ad, row)
      case Fail(e) => (b, Some(e))
      case Ok(i) =>
        var d0 := WidenTo(b.diagram, t, Empty);
        match Write(d0, i, t, Filled(c))
        case Fail(e) => (Board(d0, b.gateName), Some(e))
        case Ok(d) => (Board(d, b.gateName), None)
  }

  /** A successful channel assignment puts the channel in the addressed cell,
      keeps every other cell, and never removes a row or a column. */
  lemma AssignChannelPlaces(b: Board, qd: map<string, int>, ad: map<string, int>, row: RowRef, t: int, c: Channel)
    requires Framed(b) && AssignChannel(b, qd, ad, row, t, c).1 == None
    ensures var d := AssignChannel(b, qd, ad, row, t, c).0.diagram;
      var i := PyIndex(Resolve(qd, ad, row).value, |b.diagram|).value;
      var j := PyIndex(t, Cols(d)).value;
      |d| == |b.diagram| && Cols(d) >= Cols(b.diagram) && d[i][j] == Filled(c)
      && forall a, k :: 0 <= a < |d| && 0 <= k < Cols(b.diagram) && (a, k) != (i, j) ==> d[a][k] == b.diagram[a][k]
  {
  }

  /** With the two grids kept the same shape, a gate entry whose diagram cell
      can be written also gets its gate name written. */
  lemma PlaceGateShapedSucceeds(b: Board, row: int, t: int, cell: Channel, gname: string)
    requires Shaped(b) && Write(WidenTo(b.diagram, t, Empty), row, t, Filled(cell)).Ok?
    ensures PlaceGate(b, Ok(row), t, Ok(cell), gname).1 == None
    ensures var n := PlaceGate(b, Ok(row), t, Ok(cell), gname).0.gateName;
      n[PyIndex(row, |n|).value][PyIndex(t, Cols(n)).value] == gname
  {
  }

  /** As written, a channel assignment that widens the diagram leaves the
      gate-name grid narrower, so a gate assigned afterwards to the new column
      fails with an IndexError after its channel was already written. */
  lemma GateAfterChannelAsWritten(c: Channel, g: Channel)
    ensures var b0 := Board([[Empty]], [[""]]);
      var qd := map["q" := 0];
      var b1 := AssignChannelAsWritten(b0, qd, map[], ByName("q"), 1, c);
      var b2 := AssignGate(b1.0, qd, map[], Put(Gates.Empty<Channel>(), "k", g), "X", [Entry("k", ByName("q"), 1)]);
      b1.1 == None && b2.1 == Some(IndexError) && Read(b2.0.diagram, 0, 1) == Ok(Filled(g))
  {
    var b0 := Board([[Empty]], [[""]]);
    var qd := map["q" := 0];
    var gate := Put(Gates.Empty<Channel>(), "k", g);
    var d0 := WidenTo(b0.diagram, 1, Empty);
    assert Cols(d0) == 2;
    var w1 := Write(d0, 0, 1, Filled(c));
    assert w1.Ok?;
    var b1 := AssignChannelAsWritten(b0, qd, map[], ByName("q"), 1, c);
    assert b1 == (Board(w1.value, [[""]]), None);
    assert WidenBoth(b1.0, 1) == b1.0;
    var w2 := Write(w1.value, 0, 1, Filled(g));
    assert w2.Ok?;
    assert Write(b1.0.gateName, 0, 1, "X") == Fail(IndexError);
    assert PlaceGate(b1.0, Ok(0), 1, Ok(g), "X") == (Board(w2.value, [[""]]), Some(IndexError));
  }

  /** With both grids widened together, the same two assignments succeed and
      the gate name lands next to the gate's channel. */
  lemma GateAfterChannel(c: Channel, g: Channel)
    ensures var b0 := Board([[Empty]], [[""]]);
      var qd := map["q" := 0];
      var b1 := AssignChannel(b0, qd, map[], ByName("q"), 1, c);
      var b2 := AssignGate(b1.0, qd, map[], Put(Gates.Empty<Channel>(), "k", g), "X", [Entry("k", ByName("q"), 1)]);
      b1.1 == None && b2.1 == None && Read(b2.0.diagram, 0, 1) == Ok(Filled(g)) && Read(b2.0.gateName, 0, 1) == Ok("X")
  {
    var b1 := AssignChannel(Board([[Empty]], [[""]]), map["q" := 0], map[], ByName("q"), 1, c);
    ChannelOpensColumn(c);
    GateIntoOpenColumn(b1.0, g);
  }

  /** The corrected channel assignment to column 1 of a one-by-one board
      leaves both grids one row by two columns. */
  lemma ChannelOpensColumn(c: Channel)
    ensures var b1 := AssignChannel(Board([[Empty]], [[""]]), map["q" := 0], map[], ByName("q"), 1, c);
      b1.1 == None && Shaped(b1.0) && |b1.0.diagram| == 1 && Cols(b1.0.diagram) == 2
  {
    var w0 := WidenBoth(Board([[Empty]], [[""]]), 1);
    assert Cols(w0.diagram) == 2 && Cols(w0.gateName) == 2;
    assert Write(w0.diagram, 0, 1, Filled(c)).Ok?;
  }

  /** A one-entry gate assignment to column 1 of a one-row, two-column board
      writes both the channel and the gate name. */
  lemma GateIntoOpenColumn(b: Board, g: Channel)
    requires Shaped(b) && |b.diagram| == 1 && Cols(b.diagram) == 2
    ensures var b2 := AssignGate(b, map["q" := 0], map[], Put(Gates.Empty<Channel>(), "k", g), "X", [Entry("k", ByName("q"), 1)]);
      b2.1 == None && Read(b2.0.diagram, 0, 1) == Ok(Filled(g)) && Read(b2.0.gateName, 0, 1) == Ok("X")
  {
    assert WidenBoth(b, 1) == b;
    var w2 := Write(b.diagram, 0, 1, Filled(g));
    var n2 := Write(b.gateName, 0, 1, "X");
    assert w2.Ok? && n2.Ok?;
    var step := PlaceGate(b, Ok(0), 1, Ok(g), "X");
    assert step == (Board(w2.value, n2.value), None);
  }

  /** What `circuit[row, time] = item` accepts: a (gate, key) pair or a channel. */
  datatype Item = GateItem(gate: Dict<Channel>, gname: string, key: string) | ChannelItem(c: Channel)

  // ----- the circuit object -----

  class Circuit {
    var diagram: Grid
    var gateName: seq<seq<string>>
    var qubitDict: map<string, int>
    var auxiliaryDict: map<string, int>
    var name: string
    var compiledDiagram: Option<Grid>
    var compiled: Option<seq<Channel>>

    /** The diagram and the gate names have the same rows, and the gate names
        are never wider than the diagram (channel mode widens only the diagram). */
    ghost predicate Valid()
      reads this
    {
      NamesWithin(Board(diagram, gateName))
    }

    constructor Init(l: Layout)
      ensures Valid() && diagram == Blank(l.rows, l.blocks, Empty) && gateName == Blank(l.rows, l.blocks, "")
      ensures qubitDict == l.qubits && auxiliaryDict == l.auxiliary && name == ""
      ensures compiledDiagram == None && compiled == None
    {
      diagram := Blank(l.rows, l.blocks, Empty);
      gateName := Blank(l.rows, l.blocks, "");
      qubitDict := l.qubits;
      auxiliaryDict := l.auxiliary;
      name := "";
      compiledDiagram := None;
      compiled := None;
    }

    /** `QuantumCircuit(qubit, blockNum, auxiliary)`. */
    static method New(qubit: NameSpec, blockNum: int, aux: NameSpec) returns (r: Result<Circuit>)
      ensures NewLayout(qubit, blockNum, aux).Fail? ==> r == Fail(NewLayout(qubit, blockNum, aux).error)
      ensures r.Ok? ==> NewLayout(qubit, blockNum, aux).Ok? && fresh(r.value) && r.value.Valid()
      ensures r.Ok? ==> var l := NewLayout(qubit, blockNum, aux).value;
        r.value.diagram == Blank(l.rows, l.blocks, Empty) && r.value.qubitDict == l.qubits
        && r.value.auxiliaryDict == l.auxiliary && r.value.compiled == None
    {
      var l := NewLayout(qubit, blockNum, aux);
      if l.Fail? {
        return Fail(l.error);
      }
      var c := new Circuit.Init(l.value);
      return Ok(c);
    }

    /** `get_index`: qubits first, then auxiliaries. */
    function GetIndex(ref: RowRef): (r: Result<int>)
      reads this
      ensures r == Resolve(qubitDict, auxiliaryDict, ref)
    {
      Resolve(qubitDict, auxiliaryDict, ref)
    }

    /** `assign(gate, mapping)`: a copy of the gate's channels placed entry by entry. */
    method Assign(gate: Dict<Channel>, gname: string, mapping: seq<Entry>) returns (err: Option<Error>)
      requires Valid()
      modifies this
      ensures Valid()
      ensures (Board(diagram, gateName), err)
              == AssignGate(Board(old(diagram), old(gateName)), qubitDict, auxiliaryDict, gate, gname, mapping)
      ensures qubitDict == old(qubitDict) && auxiliaryDict == old(auxiliaryDict) && name == old(name)
      ensures compiledDiagram == old(compiledDiagram) && compiled == old(compiled)
    {
      if |diagram| == 0 {
        return Some(IndexError);
      }
      var i := 0;
      while i < |mapping|
        invariant 0 <= i <= |mapping| && Valid()
        invariant PlaceEntries(Board(diagram, gateName), qubitDict, auxiliaryDict, gate, gname, mapping, i)
                  == AssignGate(Board(old(diagram), old(gateName)), qubitDict, auxiliaryDict, gate, gname, mapping)
        invariant qubitDict == old(qubitDict) && auxiliaryDict == old(auxiliaryDict) && name == old(name)
        invariant compiledDiagram == old(compiledDiagram) && compiled == old(compiled)
      {
        var e := mapping[i];
        var step := PlaceGate(Board(diagram, gateName), GetIndex(e.row), e.t, Lookup(gate, e.key), gname);
        diagram, gateName := step.0.diagram, step.0.gateName;
        if step.1.Some? {
          return step.1;
        }
        i := i + 1;
      }
      return None;
    }

    /** `assign(channel, (row, time))`, widening only the diagram. */
    method AssignChannelAt(row: RowRef, t: int, c: Channel) returns (err: Option<Error>)
      requires Valid()
      modifies this
      ensures Valid()
      ensures (Board(diagram, gateName), err)
              == AssignChannelAsWritten(Board(old(diagram), old(gateName)), qubitDict, auxiliaryDict, row, t, c)
      ensures qubitDict == old(qubitDict) && auxiliaryDict == old(auxiliaryDict) && name == old(name)
      ensures compiledDiagram == old(compiledDiagram) && compiled == old(compiled)
    {
      var step := AssignChannelAsWritten(Board(diagram, gateName), qubitDict, auxiliaryDict, row, t, c);
      diagram, gateName := step.0.diagram, step.0.gateName;
      err := step.1;
    }

    /** `circuit[row, time] = item`: the row is resolved first, then a
        (gate, key) pair goes through gate mode and a channel through channel mode. */
    method SetItem(row: RowRef, t: int, item: Item) returns (err: Option<Error>)
      requires Valid()
      modifies this
      ensures Valid()
      ensures GetIndex(row).Fail? ==> err == Some(KeyError) && diagram == old(diagram) && gateName == old(gateName)
      ensures GetIndex(row).Ok? && item.GateItem? ==>
        (Board(diagram, gateName), err)
        == AssignGate(Board(old(diagram), old(gateName)), qubitDict, auxiliaryDict, item.gate, item.gname,
                      [Entry(item.key, ByIndex(GetIndex(row).value), t)])
      ensures GetIndex(row).Ok? && item.ChannelItem? ==>
        (Board(diagram, gateName), err)
        == AssignChannelAsWritten(Board(old(diagram), old(gateName)), qubitDict, auxiliaryDict, ByIndex(GetIndex(row).value), t, item.c)
      ensures qubitDict == old(qubitDict) && auxiliaryDict == old(auxiliaryDict)
    {
      var q := GetIndex(row);
      if q.Fail? {
        return Some(q.error);
      }
      match item
      case GateItem(gate, gname, key) =>
        err := Assign(gate, gname, [Entry(key, ByIndex(q.value), t)]);
      case ChannelItem(c) =>
        err := AssignChannelAt(ByIndex(q.value), t, c);
    }

    /** `circuit[row, time]`. */
    function GetItem(row: RowRef, t: int): (r: Result<Cell>)
      reads this
      requires Valid()
      ensures GetIndex(row).Fail? ==> r == Fail(KeyError)
      ensures GetIndex(row).Ok? ==> r == Read(diagram, GetIndex(row).value, t)
    {
      match GetIndex(row)
      case Fail(e) => Fail(e)
      case Ok(i) => Read(diagram, i, t)
    }

    /** `compile()`: the diagram is copied and left alone; on success the
        compiled rows are stored, on failure they keep their previous value. */
    method Compile() returns (err: Option<Error>)
      requires Valid()
      modifies this
      ensures Valid()
      ensures (diagram, gateName, qubitDict, auxiliaryDict, name) == old((diagram, gateName, qubitDict, auxiliaryDict, name))
      ensures compiledDiagram == Some(old(diagram))
      ensures (err, compiled) == Outcome(Compiled(old(diagram), Endpoints), old(compiled))
    {
      var e, rows := CompileRows(diagram, Endpoints, compiled);
      compiledDiagram, compiled := Some(diagram), rows;
      err := e;
    }
  }
}
