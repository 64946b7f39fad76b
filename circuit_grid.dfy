// The channel x time-slot diagram shared by both QuantumCircuit versions:
// numpy-style rectangular grids, the cell writes `assign` performs, and the
// compilation that turns the diagram into one concatenated channel per row.

module CircuitGrid {
  import opened Common
  import opened Comparables
  import opened Channels
  import Waves

  /** A diagram cell: nothing assigned (NaN in the source) or a channel. */
  datatype Cell = Empty | Filled(ch: Channel)

  type Grid = seq<seq<Cell>>

  /** The number of columns, read from the first row. */
  function Cols<T>(g: seq<seq<T>>): nat { if |g| == 0 then 0 else |g[0]| }

  /** Every row has the same length, as in a 2-d numpy array. */
  predicate Rect<T>(g: seq<seq<T>>)
  {
    forall i :: 0 <= i < |g| ==> |g[i]| == Cols(g)
  }

  /** `[[v] * cols] * rows`. */
  function Blank<T>(rows: nat, cols: nat, v: T): (r: seq<seq<T>>)
    ensures |r| == rows && Rect(r) && (rows > 0 ==> Cols(r) == cols)
    ensures forall i, j :: 0 <= i < rows && 0 <= j < cols ==> r[i][j] == v
  {
    seq(rows, _ => seq(cols, _ => v))
  }

  /** `np.concatenate((g, [[v] * extra] * rows), axis=1)`. */
  function Widen<T>(g: seq<seq<T>>, extra: nat, v: T): (r: seq<seq<T>>)
    requires Rect(g)
    ensures |r| == |g| && Rect(r) && (|g| > 0 ==> Cols(r) == Cols(g) + extra)
    ensures forall i, j :: 0 <= i < |g| && 0 <= j < Cols(g) ==> r[i][j] == g[i][j]
    ensures forall i, j :: 0 <= i < |g| && Cols(g) <= j < Cols(g) + extra ==> r[i][j] == v
  {
    seq(|g|, i requires 0 <= i < |g| => g[i] + seq(extra, _ => v))
  }

  /** The widening `assign` performs before writing column t: `t - cols + 1`
      new columns when that is positive, none otherwise. The grid never shrinks. */
  function WidenTo<T>(g: seq<seq<T>>, t: int, v: T): (r: seq<seq<T>>)
    requires Rect(g)
    ensures |r| == |g| && Rect(r)
    ensures |g| > 0 ==> Cols(r) == (if t + 1 > Cols(g) then t + 1 else Cols(g))
    ensures forall i, j :: 0 <= i < |g| && 0 <= j < Cols(g) ==> r[i][j] == g[i][j]
    ensures forall i, j :: 0 <= i < |g| && Cols(g) <= j < Cols(r) ==> r[i][j] == v
  {
    if t - Cols(g) + 1 > 0 then Widen(g, t - Cols(g) + 1, v) else g
  }

  /** `g[r, t] = v` with numpy's index rules: negative indices count from the
      end and anything else out of range is an IndexError. */
  function Write<T>(g: seq<seq<T>>, r: int, t: int, v: T): (res: Result<seq<seq<T>>>)
    requires Rect(g)
    ensures res.Ok? <==> PyIndex(r, |g|).Some? && PyIndex(t, Cols(g)).Some?
    ensures res.Fail? ==> res.error == IndexError
    ensures res.Ok? ==> var i := PyIndex(r, |g|).value; var j := PyIndex(t, Cols(g)).value;
      |res.value| == |g| && Rect(res.value) && Cols(res.value) == Cols(g) && res.value[i][j] == v
      && forall a, b :: 0 <= a < |g| && 0 <= b < Cols(g) && (a, b) != (i, j) ==> res.value[a][b] == g[a][b]
  {
    if PyIndex(r, |g|).None? || PyIndex(t, Cols(g)).None? then Fail(IndexError)
    else
      var i := PyIndex(r, |g|).value;
      var j := PyIndex(t, Cols(g)).value;
      Ok(g[i := g[i][j := v]])
  }

  /** `g[r, t]` read with numpy's index rules. */
  function Read<T>(g: seq<seq<T>>, r: int, t: int): (res: Result<T>)
    requires Rect(g)
    ensures res.Ok? <==> PyIndex(r, |g|).Some? && PyIndex(t, Cols(g)).Some?
    ensures res.Fail? ==> res.error == IndexError
    ensures res.Ok? ==> res.value == g[PyIndex(r, |g|).value][PyIndex(t, Cols(g)).value]
  {
    if PyIndex(r, |g|).None? || PyIndex(t, Cols(g)).None? then Fail(IndexError)
    else Ok(g[PyIndex(r, |g|).value][PyIndex(t, Cols(g)).value])
  }

  // ----- compilation -----

  /** A row holds at least one channel. */
  predicate RowAssigned(row: seq<Cell>)
  {
    exists j :: 0 <= j < |row| && row[j].Filled?
  }

  /** Column t holds at least one channel. */
  predicate ColumnAssigned(g: Grid, t: nat)
  {
    exists i :: 0 <= i < |g| && t < |g[i]| && g[i][t].Filled?
  }

  /** The columns among the first n that hold a channel, in ascending order. */
  function KeptColumns(g: Grid, n: nat): (r: seq<nat>)
    ensures forall k :: 0 <= k < |r| ==> r[k] < n && ColumnAssigned(g, r[k])
    ensures forall t :: 0 <= t < n && ColumnAssigned(g, t) ==> t in r
    ensures forall a, b :: 0 <= a < b < |r| ==> r[a] < r[b]
  {
    if n == 0 then []
    else KeptColumns(g, n - 1) + (if ColumnAssigned(g, n - 1) then [n - 1] else [])
  }

  /** `g[:, ks]`: the listed columns of every row, in the listed order. */
  function Select(g: Grid, ks: seq<nat>): (r: Grid)
    requires Rect(g) && forall k :: 0 <= k < |ks| ==> ks[k] < Cols(g)
    ensures |r| == |g| && forall i :: 0 <= i < |g| ==> |r[i]| == |ks|
    ensures forall i, j :: 0 <= i < |g| && 0 <= j < |ks| ==> r[i][j] == g[i][ks[j]]
  {
    seq(|g|, i requires 0 <= i < |g| => seq(|ks|, j requires 0 <= j < |ks| => g[i][ks[j]]))
  }

  /** The rows among the first n whose cell in column t holds a channel, ascending. */
  function FilledRows(g: Grid, t: nat, n: nat): (r: seq<nat>)
    requires n <= |g| && forall i :: 0 <= i < |g| ==> t < |g[i]|
    ensures forall k :: 0 <= k < |r| ==> r[k] < n && g[r[k]][t].Filled?
    ensures forall a, b :: 0 <= a < b < |r| ==> r[a] < r[b]
    ensures forall i :: 0 <= i < n && g[i][t].Filled? ==> i in r
  {
    if n == 0 then []
    else FilledRows(g, t, n - 1) + (if g[n - 1][t].Filled? then [n - 1] else [])
  }

  function ChannelsAt(g: Grid, t: nat, rows: seq<nat>): (r: seq<Channel>)
    requires forall k :: 0 <= k < |rows| ==> rows[k] < |g| && t < |g[rows[k]]| && g[rows[k]][t].Filled?
    ensures |r| == |rows| && forall k :: 0 <= k < |rows| ==> r[k] == g[rows[k]][t].ch
  {
    seq(|rows|, k requires 0 <= k < |rows| => g[rows[k]][t].ch)
  }

  /** The aligned channels written back into their cells of column t. */
  function WriteBack(g: Grid, t: nat, rows: seq<nat>, chs: seq<Channel>): (r: Grid)
    requires |rows| == |chs| && forall k :: 0 <= k < |rows| ==> rows[k] < |g| && t < |g[rows[k]]| && g[rows[k]][t].Filled?
    requires forall a, b :: 0 <= a < b < |rows| ==> rows[a] < rows[b]
    ensures |r| == |g| && forall i :: 0 <= i < |g| ==> |r[i]| == |g[i]|
    ensures forall k :: 0 <= k < |rows| ==> r[rows[k]][t] == Filled(chs[k])
    ensures forall i, j :: 0 <= i < |g| && 0 <= j < |g[i]| ==> r[i][j].Filled? == g[i][j].Filled?
    ensures forall i, j :: 0 <= i < |g| && 0 <= j < |g[i]| && j != t ==> r[i][j] == g[i][j]
  {
    if |rows| == 0 then g
    else
      var n := |rows| - 1;
      var h := WriteBack(g, t, rows[..n], chs[..n]);
      h[rows[n] := h[rows[n]][t := Filled(chs[n])]]
  }

  /** `alignQubitChannels` on the channels of column t. */
  function AlignColumn(g: Grid, t: nat, rule: SpanRule): (r: Result<Grid>)
    requires Rect(g) && t < Cols(g)
    ensures r.Ok? ==> |r.value| == |g| && Rect(r.value) && Cols(r.value) == Cols(g)
    ensures r.Ok? ==> forall i, j :: 0 <= i < |g| && 0 <= j < Cols(g) ==> r.value[i][j].Filled? == g[i][j].Filled?
  {
    var rows := FilledRows(g, t, |g|);
    match AlignChannels(ChannelsAt(g, t, rows), rule)
    case Fail(e) => Fail(e)
    case Ok(al) => Ok(WriteBack(g, t, rows, al))
  }

  /** The alignment loop from column t to the last. */
  function AlignFrom(g: Grid, t: nat, rule: SpanRule): (r: Result<Grid>)
    requires Rect(g) && t <= Cols(g)
    ensures r.Ok? ==> |r.value| == |g| && Rect(r.value) && Cols(r.value) == Cols(g)
    ensures r.Ok? ==> forall i, j :: 0 <= i < |g| && 0 <= j < Cols(g) ==> r.value[i][j].Filled? == g[i][j].Filled?
    decreases Cols(g) - t
  {
    if t == Cols(g) then Ok(g)
    else
      match AlignColumn(g, t, rule)
      case Fail(e) => Fail(e)
      case Ok(h) => AlignFrom(h, t + 1, rule)
  }

  /** `np.where(...)[0][0]` over a column: the first row holding a channel. */
  function FirstFilledRow(g: Grid, t: nat): (r: Option<nat>)
    requires forall i :: 0 <= i < |g| ==> t < |g[i]|
    ensures r.Some? ==> r.value < |g| && g[r.value][t].Filled? && forall i :: 0 <= i < r.value ==> g[i][t].Empty?
    ensures r.None? ==> forall i :: 0 <= i < |g| ==> g[i][t].Empty?
  {
    FirstFilledRowFrom(g, t, 0)
  }

  function FirstFilledRowFrom(g: Grid, t: nat, i: nat): (r: Option<nat>)
    requires i <= |g| && forall k :: 0 <= k < |g| ==> t < |g[k]|
    requires forall k :: 0 <= k < i ==> g[k][t].Empty?
    ensures r.Some? ==> r.value < |g| && g[r.value][t].Filled? && forall k :: 0 <= k < r.value ==> g[k][t].Empty?
    ensures r.None? ==> forall k :: 0 <= k < |g| ==> g[k][t].Empty?
    decreases |g| - i
  {
    if i == |g| then None
    else if g[i][t].Filled? then Some(i)
    else FirstFilledRowFrom(g, t, i + 1)
  }

  /** The first cell of a row holding a channel. */
  function FirstFilled(row: seq<Cell>): (r: Option<nat>)
    ensures r.Some? ==> r.value < |row| && row[r.value].Filled? && forall j :: 0 <= j < r.value ==> row[j].Empty?
    ensures r.None? ==> !RowAssigned(row)
  {
    if |row| == 0 then None
    else if row[0].Filled? then Some(0)
    else
      match FirstFilled(row[1..])
      case None => None
      case Some(j) => Some(j + 1)
  }

  /** h and g have the same shape and agree everywhere except perhaps at (q, t). */
  predicate OnlyCellChanged(g: Grid, h: Grid, q: nat, t: nat)
  {
    && Rect(g) && |h| == |g| && Rect(h) && Cols(h) == Cols(g)
    && forall i, j :: 0 <= i < |g| && 0 <= j < Cols(g) && (i != q || j != t) ==> h[i][j] == g[i][j]
  }

  /** One pass of the null-filling loop: an empty cell becomes a null channel
      spanning like the first channel of its column (as the grid is now) with
      as many wires as the first channel of its row. */
  function FillCell(g: Grid, q: nat, t: nat, rule: SpanRule): (r: Result<Grid>)
    requires Rect(g) && q < |g| && t < Cols(g)
    ensures r.Ok? ==> |r.value| == |g| && Rect(r.value) && Cols(r.value) == Cols(g)
    ensures r.Ok? ==> r.value[q][t].Filled?
    ensures r.Ok? ==> OnlyCellChanged(g, r.value, q, t)
    ensures r.Ok? && g[q][t].Filled? ==> r.value == g
  {
    if g[q][t].Filled? then Ok(g)
    else if FirstFilledRow(g, t).None? || FirstFilled(g[q]).None? then Fail(IndexError)
    else
      var s := FirstFilledRow(g, t).value;
      var w := FirstFilled(g[q]).value;
      match Null(SpanOf(g[s][t].ch), WiresOf(g[q][w].ch), rule)
      case Fail(e) => Fail(e)
      case Ok(c) => Ok(SetCell(g, q, t, Filled(c)))
  }

  /** `grid[q][t] = c`: one cell changes and the shape stays. */
  function SetCell(g: Grid, q: nat, t: nat, c: Cell): (r: Grid)
    requires Rect(g) && q < |g| && t < Cols(g)
    ensures |r| == |g| && Rect(r) && Cols(r) == Cols(g) && r[q][t] == c
    ensures OnlyCellChanged(g, r, q, t)
  {
    var r := g[q := g[q][t := c]];
    assert Cols(r) == Cols(g) by {
      if q == 0 { assert |r[0]| == |g[0]|; }
    }
    r
  }

  /** The inner loop over the cells of row q from column t on. */
  function FillRowFrom(g: Grid, q: nat, t: nat, rule: SpanRule): (r: Result<Grid>)
    requires Rect(g) && q < |g| && t <= Cols(g)
    ensures r.Ok? ==> |r.value| == |g| && Rect(r.value) && Cols(r.value) == Cols(g)
    decreases Cols(g) - t
  {
    if t == Cols(g) then Ok(g)
    else
      match FillCell(g, q, t, rule)
      case Fail(e) => Fail(e)
      case Ok(h) => FillRowFrom(h, q, t + 1, rule)
  }

  /** The outer loop over the rows from q on. */
  function FillFrom(g: Grid, q: nat, rule: SpanRule): (r: Result<Grid>)
    requires Rect(g) && q <= |g|
    ensures r.Ok? ==> |r.value| == |g| && Rect(r.value) && Cols(r.value) == Cols(g)
    decreases |g| - q
  {
    if q == |g| then Ok(g)
    else
      match FillRowFrom(g, q, 0, rule)
      case Fail(e) => Fail(e)
      case Ok(h) => FillFrom(h, q + 1, rule)
  }

  /** `np.sum(row)` over the first n cells: the channels added left to right. */
  function SumCells(row: seq<Cell>, n: nat, rule: SpanRule): (r: Result<Channel>)
    requires 0 < n <= |row|
  {
    if n == 1 then (if row[0].Filled? then Ok(row[0].ch) else Fail(TypeError))
    else
      match SumCells(row, n - 1, rule)
      case Fail(e) => Fail(e)
      case Ok(acc) => if row[n - 1].Filled? then Channels.Plus(acc, row[n - 1].ch, rule) else Fail(TypeError)
  }

  /** A row adds up only when every cell holds a channel (an empty cell is a
      TypeError), and the sum keeps the first channel's wire count. */
  lemma {:induction false} SumCellsFilled(row: seq<Cell>, n: nat, rule: SpanRule)
    requires 0 < n <= |row|
    ensures SumCells(row, n, rule).Ok? ==>
      (forall j :: 0 <= j < n ==> row[j].Filled?) && |SumCells(row, n, rule).value.wires| == |row[0].ch.wires|
  {
    if n == 1 {
      assert SumCells(row, 1, rule) == (if row[0].Filled? then Ok(row[0].ch) else Fail(TypeError));
    } else if SumCells(row, n, rule).Ok? {
      SumCellsFilledStep(row, n, rule);
      assert SumCells(row, n - 1, rule).Ok? && row[n - 1].Filled?;
      SumCellsFilled(row, n - 1, rule);
      assert forall j :: 0 <= j < n - 1 ==> row[j].Filled?;
      forall j | 0 <= j < n
        ensures row[j].Filled?
      {
        if j < n - 1 {
          assert row[j].Filled?;
        }
      }
      var acc := SumCells(row, n - 1, rule).value;
      assert |SumCells(row, n, rule).value.wires| == |acc.wires| == |row[0].ch.wires|;
    }
  }

  /** One step of `SumCellsFilled`: a sum of n cells succeeds only on a
      successful sum of the first n - 1 and a filled last cell, and keeps its
      wire count. */
  lemma SumCellsFilledStep(row: seq<Cell>, n: nat, rule: SpanRule)
    requires 1 < n <= |row|
    ensures SumCells(row, n, rule).Ok? ==>
      SumCells(row, n - 1, rule).Ok? && row[n - 1].Filled? &&
      |SumCells(row, n, rule).value.wires| == |SumCells(row, n - 1, rule).value.wires|
  {
  }

  /** The row sums of the first m rows. */
  function RowSums(g: Grid, m: nat, rule: SpanRule): (r: Result<seq<Channel>>)
    requires Rect(g) && m <= |g|
    ensures r.Ok? ==> |r.value| == m
    ensures m > 0 && Cols(g) == 0 ==> r.Fail?
  {
    if m == 0 then Ok([])
    else
      match RowSums(g, m - 1, rule)
      case Fail(e) => Fail(e)
      case Ok(sums) =>
        if Cols(g) == 0 then Fail(TypeError)
        else
          match SumCells(g[m - 1], Cols(g), rule)
          case Fail(e) => Fail(e)
          case Ok(c) => Ok(sums + [c])
  }

  /** Every row holds a channel. */
  predicate AllRowsAssigned(g: Grid)
  {
    forall i :: 0 <= i < |g| ==> RowAssigned(g[i])
  }

  /** The columns that survive compilation, as a grid of their own. */
  function Kept(g: Grid): (r: Grid)
    requires Rect(g)
    ensures |r| == |g| && Rect(r)
  {
    Select(g, KeptColumns(g, Cols(g)))
  }

  /** `compile`: a diagram without cells (numpy refuses to vectorize over an
      empty array) or a row without any channel is a ValueError; otherwise the
      empty columns are dropped, every column is aligned, the holes are filled
      with null channels and every row is summed into one channel. */
  function Compiled(g: Grid, rule: SpanRule): (r: Result<seq<Channel>>)
    requires Rect(g)
    ensures |g| == 0 || !AllRowsAssigned(g) ==> r == Fail(ValueError)
    ensures r.Ok? ==> |r.value| == |g| && |g| > 0
  {
    if |g| == 0 || !AllRowsAssigned(g) then Fail(ValueError)
    else
      var kept := Kept(g);
      match AlignFrom(kept, 0, rule)
      case Fail(e) => Fail(e)
      case Ok(al) =>
        match FillFrom(al, 0, rule)
        case Fail(e) => Fail(e)
        case Ok(filled) => RowSums(filled, |filled|, rule)
  }

  /** The loop aligning the columns one by one. */
  method AlignLoop(kept: Grid, rule: SpanRule) returns (r: Result<Grid>)
    requires Rect(kept)
    ensures r == AlignFrom(kept, 0, rule)
  {
    var grid := kept;
    var t := 0;
    while t < Cols(kept)
      invariant 0 <= t <= Cols(kept) && |grid| == |kept| && Rect(grid) && Cols(grid) == Cols(kept)
      invariant AlignFrom(grid, t, rule) == AlignFrom(kept, 0, rule)
    {
      var aligned := AlignColumn(grid, t, rule);
      if aligned.Fail? {
        return Fail(aligned.error);
      }
      grid := aligned.value;
      t := t + 1;
    }
    return Ok(grid);
  }

  /** The inner null-filling loop over one row. */
  method FillRowLoop(g: Grid, q: nat, rule: SpanRule) returns (r: Result<Grid>)
    requires Rect(g) && q < |g|
    ensures r == FillRowFrom(g, q, 0, rule)
  {
    var grid := g;
    var t := 0;
    while t < Cols(g)
      invariant 0 <= t <= Cols(g) && |grid| == |g| && Rect(grid) && Cols(grid) == Cols(g)
      invariant FillRowFrom(grid, q, t, rule) == FillRowFrom(g, q, 0, rule)
    {
      if grid[q][t].Empty? {
        var s := FirstFilledRow(grid, t);
        var w := FirstFilled(grid[q]);
        if s.None? || w.None? {
          return Fail(IndexError);
        }
        var c := Null(SpanOf(grid[s.value][t].ch), WiresOf(grid[q][w.value].ch), rule);
        if c.Fail? {
          return Fail(c.error);
        }
        grid := grid[q := grid[q][t := Filled(c.value)]];
      }
      t := t + 1;
    }
    return Ok(grid);
  }

  /** The outer null-filling loop over the rows. */
  method FillLoop(g: Grid, rule: SpanRule) returns (r: Result<Grid>)
    requires Rect(g)
    ensures r == FillFrom(g, 0, rule)
  {
    ghost var target := FillFrom(g, 0, rule);
    var grid := g;
    var q := 0;
    while q < |g|
      invariant 0 <= q <= |g| && |grid| == |g| && Rect(grid) && Cols(grid) == Cols(g)
      invariant FillFrom(grid, q, rule) == target
    {
      var row := FillRowLoop(grid, q, rule);
      FillFromFirstRow(grid, q, rule);
      if row.Fail? {
        assert target == Fail(row.error);
        return Fail(row.error);
      }
      assert FillFrom(row.value, q + 1, rule) == target;
      grid := row.value;
      q := q + 1;
    }
    assert FillFrom(grid, q, rule) == Ok(grid);
    return Ok(grid);
  }

  /** `compile`: the unassigned-row check, the column filter, the two loops
      and the row sums. */
  method Compile(g: Grid, rule: SpanRule) returns (r: Result<seq<Channel>>)
    requires Rect(g)
    ensures r == Compiled(g, rule)
  {
    if |g| == 0 || !AllRowsAssigned(g) {
      return Fail(ValueError);
    }
    var aligned := AlignLoop(Kept(g), rule);
    if aligned.Fail? {
      return Fail(aligned.error);
    }
    var filled := FillLoop(aligned.value, rule);
    if filled.Fail? {
      return Fail(filled.error);
    }
    r := RowSums(filled.value, |filled.value|, rule);
  }

  /** A compilation's error and the compiled rows it leaves: a failure keeps
      the rows of the previous compilation. */
  function Outcome(r: Result<seq<Channel>>, prev: Option<seq<Channel>>): (o: (Option<Error>, Option<seq<Channel>>))
    ensures o.0 == None <==> r.Ok?
    ensures r.Ok? ==> o.1 == Some(r.value)
    ensures r.Fail? ==> o == (Some(r.error), prev)
  {
    match r
    case Ok(v) => (None, Some(v))
    case Fail(e) => (Some(e), prev)
  }

  /** The compilation loops run on the diagram, with the outcome they leave. */
  method CompileRows(d: Grid, rule: SpanRule, prev: Option<seq<Channel>>) returns (err: Option<Error>, rows: Option<seq<Channel>>)
    requires Rect(d)
    ensures (err, rows) == Outcome(Compiled(d, rule), prev)
  {
    var r := Compile(d, rule);
    err, rows := Outcome(r, prev).0, Outcome(r, prev).1;
  }

  // ----- what compilation produces -----

  /** Dropping the empty columns keeps every row assigned, leaves no empty
      column, and leaves at least one column when there is a row. */
  lemma KeptAssigned(g: Grid)
    requires Rect(g) && AllRowsAssigned(g)
    ensures AllRowsAssigned(Kept(g))
    ensures forall t :: 0 <= t < Cols(Kept(g)) ==> ColumnAssigned(Kept(g), t)
    ensures |g| > 0 ==> Cols(Kept(g)) >= 1
  {
    var ks := KeptColumns(g, Cols(g));
    var k: Grid := Kept(g);
    forall i | 0 <= i < |g|
      ensures RowAssigned(k[i])
    {
      var j :| 0 <= j < |g[i]| && g[i][j].Filled?;
      assert ColumnAssigned(g, j);
      var m :| 0 <= m < |ks| && ks[m] == j;
      assert k[i][m].Filled?;
    }
    forall t | 0 <= t < Cols(k)
      ensures ColumnAssigned(k, t)
    {
      assert ColumnAssigned(g, ks[t]);
      var i :| 0 <= i < |g| && ks[t] < |g[i]| && g[i][ks[t]].Filled?;
      assert k[i][t].Filled?;
    }
    if |g| > 0 {
      var j :| 0 <= j < |g[0]| && g[0][j].Filled?;
      assert ColumnAssigned(g, j);
    }
  }

  /** r agrees with g on every other row and on every cell g already filled,
      and row q is filled. */
  predicate FillsRow(g: Grid, r: Grid, q: nat)
  {
    && Rect(g) && Rect(r) && |r| == |g| && Cols(r) == Cols(g) && q < |g|
    && (forall i, j :: 0 <= i < |g| && 0 <= j < Cols(g) && (i != q || g[i][j].Filled?) ==> r[i][j] == g[i][j])
    && forall j :: 0 <= j < Cols(g) ==> r[q][j].Filled?
  }

  /** The inner loop's state h after t cells of row q: the cells from t on
      and every cell other than an empty one of row q before t are g0's, and
      row q is filled before t. */
  predicate FilledBefore(g0: Grid, h: Grid, q: nat, t: nat)
  {
    && Rect(g0) && Rect(h) && |h| == |g0| && Cols(h) == Cols(g0) && q < |g0| && t <= Cols(g0)
    && (forall i, j :: 0 <= i < |g0| && 0 <= j < Cols(g0) && (i != q || t <= j || g0[i][j].Filled?) ==> h[i][j] == g0[i][j])
    && forall j :: 0 <= j < t ==> h[q][j].Filled?
  }

  lemma FillCellFills(g0: Grid, h: Grid, q: nat, t: nat, rule: SpanRule)
    requires FilledBefore(g0, h, q, t) && t < Cols(g0) && FillCell(h, q, t, rule).Ok?
    ensures FilledBefore(g0, FillCell(h, q, t, rule).value, q, t + 1)
  {
    var h2 := FillCell(h, q, t, rule).value;
    forall i, j | 0 <= i < |g0| && 0 <= j < Cols(g0) && (i != q || t + 1 <= j || g0[i][j].Filled?)
      ensures h2[i][j] == g0[i][j]
    {
      if i != q || j != t {
        assert h2[i][j] == h[i][j];
      } else {
        assert h[q][t] == g0[q][t];
      }
    }
    forall j | 0 <= j < t + 1
      ensures h2[q][j].Filled?
    {
      if j < t {
        assert h2[q][j] == h[q][j];
      }
    }
  }

  lemma {:induction false} FillRowFromFilled(g0: Grid, h: Grid, q: nat, t: nat, rule: SpanRule)
    requires FilledBefore(g0, h, q, t) && FillRowFrom(h, q, t, rule).Ok?
    ensures FilledBefore(g0, FillRowFrom(h, q, t, rule).value, q, Cols(g0))
    decreases Cols(g0) - t
  {
    if t < Cols(g0) {
      assert FillCell(h, q, t, rule).Ok?;
      var h2 := FillCell(h, q, t, rule).value;
      assert FillRowFrom(h, q, t, rule) == FillRowFrom(h2, q, t + 1, rule);
      FillCellFills(g0, h, q, t, rule);
      FillRowFromFilled(g0, h2, q, t + 1, rule);
    } else {
      assert FillRowFrom(h, q, t, rule) == Ok(h);
    }
  }

  /** The inner loop fills its row and changes no other cell. */
  lemma FillRowFills(g: Grid, q: nat, rule: SpanRule)
    requires Rect(g) && q < |g| && FillRowFrom(g, q, 0, rule).Ok?
    ensures FillsRow(g, FillRowFrom(g, q, 0, rule).value, q)
  {
    FillRowFromFilled(g, g, q, 0, rule);
  }

  /** The outer loop's state h after q rows: the rows from q on and every
      cell g0 had filled are g0's, and the rows before q are filled. */
  predicate RowsFilledBefore(g0: Grid, h: Grid, q: nat)
  {
    && Rect(g0) && Rect(h) && |h| == |g0| && Cols(h) == Cols(g0) && q <= |g0|
    && (forall i, j :: 0 <= i < |g0| && 0 <= j < Cols(g0) && (q <= i || g0[i][j].Filled?) ==> h[i][j] == g0[i][j])
    && forall i, j :: 0 <= i < q && 0 <= j < Cols(g0) ==> h[i][j].Filled?
  }

  lemma FillRowKeeps(g0: Grid, h: Grid, q: nat, rule: SpanRule)
    requires RowsFilledBefore(g0, h, q) && q < |g0| && FillRowFrom(h, q, 0, rule).Ok?
    ensures RowsFilledBefore(g0, FillRowFrom(h, q, 0, rule).value, q + 1)
  {
    var h2 := FillRowFrom(h, q, 0, rule).value;
    FillRowFills(h, q, rule);
    forall i, j | 0 <= i < |g0| && 0 <= j < Cols(g0) && (q + 1 <= i || g0[i][j].Filled?)
      ensures h2[i][j] == g0[i][j]
    {
      assert h[i][j] == g0[i][j];
    }
    forall i, j | 0 <= i < q + 1 && 0 <= j < Cols(g0)
      ensures h2[i][j].Filled?
    {
      if i < q {
        assert h2[i][j] == h[i][j];
      }
    }
  }

  lemma {:induction false} FillFromFilled(g0: Grid, h: Grid, q: nat, rule: SpanRule)
    requires RowsFilledBefore(g0, h, q) && FillFrom(h, q, rule).Ok?
    ensures RowsFilledBefore(g0, FillFrom(h, q, rule).value, |g0|)
    decreases |g0| - q
  {
    if q < |g0| {
      assert FillRowFrom(h, q, 0, rule).Ok?;
      var h2 := FillRowFrom(h, q, 0, rule).value;
      assert FillFrom(h, q, rule) == FillFrom(h2, q + 1, rule);
      FillRowKeeps(g0, h, q, rule);
      FillFromFilled(g0, h2, q + 1, rule);
    } else {
      assert FillFrom(h, q, rule) == Ok(h);
    }
  }

  /** The null-filling loops fill every cell and leave the filled ones alone. */
  lemma FillFills(g: Grid, rule: SpanRule)
    requires Rect(g) && FillFrom(g, 0, rule).Ok?
    ensures var r := FillFrom(g, 0, rule).value;
      && (forall i, j :: 0 <= i < |g| && 0 <= j < Cols(g) && g[i][j].Filled? ==> r[i][j] == g[i][j])
      && forall i, j :: 0 <= i < |g| && 0 <= j < Cols(g) ==> r[i][j].Filled?
  {
    FillFromFilled(g, g, 0, rule);
  }

  /** The number of wires of the first channel of a row. */
  function RowWires(row: seq<Cell>): (r: nat)
    requires RowAssigned(row)
  {
    |row[FirstFilled(row).value].ch.wires|
  }

  /** Writing a channel into an empty cell moves a row's first channel to that
      cell or leaves it where it was. */
  lemma FirstFilledWrite(row: seq<Cell>, t: nat, c: Channel)
    requires t < |row| && row[t].Empty?
    ensures var f := FirstFilled(row[t := Filled(c)]);
      f.Some? && (f.value == t || (FirstFilled(row).Some? && f.value == FirstFilled(row).value))
  {
    var row2 := row[t := Filled(c)];
    assert row2[t].Filled?;
    assert RowAssigned(row2);
    var f := FirstFilled(row);
    if f.Some? && f.value < t {
      var fv := f.value;
      assert row2[fv] == row[fv];
      var f2 := FirstFilled(row2).value;
      assert f2 <= fv;
      assert row[f2] == row2[f2];
      assert row[f2].Filled?;
    }
  }

  /** While filling row q: its first channel has w wires, every cell filled so
      far that was empty in g0 has w wires, and the cells from t on are g0's. */
  predicate WiresSoFar(g0: Grid, h: Grid, q: nat, t: nat, w: nat)
    requires Rect(g0) && Rect(h) && |h| == |g0| && Cols(h) == Cols(g0) && q < |g0| && t <= Cols(g0)
  {
    RowAssigned(h[q]) && RowWires(h[q]) == w
    && (forall j :: 0 <= j < t && g0[q][j].Empty? ==> h[q][j].Filled? && |h[q][j].ch.wires| == w)
    && (forall j :: t <= j < Cols(g0) ==> h[q][j] == g0[q][j])
  }

  lemma FillCellWires(g0: Grid, h: Grid, q: nat, t: nat, w: nat, rule: SpanRule)
    requires Rect(g0) && Rect(h) && |h| == |g0| && Cols(h) == Cols(g0) && q < |g0| && t < Cols(g0)
    requires WiresSoFar(g0, h, q, t, w) && FillCell(h, q, t, rule).Ok?
    ensures WiresSoFar(g0, FillCell(h, q, t, rule).value, q, t + 1, w)
  {
    var h2: Grid := FillCell(h, q, t, rule).value;
    if h[q][t].Empty? {
      var c := h2[q][t].ch;
      assert h2[q] == h[q][t := Filled(c)];
      FirstFilledWrite(h[q], t, c);
    }
  }

  lemma {:induction false} FillRowFromWires(g0: Grid, h: Grid, q: nat, t: nat, w: nat, rule: SpanRule)
    requires Rect(g0) && Rect(h) && |h| == |g0| && Cols(h) == Cols(g0) && q < |g0| && t <= Cols(g0)
    requires WiresSoFar(g0, h, q, t, w) && FillRowFrom(h, q, t, rule).Ok?
    ensures WiresSoFar(g0, FillRowFrom(h, q, t, rule).value, q, Cols(g0), w)
    decreases Cols(g0) - t
  {
    if t < Cols(g0) {
      assert FillCell(h, q, t, rule).Ok?;
      var h2 := FillCell(h, q, t, rule).value;
      assert FillRowFrom(h, q, t, rule) == FillRowFrom(h2, q, t + 1, rule);
      FillCellWires(g0, h, q, t, w, rule);
      FillRowFromWires(g0, h2, q, t + 1, w, rule);
    } else {
      assert FillRowFrom(h, q, t, rule) == Ok(h);
    }
  }

  /** Every null channel the fill puts in a row has as many wires as the first
      channel of that row. */
  lemma FillRowWires(g: Grid, q: nat, rule: SpanRule)
    requires Rect(g) && q < |g| && RowAssigned(g[q]) && FillRowFrom(g, q, 0, rule).Ok?
    ensures var r := FillRowFrom(g, q, 0, rule).value;
      forall j :: 0 <= j < Cols(g) && g[q][j].Empty? ==> r[q][j].Filled? && |r[q][j].ch.wires| == RowWires(g[q])
  {
    FillRowFromWires(g, g, q, 0, RowWires(g[q]), rule);
  }

  // ----- what compilation promises under the package span rule -----

  /** Every channel of the grid has wires of one sample count, at least two. */
  predicate CellsWellFormed(g: Grid)
  {
    forall i, j :: 0 <= i < |g| && 0 <= j < |g[i]| && g[i][j].Filled? ==>
      Uniform(g[i][j].ch.wires, ChannelSamples(g[i][j].ch)) && ChannelSamples(g[i][j].ch) >= 2
  }

  /** The largest sample count among the channels of column t in the first n
      rows (0 when there is none). */
  function ColumnMax(g: Grid, t: nat, n: nat): (r: nat)
    requires n <= |g| && forall i :: 0 <= i < |g| ==> t < |g[i]|
    ensures forall i :: 0 <= i < n && g[i][t].Filled? ==> ChannelSamples(g[i][t].ch) <= r
  {
    if n == 0 then 0
    else
      var m := ColumnMax(g, t, n - 1);
      if g[n - 1][t].Filled? && ChannelSamples(g[n - 1][t].ch) > m then ChannelSamples(g[n - 1][t].ch) else m
  }

  /** A positive maximum is some channel's sample count. */
  lemma {:induction false} ColumnMaxPositive(g: Grid, t: nat, n: nat) returns (i: nat)
    requires n <= |g| && forall k :: 0 <= k < |g| ==> t < |g[k]|
    requires ColumnMax(g, t, n) > 0
    ensures i < n && g[i][t].Filled? && ChannelSamples(g[i][t].ch) == ColumnMax(g, t, n)
  {
    var m := ColumnMax(g, t, n - 1);
    if g[n - 1][t].Filled? && ChannelSamples(g[n - 1][t].ch) > m {
      i := n - 1;
    } else {
      i := ColumnMaxPositive(g, t, n - 1);
    }
  }

  /** Some channel of the column has that largest sample count. */
  lemma ColumnMaxAttained(g: Grid, t: nat, n: nat, i0: nat) returns (i: nat)
    requires n <= |g| && forall k :: 0 <= k < |g| ==> t < |g[k]|
    requires i0 < n && g[i0][t].Filled?
    ensures i < n && g[i][t].Filled? && ChannelSamples(g[i][t].ch) == ColumnMax(g, t, n)
  {
    if ColumnMax(g, t, n) > 0 {
      i := ColumnMaxPositive(g, t, n);
    } else {
      i := i0;
    }
  }

  /** ColumnMax reads nothing but its column. */
  lemma {:induction false} ColumnMaxSame(g: Grid, h: Grid, t: nat, n: nat)
    requires n <= |g| == |h| && forall i :: 0 <= i < |g| ==> t < |g[i]| && t < |h[i]| && h[i][t] == g[i][t]
    ensures ColumnMax(h, t, n) == ColumnMax(g, t, n)
  {
    if n > 0 {
      ColumnMaxSame(g, h, t, n - 1);
      assert h[n - 1][t] == g[n - 1][t];
    }
  }

  /** The longest of a column's channels has the column's largest sample count. */
  lemma LongestIsColumnMax(g: Grid, t: nat, i0: nat)
    requires Rect(g) && t < Cols(g) && i0 < |g| && g[i0][t].Filled?
    ensures var chs := ChannelsAt(g, t, FilledRows(g, t, |g|));
      |chs| >= 1 && ChannelSamples(chs[FirstLongest(ChannelLengths(chs))]) == ColumnMax(g, t, |g|)
  {
    var rows := FilledRows(g, t, |g|);
    var chs := ChannelsAt(g, t, rows);
    assert i0 in rows;
    var k := FirstLongest(ChannelLengths(chs));
    var m := ColumnMax(g, t, |g|);
    assert chs[k] == g[rows[k]][t].ch;
    var i := ColumnMaxAttained(g, t, |g|, i0);
    assert i in rows;
    var a :| 0 <= a < |rows| && rows[a] == i;
    assert chs[a] == g[i][t].ch;
    assert ChannelLengths(chs)[a] <= ChannelLengths(chs)[k];
  }

  /** Aligning one or more well-formed channels under the package span rule
      brings every wire to the longest channel's sample count. */
  lemma AlignChannelsToLongest(chs: seq<Channel>)
    requires |chs| >= 1 && WellFormed(chs)
    ensures AlignChannels(chs, Endpoints).Ok?
    ensures var r := AlignChannels(chs, Endpoints).value;
      var m := ChannelSamples(chs[FirstLongest(ChannelLengths(chs))]);
      forall a :: 0 <= a < |chs| ==> Uniform(r[a].wires, m) && WiresExtend(r[a].wires, chs[a].wires)
  {
    if |chs| >= 2 {
      AlignChannelsEqualizes(chs);
    } else {
      assert FirstLongest(ChannelLengths(chs)) == 0;
    }
  }

  /** The channels of a column of a well-formed grid are well formed. */
  lemma ColumnWellFormed(g: Grid, t: nat, rows: seq<nat>)
    requires CellsWellFormed(g)
    requires forall k :: 0 <= k < |rows| ==> rows[k] < |g| && t < |g[rows[k]]| && g[rows[k]][t].Filled?
    ensures WellFormed(ChannelsAt(g, t, rows))
  {
    var chs := ChannelsAt(g, t, rows);
    forall a | 0 <= a < |chs|
      ensures Uniform(chs[a].wires, ChannelSamples(chs[a])) && ChannelSamples(chs[a]) >= 2
    {
      assert chs[a] == g[rows[a]][t].ch;
    }
  }

  /** h is g with column t padded: the same shape and filledness, every other
      column unchanged, and every channel of column t at the column's largest
      sample count, wire by wire, with its wire count kept and each wire
      starting with the waves it had. */
  predicate ColumnPadded(g: Grid, h: Grid, t: nat)
  {
    && Rect(g) && |h| == |g| && Rect(h) && Cols(h) == Cols(g) && t < Cols(g)
    && (forall i, j :: 0 <= i < |g| && 0 <= j < Cols(g) ==> h[i][j].Filled? == g[i][j].Filled?)
    && (forall i, j :: 0 <= i < |g| && 0 <= j < Cols(g) && j != t ==> h[i][j] == g[i][j])
    && forall i :: 0 <= i < |g| && g[i][t].Filled? ==>
         Uniform(h[i][t].ch.wires, ColumnMax(g, t, |g|)) && WiresExtend(h[i][t].ch.wires, g[i][t].ch.wires)
  }

  /** Under the package span rule, aligning a column of well-formed channels
      succeeds and pads it. */
  lemma AlignColumnEqualizes(g: Grid, t: nat)
    requires Rect(g) && t < Cols(g) && CellsWellFormed(g) && ColumnAssigned(g, t)
    ensures AlignColumn(g, t, Endpoints).Ok?
    ensures ColumnPadded(g, AlignColumn(g, t, Endpoints).value, t)
  {
    var rows := FilledRows(g, t, |g|);
    var chs := ChannelsAt(g, t, rows);
    var i0 :| 0 <= i0 < |g| && t < |g[i0]| && g[i0][t].Filled?;
    LongestIsColumnMax(g, t, i0);
    ColumnWellFormed(g, t, rows);
    AlignChannelsToLongest(chs);
    var al := AlignChannels(chs, Endpoints).value;
    var h: Grid := WriteBack(g, t, rows, al);
    assert AlignColumn(g, t, Endpoints) == Ok(h);
    forall i | 0 <= i < |g| && g[i][t].Filled?
      ensures Uniform(h[i][t].ch.wires, ColumnMax(g, t, |g|)) && WiresExtend(h[i][t].ch.wires, g[i][t].ch.wires)
    {
      var a :| 0 <= a < |rows| && rows[a] == i;
      assert h[i][t] == Filled(al[a]);
      assert chs[a] == g[i][t].ch;
    }
  }

  /** Grids of one shape and filledness have the same assigned columns. */
  lemma SameFilling(g: Grid, h: Grid, j: nat)
    requires Rect(g) && |h| == |g| && Rect(h) && Cols(h) == Cols(g) && j < Cols(g)
    requires forall i, k :: 0 <= i < |g| && 0 <= k < Cols(g) ==> h[i][k].Filled? == g[i][k].Filled?
    requires ColumnAssigned(g, j)
    ensures ColumnAssigned(h, j)
  {
    var i :| 0 <= i < |g| && j < |g[i]| && g[i][j].Filled?;
    assert h[i][j].Filled?;
  }

  /** A padded column keeps the grid well formed, and the other columns keep
      their largest sample count and their channels. */
  lemma PaddedKeeps(g: Grid, h: Grid, t: nat)
    requires ColumnPadded(g, h, t) && CellsWellFormed(g)
    ensures CellsWellFormed(h)
    ensures forall j :: 0 <= j < Cols(g) && j != t ==> ColumnMax(h, j, |g|) == ColumnMax(g, j, |g|)
  {
    var m := ColumnMax(g, t, |g|);
    forall i, j | 0 <= i < |h| && 0 <= j < |h[i]| && h[i][j].Filled?
      ensures Uniform(h[i][j].ch.wires, ChannelSamples(h[i][j].ch)) && ChannelSamples(h[i][j].ch) >= 2
    {
      if j == t {
        assert g[i][t].Filled? && ChannelSamples(g[i][t].ch) <= m;
        assert ChannelSamples(h[i][t].ch) == m;
      } else {
        assert h[i][j] == g[i][j];
      }
    }
    forall j | 0 <= j < Cols(g) && j != t
      ensures ColumnMax(h, j, |g|) == ColumnMax(g, j, |g|)
    {
      ColumnMaxSame(g, h, j, |g|);
    }
  }

  /** h is what aligning the columns of g from t on leaves: a well-formed grid
      of g's shape and filledness, the columns before t unchanged, and every
      channel of a later column at that column's largest sample count, wire by
      wire, with its wire count kept and each wire starting with the waves it
      had. */
  predicate PaddedFrom(g: Grid, h: Grid, t: nat)
  {
    && Rect(g) && |h| == |g| && Rect(h) && Cols(h) == Cols(g) && t <= Cols(g) && CellsWellFormed(h)
    && (forall i, j :: 0 <= i < |g| && 0 <= j < Cols(g) ==> h[i][j].Filled? == g[i][j].Filled?)
    && (forall i, j :: 0 <= i < |g| && 0 <= j < t ==> h[i][j] == g[i][j])
    && forall i, j :: 0 <= i < |g| && t <= j < Cols(g) && g[i][j].Filled? ==>
         Uniform(h[i][j].ch.wires, ColumnMax(g, j, |g|)) && WiresExtend(h[i][j].ch.wires, g[i][j].ch.wires)
  }

  /** Padding column t, then the columns after it, pads the columns from t on. */
  lemma PaddedCompose(g: Grid, h1: Grid, h: Grid, t: nat)
    requires ColumnPadded(g, h1, t) && PaddedFrom(h1, h, t + 1)
    requires forall j :: 0 <= j < Cols(g) && j != t ==> ColumnMax(h1, j, |g|) == ColumnMax(g, j, |g|)
    ensures PaddedFrom(g, h, t)
  {
    forall i, j | 0 <= i < |g| && t <= j < Cols(g) && g[i][j].Filled?
      ensures Uniform(h[i][j].ch.wires, ColumnMax(g, j, |g|)) && WiresExtend(h[i][j].ch.wires, g[i][j].ch.wires)
    {
      if j == t {
        assert h[i][t] == h1[i][t];
      } else {
        assert h1[i][j] == g[i][j];
      }
    }
  }

  /** One turn of the alignment loop. */
  lemma AlignFromUnfold(g: Grid, t: nat, rule: SpanRule)
    requires Rect(g) && t < Cols(g) && AlignColumn(g, t, rule).Ok?
    ensures AlignFrom(g, t, rule) == AlignFrom(AlignColumn(g, t, rule).value, t + 1, rule)
  {
  }

  /** After one padded column, the rest of the loop still meets the conditions. */
  lemma AlignFromNext(g: Grid, h1: Grid, t: nat)
    requires ColumnPadded(g, h1, t) && CellsWellFormed(g)
    requires forall j :: t <= j < Cols(g) ==> ColumnAssigned(g, j)
    ensures Rect(h1) && t + 1 <= Cols(h1) && CellsWellFormed(h1)
    ensures forall j :: t + 1 <= j < Cols(h1) ==> ColumnAssigned(h1, j)
    ensures forall j :: 0 <= j < Cols(g) && j != t ==> ColumnMax(h1, j, |g|) == ColumnMax(g, j, |g|)
  {
    PaddedKeeps(g, h1, t);
    forall j | t + 1 <= j < Cols(h1)
      ensures ColumnAssigned(h1, j)
    {
      SameFilling(g, h1, j);
    }
  }

  /** Under the package span rule, the alignment loop over well-formed columns
      that each hold a channel succeeds and pads every column from t on. */
  lemma {:induction false} AlignFromAligns(g: Grid, t: nat)
    requires Rect(g) && t <= Cols(g) && CellsWellFormed(g)
    requires forall j :: t <= j < Cols(g) ==> ColumnAssigned(g, j)
    ensures AlignFrom(g, t, Endpoints).Ok?
    ensures PaddedFrom(g, AlignFrom(g, t, Endpoints).value, t)
    decreases Cols(g) - t
  {
    if t < Cols(g) {
      AlignColumnEqualizes(g, t);
      var h1: Grid := AlignColumn(g, t, Endpoints).value;
      AlignFromUnfold(g, t, Endpoints);
      AlignFromNext(g, h1, t);
      AlignFromAligns(h1, t + 1);
      PaddedCompose(g, h1, AlignFrom(h1, t + 1, Endpoints).value, t);
    } else {
      assert AlignFrom(g, t, Endpoints) == Ok(g);
    }
  }

  /** Every row and every column holds a channel, and every channel of column j
      has ms[j] >= 2 samples on each wire and ws[i] wires in row i. */
  predicate CellShapes(g: Grid, ms: seq<nat>, ws: seq<nat>)
  {
    && Rect(g) && |ms| == Cols(g) && |ws| == |g| && AllRowsAssigned(g)
    && (forall j :: 0 <= j < |ms| ==> ms[j] >= 2 && ColumnAssigned(g, j))
    && forall i, j :: 0 <= i < |g| && 0 <= j < Cols(g) && g[i][j].Filled? ==>
         Uniform(g[i][j].ch.wires, ms[j]) && |g[i][j].ch.wires| == ws[i]
  }

  /** Every cell of h that was empty in g0 and is filled now holds a null
      channel whose wires are one null block of ms[j] samples. */
  predicate NullsFrom(g0: Grid, h: Grid, ms: seq<nat>)
  {
    && Rect(g0) && |h| == |g0| && Rect(h) && Cols(h) == Cols(g0) && |ms| == Cols(g0)
    && forall i, j, k ::
         0 <= i < |g0| && 0 <= j < Cols(g0) && ms[j] >= 1 && g0[i][j].Empty? && h[i][j].Filled? && 0 <= k < |h[i][j].ch.wires|
         ==> h[i][j].ch.wires[k] == NullWaveform(ms[j] - 1, 1)
  }

  /** A grid whose filled cells stay filled keeps its rows and columns assigned. */
  lemma StillAssigned(g: Grid, h: Grid)
    requires Rect(g) && |h| == |g| && Rect(h) && Cols(h) == Cols(g)
    requires forall i, j :: 0 <= i < |g| && 0 <= j < Cols(g) && g[i][j].Filled? ==> h[i][j].Filled?
    requires AllRowsAssigned(g) && forall j :: 0 <= j < Cols(g) ==> ColumnAssigned(g, j)
    ensures AllRowsAssigned(h) && forall j :: 0 <= j < Cols(g) ==> ColumnAssigned(h, j)
  {
    forall i | 0 <= i < |h|
      ensures RowAssigned(h[i])
    {
      var j :| 0 <= j < |g[i]| && g[i][j].Filled?;
      assert h[i][j].Filled?;
    }
    forall j | 0 <= j < Cols(g)
      ensures ColumnAssigned(h, j)
    {
      assert ColumnAssigned(g, j);
      var i :| 0 <= i < |g| && j < |g[i]| && g[i][j].Filled?;
      assert h[i][j].Filled?;
    }
  }

  /** The first channel of a column of a shaped grid has the column's sample count. */
  lemma FirstOfColumn(g: Grid, t: nat, ms: seq<nat>, ws: seq<nat>) returns (s: nat)
    requires CellShapes(g, ms, ws) && t < Cols(g)
    ensures FirstFilledRow(g, t) == Some(s) && ChannelSamples(g[s][t].ch) == ms[t] >= 2
  {
    assert ms[t] >= 2 && ColumnAssigned(g, t);
    var i0 :| 0 <= i0 < |g| && t < |g[i0]| && g[i0][t].Filled?;
    assert FirstFilledRow(g, t).Some?;
    s := FirstFilledRow(g, t).value;
    assert Uniform(g[s][t].ch.wires, ms[t]);
  }

  /** The first channel of a row of a shaped grid has the row's wire count. */
  lemma FirstOfRow(g: Grid, q: nat, ms: seq<nat>, ws: seq<nat>) returns (w: nat)
    requires CellShapes(g, ms, ws) && q < |g|
    ensures FirstFilled(g[q]) == Some(w) && w < Cols(g) && |g[q][w].ch.wires| == ws[q]
  {
    assert RowAssigned(g[q]);
    var j0 :| 0 <= j0 < |g[q]| && g[q][j0].Filled?;
    assert FirstFilled(g[q]).Some?;
    w := FirstFilled(g[q]).value;
    assert |g[q]| == Cols(g);
    assert g[q][w].Filled?;
    assert Uniform(g[q][w].ch.wires, ms[w]) && |g[q][w].ch.wires| == ws[q];
  }

  /** Writing a null channel of the column's sample count and the row's wire
      count into an empty cell keeps the shapes. */
  lemma SetCellShapes(g0: Grid, h: Grid, q: nat, t: nat, c: Channel, ms: seq<nat>, ws: seq<nat>)
    requires CellShapes(h, ms, ws) && NullsFrom(g0, h, ms) && q < |h| && t < Cols(h) && h[q][t].Empty?
    requires Uniform(c.wires, ms[t]) && |c.wires| == ws[q]
    requires forall k :: 0 <= k < |c.wires| ==> c.wires[k] == NullWaveform(ms[t] - 1, 1)
    ensures CellShapes(SetCell(h, q, t, Filled(c)), ms, ws) && NullsFrom(g0, SetCell(h, q, t, Filled(c)), ms)
  {
    var h2 := SetCell(h, q, t, Filled(c));
    SetCellKeepsShapes(h, h2, q, t, ms, ws);
    SetCellKeepsNulls(g0, h, h2, q, t, ms);
  }

  lemma SetCellKeepsShapes(h: Grid, h2: Grid, q: nat, t: nat, ms: seq<nat>, ws: seq<nat>)
    requires CellShapes(h, ms, ws) && q < |h| && t < Cols(h) && OnlyCellChanged(h, h2, q, t)
    requires h2[q][t].Filled? && Uniform(h2[q][t].ch.wires, ms[t]) && |h2[q][t].ch.wires| == ws[q]
    ensures CellShapes(h2, ms, ws)
  {
    StillAssigned(h, h2);
    forall i, j | 0 <= i < |h2| && 0 <= j < Cols(h2) && h2[i][j].Filled?
      ensures Uniform(h2[i][j].ch.wires, ms[j]) && |h2[i][j].ch.wires| == ws[i]
    {
      if i != q || j != t {
        assert h2[i][j] == h[i][j];
      }
    }
  }

  lemma SetCellKeepsNulls(g0: Grid, h: Grid, h2: Grid, q: nat, t: nat, ms: seq<nat>)
    requires NullsFrom(g0, h, ms) && q < |h| && t < Cols(h) && OnlyCellChanged(h, h2, q, t) && h2[q][t].Filled?
    requires ms[t] >= 1 && forall k :: 0 <= k < |h2[q][t].ch.wires| ==> h2[q][t].ch.wires[k] == NullWaveform(ms[t] - 1, 1)
    ensures NullsFrom(g0, h2, ms)
  {
    forall i, j, k |
      0 <= i < |g0| && 0 <= j < Cols(g0) && ms[j] >= 1 && g0[i][j].Empty? && h2[i][j].Filled? && 0 <= k < |h2[i][j].ch.wires|
      ensures h2[i][j].ch.wires[k] == NullWaveform(ms[j] - 1, 1)
    {
      if i != q || j != t {
        assert h2[i][j] == h[i][j];
      }
    }
  }

  /** The filling succeeded and keeps the shapes, the inserted nulls of g0's
      empty cells included. */
  predicate FilledShaped(r: Result<Grid>, g0: Grid, ms: seq<nat>, ws: seq<nat>)
  {
    r.Ok? && CellShapes(r.value, ms, ws) && NullsFrom(g0, r.value, ms)
  }

  /** Under the package span rule, filling a cell of a shaped grid succeeds,
      keeps the shapes, and a null channel put there spans like the first
      channel of its column, with the wire count of its row. */
  lemma FillCellShapes(g0: Grid, h: Grid, q: nat, t: nat, ms: seq<nat>, ws: seq<nat>)
    requires CellShapes(h, ms, ws) && NullsFrom(g0, h, ms) && q < |h| && t < Cols(h)
    ensures FilledShaped(FillCell(h, q, t, Endpoints), g0, ms, ws)
  {
    if h[q][t].Empty? {
      var s := FirstOfColumn(h, t, ms, ws);
      var w := FirstOfRow(h, q, ms, ws);
      NullFromChannel(h[s][t].ch, h[q][w].ch);
      var c := Null(SpanOf(h[s][t].ch), WiresOf(h[q][w].ch), Endpoints).value;
      assert FillCell(h, q, t, Endpoints) == Ok(SetCell(h, q, t, Filled(c)));
      SetCellShapes(g0, h, q, t, c, ms, ws);
    }
  }

  /** One turn of the inner null-filling loop. */
  lemma FillRowFromUnfold(h: Grid, q: nat, t: nat, rule: SpanRule)
    requires Rect(h) && q < |h| && t < Cols(h) && FillCell(h, q, t, rule).Ok?
    ensures FillRowFrom(h, q, t, rule) == FillRowFrom(FillCell(h, q, t, rule).value, q, t + 1, rule)
  {
  }

  /** One turn of the outer null-filling loop. */
  lemma FillFromFirstRow(h: Grid, q: nat, rule: SpanRule)
    requires Rect(h) && q < |h|
    ensures FillRowFrom(h, q, 0, rule).Fail? ==> FillFrom(h, q, rule) == Fail(FillRowFrom(h, q, 0, rule).error)
    ensures FillRowFrom(h, q, 0, rule).Ok? ==> FillFrom(h, q, rule) == FillFrom(FillRowFrom(h, q, 0, rule).value, q + 1, rule)
  {
  }

  /** One turn of the inner loop over a shaped grid, as a step to the next state. */
  lemma FillRowStep(g0: Grid, h: Grid, q: nat, t: nat, ms: seq<nat>, ws: seq<nat>, target: Result<Grid>)
    returns (h2: Grid)
    requires CellShapes(h, ms, ws) && NullsFrom(g0, h, ms) && q < |h| && t < Cols(h)
    requires FillRowFrom(h, q, t, Endpoints) == target
    ensures CellShapes(h2, ms, ws) && NullsFrom(g0, h2, ms)
    ensures Rect(h2) && |h2| == |h| && Cols(h2) == Cols(h)
    ensures FillRowFrom(h2, q, t + 1, Endpoints) == target
  {
    FillCellShapes(g0, h, q, t, ms, ws);
    h2 := FillCell(h, q, t, Endpoints).value;
    FillRowFromUnfold(h, q, t, Endpoints);
  }

  /** The inner loop from column t on keeps the shapes of a shaped grid. */
  lemma {:induction false} FillRowFromShapes(g0: Grid, h: Grid, q: nat, t: nat, ms: seq<nat>, ws: seq<nat>)
    returns (r: Grid)
    requires CellShapes(h, ms, ws) && NullsFrom(g0, h, ms) && q < |h| && t <= Cols(h)
    ensures FillRowFrom(h, q, t, Endpoints) == Ok(r) && CellShapes(r, ms, ws) && NullsFrom(g0, r, ms)
    decreases Cols(h) - t
  {
    if t < Cols(h) {
      var h2 := FillRowStep(g0, h, q, t, ms, ws, FillRowFrom(h, q, t, Endpoints));
      r := FillRowFromShapes(g0, h2, q, t + 1, ms, ws);
    } else {
      r := h;
      assert FillRowFrom(h, q, t, Endpoints) == Ok(h);
    }
  }

  lemma {:induction false} FillFromShapes(g0: Grid, h: Grid, q: nat, ms: seq<nat>, ws: seq<nat>)
    requires CellShapes(h, ms, ws) && NullsFrom(g0, h, ms) && q <= |h|
    ensures FilledShaped(FillFrom(h, q, Endpoints), g0, ms, ws)
    decreases |h| - q
  {
    if q < |h| {
      var h2 := FillRowFromShapes(g0, h, q, 0, ms, ws);
      FillFromFirstRow(h, q, Endpoints);
      FillFromShapes(g0, h2, q + 1, ms, ws);
    } else {
      assert FillFrom(h, q, Endpoints) == Ok(h);
    }
  }

  /** Under the package span rule, the null-filling loops over a shaped grid
      succeed and fill every cell; the channels already there stay, and every
      inserted null channel has its row's wire count and is, wire by wire, one
      null block with the sample count of its column. */
  lemma FillShapes(g: Grid, ms: seq<nat>, ws: seq<nat>)
    requires CellShapes(g, ms, ws)
    ensures FillFrom(g, 0, Endpoints).Ok?
    ensures var r := FillFrom(g, 0, Endpoints).value;
      && CellShapes(r, ms, ws) && NullsFrom(g, r, ms)
      && (forall i, j :: 0 <= i < |g| && 0 <= j < Cols(g) && g[i][j].Filled? ==> r[i][j] == g[i][j])
      && forall i, j :: 0 <= i < |g| && 0 <= j < Cols(g) ==> r[i][j].Filled?
  {
    FillFromShapes(g, g, 0, ms, ws);
    FillFills(g, Endpoints);
  }

  /** The sample count of channels of ms[0], ms[1], ... samples joined end to
      end: every join shares one sample. */
  function JoinedLength(ms: seq<nat>): (r: nat)
    requires |ms| >= 1 && forall j :: 0 <= j < |ms| ==> ms[j] >= 1
    ensures r >= 1
  {
    if |ms| == 1 then ms[0] else JoinedLength(ms[..|ms| - 1]) + ms[|ms| - 1] - 1
  }

  /** Wire k of the first n cells of a row, their wave lists one after another. */
  function WireLists(row: seq<Cell>, n: nat, k: nat): (r: seq<Waves.Wave>)
    requires n <= |row| && forall j :: 0 <= j < n ==> row[j].Filled? && k < |row[j].ch.wires|
  {
    if n == 0 then [] else WireLists(row, n - 1, k) + row[n - 1].ch.wires[k].waveList
  }

  /** The first n cells of a row hold channels of w wires, the one in column j
      of ms[j] >= 1 samples on every wire. */
  predicate PrefixShaped(row: seq<Cell>, n: nat, ms: seq<nat>, w: nat)
  {
    && n <= |row| && n <= |ms|
    && forall j :: 0 <= j < n ==> row[j].Filled? && ms[j] >= 1 && Uniform(row[j].ch.wires, ms[j]) && |row[j].ch.wires| == w
  }

  /** c joins the first n >= 1 cells of a prefix-shaped row: w wires of the
      joined sample count, wire k being wire k of every cell, their wave lists
      one after another. */
  predicate JoinsPrefix(c: Channel, row: seq<Cell>, n: nat, ms: seq<nat>, w: nat)
  {
    && PrefixShaped(row, n, ms, w) && n >= 1
    && |c.wires| == w && Uniform(c.wires, JoinedLength(ms[..n]))
    && forall k :: 0 <= k < w ==> c.wires[k].waveList == WireLists(row, n, k)
  }

  lemma PrefixShapedShorter(row: seq<Cell>, n: nat, ms: seq<nat>, w: nat)
    requires PrefixShaped(row, n, ms, w) && n >= 1
    ensures PrefixShaped(row, n - 1, ms, w)
  {
  }

  lemma SumCellsFirst(row: seq<Cell>, ms: seq<nat>, w: nat)
    requires PrefixShaped(row, 1, ms, w)
    ensures SumCells(row, 1, Endpoints) == Ok(row[0].ch) && JoinsPrefix(row[0].ch, row, 1, ms, w)
  {
    assert ms[..1] == [ms[0]];
    forall k | 0 <= k < w
      ensures row[0].ch.wires[k].waveList == WireLists(row, 1, k)
    {
      assert WireLists(row, 1, k) == [] + row[0].ch.wires[k].waveList;
    }
  }

  /** One turn of the summing fold. */
  lemma SumCellsUnfold(row: seq<Cell>, n: nat, rule: SpanRule)
    requires 1 < n <= |row| && SumCells(row, n - 1, rule).Ok? && row[n - 1].Filled?
    ensures SumCells(row, n, rule) == Channels.Plus(SumCells(row, n - 1, rule).value, row[n - 1].ch, rule)
  {
  }

  lemma JoinedLengthLast(ms: seq<nat>, n: nat)
    requires 1 < n <= |ms| && forall j :: 0 <= j < n ==> ms[j] >= 1
    ensures JoinedLength(ms[..n]) == JoinedLength(ms[..n - 1]) + ms[n - 1] - 1
  {
    assert ms[..n][..n - 1] == ms[..n - 1];
  }

  /** A channel whose wires extend those of a sum of n - 1 cells by the wires
      of cell n - 1, at the joined sample count, joins the first n cells. */
  lemma JoinsPrefixNext(c: Channel, acc: Channel, row: seq<Cell>, n: nat, ms: seq<nat>, w: nat)
    requires PrefixShaped(row, n, ms, w) && n >= 2 && JoinsPrefix(acc, row, n - 1, ms, w)
    requires |c.wires| == w && Uniform(c.wires, JoinedLength(ms[..n]))
    requires forall k :: 0 <= k < w ==> c.wires[k].waveList == acc.wires[k].waveList + row[n - 1].ch.wires[k].waveList
    ensures JoinsPrefix(c, row, n, ms, w)
  {
    forall k | 0 <= k < w
      ensures c.wires[k].waveList == WireLists(row, n, k)
    {
    }
  }

  /** The sum succeeded and joins the first n cells. */
  predicate SumJoins(r: Result<Channel>, row: seq<Cell>, n: nat, ms: seq<nat>, w: nat)
  {
    r.Ok? && JoinsPrefix(r.value, row, n, ms, w)
  }

  lemma SumCellsStep(row: seq<Cell>, n: nat, ms: seq<nat>, w: nat, acc: Channel)
    requires PrefixShaped(row, n, ms, w) && n >= 2
    requires SumCells(row, n - 1, Endpoints) == Ok(acc) && JoinsPrefix(acc, row, n - 1, ms, w)
    ensures SumJoins(SumCells(row, n, Endpoints), row, n, ms, w)
  {
    var b := row[n - 1].ch;
    PlusUniform(acc, b, JoinedLength(ms[..n - 1]), ms[n - 1], Endpoints);
    JoinedLengthLast(ms, n);
    SumCellsUnfold(row, n, Endpoints);
    JoinsPrefixNext(Channels.Plus(acc, b, Endpoints).value, acc, row, n, ms, w);
  }

  /** Under the package span rule, the sum of the first n cells of a row whose
      channels all have w wires, the one in column j of ms[j] samples, has w
      wires of the joined sample count, and wire k is wire k of every cell, their
      wave lists one after another. */
  lemma {:induction false} SumCellsShapes(row: seq<Cell>, n: nat, ms: seq<nat>, w: nat)
    requires PrefixShaped(row, n, ms, w) && n >= 1
    ensures SumJoins(SumCells(row, n, Endpoints), row, n, ms, w)
  {
    if n == 1 {
      SumCellsFirst(row, ms, w);
    } else {
      PrefixShapedShorter(row, n, ms, w);
      SumCellsShapes(row, n - 1, ms, w);
      SumCellsStep(row, n, ms, w, SumCells(row, n - 1, Endpoints).value);
    }
  }

  /** c is the sum of a fully assigned row: one wire per wire of its cells,
      every wire of the joined sample count of the columns, and each wire the
      cells' wave lists for that wire one after another. */
  predicate JoinsRow(c: Channel, row: seq<Cell>, ms: seq<nat>)
  {
    && |ms| == |row| >= 1
    && (forall j :: 0 <= j < |row| ==> ms[j] >= 1 && row[j].Filled? && |row[j].ch.wires| == |c.wires|)
    && Uniform(c.wires, JoinedLength(ms))
    && forall k :: 0 <= k < |c.wires| ==> c.wires[k].waveList == WireLists(row, |row|, k)
  }

  /** Row q of a fully filled shaped grid sums to a channel joining it. */
  lemma RowSumShapes(g: Grid, q: nat, ms: seq<nat>, ws: seq<nat>)
    requires CellShapes(g, ms, ws) && q < |g| && Cols(g) >= 1
    requires Full(g)
    ensures SumCells(g[q], Cols(g), Endpoints).Ok?
    ensures var c := SumCells(g[q], Cols(g), Endpoints).value; |c.wires| == ws[q] && JoinsRow(c, g[q], ms)
  {
    assert |g[q]| == Cols(g);
    assert PrefixShaped(g[q], Cols(g), ms, ws[q]);
    SumCellsShapes(g[q], Cols(g), ms, ws[q]);
    assert ms[..Cols(g)] == ms;
  }

  /** The cells of row q add up. */
  predicate RowAddsUp(g: Grid, q: nat, rule: SpanRule)
    requires Rect(g) && q < |g| && Cols(g) > 0
  {
    SumCells(g[q], Cols(g), rule).Ok?
  }

  /** The cells of each of the first m rows add up. */
  predicate RowsAddUp(g: Grid, m: nat, rule: SpanRule)
    requires Rect(g) && m <= |g| && Cols(g) > 0
  {
    forall q :: 0 <= q < m ==> RowAddsUp(g, q, rule)
  }

  lemma RowsAddUpLast(g: Grid, m: nat, rule: SpanRule)
    requires Rect(g) && 0 < m <= |g| && Cols(g) > 0
    ensures RowsAddUp(g, m, rule) <==> RowsAddUp(g, m - 1, rule) && RowAddsUp(g, m - 1, rule)
  {
    if RowsAddUp(g, m - 1, rule) && RowAddsUp(g, m - 1, rule) {
      forall q | 0 <= q < m
        ensures RowAddsUp(g, q, rule)
      {
      }
    }
  }

  /** Sum q is what the cells of row q add up to. */
  predicate SumsMatch(g: Grid, sums: seq<Channel>, rule: SpanRule)
    requires Rect(g) && Cols(g) > 0
  {
    |sums| <= |g| && forall q :: 0 <= q < |sums| ==> SumCells(g[q], Cols(g), rule) == Ok(sums[q])
  }

  lemma SumsAppend(g: Grid, sums: seq<Channel>, c: Channel, rule: SpanRule)
    requires Rect(g) && Cols(g) > 0 && SumsMatch(g, sums, rule) && |sums| < |g|
    requires SumCells(g[|sums|], Cols(g), rule) == Ok(c)
    ensures SumsMatch(g, sums + [c], rule)
  {
    forall q | 0 <= q < |sums| + 1
      ensures SumCells(g[q], Cols(g), rule) == Ok((sums + [c])[q])
    {
      if q < |sums| {
        assert (sums + [c])[q] == sums[q];
      }
    }
  }

  /** `np.sum(diagram, axis=1)`: the row sums succeed exactly when every row's
      cells add up, and sum q is then the channel row q adds up to. */
  lemma {:induction false} RowSumsCells(g: Grid, m: nat, rule: SpanRule)
    requires Rect(g) && m <= |g| && Cols(g) > 0
    ensures RowSums(g, m, rule).Ok? <==> RowsAddUp(g, m, rule)
    ensures RowSums(g, m, rule).Ok? ==> SumsMatch(g, RowSums(g, m, rule).value, rule)
  {
    if m > 0 {
      RowSumsCells(g, m - 1, rule);
      RowSumsUnfold(g, m, rule);
      RowsAddUpLast(g, m, rule);
      if RowSums(g, m, rule).Ok? {
        SumsAppend(g, RowSums(g, m - 1, rule).value, SumCells(g[m - 1], Cols(g), rule).value, rule);
      }
    }
  }

  /** Each of the sums joins its row of g with that row's wire count. */
  predicate RowsJoined(sums: seq<Channel>, g: Grid, ms: seq<nat>, ws: seq<nat>)
  {
    && |sums| <= |g| && |ws| == |g|
    && forall q :: 0 <= q < |sums| ==> |sums[q].wires| == ws[q] && JoinsRow(sums[q], g[q], ms)
  }

  lemma AppendJoined(sums: seq<Channel>, c: Channel, g: Grid, ms: seq<nat>, ws: seq<nat>)
    requires RowsJoined(sums, g, ms, ws) && |sums| < |g|
    requires |c.wires| == ws[|sums|] && JoinsRow(c, g[|sums|], ms)
    ensures RowsJoined(sums + [c], g, ms, ws)
  {
    var r := sums + [c];
    forall q | 0 <= q < |r|
      ensures |r[q].wires| == ws[q] && JoinsRow(r[q], g[q], ms)
    {
      if q < |sums| {
        assert r[q] == sums[q];
      }
    }
  }

  /** One turn of the row-sum loop. */
  lemma RowSumsUnfold(g: Grid, m: nat, rule: SpanRule)
    requires Rect(g) && 0 < m <= |g| && Cols(g) >= 1
    ensures RowSums(g, m, rule).Ok? <==> RowSums(g, m - 1, rule).Ok? && SumCells(g[m - 1], Cols(g), rule).Ok?
    ensures RowSums(g, m, rule).Ok? ==>
      RowSums(g, m, rule).value == RowSums(g, m - 1, rule).value + [SumCells(g[m - 1], Cols(g), rule).value]
  {
  }

  lemma RowSumsStep(g: Grid, m: nat, ms: seq<nat>, ws: seq<nat>)
    requires CellShapes(g, ms, ws) && 0 < m <= |g| && Cols(g) >= 1
    requires Full(g)
    requires RowSums(g, m - 1, Endpoints).Ok? && RowsJoined(RowSums(g, m - 1, Endpoints).value, g, ms, ws)
    ensures RowSums(g, m, Endpoints).Ok? && RowsJoined(RowSums(g, m, Endpoints).value, g, ms, ws)
  {
    RowSumShapes(g, m - 1, ms, ws);
    RowSumsUnfold(g, m, Endpoints);
    AppendJoined(RowSums(g, m - 1, Endpoints).value, SumCells(g[m - 1], Cols(g), Endpoints).value, g, ms, ws);
  }

  /** Under the package span rule, summing the rows of a fully filled shaped
      grid succeeds, and every sum joins its row with the row's wire count. */
  lemma {:induction false} RowSumsShapes(g: Grid, m: nat, ms: seq<nat>, ws: seq<nat>)
    requires CellShapes(g, ms, ws) && m <= |g| && Cols(g) >= 1
    requires Full(g)
    ensures RowSums(g, m, Endpoints).Ok? && RowsJoined(RowSums(g, m, Endpoints).value, g, ms, ws)
  {
    if m > 0 {
      RowSumsShapes(g, m - 1, ms, ws);
      RowSumsStep(g, m, ms, ws);
    }
  }

  /** Every channel of a row has as many wires as the row's first channel. */
  predicate RowWidthsAgree(g: Grid)
  {
    && AllRowsAssigned(g)
    && forall i, j :: 0 <= i < |g| && 0 <= j < |g[i]| && g[i][j].Filled? ==> |g[i][j].ch.wires| == RowWires(g[i])
  }

  /** The largest sample count of every column. */
  function ColumnMaxima(g: Grid): (r: seq<nat>)
    requires Rect(g)
    ensures |r| == Cols(g) && forall j :: 0 <= j < Cols(g) ==> r[j] == ColumnMax(g, j, |g|)
  {
    seq(Cols(g), j requires 0 <= j < Cols(g) => ColumnMax(g, j, |g|))
  }

  function RowWireCounts(g: Grid): (r: seq<nat>)
    requires AllRowsAssigned(g)
    ensures |r| == |g| && forall i :: 0 <= i < |g| ==> r[i] == RowWires(g[i])
  {
    seq(|g|, i requires 0 <= i < |g| => RowWires(g[i]))
  }

  /** Dropping the empty columns keeps the channels well formed and every row's
      wire count. */
  lemma KeptShapes(g: Grid)
    requires Rect(g) && CellsWellFormed(g) && RowWidthsAgree(g)
    ensures CellsWellFormed(Kept(g))
    ensures forall i, j :: 0 <= i < |g| && 0 <= j < Cols(Kept(g)) && Kept(g)[i][j].Filled? ==>
      |Kept(g)[i][j].ch.wires| == RowWires(g[i])
  {
    var ks := KeptColumns(g, Cols(g));
    var k: Grid := Kept(g);
    forall i, j | 0 <= i < |k| && 0 <= j < |k[i]| && k[i][j].Filled?
      ensures Uniform(k[i][j].ch.wires, ChannelSamples(k[i][j].ch)) && ChannelSamples(k[i][j].ch) >= 2
      ensures |k[i][j].ch.wires| == RowWires(g[i])
    {
      assert k[i][j] == g[i][ks[j]];
    }
  }

  /** The aligned grid of a well-formed diagram is shaped by the columns'
      largest sample counts and the rows' wire counts. */
  lemma AlignedShapes(k: Grid, al: Grid, ws: seq<nat>)
    requires PaddedFrom(k, al, 0) && CellsWellFormed(k) && |ws| == |k|
    requires AllRowsAssigned(k) && forall j :: 0 <= j < Cols(k) ==> ColumnAssigned(k, j)
    requires forall i, j :: 0 <= i < |k| && 0 <= j < Cols(k) && k[i][j].Filled? ==> |k[i][j].ch.wires| == ws[i]
    ensures CellShapes(al, ColumnMaxima(k), ws)
    ensures forall j :: 0 <= j < Cols(k) ==> ColumnMax(k, j, |k|) >= 2
  {
    var ms := ColumnMaxima(k);
    StillAssigned(k, al);
    forall j | 0 <= j < Cols(k)
      ensures ColumnMax(k, j, |k|) >= 2
    {
      assert ColumnAssigned(k, j);
      var i :| 0 <= i < |k| && j < |k[i]| && k[i][j].Filled?;
      assert ChannelSamples(k[i][j].ch) >= 2;
    }
    forall i, j | 0 <= i < |al| && 0 <= j < Cols(al) && al[i][j].Filled?
      ensures Uniform(al[i][j].ch.wires, ms[j]) && |al[i][j].ch.wires| == ws[i]
    {
      assert k[i][j].Filled?;
    }
  }

  /** Every channel of g0 is still in h, as a channel of the same wire count
      whose every wire starts with the waves it had. */
  predicate KeepsPulses(g0: Grid, h: Grid)
  {
    && |h| == |g0| && (forall i :: 0 <= i < |g0| ==> |h[i]| == |g0[i]|)
    && forall i, j :: 0 <= i < |g0| && 0 <= j < |g0[i]| && g0[i][j].Filled? ==>
         h[i][j].Filled? && WiresExtend(h[i][j].ch.wires, g0[i][j].ch.wires)
  }

  /** Filling keeps the aligned channels, so the pulses alignment kept survive it. */
  lemma PulsesSurviveFill(k: Grid, al: Grid, filled: Grid)
    requires PaddedFrom(k, al, 0) && |filled| == |al| && Rect(filled) && Cols(filled) == Cols(al)
    requires forall i, j :: 0 <= i < |al| && 0 <= j < Cols(al) && al[i][j].Filled? ==> filled[i][j] == al[i][j]
    ensures KeepsPulses(k, filled)
  {
    forall i, j | 0 <= i < |k| && 0 <= j < |k[i]| && k[i][j].Filled?
      ensures filled[i][j].Filled? && WiresExtend(filled[i][j].ch.wires, k[i][j].ch.wires)
    {
      assert j < Cols(k) && al[i][j].Filled?;
      assert 0 <= i < |k| && 0 <= j < Cols(k) && k[i][j].Filled?;
      assert Uniform(al[i][j].ch.wires, ColumnMax(k, j, |k|));
      assert WiresExtend(al[i][j].ch.wires, k[i][j].ch.wires);
      assert filled[i][j] == al[i][j];
    }
  }

  /** Alignment leaves the empty cells empty, so the nulls filled into the
      aligned grid are the nulls filled into the kept grid. */
  lemma NullsFromAligned(k: Grid, al: Grid, filled: Grid, ms: seq<nat>)
    requires PaddedFrom(k, al, 0) && NullsFrom(al, filled, ms)
    ensures NullsFrom(k, filled, ms)
  {
  }

  /** A grid with a column, every row and column holding a channel, every
      channel well formed and every channel of row i of ws[i] wires. */
  predicate WellShaped(k: Grid, ws: seq<nat>)
  {
    && Rect(k) && Cols(k) >= 1 && |ws| == |k| && CellsWellFormed(k)
    && AllRowsAssigned(k) && (forall j :: 0 <= j < Cols(k) ==> ColumnAssigned(k, j))
    && forall i, j :: 0 <= i < |k| && 0 <= j < Cols(k) && k[i][j].Filled? ==> |k[i][j].ch.wires| == ws[i]
  }

  /** The kept columns of a diagram of the kind compile accepts are well shaped. */
  lemma KeptWellShaped(g: Grid)
    requires Rect(g) && |g| > 0 && AllRowsAssigned(g) && CellsWellFormed(g) && RowWidthsAgree(g)
    ensures WellShaped(Kept(g), RowWireCounts(g))
  {
    KeptAssigned(g);
    KeptShapes(g);
  }

  /** Under the package span rule, the alignment loop over a well-shaped grid
      succeeds and shapes it by the columns' largest sample counts. */
  lemma WellShapedAligns(k: Grid, ws: seq<nat>) returns (al: Grid)
    requires WellShaped(k, ws)
    ensures AlignFrom(k, 0, Endpoints) == Ok(al) && PaddedFrom(k, al, 0)
    ensures CellShapes(al, ColumnMaxima(k), ws)
  {
    AlignFromAligns(k, 0);
    al := AlignFrom(k, 0, Endpoints).value;
    AlignedShapes(k, al, ws);
  }

  /** Under the package span rule, the null-filling loops over an aligned grid
      succeed and fill it with null channels where the kept grid was empty. */
  lemma AlignedFills(k: Grid, al: Grid, ms: seq<nat>, ws: seq<nat>) returns (filled: Grid)
    requires PaddedFrom(k, al, 0) && CellShapes(al, ms, ws)
    ensures FillFrom(al, 0, Endpoints) == Ok(filled) && |filled| == |al| && Cols(filled) == Cols(al)
    ensures Full(filled) && CellShapes(filled, ms, ws) && NullsFrom(k, filled, ms)
    ensures KeepsPulses(k, filled)
  {
    FillShapes(al, ms, ws);
    filled := FillFrom(al, 0, Endpoints).value;
    NullsFromAligned(k, al, filled, ms);
    PulsesSurviveFill(k, al, filled);
  }

  /** Under the package span rule, aligning, filling and summing a well-shaped
      grid succeeds, through a filled grid of the columns' largest sample counts
      whose null channels stand where the grid was empty, and every sum joins
      its filled row. */
  lemma WellShapedCompiles(k: Grid, ws: seq<nat>) returns (filled: Grid)
    requires WellShaped(k, ws)
    ensures AlignFrom(k, 0, Endpoints).Ok? && FillFrom(AlignFrom(k, 0, Endpoints).value, 0, Endpoints) == Ok(filled)
    ensures Full(filled) && CellShapes(filled, ColumnMaxima(k), ws) && NullsFrom(k, filled, ColumnMaxima(k))
    ensures KeepsPulses(k, filled)
    ensures RowSums(filled, |k|, Endpoints).Ok?
    ensures RowsJoined(RowSums(filled, |k|, Endpoints).value, filled, ColumnMaxima(k), ws)
  {
    var ms := ColumnMaxima(k);
    var al := WellShapedAligns(k, ws);
    filled := AlignedFills(k, al, ms, ws);
    RowSumsShapes(filled, |filled|, ms, ws);
  }

  /** Every cell holds a channel. */
  predicate Full(g: Grid)
  {
    forall i, j :: 0 <= i < |g| && 0 <= j < |g[i]| ==> g[i][j].Filled?
  }

  /** What compile computes, step by step. */
  lemma CompiledUnfold(g: Grid, rule: SpanRule)
    requires Rect(g) && |g| > 0 && AllRowsAssigned(g)
    requires AlignFrom(Kept(g), 0, rule).Ok? && FillFrom(AlignFrom(Kept(g), 0, rule).value, 0, rule).Ok?
    ensures Compiled(g, rule) == RowSums(FillFrom(AlignFrom(Kept(g), 0, rule).value, 0, rule).value, |g|, rule)
  {
  }

  /** Under the package span rule, a diagram with at least one row, every row
      holding a channel, every channel well formed and every row's channels of
      one wire count compiles, through the filled grid it returns. That grid
      has a channel in every cell, the one in kept column j of the column's
      largest sample count (at least two) on every wire and the one in row i of
      the row's wire count; a cell that held a channel holds it still, each
      wire starting with the waves it was assigned; a cell that was empty holds
      a null channel whose every wire is one null block of that sample count;
      and compiled row q
      joins filled row q: each wire is the cells' wave lists for it one after
      another, of the joined sample count. */
  lemma CompiledShapes(g: Grid) returns (filled: Grid)
    requires Rect(g) && |g| > 0 && AllRowsAssigned(g) && CellsWellFormed(g) && RowWidthsAgree(g)
    ensures Compiled(g, Endpoints).Ok? && |Compiled(g, Endpoints).value| == |g|
    ensures Full(filled) && CellShapes(filled, ColumnMaxima(Kept(g)), RowWireCounts(g))
    ensures NullsFrom(Kept(g), filled, ColumnMaxima(Kept(g)))
    ensures KeepsPulses(Kept(g), filled)
    ensures RowsJoined(Compiled(g, Endpoints).value, filled, ColumnMaxima(Kept(g)), RowWireCounts(g))
  {
    KeptWellShaped(g);
    filled := WellShapedCompiles(Kept(g), RowWireCounts(g));
    CompiledUnfold(g, Endpoints);
  }
}
