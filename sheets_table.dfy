/** The table grid both create_table_from_sheets variants build from the Sheets
    values: a table of len(rows) rows and max(len(row)) columns, then one
    insertText per cell present, row by row, guarded by `j < num_columns`. */
module SheetsTable {
  import opened SlidesApi

  /** A row of the values list; cells are the formatted strings the Sheets API
      returns, so str(cell_value) is the cell itself. */
  type Row = seq<string>

  /** max(len(row) for row in rows), 0 for no rows. */
  function MaxRowLength(rows: seq<Row>): (m: nat)
    ensures forall i :: 0 <= i < |rows| ==> |rows[i]| <= m
    ensures |rows| > 0 ==> exists i :: 0 <= i < |rows| && |rows[i]| == m
    ensures |rows| == 0 ==> m == 0
  {
    if |rows| == 0 then 0
    else
      var init := rows[..|rows| - 1];
      var m0 := MaxRowLength(init);
      assert forall i :: 0 <= i < |init| ==> rows[i] == init[i];
      if |rows[|rows| - 1]| > m0 then |rows[|rows| - 1]| else m0
  }

  function SumLengths(rows: seq<Row>): nat
  {
    if |rows| == 0 then 0 else SumLengths(rows[..|rows| - 1]) + |rows[|rows| - 1]|
  }

  /** The inner loop's requests for row `i`, as written with the column guard. */
  function RowRequests(tableId: string, i: int, row: Row, cols: int): seq<Request>
  {
    if |row| == 0 then []
    else
      var j := |row| - 1;
      RowRequests(tableId, i, row[..j], cols) + (if j < cols then [InsertCellText(tableId, i, j, row[j])] else [])
  }

  /** text_requests after the nested loop over `rows`. */
  function CellRequests(tableId: string, rows: seq<Row>, cols: int): seq<Request>
  {
    if |rows| == 0 then []
    else
      var i := |rows| - 1;
      CellRequests(tableId, rows[..i], cols) + RowRequests(tableId, i, rows[i], cols)
  }

  /** The nested loop that builds text_requests. */
  method BuildCellRequests(tableId: string, rows: seq<Row>, cols: int) returns (requests: seq<Request>)
    ensures requests == CellRequests(tableId, rows, cols)
  {
    requests := [];
    var i := 0;
    while i < |rows|
      invariant 0 <= i <= |rows|
      invariant requests == CellRequests(tableId, rows[..i], cols)
    {
      var row := rows[i];
      var j := 0;
      ghost var before := requests;
      while j < |row|
        invariant 0 <= j <= |row|
        invariant requests == before + RowRequests(tableId, i, row[..j], cols)
      {
        assert row[..j + 1][..j] == row[..j];
        if j < cols {
          requests := requests + [InsertCellText(tableId, i, j, row[j])];
        }
        j := j + 1;
      }
      assert row[..|row|] == row;
      assert rows[..i + 1][..i] == rows[..i];
      i := i + 1;
    }
    assert rows[..|rows|] == rows;
  }

  // ---------------------------------------------------------------------------
  // What the requests are

  /** Each request of a row is an insertText into that row, in column order,
      with that cell's text; with every cell inside the bound none is dropped. */
  lemma {:induction false} RowRequestsAt(tableId: string, i: int, row: Row, cols: int)
    requires |row| <= cols
    ensures |RowRequests(tableId, i, row, cols)| == |row|
    ensures forall j :: 0 <= j < |row| ==> RowRequests(tableId, i, row, cols)[j] == InsertCellText(tableId, i, j, row[j])
  {
    if |row| > 0 {
      var j := |row| - 1;
      RowRequestsAt(tableId, i, row[..j], cols);
    }
  }

  /** `req` is an insertText into `tableId` at a cell of the first `n` rows
      that the values hold, inside the column bound, carrying that cell's text. */
  predicate InsertsCell(req: Request, tableId: string, rows: seq<Row>, n: int, cols: int)
  {
    req.InsertCellText? && req.objectId == tableId
    && 0 <= req.rowIndex < n && req.rowIndex < |rows|
    && 0 <= req.columnIndex < |rows[req.rowIndex]| && req.columnIndex < cols
    && req.text == rows[req.rowIndex][req.columnIndex]
  }

  predicate AllInsertCells(r: seq<Request>, tableId: string, rows: seq<Row>, n: int, cols: int)
  {
    forall k :: 0 <= k < |r| ==> InsertsCell(r[k], tableId, rows, n, cols)
  }

  /** Every request fills a cell the values hold: row below len(rows), column
      below that row's length and so below num_columns, with that cell's text. */
  lemma CellRequestsInBounds(tableId: string, rows: seq<Row>)
    ensures AllInsertCells(CellRequests(tableId, rows, MaxRowLength(rows)), tableId, rows, |rows|, MaxRowLength(rows))
  {
    CellsInBoundsFor(tableId, rows, |rows|, MaxRowLength(rows));
    assert rows[..|rows|] == rows;
  }

  /** The requests of row `i` fill cells of row `i`. */
  lemma RowInBounds(tableId: string, rows: seq<Row>, i: nat, cols: int)
    requires i < |rows| && |rows[i]| <= cols
    ensures AllInsertCells(RowRequests(tableId, i, rows[i], cols), tableId, rows, i + 1, cols)
    ensures forall k :: 0 <= k < |RowRequests(tableId, i, rows[i], cols)| ==>
      RowRequests(tableId, i, rows[i], cols)[k].InsertCellText? && RowRequests(tableId, i, rows[i], cols)[k].rowIndex == i
  {
    RowRequestsAt(tableId, i, rows[i], cols);
  }

  lemma AppendInBounds(p: seq<Request>, q: seq<Request>, tableId: string, rows: seq<Row>, n: int, cols: int)
    requires AllInsertCells(p, tableId, rows, n - 1, cols) && AllInsertCells(q, tableId, rows, n, cols)
    ensures AllInsertCells(p + q, tableId, rows, n, cols)
  {
    forall k | 0 <= k < |p + q| ensures InsertsCell((p + q)[k], tableId, rows, n, cols) {
      if k < |p| {
        assert (p + q)[k] == p[k];
        assert InsertsCell(p[k], tableId, rows, n - 1, cols);
      } else {
        assert (p + q)[k] == q[k - |p|];
      }
    }
  }

  lemma {:induction false} CellsInBoundsFor(tableId: string, rows: seq<Row>, n: nat, cols: int)
    requires n <= |rows| && cols == MaxRowLength(rows)
    ensures AllInsertCells(CellRequests(tableId, rows[..n], cols), tableId, rows, n, cols)
  {
    if n > 0 {
      var i := n - 1;
      assert rows[..n][..i] == rows[..i] && rows[..n][i] == rows[i];
      CellsInBoundsFor(tableId, rows, i, cols);
      RowInBounds(tableId, rows, i, cols);
      AppendInBounds(CellRequests(tableId, rows[..i], cols), RowRequests(tableId, i, rows[i], cols), tableId, rows, n, cols);
    }
  }

  /** The number of requests is the number of cells present. */
  lemma {:induction false} CellRequestsCount(tableId: string, rows: seq<Row>, cols: int)
    requires MaxRowLength(rows) <= cols
    ensures |CellRequests(tableId, rows, cols)| == SumLengths(rows)
  {
    if |rows| > 0 {
      var i := |rows| - 1;
      assert MaxRowLength(rows[..i]) <= cols by {
        assert forall k :: 0 <= k < i ==> rows[..i][k] == rows[k];
      }
      CellRequestsCount(tableId, rows[..i], cols);
      RowRequestsAt(tableId, i, rows[i], cols);
    }
  }

  /** The cell (i, j) is the request at SumLengths(rows[..i]) + j: every cell
      present gets exactly its request, row by row. */
  lemma {:induction false} CellRequestsAt(tableId: string, rows: seq<Row>, cols: int, i: nat, j: nat)
    requires MaxRowLength(rows) <= cols
    requires i < |rows| && j < |rows[i]|
    ensures SumLengths(rows[..i]) + j < |CellRequests(tableId, rows, cols)|
    ensures CellRequests(tableId, rows, cols)[SumLengths(rows[..i]) + j] == InsertCellText(tableId, i, j, rows[i][j])
  {
    var n := |rows| - 1;
    assert MaxRowLength(rows[..n]) <= cols by {
      assert forall k :: 0 <= k < n ==> rows[..n][k] == rows[k];
    }
    CellRequestsCount(tableId, rows[..n], cols);
    RowRequestsAt(tableId, n, rows[n], cols);
    if i < n {
      assert rows[..n][..i] == rows[..i];
      CellRequestsAt(tableId, rows[..n], cols, i, j);
    } else {
      assert rows[..n] == rows[..i];
    }
  }

  /** (row, column) of one request precedes that of another, row-major. */
  predicate RowMajorBefore(a: Request, b: Request)
  {
    a.InsertCellText? && b.InsertCellText?
    && (a.rowIndex < b.rowIndex || (a.rowIndex == b.rowIndex && a.columnIndex < b.columnIndex))
  }

  predicate RowMajor(r: seq<Request>)
  {
    forall k, l :: 0 <= k < l < |r| ==> RowMajorBefore(r[k], r[l])
  }

  lemma AppendRowMajor(p: seq<Request>, q: seq<Request>, tableId: string, rows: seq<Row>, i: nat, cols: int)
    requires RowMajor(p) && RowMajor(q)
    requires AllInsertCells(p, tableId, rows, i, cols)
    requires forall k :: 0 <= k < |q| ==> q[k].InsertCellText? && q[k].rowIndex == i
    ensures RowMajor(p + q)
  {
    forall k, l | 0 <= k < l < |p + q| ensures RowMajorBefore((p + q)[k], (p + q)[l]) {
      if l < |p| {
        assert (p + q)[k] == p[k] && (p + q)[l] == p[l];
      } else if k < |p| {
        assert (p + q)[k] == p[k] && (p + q)[l] == q[l - |p|];
        assert InsertsCell(p[k], tableId, rows, i, cols);
      } else {
        assert (p + q)[k] == q[k - |p|] && (p + q)[l] == q[l - |p|];
      }
    }
  }

  /** The requests come in strict row-major order. */
  lemma {:induction false} CellRequestsRowMajor(tableId: string, rows: seq<Row>, n: nat)
    requires n <= |rows|
    ensures RowMajor(CellRequests(tableId, rows[..n], MaxRowLength(rows)))
  {
    var cols := MaxRowLength(rows);
    if n > 0 {
      var i := n - 1;
      assert rows[..n][..i] == rows[..i] && rows[..n][i] == rows[i];
      CellRequestsRowMajor(tableId, rows, i);
      CellsInBoundsFor(tableId, rows, i, cols);
      RowInBounds(tableId, rows, i, cols);
      var q := RowRequests(tableId, i, rows[i], cols);
      RowRequestsAt(tableId, i, rows[i], cols);
      assert RowMajor(q);
      AppendRowMajor(CellRequests(tableId, rows[..i], cols), q, tableId, rows, i, cols);
    }
  }

  /** The counts and the grid: the cells present never exceed rows x columns,
      and fall short of it exactly when some row is shorter than the longest. */
  lemma {:induction false} SumLengthsBound(rows: seq<Row>)
    ensures SumLengths(rows) <= |rows| * MaxRowLength(rows)
    ensures SumLengths(rows) < |rows| * MaxRowLength(rows) <==>
      exists i :: 0 <= i < |rows| && |rows[i]| < MaxRowLength(rows)
  {
    SumLengthsBoundBy(rows, MaxRowLength(rows));
  }

  lemma {:induction false} SumLengthsBoundBy(rows: seq<Row>, m: nat)
    requires forall i :: 0 <= i < |rows| ==> |rows[i]| <= m
    ensures SumLengths(rows) <= |rows| * m
    ensures SumLengths(rows) < |rows| * m <==> exists i :: 0 <= i < |rows| && |rows[i]| < m
  {
    if |rows| > 0 {
      var n := |rows| - 1;
      var init := rows[..n];
      assert forall i :: 0 <= i < n ==> init[i] == rows[i];
      SumLengthsBoundBy(init, m);
      assert |rows| * m == n * m + m;
      if exists i :: 0 <= i < n && |init[i]| < m {
        var i :| 0 <= i < n && |init[i]| < m;
        assert |rows[i]| < m;
      }
      if exists i :: 0 <= i < |rows| && |rows[i]| < m {
        var i :| 0 <= i < |rows| && |rows[i]| < m;
        if i < n {
          assert |init[i]| < m;
        }
      }
    }
  }

  /** A ragged example: [["a", "b"], ["c"]] gives a 2 x 2 table with three inserts. */
  lemma RaggedExample(tableId: string)
    ensures MaxRowLength([["a", "b"], ["c"]]) == 2
    ensures CellRequests(tableId, [["a", "b"], ["c"]], 2) ==
      [InsertCellText(tableId, 0, 0, "a"), InsertCellText(tableId, 0, 1, "b"), InsertCellText(tableId, 1, 0, "c")]
  {
    var rows: seq<Row> := [["a", "b"], ["c"]];
    var ab: Row := ["a", "b"];
    assert ab[..1] == ["a"] && ["a"][..0] == [];
    assert RowRequests(tableId, 0, ["a"], 2) == [InsertCellText(tableId, 0, 0, "a")];
    assert RowRequests(tableId, 0, ab, 2) == [InsertCellText(tableId, 0, 0, "a"), InsertCellText(tableId, 0, 1, "b")];
    assert ["c"][..0] == [];
    assert RowRequests(tableId, 1, ["c"], 2) == [InsertCellText(tableId, 1, 0, "c")];
    assert rows[..1] == [ab] && rows[..1][..0] == [];
    assert CellRequests(tableId, rows[..1], 2) == RowRequests(tableId, 0, ab, 2);
  }
}
