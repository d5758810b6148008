/** data/__init__.py: a linked Sheets chart placed with EMU coordinates, and a
    table filled from a Sheets range, each followed by the PDF paths. */
module DataPkg {
  import opened SlidesApi
  import opened Lookup
  import opened SheetsTable
  import opened Responses
  import Helpers

  // ---------------------------------------------------------------------------
  // create_sheets_chart

  /** The createSheetsChart request: the position in points scaled by 12700
      into EMU, as exact products. */
  function ChartRequest(chartObjectId: string, slideId: string, spreadsheetId: string, chartId: int,
                        x: real, y: real, width: real, height: real): (r: Request)
    ensures r.CreateSheetsChart? && r.objectId == chartObjectId && r.linkingMode == "LINKED"
    ensures r.spreadsheetId == spreadsheetId && r.chartId == chartId && r.props.pageObjectId == slideId
    ensures r.props.sizeUnit == EMU && r.props.transformUnit == EMU && r.props.scaleX == 1.0 && r.props.scaleY == 1.0
    ensures Helpers.EmuToPoints(r.props.height) == height && Helpers.EmuToPoints(r.props.width) == width
    ensures Helpers.EmuToPoints(r.props.translateX) == x && Helpers.EmuToPoints(r.props.translateY) == y
  {
    var f := Helpers.EmuPerPoint as real;
    CreateSheetsChart(chartObjectId, spreadsheetId, chartId, "LINKED",
      ElementProperties(slideId, height * f, width * f, EMU, 1.0, 1.0, x * f, y * f, EMU))
  }

  /** For whole points the EMU values are exactly what points_to_emu gives. */
  lemma ChartWholePoints(chartObjectId: string, slideId: string, spreadsheetId: string, chartId: int,
                         x: int, y: int, width: int, height: int)
    ensures var r := ChartRequest(chartObjectId, slideId, spreadsheetId, chartId, x as real, y as real, width as real, height as real);
      r.props.height == Helpers.PointsToEmu(height as real) as real
      && r.props.width == Helpers.PointsToEmu(width as real) as real
      && r.props.translateX == Helpers.PointsToEmu(x as real) as real
      && r.props.translateY == Helpers.PointsToEmu(y as real) as real
  {
    Helpers.PointsEmuRoundTrip(height);
    Helpers.PointsEmuRoundTrip(width);
    Helpers.PointsEmuRoundTrip(x);
    Helpers.PointsEmuRoundTrip(y);
  }

  /** create_sheets_chart: one batchUpdate with the chart, then the PDF paths
      for the presentation as re-fetched (`slidesAfter`). The object id comes
      from the clock and is a parameter. */
  method CreateSheetsChartTool(presentationId: string, slideId: string, spreadsheetId: string, chartId: int,
                               x: real, y: real, width: real, height: real,
                               chartObjectId: string, slidesAfter: seq<Slide>)
    returns (requests: seq<Request>, paths: PathResponse)
    ensures requests == [ChartRequest(chartObjectId, slideId, spreadsheetId, chartId, x, y, width, height)]
    ensures paths == PdfPaths(presentationId, slidesAfter, slideId)
  {
    requests := [ChartRequest(chartObjectId, slideId, spreadsheetId, chartId, x, y, width, height)];
    paths := AttachPdfPaths(presentationId, slidesAfter, slideId);
  }

  // ---------------------------------------------------------------------------
  // create_table_from_sheets

  /** f'{sheet_name}!{range_start}:{range_end}' */
  function RangeName(sheetName: string, rangeStart: string, rangeEnd: string): string
  {
    sheetName + "!" + rangeStart + ":" + rangeEnd
  }

  const NoDataMessage := "No data found in the specified range"

  /** {'error': ...} for an empty range, or the batchUpdate bodies sent, in
      order, and the PDF paths. */
  datatype TableOutcome = NoData(error: string) | TableCreated(batches: seq<seq<Request>>, paths: PathResponse)

  function CreateTableRequest(tableId: string, slideId: string, rows: seq<Row>, x: real, y: real, width: real, height: real): Request
  {
    CreateTable(tableId, |rows|, MaxRowLength(rows), PtProperties(slideId, Position(x, y, width, height)))
  }

  function TableFromSheets(presentationId: string, slideId: string, rows: seq<Row>,
                           x: real, y: real, width: real, height: real,
                           tableId: string, slidesAfter: seq<Slide>): TableOutcome
  {
    if |rows| == 0 then NoData(NoDataMessage)
    else
      var cells := CellRequests(tableId, rows, MaxRowLength(rows));
      TableCreated([[CreateTableRequest(tableId, slideId, rows, x, y, width, height)]] + (if |cells| > 0 then [cells] else []),
                   PdfPaths(presentationId, slidesAfter, slideId))
  }

  /** create_table_from_sheets: read the range (`valuesOf` stands for the
      Sheets values().get), create the table, fill it in a second batch when
      there is a cell to fill, then the PDF paths. */
  method CreateTableFromSheets(presentationId: string, slideId: string, sheetName: string,
                               rangeStart: string, rangeEnd: string,
                               x: real, y: real, width: real, height: real,
                               valuesOf: string -> seq<Row>, tableId: string, slidesAfter: seq<Slide>)
    returns (r: TableOutcome)
    ensures r == TableFromSheets(presentationId, slideId, valuesOf(RangeName(sheetName, rangeStart, rangeEnd)),
                                 x, y, width, height, tableId, slidesAfter)
  {
    var rows := valuesOf(RangeName(sheetName, rangeStart, rangeEnd));
    if |rows| == 0 {
      return NoData(NoDataMessage);
    }
    var numColumns := MaxRowLength(rows);
    var batches := [[CreateTable(tableId, |rows|, numColumns, PtProperties(slideId, Position(x, y, width, height)))]];
    var textRequests := BuildCellRequests(tableId, rows, numColumns);
    if |textRequests| > 0 {
      batches := batches + [textRequests];
    }
    var paths := AttachPdfPaths(presentationId, slidesAfter, slideId);
    r := TableCreated(batches, paths);
  }

  /** An empty range sends nothing; otherwise the first batch is the table of
      len(rows) x max(len(row)), and a second batch, of one insertText per cell
      present, is sent exactly when some row has a cell. */
  lemma TableFromSheetsShape(presentationId: string, slideId: string, rows: seq<Row>,
                             x: real, y: real, width: real, height: real, tableId: string, slidesAfter: seq<Slide>)
    ensures var o := TableFromSheets(presentationId, slideId, rows, x, y, width, height, tableId, slidesAfter);
      (o.NoData? <==> |rows| == 0)
      && (o.TableCreated? ==>
            1 <= |o.batches| <= 2
            && o.batches[0] == [CreateTable(tableId, |rows|, MaxRowLength(rows), PtProperties(slideId, Position(x, y, width, height)))]
            && (|o.batches| == 2 <==> SumLengths(rows) > 0)
            && (|o.batches| == 2 ==> |o.batches[1]| == SumLengths(rows) <= |rows| * MaxRowLength(rows)))
  {
    CellRequestsCount(tableId, rows, MaxRowLength(rows));
    SumLengthsBound(rows);
  }

  lemma RangeNameExample()
    ensures RangeName("Sheet1", "A1", "C5") == "Sheet1!A1:C5"
  {
  }
}
