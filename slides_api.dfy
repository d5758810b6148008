/** The JSON shapes the tools read from the Slides, Drive and Sheets APIs and the
    request bodies they send back, as datatypes. Only the keys the tools read or
    write are represented. Numbers that the APIs carry as JSON numbers are `real`
    (exact rationals); `int` is used where the source works with integers. */
module SlidesApi {

  datatype Option<+T> = None | Some(value: T)
  {
    function GetOr(default: T): T
    {
      match this
      case Some(v) => v
      case None => default
    }
  }

  /** The exceptions the tools raise or let through. */
  datatype Error =
    | ValueError(message: string)
    | HttpError(fileId: string)       // any failing API call (missing file, server error)
    | IndexError                      // `[...][0]` on an empty list
    | AttributeError                  // `.lower()` called on None

  datatype Result<+T> = Ok(value: T) | Err(error: Error)

  // ---------------------------------------------------------------------------
  // What presentations().get returns

  /** One entry of shape.text.textElements: a text run (whose `content` may be
      missing) or any other element (paragraph marker, auto text). */
  datatype TextElement = TextRun(content: Option<string>) | OtherTextElement

  /** A shape; `text` is None when the shape has no 'text' key. A 'text' without
      'textElements' reads as an empty list, as `.get('textElements', [])` does. */
  datatype Shape = Shape(text: Option<seq<TextElement>>)

  datatype PageElement = PageElement(objectId: string, shape: Option<Shape>, title: Option<string>)

  datatype Slide = Slide(objectId: string, pageElements: seq<PageElement>)

  /** A layout page: its id, layoutProperties.displayName and layoutProperties.name. */
  datatype Layout = Layout(objectId: string, displayName: Option<string>, name: Option<string>)

  datatype Master = Master(layouts: seq<Layout>)

  /** A pageSize dimension: {magnitude, unit}, either key possibly missing. */
  datatype Dimension = Dimension(magnitude: Option<real>, unit: Option<string>)

  /** `width`/`height` are None when pageSize (or that dimension) is missing. */
  datatype Presentation = Presentation(
    slides: seq<Slide>,
    layouts: seq<Layout>,
    masters: seq<Master>,
    width: Option<Dimension>,
    height: Option<Dimension>)

  /** One reply of a batchUpdate: the reply kind ('createSlide', 'createShape',
      ...) mapped to the objectId it carries (None when the object has none). */
  type Reply = map<string, Option<string>>

  /** A batchUpdate response; `replies` is None when the key is missing. */
  datatype BatchResponse = BatchResponse(replies: Option<seq<Reply>>)

  // ---------------------------------------------------------------------------
  // Request bodies

  datatype Unit = PT | EMU | PERCENT

  /** Position and size in points, as utils/models.py declares it. */
  datatype Position = Position(x: real, y: real, width: real, height: real)

  datatype RgbColor = RgbColor(red: real, green: real, blue: real)

  /** elementProperties: page, size {height, width} and transform. */
  datatype ElementProperties = ElementProperties(
    pageObjectId: string,
    height: real, width: real, sizeUnit: Unit,
    scaleX: real, scaleY: real,
    translateX: real, translateY: real, transformUnit: Unit)

  /** The values that appear inside style and property dictionaries. */
  datatype Value =
    | Bool(b: bool)
    | Number(x: real)
    | Str(s: string)
    | Measure(magnitude: real, unit: Unit)       // {'magnitude': m, 'unit': u}
    | OpaqueColor(rgb: RgbColor)                 // {'opaqueColor': {'rgbColor': ...}}
    | Link(url: string)                          // {'url': ...}

  type StyleMap = map<string, Value>

  datatype TextRange = FixedRange(startIndex: int, endIndex: int) | AllText

  datatype LayoutReference = LayoutId(layoutId: string) | PredefinedLayout(name: string) | EmptyReference

  datatype Fill = SolidFill(color: RgbColor) | StretchedPictureFill(contentUrl: string)

  datatype PageProperties =
    | LayoutProperties(predefinedLayout: string)
    | PageTransition(transitionType: string, seconds: real)
    | AutoAdvanceTime(seconds: real)
    | PageBackgroundFill(fill: Fill)

  datatype Request =
    | CreateSlide(objectId: string, insertionIndex: int, layout: LayoutReference)
    | CreateShape(objectId: string, shapeType: string, props: ElementProperties)
    | CreateImage(objectId: string, url: string, props: ElementProperties)
    | CreateVideo(objectId: string, source: string, url: string, props: ElementProperties, videoProperties: StyleMap)
    | CreateTable(objectId: string, rows: int, columns: int, props: ElementProperties)
    | CreateSheetsChart(objectId: string, spreadsheetId: string, chartId: int, linkingMode: string, props: ElementProperties)
    | InsertText(objectId: string, text: string)
    | InsertCellText(objectId: string, rowIndex: int, columnIndex: int, text: string)
    | UpdateTextStyle(objectId: string, textRange: Option<TextRange>, style: StyleMap, fields: string)
    | UpdateParagraphStyle(objectId: string, textRange: Option<TextRange>, style: StyleMap, fields: string)
    | UpdateShapeProperties(objectId: string, fields: string, backgroundColor: RgbColor)
    | UpdatePageProperties(objectId: string, properties: PageProperties, fields: string)
    | UpdateSlideProperties(objectId: string, layoutObjectId: string, fields: string)
    | UpdateSlidesPosition(slideObjectIds: seq<string>, insertionIndex: int)
    | DuplicateObject(objectId: string)
    | DeleteObject(objectId: string)
    | CreateGroup(childrenObjectIds: seq<string>)
    | UngroupObjects(objectIds: seq<string>)

  /** The elementProperties every element-creating tool sends: size in points,
      unit scale, translation to the position's corner. */
  function PtProperties(pageObjectId: string, p: Position): (e: ElementProperties)
    ensures e.pageObjectId == pageObjectId && e.sizeUnit == PT && e.transformUnit == PT
    ensures e.scaleX == 1.0 && e.scaleY == 1.0
    ensures e.height == p.height && e.width == p.width
    ensures e.translateX == p.x && e.translateY == p.y
  {
    ElementProperties(pageObjectId, p.height, p.width, PT, 1.0, 1.0, p.x, p.y, PT)
  }

  // ---------------------------------------------------------------------------
  // Where tool results point to

  /** os.path.join(tempfile.gettempdir(), fileName) */
  datatype Path = TempPath(fileName: string)

  /** The dictionary the package variants (x/__init__.py) return after a
      mutating call: the batchUpdate reply is passed through unmodelled; the two
      PDF paths are added. */
  datatype PathResponse = PathResponse(presentationPdfPath: Path, slidePdfPath: Option<Path>)
}
