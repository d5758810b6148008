/** formatting/__init__.py: a text box, and text and paragraph styles over a
    fixed index range, each followed by the PDF paths. A style key is sent when
    its argument is not None, so an explicit `False` or `0` is sent too. */
module FormattingPkg {
  import opened SlidesApi
  import opened Text
  import opened StyleFields
  import opened Responses

  // ---------------------------------------------------------------------------
  // add_text_to_slide

  /** The two requests of add_text_to_slide: a TEXT_BOX in points, then its text. */
  function AddTextRequests(textBoxId: string, slideId: string, text: string, x: real, y: real, width: real, height: real)
    : (r: seq<Request>)
    ensures |r| == 2 && r[0].CreateShape? && r[1] == InsertText(textBoxId, text)
    ensures r[0].objectId == textBoxId && r[0].shapeType == "TEXT_BOX"
    ensures r[0].props == PtProperties(slideId, Position(x, y, width, height))
  {
    [CreateShape(textBoxId, "TEXT_BOX", PtProperties(slideId, Position(x, y, width, height))),
     InsertText(textBoxId, text)]
  }

  /** add_text_to_slide: the id comes from the clock and `slidesAfter` is the
      presentation re-fetched after the batch; both are parameters. */
  method AddTextToSlide(presentationId: string, slideId: string, text: string, x: real, y: real, width: real, height: real,
                        textBoxId: string, slidesAfter: seq<Slide>)
    returns (requests: seq<Request>, paths: PathResponse)
    ensures requests == AddTextRequests(textBoxId, slideId, text, x, y, width, height)
    ensures paths == PdfPaths(presentationId, slidesAfter, slideId)
  {
    requests := [CreateShape(textBoxId, "TEXT_BOX", PtProperties(slideId, Position(x, y, width, height))),
                 InsertText(textBoxId, text)];
    paths := AttachPdfPaths(presentationId, slidesAfter, slideId);
  }

  // ---------------------------------------------------------------------------
  // update_text_style

  /** The optional arguments of update_text_style; None is "not given". */
  datatype TextStyleArgs = TextStyleArgs(
    bold: Option<bool>, italic: Option<bool>, fontSize: Option<real>,
    fontFamily: Option<string>, color: Option<RgbColor>)

  datatype TextKey = Bold | Italic | FontSize | FontFamily | ForegroundColor

  function TextKeyName(k: TextKey): (r: string)
    ensures CommaFree(r)
  {
    match k
    case Bold => "bold"
    case Italic => "italic"
    case FontSize => "fontSize"
    case FontFamily => "fontFamily"
    case ForegroundColor => "foregroundColor"
  }

  /** The keys in the order the tool tests them. */
  const TextOrder: seq<TextKey> := [Bold, Italic, FontSize, FontFamily, ForegroundColor]

  /** The value sent under a key, or None when the key is not sent: the
      argument is passed through, the font size as points, the colour as an
      opaque RGB colour. */
  function TextValue(a: TextStyleArgs, k: TextKey): Option<Value>
  {
    match k
    case Bold => if a.bold.Some? then Some(Bool(a.bold.value)) else None
    case Italic => if a.italic.Some? then Some(Bool(a.italic.value)) else None
    case FontSize => if a.fontSize.Some? then Some(Measure(a.fontSize.value, PT)) else None
    case FontFamily => if a.fontFamily.Some? then Some(Str(a.fontFamily.value)) else None
    case ForegroundColor => if a.color.Some? then Some(OpaqueColor(a.color.value)) else None
  }

  function TextValues(a: TextStyleArgs): TextKey -> Option<Value>
  {
    k => TextValue(a, k)
  }

  /** The keys the tool lists in `fields`, in order. */
  function TextFields(a: TextStyleArgs): seq<TextKey>
  {
    Selected(TextOrder, TextValues(a))
  }

  function TextFieldNames(a: TextStyleArgs): seq<string>
  {
    Names(TextFields(a), TextKeyName)
  }

  lemma TextNamesApart()
    ensures NamesApart(TextOrder, TextKeyName)
  {
  }

  lemma TextFieldsUnfolded(a: TextStyleArgs)
    ensures TextFields(a) ==
      Opt(a.bold.Some?, Bold) + Opt(a.italic.Some?, Italic) + Opt(a.fontSize.Some?, FontSize)
      + Opt(a.fontFamily.Some?, FontFamily) + Opt(a.color.Some?, ForegroundColor)
  {
    var v := TextValues(a);
    var o := TextOrder;
    assert o[..1][..0] == [];
    assert Selected(o[..1], v) == Opt(a.bold.Some?, Bold);
    assert o[..2][..1] == o[..1];
    assert Selected(o[..2], v) == Selected(o[..1], v) + Opt(a.italic.Some?, Italic);
    assert o[..3][..2] == o[..2];
    assert Selected(o[..3], v) == Selected(o[..2], v) + Opt(a.fontSize.Some?, FontSize);
    assert o[..4][..3] == o[..3];
    assert Selected(o[..4], v) == Selected(o[..3], v) + Opt(a.fontFamily.Some?, FontFamily);
    assert o[..4] == o[..5][..4] && o[..5] == o;
  }

  /** The style and the field list, built by the tool's chain of `if`s. */
  method BuildTextStyle(a: TextStyleArgs) returns (style: StyleMap, fields: seq<string>)
    ensures Built(style, fields, TextFields(a), TextKeyName, TextValues(a))
  {
    var value := TextValues(a);
    TextNamesApart();
    assert TextOrder[..0] == [];
    style, fields := map[], [];
    style, fields := AddIfGiven(style, fields, TextKeyName, value, TextOrder, 0, 1);
    style, fields := AddIfGiven(style, fields, TextKeyName, value, TextOrder, 1, 2);
    style, fields := AddIfGiven(style, fields, TextKeyName, value, TextOrder, 2, 3);
    style, fields := AddIfGiven(style, fields, TextKeyName, value, TextOrder, 3, 4);
    style, fields := AddIfGiven(style, fields, TextKeyName, value, TextOrder, 4, 5);
    assert TextOrder[..5] == TextOrder;
  }

  /** The one updateTextStyle request: a FIXED_RANGE over the given indices,
      the style, and the key names joined with commas. */
  predicate TextStyleRequest(r: Request, shapeId: string, startIndex: int, endIndex: int, a: TextStyleArgs)
  {
    r.UpdateTextStyle? && r.objectId == shapeId && r.textRange == Some(FixedRange(startIndex, endIndex))
    && Built(r.style, TextFieldNames(a), TextFields(a), TextKeyName, TextValues(a))
    && r.fields == Join(TextFieldNames(a))
  }

  /** update_text_style: the batch, then the slide that owns the shape in the
      re-fetched presentation `slidesAfter` gives the slide PDF path. */
  method UpdateTextStyleTool(presentationId: string, shapeId: string, startIndex: int, endIndex: int,
                             a: TextStyleArgs, slidesAfter: seq<Slide>)
    returns (requests: seq<Request>, paths: PathResponse)
    ensures |requests| == 1 && TextStyleRequest(requests[0], shapeId, startIndex, endIndex, a)
    ensures paths == OwnerPdfPaths(presentationId, slidesAfter, shapeId)
  {
    var style, fields := BuildTextStyle(a);
    requests := [UpdateTextStyle(shapeId, Some(FixedRange(startIndex, endIndex)), style, Join(fields))];
    paths := AttachOwnerPdfPaths(presentationId, slidesAfter, shapeId);
  }

  /** A key is listed exactly when its argument is not None, so `bold=False`
      is sent as a bold of false; the keys keep the tool's order. */
  lemma TextFieldsExactly(a: TextStyleArgs)
    ensures forall k :: k in TextFields(a) <==> TextValue(a, k).Some?
    ensures Subsequence(TextFields(a), TextOrder)
    ensures a.bold == Some(false) ==> Bold in TextFields(a) && TextValue(a, Bold) == Some(Bool(false))
  {
    forall k ensures k in TextFields(a) <==> TextValue(a, k).Some? {
      SelectedMember(TextOrder, TextValues(a), k);
    }
    SelectedSubsequence(TextOrder, TextValues(a));
  }

  /** The `fields` string splits back into the key names; with no argument
      given it is empty. */
  lemma TextMaskRoundTrip(a: TextStyleArgs)
    ensures |TextFields(a)| > 0 ==> Split(Join(TextFieldNames(a))) == TextFieldNames(a)
    ensures a == TextStyleArgs(None, None, None, None, None) ==> Join(TextFieldNames(a)) == ""
  {
    if |TextFields(a)| > 0 {
      MaskRoundTrip(TextFields(a), TextKeyName);
    }
    if a == TextStyleArgs(None, None, None, None, None) {
      NothingSelected(TextOrder, TextValues(a));
    }
  }

  // ---------------------------------------------------------------------------
  // update_paragraph_style

  datatype ParagraphStyleArgs = ParagraphStyleArgs(
    alignment: Option<string>, lineSpacing: Option<real>, spaceAbove: Option<real>,
    spaceBelow: Option<real>, indentStart: Option<real>, indentEnd: Option<real>)

  datatype ParagraphKey = Alignment | LineSpacing | SpaceAbove | SpaceBelow | IndentStart | IndentEnd

  function ParagraphKeyName(k: ParagraphKey): (r: string)
    ensures CommaFree(r)
  {
    match k
    case Alignment => "alignment"
    case LineSpacing => "lineSpacing"
    case SpaceAbove => "spaceAbove"
    case SpaceBelow => "spaceBelow"
    case IndentStart => "indentStart"
    case IndentEnd => "indentEnd"
  }

  const ParagraphOrder: seq<ParagraphKey> := [Alignment, LineSpacing, SpaceAbove, SpaceBelow, IndentStart, IndentEnd]

  /** lineSpacing is sent as the bare number; the spacings and indents as points. */
  function ParagraphValue(a: ParagraphStyleArgs, k: ParagraphKey): Option<Value>
  {
    match k
    case Alignment => if a.alignment.Some? then Some(Str(a.alignment.value)) else None
    case LineSpacing => if a.lineSpacing.Some? then Some(Number(a.lineSpacing.value)) else None
    case SpaceAbove => if a.spaceAbove.Some? then Some(Measure(a.spaceAbove.value, PT)) else None
    case SpaceBelow => if a.spaceBelow.Some? then Some(Measure(a.spaceBelow.value, PT)) else None
    case IndentStart => if a.indentStart.Some? then Some(Measure(a.indentStart.value, PT)) else None
    case IndentEnd => if a.indentEnd.Some? then Some(Measure(a.indentEnd.value, PT)) else None
  }

  function ParagraphValues(a: ParagraphStyleArgs): ParagraphKey -> Option<Value>
  {
    k => ParagraphValue(a, k)
  }

  function ParagraphFields(a: ParagraphStyleArgs): seq<ParagraphKey>
  {
    Selected(ParagraphOrder, ParagraphValues(a))
  }

  function ParagraphFieldNames(a: ParagraphStyleArgs): seq<string>
  {
    Names(ParagraphFields(a), ParagraphKeyName)
  }

  lemma ParagraphNamesApart()
    ensures NamesApart(ParagraphOrder, ParagraphKeyName)
  {
  }

  lemma ParagraphFieldsUnfolded(a: ParagraphStyleArgs)
    ensures ParagraphFields(a) ==
      Opt(a.alignment.Some?, Alignment) + Opt(a.lineSpacing.Some?, LineSpacing) + Opt(a.spaceAbove.Some?, SpaceAbove)
      + Opt(a.spaceBelow.Some?, SpaceBelow) + Opt(a.indentStart.Some?, IndentStart) + Opt(a.indentEnd.Some?, IndentEnd)
  {
    var v := ParagraphValues(a);
    var o := ParagraphOrder;
    assert o[..1][..0] == [];
    assert Selected(o[..1], v) == Opt(a.alignment.Some?, Alignment);
    assert o[..2][..1] == o[..1];
    assert Selected(o[..2], v) == Selected(o[..1], v) + Opt(a.lineSpacing.Some?, LineSpacing);
    assert o[..3][..2] == o[..2];
    assert Selected(o[..3], v) == Selected(o[..2], v) + Opt(a.spaceAbove.Some?, SpaceAbove);
    assert o[..4][..3] == o[..3];
    assert Selected(o[..4], v) == Selected(o[..3], v) + Opt(a.spaceBelow.Some?, SpaceBelow);
    assert o[..5][..4] == o[..4];
    assert Selected(o[..5], v) == Selected(o[..4], v) + Opt(a.indentStart.Some?, IndentStart);
    assert o[..5] == o[..6][..5] && o[..6] == o;
  }

  method BuildParagraphStyle(a: ParagraphStyleArgs) returns (style: StyleMap, fields: seq<string>)
    ensures Built(style, fields, ParagraphFields(a), ParagraphKeyName, ParagraphValues(a))
  {
    var value := ParagraphValues(a);
    ParagraphNamesApart();
    assert ParagraphOrder[..0] == [];
    style, fields := map[], [];
    style, fields := AddIfGiven(style, fields, ParagraphKeyName, value, ParagraphOrder, 0, 1);
    style, fields := AddIfGiven(style, fields, ParagraphKeyName, value, ParagraphOrder, 1, 2);
    style, fields := AddIfGiven(style, fields, ParagraphKeyName, value, ParagraphOrder, 2, 3);
    style, fields := AddIfGiven(style, fields, ParagraphKeyName, value, ParagraphOrder, 3, 4);
    style, fields := AddIfGiven(style, fields, ParagraphKeyName, value, ParagraphOrder, 4, 5);
    style, fields := AddIfGiven(style, fields, ParagraphKeyName, value, ParagraphOrder, 5, 6);
    assert ParagraphOrder[..6] == ParagraphOrder;
  }

  predicate ParagraphStyleRequest(r: Request, shapeId: string, startIndex: int, endIndex: int, a: ParagraphStyleArgs)
  {
    r.UpdateParagraphStyle? && r.objectId == shapeId && r.textRange == Some(FixedRange(startIndex, endIndex))
    && Built(r.style, ParagraphFieldNames(a), ParagraphFields(a), ParagraphKeyName, ParagraphValues(a))
    && r.fields == Join(ParagraphFieldNames(a))
  }

  method UpdateParagraphStyleTool(presentationId: string, shapeId: string, startIndex: int, endIndex: int,
                                  a: ParagraphStyleArgs, slidesAfter: seq<Slide>)
    returns (requests: seq<Request>, paths: PathResponse)
    ensures |requests| == 1 && ParagraphStyleRequest(requests[0], shapeId, startIndex, endIndex, a)
    ensures paths == OwnerPdfPaths(presentationId, slidesAfter, shapeId)
  {
    var style, fields := BuildParagraphStyle(a);
    requests := [UpdateParagraphStyle(shapeId, Some(FixedRange(startIndex, endIndex)), style, Join(fields))];
    paths := AttachOwnerPdfPaths(presentationId, slidesAfter, shapeId);
  }

  lemma ParagraphFieldsExactly(a: ParagraphStyleArgs)
    ensures forall k :: k in ParagraphFields(a) <==> ParagraphValue(a, k).Some?
    ensures Subsequence(ParagraphFields(a), ParagraphOrder)
  {
    forall k ensures k in ParagraphFields(a) <==> ParagraphValue(a, k).Some? {
      SelectedMember(ParagraphOrder, ParagraphValues(a), k);
    }
    SelectedSubsequence(ParagraphOrder, ParagraphValues(a));
  }

  lemma ParagraphMaskRoundTrip(a: ParagraphStyleArgs)
    ensures |ParagraphFields(a)| > 0 ==> Split(Join(ParagraphFieldNames(a))) == ParagraphFieldNames(a)
  {
    if |ParagraphFields(a)| > 0 {
      MaskRoundTrip(ParagraphFields(a), ParagraphKeyName);
    }
  }
}
