/** formatting.py: the same three tools over the pydantic models of
    utils/models.py. A style key is sent when its field is truthy (True, a
    non-zero number, a non-empty string, any colour), the range is the whole
    text, and the result is a message and the artifacts of the affected slide. */
module Formatting {
  import opened SlidesApi
  import opened Text
  import opened StyleFields
  import opened Responses
  import FormattingPkg

  // ---------------------------------------------------------------------------
  // add_text_to_slide

  /** Position(x=100, y=100, width=400, height=100) */
  const DefaultPosition := Position(100.0, 100.0, 400.0, 100.0)

  /** The text box in points at the given or default position, and its text;
      the slide that carries it decides the report. */
  method AddTextToSlide(slideId: string, text: string, position: Option<Position>,
                        textBoxId: string, slidesAfter: seq<Slide>)
    returns (requests: seq<Request>, report: SlideReport)
    ensures var p := position.GetOr(DefaultPosition);
      requests == FormattingPkg.AddTextRequests(textBoxId, slideId, text, p.x, p.y, p.width, p.height)
    ensures report == Report("Added text '" + text + "' to slide " + slideId, slidesAfter, slideId)
  {
    var p := if position.None? then DefaultPosition else position.value;
    requests := [CreateShape(textBoxId, "TEXT_BOX", PtProperties(slideId, p)), InsertText(textBoxId, text)];
    report := ReportExport("Added text '" + text + "' to slide " + slideId, slidesAfter, slideId);
  }

  // ---------------------------------------------------------------------------
  // update_text_style

  /** TextStyle: every field is required; `underline` and `backgroundColor`
      are accepted but never read. */
  datatype TextStyle = TextStyle(
    fontFamily: string, fontSize: real, bold: bool, italic: bool, underline: bool,
    foregroundColor: RgbColor, backgroundColor: RgbColor)

  /** The value sent under a key, None when the field is falsy. */
  function TextValue(s: TextStyle, k: FormattingPkg.TextKey): Option<Value>
  {
    match k
    case Bold => if s.bold then Some(Bool(true)) else None
    case Italic => if s.italic then Some(Bool(true)) else None
    case FontSize => if s.fontSize != 0.0 then Some(Measure(s.fontSize, PT)) else None
    case FontFamily => if s.fontFamily != "" then Some(Str(s.fontFamily)) else None
    case ForegroundColor => Some(OpaqueColor(s.foregroundColor))
  }

  function TextValues(s: TextStyle): FormattingPkg.TextKey -> Option<Value>
  {
    k => TextValue(s, k)
  }

  function TextFields(s: TextStyle): seq<FormattingPkg.TextKey>
  {
    Selected(FormattingPkg.TextOrder, TextValues(s))
  }

  function TextFieldNames(s: TextStyle): seq<string>
  {
    Names(TextFields(s), FormattingPkg.TextKeyName)
  }

  method BuildTextStyle(s: TextStyle) returns (style: StyleMap, fields: seq<string>)
    ensures Built(style, fields, TextFields(s), FormattingPkg.TextKeyName, TextValues(s))
  {
    var value := TextValues(s);
    var order := FormattingPkg.TextOrder;
    FormattingPkg.TextNamesApart();
    assert order[..0] == [];
    style, fields := map[], [];
    style, fields := AddIfGiven(style, fields, FormattingPkg.TextKeyName, value, order, 0, 1);
    style, fields := AddIfGiven(style, fields, FormattingPkg.TextKeyName, value, order, 1, 2);
    style, fields := AddIfGiven(style, fields, FormattingPkg.TextKeyName, value, order, 2, 3);
    style, fields := AddIfGiven(style, fields, FormattingPkg.TextKeyName, value, order, 3, 4);
    style, fields := AddIfGiven(style, fields, FormattingPkg.TextKeyName, value, order, 4, 5);
    assert order[..5] == order;
  }

  /** The updateTextStyle request carries no textRange, so it styles all the text. */
  predicate TextStyleRequest(r: Request, objectId: string, s: TextStyle)
  {
    r.UpdateTextStyle? && r.objectId == objectId && r.textRange.None?
    && Built(r.style, TextFieldNames(s), TextFields(s), FormattingPkg.TextKeyName, TextValues(s))
    && r.fields == Join(TextFieldNames(s))
  }

  method UpdateTextStyleTool(objectId: string, s: TextStyle, slidesAfter: seq<Slide>)
    returns (requests: seq<Request>, report: SlideReport)
    ensures |requests| == 1 && TextStyleRequest(requests[0], objectId, s)
    ensures report == OwnerReport("Updated text style for object " + objectId, slidesAfter, objectId)
  {
    var style, fields := BuildTextStyle(s);
    requests := [UpdateTextStyle(objectId, None, style, Join(fields))];
    report := OwnerReportExport("Updated text style for object " + objectId, slidesAfter, objectId);
  }

  /** A key is sent exactly when its field is truthy; the colour always is. */
  lemma TextFieldsExactly(s: TextStyle)
    ensures FormattingPkg.Bold in TextFields(s) <==> s.bold
    ensures FormattingPkg.Italic in TextFields(s) <==> s.italic
    ensures FormattingPkg.FontSize in TextFields(s) <==> s.fontSize != 0.0
    ensures FormattingPkg.FontFamily in TextFields(s) <==> s.fontFamily != ""
    ensures FormattingPkg.ForegroundColor in TextFields(s)
  {
    var v := TextValues(s);
    SelectedMember(FormattingPkg.TextOrder, v, FormattingPkg.Bold);
    SelectedMember(FormattingPkg.TextOrder, v, FormattingPkg.Italic);
    SelectedMember(FormattingPkg.TextOrder, v, FormattingPkg.FontSize);
    SelectedMember(FormattingPkg.TextOrder, v, FormattingPkg.FontFamily);
    SelectedMember(FormattingPkg.TextOrder, v, FormattingPkg.ForegroundColor);
  }

  /** So the mask is never empty, and it splits back into the keys. */
  lemma TextMaskRoundTrip(s: TextStyle)
    ensures |TextFields(s)| > 0
    ensures Split(Join(TextFieldNames(s))) == TextFieldNames(s)
  {
    TextFieldsExactly(s);
    MaskRoundTrip(TextFields(s), FormattingPkg.TextKeyName);
  }

  /** underline and backgroundColor are never sent. */
  lemma TextNeverUnderline(s: TextStyle)
    ensures "underline" !in TextFieldNames(s) && "backgroundColor" !in TextFieldNames(s)
  {
    NamesMember(TextFields(s), FormattingPkg.TextKeyName, "underline");
    NamesMember(TextFields(s), FormattingPkg.TextKeyName, "backgroundColor");
  }

  /** The two variants part ways on a bold of False: the package sends
      `bold: False`, this module sends no bold at all. */
  lemma BoldFalseVariants(s: TextStyle)
    requires !s.bold
    ensures FormattingPkg.Bold !in TextFields(s)
    ensures FormattingPkg.Bold in FormattingPkg.TextFields(FormattingPkg.TextStyleArgs(Some(s.bold), None, None, None, None))
  {
    SelectedMember(FormattingPkg.TextOrder, TextValues(s), FormattingPkg.Bold);
    FormattingPkg.TextFieldsExactly(FormattingPkg.TextStyleArgs(Some(s.bold), None, None, None, None));
  }

  // ---------------------------------------------------------------------------
  // update_paragraph_style

  datatype Alignment = START | CENTER | END | JUSTIFIED
  datatype Direction = LEFT_TO_RIGHT | RIGHT_TO_LEFT
  datatype SpacingMode = NEVER_COLLAPSE | COLLAPSE_LISTS

  function AlignmentName(a: Alignment): string
  {
    match a
    case START => "START"
    case CENTER => "CENTER"
    case END => "END"
    case JUSTIFIED => "JUSTIFIED"
  }

  /** ParagraphStyle: every field optional; `direction` and `spacingMode`
      are accepted but never read. */
  datatype ParagraphStyle = ParagraphStyle(
    alignment: Option<Alignment>, lineSpacing: Option<int>, spaceAbove: Option<real>,
    spaceBelow: Option<real>, indentFirstLine: Option<real>, indentStart: Option<real>,
    indentEnd: Option<real>, direction: Option<Direction>, spacingMode: Option<SpacingMode>)

  datatype ParagraphKey = Alignment | LineSpacing | SpaceAbove | SpaceBelow | IndentFirstLine | IndentStart | IndentEnd

  function ParagraphKeyName(k: ParagraphKey): (r: string)
    ensures CommaFree(r)
  {
    match k
    case Alignment => "alignment"
    case LineSpacing => "lineSpacing"
    case SpaceAbove => "spaceAbove"
    case SpaceBelow => "spaceBelow"
    case IndentFirstLine => "indentFirstLine"
    case IndentStart => "indentStart"
    case IndentEnd => "indentEnd"
  }

  const ParagraphOrder: seq<ParagraphKey> :=
    [Alignment, LineSpacing, SpaceAbove, SpaceBelow, IndentFirstLine, IndentStart, IndentEnd]

  lemma ParagraphNamesApart()
    ensures NamesApart(ParagraphOrder, ParagraphKeyName)
  {
  }

  /** A set, non-zero point value, sent as points. */
  function Points(x: Option<real>): Option<Value>
  {
    if x.Some? && x.value != 0.0 then Some(Measure(x.value, PT)) else None
  }

  /** lineSpacing is a percentage; the other measures are points. */
  function ParagraphValue(p: ParagraphStyle, k: ParagraphKey): Option<Value>
  {
    match k
    case Alignment => if p.alignment.Some? then Some(Str(AlignmentName(p.alignment.value))) else None
    case LineSpacing =>
      if p.lineSpacing.Some? && p.lineSpacing.value != 0 then Some(Measure(p.lineSpacing.value as real, PERCENT)) else None
    case SpaceAbove => Points(p.spaceAbove)
    case SpaceBelow => Points(p.spaceBelow)
    case IndentFirstLine => Points(p.indentFirstLine)
    case IndentStart => Points(p.indentStart)
    case IndentEnd => Points(p.indentEnd)
  }

  function ParagraphValues(p: ParagraphStyle): ParagraphKey -> Option<Value>
  {
    k => ParagraphValue(p, k)
  }

  function ParagraphFields(p: ParagraphStyle): seq<ParagraphKey>
  {
    Selected(ParagraphOrder, ParagraphValues(p))
  }

  function ParagraphFieldNames(p: ParagraphStyle): seq<string>
  {
    Names(ParagraphFields(p), ParagraphKeyName)
  }

  method BuildParagraphStyle(p: ParagraphStyle) returns (style: StyleMap, fields: seq<string>)
    ensures Built(style, fields, ParagraphFields(p), ParagraphKeyName, ParagraphValues(p))
  {
    var value := ParagraphValues(p);
    ParagraphNamesApart();
    assert ParagraphOrder[..0] == [];
    style, fields := map[], [];
    style, fields := AddIfGiven(style, fields, ParagraphKeyName, value, ParagraphOrder, 0, 1);
    style, fields := AddIfGiven(style, fields, ParagraphKeyName, value, ParagraphOrder, 1, 2);
    style, fields := AddIfGiven(style, fields, ParagraphKeyName, value, ParagraphOrder, 2, 3);
    style, fields := AddIfGiven(style, fields, ParagraphKeyName, value, ParagraphOrder, 3, 4);
    style, fields := AddIfGiven(style, fields, ParagraphKeyName, value, ParagraphOrder, 4, 5);
    style, fields := AddIfGiven(style, fields, ParagraphKeyName, value, ParagraphOrder, 5, 6);
    style, fields := AddIfGiven(style, fields, ParagraphKeyName, value, ParagraphOrder, 6, 7);
    assert ParagraphOrder[..7] == ParagraphOrder;
  }

  predicate ParagraphStyleRequest(r: Request, objectId: string, p: ParagraphStyle)
  {
    r.UpdateParagraphStyle? && r.objectId == objectId && r.textRange.None?
    && Built(r.style, ParagraphFieldNames(p), ParagraphFields(p), ParagraphKeyName, ParagraphValues(p))
    && r.fields == Join(ParagraphFieldNames(p))
  }

  method UpdateParagraphStyleTool(objectId: string, p: ParagraphStyle, slidesAfter: seq<Slide>)
    returns (requests: seq<Request>, report: SlideReport)
    ensures |requests| == 1 && ParagraphStyleRequest(requests[0], objectId, p)
    ensures report == OwnerReport("Updated paragraph style for object " + objectId, slidesAfter, objectId)
  {
    var style, fields := BuildParagraphStyle(p);
    requests := [UpdateParagraphStyle(objectId, None, style, Join(fields))];
    report := OwnerReportExport("Updated paragraph style for object " + objectId, slidesAfter, objectId);
  }

  /** A key is sent exactly when its field is set and non-zero, in the
      tool's order. */
  lemma ParagraphFieldsExactly(p: ParagraphStyle)
    ensures forall k :: k in ParagraphFields(p) <==> ParagraphValue(p, k).Some?
    ensures Subsequence(ParagraphFields(p), ParagraphOrder)
  {
    forall k ensures k in ParagraphFields(p) <==> ParagraphValue(p, k).Some? {
      SelectedMember(ParagraphOrder, ParagraphValues(p), k);
    }
    SelectedSubsequence(ParagraphOrder, ParagraphValues(p));
  }

  /** direction and spacingMode are never sent. */
  lemma ParagraphNeverDirection(p: ParagraphStyle)
    ensures "direction" !in ParagraphFieldNames(p) && "spacingMode" !in ParagraphFieldNames(p)
  {
    NamesMember(ParagraphFields(p), ParagraphKeyName, "direction");
    NamesMember(ParagraphFields(p), ParagraphKeyName, "spacingMode");
  }

  /** A non-empty mask splits back into the keys; a style with every field
      None sends an empty one. */
  lemma ParagraphMaskRoundTrip(p: ParagraphStyle)
    ensures |ParagraphFields(p)| > 0 ==> Split(Join(ParagraphFieldNames(p))) == ParagraphFieldNames(p)
    ensures p.alignment.None? && p.lineSpacing.None? && p.spaceAbove.None? && p.spaceBelow.None?
            && p.indentFirstLine.None? && p.indentStart.None? && p.indentEnd.None?
            ==> Join(ParagraphFieldNames(p)) == ""
  {
    if |ParagraphFields(p)| > 0 {
      MaskRoundTrip(ParagraphFields(p), ParagraphKeyName);
    }
    if p.alignment.None? && p.lineSpacing.None? && p.spaceAbove.None? && p.spaceBelow.None?
       && p.indentFirstLine.None? && p.indentStart.None? && p.indentEnd.None? {
      NothingSelected(ParagraphOrder, ParagraphValues(p));
    }
  }
}
