/** utils/helpers.py: slide id/index conversion, element search by name, the
    colour codec (#rrggbb) and the point/EMU codec, and the page size in points. */
module Helpers {
  import opened SlidesApi
  import opened Text
  import opened Lookup

  // ---------------------------------------------------------------------------
  // Slide id <-> index

  function SlideNotFound(slideId: string): Error
  {
    ValueError("Slide with ID " + slideId + " not found in presentation")
  }

  /** What slide_id_to_index returns or raises. */
  function SlideIndexOf(slides: seq<Slide>, slideId: string): (r: Result<nat>)
    ensures r.Ok? ==> r.value < |slides| && slides[r.value].objectId == slideId
    ensures r.Ok? ==> forall j :: 0 <= j < r.value ==> slides[j].objectId != slideId
    ensures r.Err? <==> forall j :: 0 <= j < |slides| ==> slides[j].objectId != slideId
    ensures r.Err? ==> r.error == SlideNotFound(slideId)
  {
    match FirstSlideIndex(slides, slideId)
    case Some(i) => Ok(i)
    case None => Err(SlideNotFound(slideId))
  }

  /** slide_id_to_index: the enumerate loop with early return, then the raise. */
  method SlideIdToIndex(slides: seq<Slide>, slideId: string) returns (r: Result<nat>)
    ensures r == SlideIndexOf(slides, slideId)
  {
    var i := 0;
    while i < |slides|
      invariant 0 <= i <= |slides|
      invariant forall j :: 0 <= j < i ==> slides[j].objectId != slideId
    {
      if slides[i].objectId == slideId {
        return Ok(i);
      }
      i := i + 1;
    }
    return Err(SlideNotFound(slideId));
  }

  /** index_to_slide_id: the id at an in-range index, ValueError otherwise. */
  function IndexToSlideId(slides: seq<Slide>, slideIndex: int): (r: Result<string>)
    ensures r.Ok? <==> 0 <= slideIndex < |slides|
    ensures r.Ok? ==> r.value == slides[slideIndex].objectId
    ensures r.Err? ==> r.error.ValueError?
  {
    if 0 <= slideIndex < |slides| then Ok(slides[slideIndex].objectId)
    else Err(ValueError("Index " + IntToString(slideIndex) + " out of range. Presentation has "
                        + NatToString(|slides|) + " slides."))
  }

  /** On a presentation whose slide ids are distinct, index -> id -> index is the identity. */
  lemma {:induction false} IndexToIdToIndex(slides: seq<Slide>, i: int)
    requires DistinctIds(slides)
    requires 0 <= i < |slides|
    ensures IndexToSlideId(slides, i).Ok?
    ensures SlideIndexOf(slides, IndexToSlideId(slides, i).value) == Ok(i)
  {
    var r := SlideIndexOf(slides, slides[i].objectId);
    assert r.Ok?;
  }

  /** id -> index -> id is the identity on every id that is present (first match). */
  lemma IdToIndexToId(slides: seq<Slide>, slideId: string)
    requires SlideIndexOf(slides, slideId).Ok?
    ensures IndexToSlideId(slides, SlideIndexOf(slides, slideId).value) == Ok(slideId)
  {
  }

  // ---------------------------------------------------------------------------
  // Element search by name

  /** The helpers.py match rule: the shape's text contains the name, or the
      element's title ('' when missing) equals it, both case-insensitively. */
  predicate NameMatches(e: PageElement, name: string)
  {
    TextMatches(e, name) || Lower(e.title.GetOr("")) == Lower(name)
  }

  function NameRule(name: string): PageElement -> bool
  {
    e => NameMatches(e, name)
  }

  /** The per-element loop body: text test first, then the title test.
      Calling `.lower()` on a missing name raises AttributeError at the first element. */
  function ScanElements(elements: seq<PageElement>, name: Option<string>): Result<Option<string>>
  {
    if |elements| == 0 then Ok(None)
    else if name.None? then Err(AttributeError)
    else if NameMatches(elements[0], name.value) then Ok(Some(elements[0].objectId))
    else ScanElements(elements[1..], name)
  }

  function ScanSlides(slides: seq<Slide>, name: Option<string>): Result<Option<string>>
  {
    if |slides| == 0 then Ok(None)
    else match ScanElements(slides[0].pageElements, name)
      case Ok(None) => ScanSlides(slides[1..], name)
      case other => other
  }

  predicate AnyElement(slides: seq<Slide>)
  {
    exists i :: 0 <= i < |slides| && |slides[i].pageElements| > 0
  }

  /** The (slide_id, element_name) pair after the three-argument call is redirected. */
  function Effective(slideId: Option<string>, elementName: Option<string>): (Option<string>, Option<string>)
  {
    if elementName.None? && slideId.Some? then (None, slideId) else (slideId, elementName)
  }

  /** What get_element_id_by_name returns or raises. */
  function ElementIdByName(slides: seq<Slide>, slideId: Option<string>, elementName: Option<string>): Result<Option<string>>
  {
    var (sid, name) := Effective(slideId, elementName);
    if sid.None? then ScanSlides(slides, name)
    else match FirstSlideIndex(slides, sid.value)
      case None => Err(SlideNotFound(sid.value))
      case Some(i) => ScanElements(slides[i].pageElements, name)
  }

  lemma {:induction false} ScanElementsSome(elements: seq<PageElement>, name: string)
    ensures ScanElements(elements, Some(name)) == Ok(SearchElements(elements, NameRule(name)))
  {
    if |elements| > 0 {
      ScanElementsSome(elements[1..], name);
    }
  }

  lemma {:induction false} ScanSlidesSome(slides: seq<Slide>, name: string)
    ensures ScanSlides(slides, Some(name)) == Ok(SearchSlides(slides, NameRule(name)))
  {
    if |slides| > 0 {
      ScanElementsSome(slides[0].pageElements, name);
      ScanSlidesSome(slides[1..], name);
    }
  }

  /** With no name at all, the search raises as soon as there is any element to test. */
  lemma {:induction false} ScanSlidesNoName(slides: seq<Slide>)
    ensures ScanSlides(slides, None) == if AnyElement(slides) then Err(AttributeError) else Ok(None)
  {
    if |slides| > 0 {
      ScanSlidesNoName(slides[1..]);
      if |slides[0].pageElements| == 0 && AnyElement(slides) {
        var i :| 0 <= i < |slides| && |slides[i].pageElements| > 0;
        assert slides[i] == slides[1..][i - 1];
      }
      if |slides[0].pageElements| == 0 && AnyElement(slides[1..]) {
        var i :| 0 <= i < |slides[1..]| && |slides[1..][i].pageElements| > 0;
        assert slides[i + 1] == slides[1..][i];
      }
    }
  }

  /** A name-only call searches every slide with the slide_id value as the name. */
  lemma ElementIdByNameRedirect(slides: seq<Slide>, name: string)
    ensures ElementIdByName(slides, Some(name), None) == ElementIdByName(slides, None, Some(name))
  {
  }

  /** A slide_id that is given and absent raises ValueError. */
  lemma ElementIdByNameMissingSlide(slides: seq<Slide>, slideId: string, name: string)
    requires forall j :: 0 <= j < |slides| ==> slides[j].objectId != slideId
    ensures ElementIdByName(slides, Some(slideId), Some(name)) == Err(SlideNotFound(slideId))
  {
  }

  /** Searching all slides: the result is the first matching element in
      slide-then-element order, and None exactly when nothing matches. */
  lemma {:induction false} ElementIdByNameAllSlides(slides: seq<Slide>, name: string)
    ensures ElementIdByName(slides, None, Some(name)).Ok?
    ensures ElementIdByName(slides, None, Some(name)).value.None? <==>
      forall i, j :: 0 <= i < |slides| && 0 <= j < |slides[i].pageElements| ==>
        !NameMatches(slides[i].pageElements[j], name)
    ensures ElementIdByName(slides, None, Some(name)).value.Some? ==>
      exists i, j :: 0 <= i < |slides| && 0 <= j < |slides[i].pageElements|
        && NameMatches(slides[i].pageElements[j], name)
        && ElementIdByName(slides, None, Some(name)).value.value == slides[i].pageElements[j].objectId
        && (forall k :: 0 <= k < i ==> !SlideHasMatch(slides[k], NameRule(name)))
        && (forall l :: 0 <= l < j ==> !NameMatches(slides[i].pageElements[l], name))
  {
    var m := NameRule(name);
    ScanSlidesSome(slides, name);
    SearchSlidesFirst(slides, m);
    var r := SearchSlides(slides, m);
    if r.None? {
      forall i, j | 0 <= i < |slides| && 0 <= j < |slides[i].pageElements|
        ensures !NameMatches(slides[i].pageElements[j], name)
      {
        assert !SlideHasMatch(slides[i], m);
        assert !m(slides[i].pageElements[j]);
      }
    } else {
      var i :| 0 <= i < |slides| && SlideHasMatch(slides[i], m)
              && (forall k :: 0 <= k < i ==> !SlideHasMatch(slides[k], m))
              && r == SearchElements(slides[i].pageElements, m);
      SearchElementsFirst(slides[i].pageElements, m);
      var j :| 0 <= j < |slides[i].pageElements| && m(slides[i].pageElements[j])
              && r.value == slides[i].pageElements[j].objectId
              && forall l :: 0 <= l < j ==> !m(slides[i].pageElements[l]);
      assert NameMatches(slides[i].pageElements[j], name);
      assert forall l :: 0 <= l < j ==> !NameMatches(slides[i].pageElements[l], name);
      // the None case is impossible here: slides[i] has a match
      assert !(forall a, b :: 0 <= a < |slides| && 0 <= b < |slides[a].pageElements| ==>
                 !NameMatches(slides[a].pageElements[b], name));
    }
  }

  /** Searching one slide: the result is that slide's first matching element. */
  lemma {:induction false} ElementIdByNameInSlide(slides: seq<Slide>, slideId: string, name: string, i: nat)
    requires FirstSlideIndex(slides, slideId) == Some(i)
    ensures ElementIdByName(slides, Some(slideId), Some(name)).Ok?
    ensures ElementIdByName(slides, Some(slideId), Some(name)).value.None? <==>
      forall j :: 0 <= j < |slides[i].pageElements| ==> !NameMatches(slides[i].pageElements[j], name)
    ensures ElementIdByName(slides, Some(slideId), Some(name)).value.Some? ==>
      exists j :: 0 <= j < |slides[i].pageElements|
        && NameMatches(slides[i].pageElements[j], name)
        && ElementIdByName(slides, Some(slideId), Some(name)).value.value == slides[i].pageElements[j].objectId
        && (forall l :: 0 <= l < j ==> !NameMatches(slides[i].pageElements[l], name))
  {
    var m := NameRule(name);
    ScanElementsSome(slides[i].pageElements, name);
    SearchElementsFirst(slides[i].pageElements, m);
    if SearchElements(slides[i].pageElements, m).Some? {
      var j :| 0 <= j < |slides[i].pageElements| && m(slides[i].pageElements[j])
              && SearchElements(slides[i].pageElements, m).value == slides[i].pageElements[j].objectId
              && forall l :: 0 <= l < j ==> !m(slides[i].pageElements[l]);
      assert NameMatches(slides[i].pageElements[j], name);
      assert forall l :: 0 <= l < j ==> !NameMatches(slides[i].pageElements[l], name);
    } else {
      assert forall j :: 0 <= j < |slides[i].pageElements| ==> !m(slides[i].pageElements[j]);
    }
  }

  /** The loop body for one element, computed as the source does. */
  method ElementMatches(e: PageElement, name: string) returns (b: bool)
    ensures b == NameMatches(e, name)
  {
    b := MatchesText(e, name);
    if !b {
      b := Lower(e.title.GetOr("")) == Lower(name);
    }
  }

  /** get_element_id_by_name: the argument redirection, then either the nested
      scan over all slides or the slide lookup (ValueError on a miss) followed by
      the scan over that slide's elements, each returning at the first match. */
  method GetElementIdByName(slides: seq<Slide>, slideId: Option<string>, elementName: Option<string>)
    returns (r: Result<Option<string>>)
    ensures r == ElementIdByName(slides, slideId, elementName)
  {
    var sid, name := slideId, elementName;
    if name.None? && sid.Some? {
      name := sid;
      sid := None;
    }
    if sid.None? {
      var i := 0;
      while i < |slides|
        invariant 0 <= i <= |slides|
        invariant ScanSlides(slides, name) == ScanSlides(slides[i..], name)
      {
        assert slides[i..][1..] == slides[i + 1..];
        var elements := slides[i].pageElements;
        var j := 0;
        while j < |elements|
          invariant 0 <= j <= |elements|
          invariant ScanElements(elements, name) == ScanElements(elements[j..], name)
        {
          assert elements[j..][1..] == elements[j + 1..];
          if name.None? {
            return Err(AttributeError);
          }
          var hit := ElementMatches(elements[j], name.value);
          if hit {
            return Ok(Some(elements[j].objectId));
          }
          j := j + 1;
        }
        i := i + 1;
      }
      return Ok(None);
    }
    var target := FindSlideIndex(slides, sid.value);
    if target.None? {
      return Err(SlideNotFound(sid.value));
    }
    var elements := slides[target.value].pageElements;
    var j := 0;
    while j < |elements|
      invariant 0 <= j <= |elements|
      invariant ScanElements(elements, name) == ScanElements(elements[j..], name)
    {
      assert elements[j..][1..] == elements[j + 1..];
      if name.None? {
        return Err(AttributeError);
      }
      var hit := ElementMatches(elements[j], name.value);
      if hit {
        return Ok(Some(elements[j].objectId));
      }
      j := j + 1;
    }
    return Ok(None);
  }

  // ---------------------------------------------------------------------------
  // Colour codec

  /** Python int() on a float: truncation toward zero. */
  function Trunc(x: real): (n: int)
    ensures x >= 0.0 ==> n as real <= x < n as real + 1.0
    ensures x < 0.0 ==> n as real - 1.0 < x <= n as real
  {
    if x >= 0.0 then x.Floor else -((-x).Floor)
  }

  /** One channel of rgb_to_hex: a value in [0, 1] is scaled by 255, any other
      value is taken as it is; the integer is then clamped to 0..255. */
  function ChannelByte(v: real): (b: int)
    ensures 0 <= b <= 255
  {
    var n := if 0.0 <= v <= 1.0 then Trunc(v * 255.0) else Trunc(v);
    if n < 0 then 0 else if n > 255 then 255 else n
  }

  /** A fraction in [0, 1] becomes floor(255 * v). */
  lemma ChannelByteOfFraction(v: real)
    requires 0.0 <= v <= 1.0
    ensures ChannelByte(v) == (v * 255.0).Floor
  {
  }

  /** A whole number from 2 to 255 is taken as the byte itself; larger values
      clamp to 255 and negative values to 0. */
  lemma ChannelByteOfWhole(n: int)
    ensures 2 <= n <= 255 ==> ChannelByte(n as real) == n
    ensures n > 255 ==> ChannelByte(n as real) == 255
    ensures n < 0 ==> ChannelByte(n as real) == 0
  {
  }

  /** The two rules meet badly at 1: the channel value 1 means full intensity,
      1.5 means almost none. */
  lemma ChannelByteNotMonotone()
    ensures ChannelByte(1.0) == 255 && ChannelByte(1.5) == 1
  {
  }

  predicate IsLowerHex(c: char)
  {
    '0' <= c <= '9' || 'a' <= c <= 'f'
  }

  /** The lowercase hex digit for 0..15. */
  function HexDigit(k: int): (c: char)
    requires 0 <= k < 16
    ensures IsLowerHex(c)
  {
    if k < 10 then ('0' as int + k) as char else ('a' as int + k - 10) as char
  }

  /** f"{n:02x}" for a byte. */
  function Hex2(n: int): (s: string)
    requires 0 <= n <= 255
    ensures |s| == 2 && IsLowerHex(s[0]) && IsLowerHex(s[1])
  {
    [HexDigit(n / 16), HexDigit(n % 16)]
  }

  /** rgb_to_hex: '#' followed by six lowercase hex digits. */
  function RgbToHex(r: real, g: real, b: real): (s: string)
    ensures |s| == 7 && s[0] == '#'
    ensures forall i :: 1 <= i < 7 ==> IsLowerHex(s[i])
  {
    BytesToHex(ChannelByte(r), ChannelByte(g), ChannelByte(b))
  }

  /** f"#{r:02x}{g:02x}{b:02x}" for three bytes. */
  function BytesToHex(r: int, g: int, b: int): (s: string)
    requires 0 <= r <= 255 && 0 <= g <= 255 && 0 <= b <= 255
    ensures |s| == 7 && s[0] == '#'
    ensures forall i :: 1 <= i < 7 ==> IsLowerHex(s[i])
  {
    "#" + Hex2(r) + Hex2(g) + Hex2(b)
  }

  /** The value of a hex digit of either case. */
  function HexValue(c: char): Option<nat>
  {
    if '0' <= c <= '9' then Some(c as int - '0' as int)
    else if 'a' <= c <= 'f' then Some(c as int - 'a' as int + 10)
    else if 'A' <= c <= 'F' then Some(c as int - 'A' as int + 10)
    else None
  }

  predicate AllHex(s: string)
  {
    forall i :: 0 <= i < |s| ==> HexValue(s[i]).Some?
  }

  /** The number a string of hex digits denotes, most significant first. */
  function HexNumber(s: string): nat
    requires AllHex(s)
  {
    if |s| == 0 then 0 else HexNumber(s[..|s| - 1]) * 16 + HexValue(s[|s| - 1]).value
  }

  /** One or two hex digits denote a byte. */
  lemma HexNumberOfPair(s: string)
    requires AllHex(s) && 0 < |s| <= 2
    ensures HexNumber(s) == if |s| == 1 then HexValue(s[0]).value else HexValue(s[0]).value * 16 + HexValue(s[1]).value
    ensures HexNumber(s) <= 255
  {
    assert s[..|s| - 1][..0] == [];
    if |s| == 2 {
      assert s[..1] == [s[0]];
    }
  }

  /** The characters int() skips around its argument. */
  predicate IsSpace(c: char)
  {
    c == ' ' || c == '\t' || c == '\n' || c == '\r' || c as int == 0x0B || c as int == 0x0C
    || (0x1C <= c as int <= 0x1F)
  }

  function StripLeadingSpace(s: string): (t: string)
    ensures |t| <= |s|
    ensures |s| > 0 && !IsSpace(s[0]) ==> t == s
  {
    if |s| > 0 && IsSpace(s[0]) then StripLeadingSpace(s[1..]) else s
  }

  function StripTrailingSpace(s: string): (t: string)
    ensures |t| <= |s|
    ensures |s| > 0 && !IsSpace(s[|s| - 1]) ==> t == s
  {
    if |s| > 0 && IsSpace(s[|s| - 1]) then StripTrailingSpace(s[..|s| - 1]) else s
  }

  /** int(s, 16) for a string of at most two characters (what a two-character
      slice gives): surrounding spaces, an optional sign, then one or more hex
      digits; anything else raises ValueError. With at most two characters the
      '0x' prefix and digit-separating underscores cannot form a valid literal. */
  function ParseHexInt(s: string): (r: Result<int>)
    requires |s| <= 2
    ensures r.Ok? ==> -255 <= r.value <= 255
    ensures |s| == 0 ==> r.Err?
  {
    if 0 < |s| && AllHex(s) then
      HexNumberOfPair(s);
      var v: int := HexNumber(s);
      Ok(v)
    else
      ParseSignedHex(StripTrailingSpace(StripLeadingSpace(s)), s)
  }

  function ParseSignedHex(w: string, s: string): (r: Result<int>)
    requires |w| <= 2
    ensures r.Ok? ==> -255 <= r.value <= 255
    ensures |w| == 0 ==> r.Err?
  {
    var signed := |w| > 0 && (w[0] == '+' || w[0] == '-');
    var digits := if signed then w[1..] else w;
    if |digits| == 0 || !AllHex(digits) then
      Err(ValueError("invalid literal for int() with base 16: '" + s + "'"))
    else
      HexNumberOfPair(digits);
      var v: int := HexNumber(digits);
      Ok(if signed && w[0] == '-' then -v else v)
  }

  /** The direct route for plain hex digits agrees with the general grammar. */
  lemma ParseHexIntGrammar(s: string)
    requires |s| <= 2
    ensures ParseHexInt(s) == ParseSignedHex(StripTrailingSpace(StripLeadingSpace(s)), s)
  {
    if 0 < |s| && AllHex(s) {
      assert HexValue(s[0]).Some? && HexValue(s[|s| - 1]).Some?;
      assert StripLeadingSpace(s) == s;
      assert StripTrailingSpace(s) == s;
      assert !(s[0] == '+' || s[0] == '-');
      HexNumberOfPair(s);
    }
  }

  /** One or two hex digits parse to the byte they denote. */
  lemma ParseHexDigits(s: string)
    requires 0 < |s| <= 2 && AllHex(s)
    ensures ParseHexInt(s) == Ok(HexNumber(s))
  {
    assert HexValue(s[0]).Some? && HexValue(s[|s| - 1]).Some?;
    assert StripLeadingSpace(s) == s;
    assert StripTrailingSpace(s) == s;
  }

  /** A '-' sign makes the parse negative, which the Slides API does not accept
      as a colour channel. */
  lemma ParseHexNegative()
    ensures ParseHexInt("-f") == Ok(-15)
  {
    assert StripLeadingSpace("-f") == "-f";
    assert StripTrailingSpace("-f") == "-f";
    assert "-f"[1..] == "f";
    HexNumberOfPair("f");
  }

  /** str.lstrip('#') */
  function LStripHash(s: string): (t: string)
    ensures |t| > 0 ==> t[0] != '#'
    ensures |s| > 0 && s[0] != '#' ==> t == s
  {
    if |s| > 0 && s[0] == '#' then LStripHash(s[1..]) else s
  }

  /** s[a:b] for 0 <= a <= b: the bounds clamp to the length. */
  function Slice(s: string, a: nat, b: nat): (t: string)
    requires a <= b
    ensures |t| <= b - a
    ensures b <= |s| ==> t == s[a..b]
  {
    var hi := if b < |s| then b else |s|;
    var lo := if a < hi then a else hi;
    s[lo..hi]
  }

  /** hex_to_rgb: strip every leading '#', parse [0:2], [2:4] and [4:6] as hex
      integers (ValueError on the first that fails) and divide each by 255. */
  function HexToRgb(hex: string): Result<RgbColor>
  {
    var h := LStripHash(hex);
    var r := ParseHexInt(Slice(h, 0, 2));
    var g := ParseHexInt(Slice(h, 2, 4));
    var b := ParseHexInt(Slice(h, 4, 6));
    if r.Err? then Err(r.error)
    else if g.Err? then Err(g.error)
    else if b.Err? then Err(b.error)
    else Ok(RgbColor(r.value as real / 255.0, g.value as real / 255.0, b.value as real / 255.0))
  }

  /** A '#' and six hex digits parse pair by pair. */
  /** A colour code: '#' followed by six hex digits of either case. */
  predicate IsColourCode(hex: string)
  {
    |hex| == 7 && hex[0] == '#' && AllHex(hex[1..])
  }

  /** The three pairs of a colour code parse one by one. */
  lemma ChannelsOfCode(hex: string)
    requires IsColourCode(hex)
    ensures AllHex(hex[1..3]) && AllHex(hex[3..5]) && AllHex(hex[5..7])
    ensures ParseHexInt(Slice(LStripHash(hex), 0, 2)) == Ok(HexNumber(hex[1..3]) as int)
    ensures ParseHexInt(Slice(LStripHash(hex), 2, 4)) == Ok(HexNumber(hex[3..5]) as int)
    ensures ParseHexInt(Slice(LStripHash(hex), 4, 6)) == Ok(HexNumber(hex[5..7]) as int)
  {
    var digits := hex[1..];
    assert HexValue(digits[0]).Some?;
    assert LStripHash(hex) == digits;
    var pr, pg, pb := hex[1..3], hex[3..5], hex[5..7];
    assert Slice(digits, 0, 2) == pr && Slice(digits, 2, 4) == pg && Slice(digits, 4, 6) == pb;
    assert AllHex(pr) && AllHex(pg) && AllHex(pb);
    ParseHexDigits(pr);
    ParseHexDigits(pg);
    ParseHexDigits(pb);
  }

  /** A colour code parses pair by pair. */
  lemma HexToRgbOfCode(hex: string)
    requires IsColourCode(hex)
    ensures AllHex(hex[1..3]) && AllHex(hex[3..5]) && AllHex(hex[5..7])
    ensures HexToRgb(hex) ==
      Ok(RgbColor(HexNumber(hex[1..3]) as real / 255.0,
                  HexNumber(hex[3..5]) as real / 255.0,
                  HexNumber(hex[5..7]) as real / 255.0))
  {
    ChannelsOfCode(hex);
  }

  lemma LStripOneHash(digits: string)
    requires |digits| > 0 && AllHex(digits)
    ensures LStripHash("#" + digits) == digits
  {
    assert ("#" + digits)[1..] == digits;
    assert HexValue(digits[0]).Some?;
  }

  lemma Hex2Parses(n: int)
    requires 0 <= n <= 255
    ensures AllHex(Hex2(n)) && HexNumber(Hex2(n)) == n
  {
    HexNumberOfPair(Hex2(n));
  }

  /** Parsing three printed bytes gives them back, over 255. */
  lemma HexToRgbOfBytes(r: int, g: int, b: int)
    requires 0 <= r <= 255 && 0 <= g <= 255 && 0 <= b <= 255
    ensures HexToRgb(BytesToHex(r, g, b)) == Ok(RgbColor(r as real / 255.0, g as real / 255.0, b as real / 255.0))
  {
    var s := BytesToHex(r, g, b);
    assert s[1..3] == Hex2(r) && s[3..5] == Hex2(g) && s[5..7] == Hex2(b);
    assert IsColourCode(s) by {
      forall i | 0 <= i < |s[1..]| ensures HexValue(s[1..][i]).Some? {
        assert IsLowerHex(s[i + 1]);
      }
    }
    Hex2Parses(r);
    Hex2Parses(g);
    Hex2Parses(b);
    HexToRgbOfCode(s);
  }

  /** Parsing what rgb_to_hex prints gives back the clamped channel bytes, over 255. */
  lemma HexToRgbOfRgbToHex(r: real, g: real, b: real)
    ensures HexToRgb(RgbToHex(r, g, b)) ==
      Ok(RgbColor(ChannelByte(r) as real / 255.0, ChannelByte(g) as real / 255.0, ChannelByte(b) as real / 255.0))
  {
    HexToRgbOfBytes(ChannelByte(r), ChannelByte(g), ChannelByte(b));
  }

  /** A byte over 255 is a fraction in [0, 1] and maps back to the byte. */
  lemma ChannelByteOfByteFraction(n: int)
    requires 0 <= n <= 255
    ensures ChannelByte(n as real / 255.0) == n
  {
    assert n as real / 255.0 * 255.0 == n as real;
  }

  function LowerHexChar(c: char): char
  {
    if 'A' <= c <= 'F' then (c as int + 32) as char else c
  }

  /** The hex digits of a colour code in lowercase. */
  function LowerHex(s: string): (t: string)
    ensures |t| == |s|
  {
    seq(|s|, i requires 0 <= i < |s| => LowerHexChar(s[i]))
  }

  lemma HexDigitOfValue(c: char)
    requires HexValue(c).Some?
    ensures HexValue(c).value < 16
    ensures HexDigit(HexValue(c).value) == LowerHexChar(c)
  {
  }

  lemma DivModSixteen(a: int, b: int)
    requires 0 <= a < 16 && 0 <= b < 16
    ensures (a * 16 + b) / 16 == a && (a * 16 + b) % 16 == b
  {
  }

  /** Printing the byte two hex digits denote gives the digits back in lowercase. */
  lemma Hex2OfPair(p: string)
    requires |p| == 2 && AllHex(p)
    ensures HexNumber(p) <= 255
    ensures Hex2(HexNumber(p)) == LowerHex(p)
  {
    HexNumberOfPair(p);
    assert HexValue(p[0]).Some? && HexValue(p[1]).Some?;
    var a, b := HexValue(p[0]).value, HexValue(p[1]).value;
    HexDigitOfValue(p[0]);
    HexDigitOfValue(p[1]);
    DivModSixteen(a, b);
    assert HexNumber(p) == a * 16 + b;
    assert Hex2(a * 16 + b) == [HexDigit(a), HexDigit(b)];
    assert LowerHex(p) == [LowerHexChar(p[0]), LowerHexChar(p[1])];
  }

  /** The bytes of a colour code print back as the code in lowercase. */
  lemma BytesToHexOfCode(hex: string)
    requires IsColourCode(hex)
    ensures AllHex(hex[1..3]) && AllHex(hex[3..5]) && AllHex(hex[5..7])
    ensures HexNumber(hex[1..3]) <= 255 && HexNumber(hex[3..5]) <= 255 && HexNumber(hex[5..7]) <= 255
    ensures BytesToHex(HexNumber(hex[1..3]), HexNumber(hex[3..5]), HexNumber(hex[5..7])) == "#" + LowerHex(hex[1..])
  {
    var pr, pg, pb := hex[1..3], hex[3..5], hex[5..7];
    assert AllHex(pr) && AllHex(pg) && AllHex(pb);
    Hex2OfPair(pr);
    Hex2OfPair(pg);
    Hex2OfPair(pb);
    assert hex[1..] == pr + pg + pb;
    assert LowerHex(hex[1..]) == LowerHex(pr) + LowerHex(pg) + LowerHex(pb);
  }

  /** Printing what hex_to_rgb parses from a colour code gives the same
      colour code, in lowercase. */
  lemma RgbToHexOfHexToRgb(hex: string)
    requires IsColourCode(hex)
    ensures HexToRgb(hex).Ok?
    ensures var c := HexToRgb(hex).value;
      RgbToHex(c.red, c.green, c.blue) == "#" + LowerHex(hex[1..])
  {
    HexToRgbOfCode(hex);
    ChannelByteOfByteFraction(HexNumber(hex[1..3]));
    ChannelByteOfByteFraction(HexNumber(hex[3..5]));
    ChannelByteOfByteFraction(HexNumber(hex[5..7]));
    PrintBytes(hex, HexToRgb(hex).value);
  }

  lemma PrintBytes(hex: string, c: RgbColor)
    requires IsColourCode(hex)
    requires AllHex(hex[1..3]) && AllHex(hex[3..5]) && AllHex(hex[5..7])
    requires ChannelByte(c.red) == HexNumber(hex[1..3])
    requires ChannelByte(c.green) == HexNumber(hex[3..5])
    requires ChannelByte(c.blue) == HexNumber(hex[5..7])
    ensures RgbToHex(c.red, c.green, c.blue) == "#" + LowerHex(hex[1..])
  {
    BytesToHexOfCode(hex);
  }

  // ---------------------------------------------------------------------------
  // Points and EMU

  const EmuPerPoint: int := 12700

  /** points_to_emu: int(points * 12700). */
  function PointsToEmu(points: real): (e: int)
    ensures points >= 0.0 ==> e >= 0
  {
    Trunc(points * EmuPerPoint as real)
  }

  /** emu_to_points: emu / 12700 as true division. */
  function EmuToPoints(emu: real): (p: real)
    ensures p * EmuPerPoint as real == emu
  {
    emu / EmuPerPoint as real
  }

  /** A whole number of points converts to EMU and back exactly. */
  lemma PointsEmuRoundTrip(p: int)
    ensures PointsToEmu(p as real) == p * EmuPerPoint
    ensures EmuToPoints(PointsToEmu(p as real) as real) == p as real
  {
  }

  /** A whole number of EMU converts to points and back exactly. */
  lemma EmuPointsRoundTrip(e: int)
    ensures PointsToEmu(EmuToPoints(e as real)) == e
  {
    assert EmuToPoints(e as real) * EmuPerPoint as real == e as real;
  }

  lemma EmuExamples()
    ensures PointsToEmu(1.0) == 12700 && PointsToEmu(10.0) == 127000 && PointsToEmu(72.0) == 914400
    ensures EmuToPoints(914400.0) == 72.0
  {
  }

  // ---------------------------------------------------------------------------
  // Page size

  function Magnitude(d: Option<Dimension>): real
  {
    match d
    case None => 0.0
    case Some(dim) => dim.magnitude.GetOr(0.0)
  }

  predicate IsEmu(d: Option<Dimension>)
  {
    d.Some? && d.value.unit == Some("EMU")
  }

  /** One dimension of get_page_size: the magnitude (0 when missing), divided
      by 12700 only when its unit is 'EMU'. */
  function PointSize(d: Option<Dimension>): (p: real)
    ensures IsEmu(d) ==> PointsToEmu(p) == Trunc(Magnitude(d)) && p * 12700.0 == Magnitude(d)
    ensures !IsEmu(d) ==> p == Magnitude(d)
  {
    if IsEmu(d) then EmuToPoints(Magnitude(d)) else Magnitude(d)
  }

  /** get_page_size: {'width': ..., 'height': ...} in points. */
  function PageSize(p: Presentation): (real, real)
  {
    (PointSize(p.width), PointSize(p.height))
  }

  /** A 10-inch slide width, 9144000 EMU, is 720 points; a missing page size is 0 by 0. */
  lemma PageSizeExamples(slides: seq<Slide>)
    ensures PageSize(Presentation(slides, [], [], Some(Dimension(Some(9144000.0), Some("EMU"))), None)) == (720.0, 0.0)
    ensures PageSize(Presentation(slides, [], [], Some(Dimension(Some(720.0), Some("PT"))), Some(Dimension(None, Some("EMU"))))) == (720.0, 0.0)
  {
  }
}
