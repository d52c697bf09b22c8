/** What each operation's options mean, stated through the read-back
    functions of `Invocation` rather than through the templates themselves. */
module InvocationLemmas {
  import opened Wrappers
  import opened Json
  import opened Decimal
  import opened Text
  import opened Invocation

  /** The options depend on the operation and its parameters only: two
      compilations that differ in their paths agree between the frame. */
  lemma OptionsIgnorePaths(input1: Path, output1: Path, input2: Path, output2: Path,
                           operation: string, p: Params, display: F64 -> string)
    ensures Compile(input1, output1, operation, p, display).Success?
        <==> Compile(input2, output2, operation, p, display).Success?
    ensures Compile(input1, output1, operation, p, display).Success? ==>
      Unframe(Compile(input1, output1, operation, p, display).value).value.options
      == Unframe(Compile(input2, output2, operation, p, display).value).value.options
  {
  }

  /** adjustBrightness: one video filter, `eq=brightness=` followed by the
      rendering of brightness / 100 (brightness defaulting to 0). */
  lemma BrightnessOptions(p: Params, display: F64 -> string)
    ensures var options := OperationArgs("adjustBrightness", p, display).value;
      var level := GetF64(p, "brightness").GetOr(Literal(0.0));
      && Flags(options) == ["-vf"]
      && Between(options[1], "eq=brightness=", "") == Some(display(Quotient(level, Literal(100.0))))
  {
    var level := GetF64(p, "brightness").GetOr(Literal(0.0));
    var v := display(Quotient(level, Literal(100.0)));
    BetweenOfTemplate("eq=brightness=", v, "");
    assert "eq=brightness=" + v + "" == "eq=brightness=" + v;
  }

  /** adjustSpeed: the video filter scales timestamps by 1 / speed while the
      audio filter uses speed itself (speed defaulting to 1). */
  lemma SpeedOptions(p: Params, display: F64 -> string)
    ensures var options := OperationArgs("adjustSpeed", p, display).value;
      var speed := GetF64(p, "speed").GetOr(Literal(1.0));
      && Flags(options) == ["-vf", "-af"]
      && Between(options[1], "setpts=", "*PTS") == Some(display(Quotient(Literal(1.0), speed)))
      && Between(options[3], "atempo=", "") == Some(display(speed))
  {
    var speed := GetF64(p, "speed").GetOr(Literal(1.0));
    FlagsOfTwoPairs(OperationArgs("adjustSpeed", p, display).value);
    BetweenOfTemplate("setpts=", display(Quotient(Literal(1.0), speed)), "*PTS");
    BetweenOfTemplate("atempo=", display(speed), "");
    assert "atempo=" + display(speed) + "" == "atempo=" + display(speed);
  }

  /** trimVideo: always a seek to startTime (default 0); a duration of
      endTime - startTime exactly when endTime is a number; never a filter. */
  lemma TrimOptions(p: Params, display: F64 -> string)
    ensures var options := OperationArgs("trimVideo", p, display).value;
      var start := GetF64(p, "startTime").GetOr(Literal(0.0));
      var end := GetF64(p, "endTime");
      && Flags(options) == (if end.Some? then ["-ss", "-t"] else ["-ss"])
      && "-vf" !in Flags(options)
      && ArgumentOf(options, "-ss") == Some(display(start))
      && (end.Some? ==> ArgumentOf(options, "-t") == Some(display(Difference(end.value, start))))
      && (end.None? ==> ArgumentOf(options, "-t") == None)
  {
    var options := OperationArgs("trimVideo", p, display).value;
    if |options| == 4 {
      FlagsOfTwoPairs(options);
    }
  }

  /** No integer rendering contains the field separator of a crop filter. */
  lemma NoColonInInteger(i: int)
    ensures ':' !in IntToString(i)
  {
  }

  /** cropVideo: exactly one video filter, which reads back as width, height,
      x, y in that order, each field falling back independently to 1920,
      1080, 0 and 0 when it is absent or not an i64. */
  lemma {:induction false} CropOptions(p: Params, display: F64 -> string)
    ensures var options := OperationArgs("cropVideo", p, display).value;
      && Flags(options) == ["-vf"]
      && ParseCrop(options[1]) == Some(CropBox(
           GetI64(p, "width").GetOr(DefaultCropWidth),
           GetI64(p, "height").GetOr(DefaultCropHeight),
           GetI64(p, "x").GetOr(0),
           GetI64(p, "y").GetOr(0)))
  {
    var w, h := GetI64(p, "width").GetOr(DefaultCropWidth), GetI64(p, "height").GetOr(DefaultCropHeight);
    var x, y := GetI64(p, "x").GetOr(0), GetI64(p, "y").GetOr(0);
    CropFilterReadsBack(w, h, x, y);
  }

  /** A crop filter reads back as the four integers it was built from. */
  lemma {:induction false} CropFilterReadsBack(w: int, h: int, x: int, y: int)
    ensures ParseCrop(CropFilter(w, h, x, y)) == Some(CropBox(w, h, x, y))
  {
    var parts := [IntToString(w), IntToString(h), IntToString(x), IntToString(y)];
    var fields := Join(parts, ':');
    NoColonInInteger(w);
    NoColonInInteger(h);
    NoColonInInteger(x);
    NoColonInInteger(y);
    SplitJoin(parts, ':');
    BetweenOfTemplate("crop=", fields, "");
    assert "crop=" + fields + "" == CropFilter(w, h, x, y);
    ParseIntOfIntToString(w);
    ParseIntOfIntToString(h);
    ParseIntOfIntToString(x);
    ParseIntOfIntToString(y);
  }

  /** cropVideo with no parameters crops to a 1920x1080 box at the origin. */
  lemma CropDefaults(display: F64 -> string)
    ensures OperationArgs("cropVideo", map[], display) == Success(["-vf", "crop=1920:1080:0:0"])
  {
    var p: Params := map[];
    assert GetI64(p, "x") == None && GetI64(p, "y") == None;
    assert GetI64(p, "width") == None && GetI64(p, "height") == None;
    DefaultCropFilter();
  }

  lemma DefaultCropFilter()
    ensures CropFilter(DefaultCropWidth, DefaultCropHeight, 0, 0) == "crop=1920:1080:0:0"
  {
    RendersDefaultWidth();
    RendersDefaultHeight();
    assert IntToString(0) == "0";
    JoinOfFour("1920", "1080", "0", "0");
    DefaultCropText();
  }

  lemma DefaultCropText()
    ensures "crop=" + ("1920" + ":" + "1080" + ":" + "0" + ":" + "0") == "crop=1920:1080:0:0"
  {
  }

  lemma RendersDefaultWidth()
    ensures IntToString(DefaultCropWidth) == "1920"
  {
    assert NatToString(1) == "1";
    assert NatToString(19) == "19";
    assert NatToString(192) == "192";
  }

  lemma RendersDefaultHeight()
    ensures IntToString(DefaultCropHeight) == "1080"
  {
    assert NatToString(1) == "1";
    assert NatToString(10) == "10";
    assert NatToString(108) == "108";
  }

  lemma JoinOfFour(a: string, b: string, c: string, d: string)
    ensures Join([a, b, c, d], ':') == a + ":" + b + ":" + c + ":" + d
  {
    assert [c, d][1..] == [d];
    assert Join([c, d], ':') == c + ":" + d;
    assert [b, c, d][1..] == [c, d];
    assert Join([b, c, d], ':') == b + ":" + (c + ":" + d);
    assert [a, b, c, d][1..] == [b, c, d];
    assert Join([a, b, c, d], ':') == a + ":" + (b + ":" + (c + ":" + d));
  }

  /** The y expression chosen for a position: "top" and "bottom" pick their
      own, every other value (and a missing or non-string one) centres. */
  lemma TextPositions(position: string)
    ensures TextY(position) in {TextYTop, TextYBottom, TextYCenter}
    ensures TextY(position) == TextYTop <==> position == "top"
    ensures TextY(position) == TextYBottom <==> position == "bottom"
    ensures TextY(position) == TextYCenter <==> position != "top" && position != "bottom"
  {
  }

  /** addText: one drawtext filter from which the text (default "Sample
      Text") and the y expression for the position (default centre) read
      back, provided the text holds no single quote. */
  lemma {:induction false} TextOptions(p: Params, display: F64 -> string)
    ensures var options := OperationArgs("addText", p, display).value;
      var text := GetStr(p, "text").GetOr(DefaultText);
      var position := GetStr(p, "position").GetOr(DefaultPosition);
      && Flags(options) == ["-vf"]
      && ('\'' !in text ==> ParseDrawtext(options[1]) == Some((text, TextY(position))))
  {
    var text := GetStr(p, "text").GetOr(DefaultText);
    var position := GetStr(p, "position").GetOr(DefaultPosition);
    if '\'' !in text {
      assert '\'' !in TextY(position);
      DrawtextReadsBack(text, TextY(position));
    }
  }

  lemma {:induction false} DrawtextReadsBack(text: string, y: string)
    requires '\'' !in text && '\'' !in y
    ensures ParseDrawtext(DrawtextFilter(text, y)) == Some((text, y))
  {
    var tail := DrawtextTail + y;
    NoQuoteInDrawtextTail();
    assert '\'' !in tail;
    ReadsAfterHead(text, tail, y);
    SplitsAtQuote(text, tail);
    ReadsAfterTail(y);
    ParseDrawtextOfParts(DrawtextFilter(text, y), text + "'" + tail, text, tail, y);
  }

  lemma ReadsAfterHead(text: string, tail: string, y: string)
    requires tail == DrawtextTail + y
    ensures Between(DrawtextFilter(text, y), DrawtextHead, "") == Some(text + "'" + tail)
  {
    assert DrawtextFilter(text, y) == DrawtextHead + (text + "'" + tail) + "";
    BetweenOfTemplate(DrawtextHead, text + "'" + tail, "");
  }

  lemma SplitsAtQuote(text: string, tail: string)
    requires '\'' !in text && '\'' !in tail
    ensures Split(text + "'" + tail, '\'') == [text, tail]
  {
    assert text + "'" + tail == text + ['\''] + tail;
    SplitAtFirstSeparator(text, tail, '\'');
    SplitWithoutSeparator(tail, '\'');
  }

  lemma ReadsAfterTail(y: string)
    ensures Between(DrawtextTail + y, DrawtextTail, "") == Some(y)
  {
    BetweenOfTemplate(DrawtextTail, y, "");
    assert DrawtextTail + y + "" == DrawtextTail + y;
  }

  /** `ParseDrawtext` in terms of the three pieces it reads. */
  lemma ParseDrawtextOfParts(filter: string, rest: string, text: string, tail: string, y: string)
    requires Between(filter, DrawtextHead, "") == Some(rest)
    requires Split(rest, '\'') == [text, tail]
    requires Between(tail, DrawtextTail, "") == Some(y)
    ensures ParseDrawtext(filter) == Some((text, y))
  {
  }

  lemma NoQuoteInDrawtextTail()
    ensures '\'' !in DrawtextTail
  {
  }

  /** The text is spliced in unquoted: a text holding a single quote no
      longer reads back from the filter it was placed in. */
  lemma QuotedTextDoesNotReadBack()
    ensures ParseDrawtext(DrawtextFilter("it's", TextYCenter)) != Some(("it's", TextYCenter))
  {
    var tail := DrawtextTail + TextYCenter;
    ReadsAfterHead("it's", tail, TextYCenter);
    QuotedTextSplitsEarly(tail);
  }

  lemma QuotedTextSplitsEarly(tail: string)
    ensures Split("it's" + "'" + tail, '\'')[0] == "it"
  {
    assert "it's" + "'" + tail == "it" + ['\''] + ("s'" + tail);
    SplitAtFirstSeparator("it", "s'" + tail, '\'');
  }

  /** applyFilter: one video filter, always one of the three fixed graphs;
      "vintage" and "cinematic" select their own, any other name the
      generic one, and a missing name means "cinematic". */
  lemma FilterOptions(p: Params, display: F64 -> string)
    ensures var options := OperationArgs("applyFilter", p, display).value;
      var name := GetStr(p, "filter");
      && Flags(options) == ["-vf"]
      && options[1] in {CinematicFilter, VintageFilter, GenericFilter}
      && (options[1] == CinematicFilter <==> name.None? || name == Some("cinematic"))
      && (options[1] == VintageFilter <==> name == Some("vintage"))
      && (options[1] == GenericFilter <==> name.Some? && name.value != "cinematic" && name.value != "vintage")
  {
  }
}
