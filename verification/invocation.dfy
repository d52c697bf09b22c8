/** The argument list `process_single_operation` hands to ffmpeg: a fixed
    template per operation name, filled from the request's parameter map with
    a per-field default, framed as `-i <input> … -y <output>`. */
module Invocation {
  import opened Wrappers
  import opened Json
  import opened Decimal
  import opened Text

  type Path = string

  const SupportedOperations: set<string> :=
    {"adjustBrightness", "adjustSpeed", "trimVideo", "cropVideo", "addText", "applyFilter"}

  /** The option flags an operation may emit between the input and the output. */
  const OptionFlags: set<string> := {"-vf", "-af", "-ss", "-t"}

  const CinematicFilter: string :=
    "eq=contrast=1.2:brightness=0.1:saturation=1.1,curves=all='0/0 0.5/0.58 1/1'"
  const VintageFilter: string :=
    "eq=contrast=0.9:brightness=0.05:saturation=0.8,colorchannelmixer=.393:.769:.189:0:.349:.686:.168:0:.272:.534:.131"
  const GenericFilter: string := "eq=contrast=1.1:brightness=0.05"

  const DefaultCropWidth: int := 1920
  const DefaultCropHeight: int := 1080
  const DefaultText: string := "Sample Text"
  const DefaultPosition: string := "center"
  const DefaultFilter: string := "cinematic"

  const TextYTop: string := "50"
  const TextYBottom: string := "h-th-50"
  const TextYCenter: string := "(h-th)/2"

  const DrawtextHead: string := "drawtext=text='"
  const DrawtextTail: string := ":fontcolor=white:fontsize=24:x=(w-tw)/2:y="

  datatype CompileError = UnsupportedOperation(operation: string) {
    /** The text of the `anyhow` error. */
    function Message(): string {
      "Unsupported operation: " + operation
    }
  }

  /** The vertical drawtext position for a `position` parameter. */
  function TextY(position: string): string {
    if position == "top" then TextYTop
    else if position == "bottom" then TextYBottom
    else TextYCenter
  }

  /** The filter graph for an `applyFilter` name. */
  function NamedFilter(name: string): string {
    if name == "cinematic" then CinematicFilter
    else if name == "vintage" then VintageFilter
    else GenericFilter
  }

  /** `crop=W:H:X:Y` with each integer rendered in decimal. */
  function CropFilter(width: int, height: int, x: int, y: int): string {
    "crop=" + Join([IntToString(width), IntToString(height), IntToString(x), IntToString(y)], ':')
  }

  function DrawtextFilter(text: string, y: string): string {
    DrawtextHead + text + "'" + DrawtextTail + y
  }

  /** The operation-specific options, or the unsupported-operation error. */
  function OperationArgs(operation: string, p: Params, display: F64 -> string): (r: Result<seq<string>, CompileError>)
    ensures r.Failure? <==> operation !in SupportedOperations
    ensures r.Failure? ==> r.error == UnsupportedOperation(operation)
    ensures r.Success? ==> WellFormedOptions(r.value)
  {
    if operation == "adjustBrightness" then Success(BrightnessArgs(p, display))
    else if operation == "adjustSpeed" then Success(SpeedArgs(p, display))
    else if operation == "trimVideo" then Success(TrimArgs(p, display))
    else if operation == "cropVideo" then Success(CropArgs(p))
    else if operation == "addText" then Success(TextArgs(p))
    else if operation == "applyFilter" then Success(FilterArgs(p))
    else Failure(UnsupportedOperation(operation))
  }

  /** Flag/value pairs drawn from the option flags, with at most one video filter. */
  predicate WellFormedOptions(options: seq<string>) {
    IsOptionList(options) && multiset(Flags(options))["-vf"] <= 1
  }

  function BrightnessArgs(p: Params, display: F64 -> string): (options: seq<string>)
    ensures WellFormedOptions(options)
  {
    var level := GetF64(p, "brightness").GetOr(Literal(0.0));
    var options := ["-vf", "eq=brightness=" + display(Quotient(level, Literal(100.0)))];
    OnePair(options);
    options
  }

  function SpeedArgs(p: Params, display: F64 -> string): (options: seq<string>)
    ensures WellFormedOptions(options)
  {
    var speed := GetF64(p, "speed").GetOr(Literal(1.0));
    var options := ["-vf", "setpts=" + display(Quotient(Literal(1.0), speed)) + "*PTS",
                    "-af", "atempo=" + display(speed)];
    TwoPairs(options);
    options
  }

  function TrimArgs(p: Params, display: F64 -> string): (options: seq<string>)
    ensures WellFormedOptions(options)
  {
    var start := GetF64(p, "startTime").GetOr(Literal(0.0));
    var seek := ["-ss", display(start)];
    match GetF64(p, "endTime")
    case Some(end) =>
      var options := seek + ["-t", display(Difference(end, start))];
      TwoPairs(options);
      options
    case None =>
      OnePair(seek);
      seek
  }

  function CropArgs(p: Params): (options: seq<string>)
    ensures WellFormedOptions(options)
  {
    var x := GetI64(p, "x").GetOr(0);
    var y := GetI64(p, "y").GetOr(0);
    var width := GetI64(p, "width").GetOr(DefaultCropWidth);
    var height := GetI64(p, "height").GetOr(DefaultCropHeight);
    var options := ["-vf", CropFilter(width, height, x, y)];
    OnePair(options);
    options
  }

  function TextArgs(p: Params): (options: seq<string>)
    ensures WellFormedOptions(options)
  {
    var text := GetStr(p, "text").GetOr(DefaultText);
    var position := GetStr(p, "position").GetOr(DefaultPosition);
    var options := ["-vf", DrawtextFilter(text, TextY(position))];
    OnePair(options);
    options
  }

  function FilterArgs(p: Params): (options: seq<string>)
    ensures WellFormedOptions(options)
  {
    var options := ["-vf", NamedFilter(GetStr(p, "filter").GetOr(DefaultFilter))];
    OnePair(options);
    options
  }

  /** `-i <input> <options> -y <output>` */
  function Frame(input: Path, options: seq<string>, output: Path): (args: seq<string>)
    ensures Unframe(args) == Some(Framed(input, options, output))
  {
    ["-i", input] + options + ["-y", output]
  }

  /** The full argument list for ffmpeg, as assembled before `run_ffmpeg`. */
  function Compile(input: Path, output: Path, operation: string, p: Params, display: F64 -> string)
    : (r: Result<seq<string>, CompileError>)
    ensures r.Failure? <==> operation !in SupportedOperations
    ensures r.Failure? ==> r.error == UnsupportedOperation(operation)
    ensures r.Success? ==>
      && |r.value| >= 4
      && r.value[..2] == ["-i", input]
      && r.value[|r.value| - 2..] == ["-y", output]
      && Unframe(r.value) == Some(Framed(input, OperationArgs(operation, p, display).value, output))
  {
    var options :- OperationArgs(operation, p, display);
    Success(Frame(input, options, output))
  }

  // ---------------------------------------------------------------------------
  // Reading an argument list back

  datatype Framed = Framed(input: Path, options: seq<string>, output: Path)

  /** Splits `-i <input> … -y <output>` into its three parts. */
  function Unframe(args: seq<string>): Option<Framed> {
    if |args| >= 4 && args[0] == "-i" && args[|args| - 2] == "-y"
    then Some(Framed(args[1], args[2..|args| - 2], args[|args| - 1]))
    else None
  }

  /** An even-length list of flag/value pairs whose flags are option flags. */
  predicate IsOptionList(options: seq<string>) {
    && |options| % 2 == 0
    && forall f :: f in Flags(options) ==> f in OptionFlags
  }

  /** The flags of a flag/value list, in order. */
  function Flags(options: seq<string>): seq<string>
    requires |options| % 2 == 0
  {
    if |options| == 0 then [] else [options[0]] + Flags(options[2..])
  }

  /** The value following the first occurrence of `flag`. */
  function ArgumentOf(options: seq<string>, flag: string): Option<string>
    requires |options| % 2 == 0
  {
    if |options| == 0 then None
    else if options[0] == flag then Some(options[1])
    else ArgumentOf(options[2..], flag)
  }

  /** A single flag/value pair is an option list with at most one `-vf`. */
  lemma OnePair(options: seq<string>)
    requires |options| == 2 && options[0] in OptionFlags
    ensures IsOptionList(options) && Flags(options) == [options[0]]
    ensures multiset(Flags(options))["-vf"] <= 1
  {
    assert Flags(options[2..]) == [];
  }

  /** Two pairs with distinct flags form an option list with at most one `-vf`. */
  lemma TwoPairs(options: seq<string>)
    requires |options| == 4 && options[0] in OptionFlags && options[2] in OptionFlags
    requires options[0] != options[2]
    ensures IsOptionList(options) && Flags(options) == [options[0], options[2]]
    ensures multiset(Flags(options))["-vf"] <= 1
  {
    FlagsOfTwoPairs(options);
    assert multiset([options[0], options[2]]) == multiset{options[0], options[2]};
  }

  lemma FlagsOfTwoPairs(options: seq<string>)
    requires |options| == 4
    ensures Flags(options) == [options[0], options[2]]
  {
    assert Flags(options[2..]) == [options[2]];
  }

  datatype CropBox = CropBox(width: int, height: int, x: int, y: int)

  /** Reads `crop=W:H:X:Y` back into its four integers. */
  function ParseCrop(filter: string): Option<CropBox> {
    match Between(filter, "crop=", "")
    case None => None
    case Some(fields) =>
      var parts := Split(fields, ':');
      if |parts| != 4 then None
      else match (ParseInt(parts[0]), ParseInt(parts[1]), ParseInt(parts[2]), ParseInt(parts[3]))
        case (Some(w), Some(h), Some(x), Some(y)) => Some(CropBox(w, h, x, y))
        case _ => None
  }

  /** Reads a drawtext filter back into its text and its y expression. */
  function ParseDrawtext(filter: string): Option<(string, string)> {
    match Between(filter, DrawtextHead, "")
    case None => None
    case Some(rest) =>
      var parts := Split(rest, '\'');
      if |parts| != 2 then None
      else match Between(parts[1], DrawtextTail, "")
        case None => None
        case Some(y) => Some((parts[0], y))
  }
}
