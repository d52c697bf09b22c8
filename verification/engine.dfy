/** One processing step of a `VideoProcessor`: naming its temporary files,
    compiling the operation and handing the arguments to ffmpeg. The ffmpeg
    subprocess is an oracle from argument list to process outcome. */
module Engine {
  import opened Wrappers
  import opened Json
  import opened Invocation

  /** What `Command::output()` yields: a spawn failure, or the exit status
      (`success` is `status.success()`) with the captured streams. */
  datatype ProcessOutput =
    | SpawnError(message: string)
    | Exited(success: bool, stdout: string, stderr: string)

  type Ffmpeg = seq<string> -> ProcessOutput

  /** The errors `process_single_operation` can return. */
  datatype ProcessError =
    | Unsupported(operation: string)
    | SpawnFailed(message: string)
    | FfmpegFailed(stderr: string)
  {
    /** The `anyhow` error text shown by `{}`. */
    function Message(): string {
      match this
      case Unsupported(op) => UnsupportedOperation(op).Message()
      case SpawnFailed(m) => m
      case FfmpegFailed(e) => "FFmpeg failed: " + e
    }
  }

  /** `run_ffmpeg`: success exactly when the process was spawned and exited
      successfully; a failing exit carries the captured stderr. */
  function RunFfmpeg(ffmpeg: Ffmpeg, args: seq<string>): (r: Result<string, ProcessError>)
    ensures r.Success? <==> ffmpeg(args).Exited? && ffmpeg(args).success
    ensures r.Success? ==> r.value == ffmpeg(args).stdout
    ensures ffmpeg(args).Exited? && !ffmpeg(args).success ==> r == Failure(FfmpegFailed(ffmpeg(args).stderr))
    ensures ffmpeg(args).SpawnError? ==> r == Failure(SpawnFailed(ffmpeg(args).message))
  {
    match ffmpeg(args)
    case SpawnError(m) => Failure(SpawnFailed(m))
    case Exited(ok, out, err) => if ok then Success(out) else Failure(FfmpegFailed(err))
  }

  // ---------------------------------------------------------------------------
  // Temporary file names

  /** `dir.join(name)` for a relative `name`. */
  function PathJoin(dir: Path, name: string): Path {
    dir + "/" + name
  }

  /** The file `download_video` writes: `input_<uuid>.mp4` in the temp directory. */
  function InputPath(dir: Path, uuid: string): Path {
    PathJoin(dir, "input_" + uuid + ".mp4")
  }

  /** The file one processing step writes: `output_<uuid>.mp4` in the temp directory. */
  function OutputPath(dir: Path, uuid: string): Path {
    PathJoin(dir, "output_" + uuid + ".mp4")
  }

  /** A downloaded input is never mistaken for a step's output. */
  lemma InputIsNeverOutput(dir: Path, u: string, v: string)
    ensures InputPath(dir, u) != OutputPath(dir, v)
  {
    assert InputPath(dir, u)[|dir| + 1] == 'i';
    assert OutputPath(dir, v)[|dir| + 1] == 'o';
  }

  /** Distinct identifiers give distinct output files. */
  lemma OutputPathInjective(dir: Path, u: string, v: string)
    ensures OutputPath(dir, u) == OutputPath(dir, v) ==> u == v
  {
    if OutputPath(dir, u) == OutputPath(dir, v) {
      var n := |dir| + 8;
      assert OutputPath(dir, u)[n..n + |u|] == u;
      assert OutputPath(dir, v)[n..n + |v|] == v;
    }
  }

  // ---------------------------------------------------------------------------
  // One step

  /** What one call of `process_single_operation` did: its result and the
      argument list it passed to ffmpeg, if it got that far. */
  datatype StepRun = StepRun(result: Result<Path, ProcessError>, invocation: Option<seq<string>>)

  /** `process_single_operation`: the output goes to a fresh `output_<uuid>`
      file; an unsupported operation fails before ffmpeg is invoked; otherwise
      ffmpeg is invoked once with the compiled arguments and the step
      succeeds exactly when ffmpeg does. */
  function ProcessSingle(dir: Path, uuid: string, input: Path, operation: string, p: Params,
                         display: F64 -> string, ffmpeg: Ffmpeg): (run: StepRun)
    ensures run.invocation.None? <==> operation !in SupportedOperations
    ensures run.invocation.None? ==> run.result == Failure(Unsupported(operation))
    ensures run.invocation.Some? ==>
      && Unframe(run.invocation.value) == Some(Framed(input, OperationArgs(operation, p, display).value, OutputPath(dir, uuid)))
      && (run.result.Success? <==> ffmpeg(run.invocation.value).Exited? && ffmpeg(run.invocation.value).success)
    ensures run.result.Success? ==> run.result.value == OutputPath(dir, uuid)
  {
    var output := OutputPath(dir, uuid);
    match Compile(input, output, operation, p, display)
    case Failure(e) => StepRun(Failure(Unsupported(e.operation)), None)
    case Success(args) =>
      match RunFfmpeg(ffmpeg, args)
      case Failure(e) => StepRun(Failure(e), Some(args))
      case Success(_) => StepRun(Success(output), Some(args))
  }
}
