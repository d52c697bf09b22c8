/** The `/process` and `/batch` handlers: create a processor (its temporary
    directory), download the source, process it, upload the result; the
    first failing stage ends the request with a failure response carrying a
    stage-specific message, and only a request that passes all four stages
    gets a success response with a URL. */
module Handler {
  import opened Wrappers
  import opened Json
  import opened Invocation
  import opened Engine
  import opened Batch
  import opened Requests

  const PublicDir: string := "public/processed/"
  const PublicUrlBase: string := "http://localhost:3001/public/processed/"
  const BatchOperationName: string := "batch"

  datatype Stage = CreateProcessor | Download | Process | Upload

  /** Where a request ended: at the first failing stage with its error text,
      or with the URL of the uploaded result. */
  datatype Outcome = Failed(stage: Stage, message: string) | Completed(url: string)

  /** The four stages in order, each run only when the one before succeeded:
      creation yields the temporary directory, download the input file,
      processing the output file, upload the URL. */
  function RunStages(create: Result<Path, string>,
                     download: Path -> Result<Path, string>,
                     process: (Path, Path) -> Result<Path, string>,
                     upload: Path -> Result<string, string>): (o: Outcome)
    ensures o.Failed? && o.stage == CreateProcessor <==> create.Failure?
    ensures o.Failed? && o.stage == Download <==>
      create.Success? && download(create.value).Failure?
    ensures o.Failed? && o.stage == Process <==>
      create.Success? && download(create.value).Success?
      && process(create.value, download(create.value).value).Failure?
    ensures o.Failed? && o.stage == Upload <==>
      create.Success? && download(create.value).Success?
      && process(create.value, download(create.value).value).Success?
      && upload(process(create.value, download(create.value).value).value).Failure?
    ensures o.Completed? ==>
      && create.Success? && download(create.value).Success?
      && process(create.value, download(create.value).value).Success?
      && upload(process(create.value, download(create.value).value).value) == Success(o.url)
    ensures o.Failed? && o.stage == CreateProcessor ==> o.message == create.error
    ensures o.Failed? && o.stage == Download ==> o.message == download(create.value).error
    ensures o.Failed? && o.stage == Process ==>
      o.message == process(create.value, download(create.value).value).error
    ensures o.Failed? && o.stage == Upload ==>
      o.message == upload(process(create.value, download(create.value).value).value).error
  {
    match create
    case Failure(e) => Failed(CreateProcessor, e)
    case Success(dir) =>
      match download(dir)
      case Failure(e) => Failed(Download, e)
      case Success(input) =>
        match process(dir, input)
        case Failure(e) => Failed(Process, e)
        case Success(output) =>
          match upload(output)
          case Failure(e) => Failed(Upload, e)
          case Success(url) => Completed(url)
  }

  /** The error text of a failure response: the creation error as it is,
      the others behind their stage's prefix; `processContext` is the
      handler's own prefix for the processing stage. */
  function ErrorText(stage: Stage, processContext: string, message: string): string {
    match stage
    case CreateProcessor => message
    case Download => "Failed to download video: " + message
    case Process => processContext + message
    case Upload => "Failed to upload result: " + message
  }

  /** The response for an outcome: `success`, a URL and the absence of an
      error always agree. */
  function Respond(o: Outcome, operation: string, processContext: string, elapsedMs: nat): (r: ProcessResponse)
    ensures r.success <==> r.videoUrl.Some?
    ensures r.success <==> r.error.None?
    ensures r.success <==> o.Completed?
    ensures r.operation == operation
    ensures r.processingTimeMs == MillisAsU64(elapsedMs)
    ensures o.Completed? ==> r.videoUrl == Some(o.url)
    ensures o.Failed? ==> r.error == Some(ErrorText(o.stage, processContext, o.message))
  {
    match o
    case Completed(url) => ProcessResponse(true, Some(url), None, MillisAsU64(elapsedMs), operation)
    case Failed(stage, m) =>
      ProcessResponse(false, None, Some(ErrorText(stage, processContext, m)), MillisAsU64(elapsedMs), operation)
  }

  // ---------------------------------------------------------------------------
  // The world a request runs in

  /** The effects a request depends on, as oracles: the temporary directory
      `VideoProcessor::new` creates, the successive `Uuid::new_v4` values,
      fetching a URL into a file, the ffmpeg subprocess, `Display` of `f64`,
      making sure the public directory exists, copying a file, and the time
      elapsed when the response is built. */
  datatype Env = Env(
    tempDir: Result<Path, string>,
    uuids: nat -> string,
    fetch: (string, Path) -> Result<(), string>,
    ffmpeg: Ffmpeg,
    display: F64 -> string,
    publicDir: Result<(), string>,
    copy: (Path, Path) -> Result<(), string>,
    elapsedMs: nat)

  /** `download_video`: the source is written to `input_<uuid>.mp4`. */
  function DownloadVideo(env: Env, dir: Path, uuid: string, url: string): (r: Result<Path, string>)
    ensures r.Success? <==> env.fetch(url, InputPath(dir, uuid)).Success?
    ensures r.Success? ==> r.value == InputPath(dir, uuid)
  {
    match env.fetch(url, InputPath(dir, uuid))
    case Failure(e) => Failure(e)
    case Success(_) => Success(InputPath(dir, uuid))
  }

  /** The last component of a path. */
  function FileName(p: Path): string {
    if |p| == 0 || p[|p| - 1] == '/' then "" else FileName(p[..|p| - 1]) + [p[|p| - 1]]
  }

  lemma {:induction false} FileNameOfJoin(dir: Path, name: string)
    requires '/' !in name
    ensures FileName(PathJoin(dir, name)) == name
    decreases |name|
  {
    var p := PathJoin(dir, name);
    if |name| > 0 {
      assert p[..|p| - 1] == PathJoin(dir, name[..|name| - 1]);
      FileNameOfJoin(dir, name[..|name| - 1]);
      assert name == name[..|name| - 1] + [name[|name| - 1]];
    } else {
      assert p[|p| - 1] == '/';
    }
  }

  /** `upload_to_vercel_blob`: the file is copied into the public directory
      as `<uuid>_<file name>` and served under that name. */
  function UploadResult(env: Env, uuid: string, path: Path): (r: Result<string, string>)
    ensures r.Success? <==> env.publicDir.Success? && env.copy(path, PublicDir + uuid + "_" + FileName(path)).Success?
    ensures r.Success? ==> r.value == PublicUrlBase + uuid + "_" + FileName(path)
  {
    match env.publicDir
    case Failure(e) => Failure(e)
    case Success(_) =>
      var unique := uuid + "_" + FileName(path);
      assert PublicDir + unique == PublicDir + uuid + "_" + FileName(path);
      assert PublicUrlBase + unique == PublicUrlBase + uuid + "_" + FileName(path);
      match env.copy(path, PublicDir + unique)
      case Failure(e) => Failure(e)
      case Success(_) => Success(PublicUrlBase + unique)
  }

  // ---------------------------------------------------------------------------
  // The two handlers

  /** The processing stage of `/process`: one step with the second identifier. */
  function SingleStage(env: Env, req: VideoProcessRequest, dir: Path, input: Path): Result<Path, string> {
    var step := ProcessSingle(dir, env.uuids(1), input, req.operation, req.parameters, env.display, env.ffmpeg);
    match step.result
    case Failure(e) => Failure(e.Message())
    case Success(out) => Success(out)
  }

  function ProcessOutcome(req: VideoProcessRequest, env: Env): Outcome {
    RunStages(env.tempDir,
              (dir: Path) => DownloadVideo(env, dir, env.uuids(0), req.videoUrl),
              (dir: Path, input: Path) => SingleStage(env, req, dir, input),
              (out: Path) => UploadResult(env, env.uuids(2), out))
  }

  /** `process_video`: the response echoes the requested operation, and
      success, URL and absent error coincide. */
  function HandleProcess(req: VideoProcessRequest, env: Env): (r: ProcessResponse)
    ensures r.success <==> r.videoUrl.Some?
    ensures r.success <==> r.error.None?
    ensures r.operation == req.operation
  {
    Respond(ProcessOutcome(req, env), req.operation, "Failed to process video: ", env.elapsedMs)
  }

  /** The processing stage of `/batch`: the whole chain, with step
      identifiers from the second one on. */
  function BatchStage(env: Env, req: BatchProcessRequest, dir: Path, input: Path): Result<Path, string> {
    var run := ProcessBatchOperations(input, req.operations, 1, StepOf(dir, env.uuids, env.display, env.ffmpeg));
    match run.outcome
    case Failure(e) => Failure(e.Message())
    case Success(out) => Success(out)
  }

  function BatchOutcome(req: BatchProcessRequest, env: Env): Outcome {
    RunStages(env.tempDir,
              (dir: Path) => DownloadVideo(env, dir, env.uuids(0), req.videoUrl),
              (dir: Path, input: Path) => BatchStage(env, req, dir, input),
              (out: Path) => UploadResult(env, env.uuids(1 + |req.operations|), out))
  }

  /** `process_batch`: the response names the operation "batch", and success,
      URL and absent error coincide. */
  function HandleBatch(req: BatchProcessRequest, env: Env): (r: ProcessResponse)
    ensures r.success <==> r.videoUrl.Some?
    ensures r.success <==> r.error.None?
    ensures r.operation == BatchOperationName
  {
    Respond(BatchOutcome(req, env), BatchOperationName, "Failed to process batch operations: ", env.elapsedMs)
  }
}
