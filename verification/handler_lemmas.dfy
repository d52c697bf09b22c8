/** End-to-end consequences of the handlers: which stage a failure message
    names, what a successful response points at, and which effects a request
    that stops early never reaches. */
module HandlerLemmas {
  import opened Wrappers
  import opened Json
  import opened Invocation
  import opened Engine
  import opened Batch
  import opened Requests
  import opened Handler

  /** A `/process` failure message names the first stage that failed:
      creation passes its error through, a failed download, an unsupported
      operation and a failing ffmpeg run each get their own wording. */
  lemma ProcessFailureMessages(req: VideoProcessRequest, env: Env)
    ensures var r := HandleProcess(req, env);
      && (env.tempDir.Failure? ==> r.error == Some(env.tempDir.error))
      && (env.tempDir.Success? && env.fetch(req.videoUrl, InputPath(env.tempDir.value, env.uuids(0))).Failure? ==>
            r.error == Some("Failed to download video: "
                            + env.fetch(req.videoUrl, InputPath(env.tempDir.value, env.uuids(0))).error))
      && (env.tempDir.Success? && env.fetch(req.videoUrl, InputPath(env.tempDir.value, env.uuids(0))).Success?
          && req.operation !in SupportedOperations ==>
            r.error == Some("Failed to process video: " + UnsupportedOperation(req.operation).Message()))
  {
  }

  /** A `/process` request whose ffmpeg run exits unsuccessfully reports
      ffmpeg's stderr behind the processing prefix. */
  lemma ProcessFfmpegFailure(req: VideoProcessRequest, env: Env, dir: Path, args: seq<string>)
    requires env.tempDir == Success(dir)
    requires env.fetch(req.videoUrl, InputPath(dir, env.uuids(0))).Success?
    requires Compile(InputPath(dir, env.uuids(0)), OutputPath(dir, env.uuids(1)), req.operation,
                     req.parameters, env.display) == Success(args)
    requires env.ffmpeg(args).Exited? && !env.ffmpeg(args).success
    ensures HandleProcess(req, env).error == Some("Failed to process video: " + FfmpegFailed(env.ffmpeg(args).stderr).Message())
  {
    var step := ProcessSingle(dir, env.uuids(1), InputPath(dir, env.uuids(0)), req.operation, req.parameters,
                              env.display, env.ffmpeg);
    assert step.invocation == Some(args);
  }

  /** A successful `/process` request ran a supported operation through
      ffmpeg successfully, and its URL names the uploaded copy of that
      step's output file. */
  lemma ProcessSuccess(req: VideoProcessRequest, env: Env)
    requires '/' !in env.uuids(1)
    ensures var r := HandleProcess(req, env);
      r.success ==>
        && env.tempDir.Success?
        && req.operation in SupportedOperations
        && (var args := Compile(InputPath(env.tempDir.value, env.uuids(0)), OutputPath(env.tempDir.value, env.uuids(1)),
                                req.operation, req.parameters, env.display).value;
            env.ffmpeg(args).Exited? && env.ffmpeg(args).success)
        && r.videoUrl == Some(PublicUrlBase + env.uuids(2) + "_output_" + env.uuids(1) + ".mp4")
  {
    var r := HandleProcess(req, env);
    var o := ProcessOutcome(req, env);
    assert r == Respond(o, req.operation, "Failed to process video: ", env.elapsedMs);
    if r.success {
      assert o.Completed? && r.videoUrl == Some(o.url);
      var dir := env.tempDir.value;
      ProcessCompleted(req, env);
      var step := ProcessSingle(dir, env.uuids(1), InputPath(dir, env.uuids(0)), req.operation, req.parameters,
                                env.display, env.ffmpeg);
      assert step.result.Success?;
      UploadedOutputUrl(dir, env.uuids(2), env.uuids(1));
    }
  }

  /** What a completed `/process` outcome went through. */
  lemma ProcessCompleted(req: VideoProcessRequest, env: Env)
    ensures var o := ProcessOutcome(req, env);
      o.Completed? ==>
        && env.tempDir.Success?
        && var dir := env.tempDir.value;
           var output := SingleStage(env, req, dir, InputPath(dir, env.uuids(0)));
           output.Success? && UploadResult(env, env.uuids(2), output.value) == Success(o.url)
  {
    var o := ProcessOutcome(req, env);
    if o.Completed? {
      var dir := env.tempDir.value;
      assert DownloadVideo(env, dir, env.uuids(0), req.videoUrl) == Success(InputPath(dir, env.uuids(0)));
    }
  }

  /** A `/process` request whose step succeeded but whose upload failed
      reports the upload's error behind the upload prefix. */
  lemma ProcessUploadFailureMessage(req: VideoProcessRequest, env: Env, dir: Path, output: Path)
    requires env.tempDir == Success(dir)
    requires env.fetch(req.videoUrl, InputPath(dir, env.uuids(0))).Success?
    requires ProcessSingle(dir, env.uuids(1), InputPath(dir, env.uuids(0)), req.operation, req.parameters,
                           env.display, env.ffmpeg).result == Success(output)
    requires UploadResult(env, env.uuids(2), output).Failure?
    ensures HandleProcess(req, env).error
         == Some("Failed to upload result: " + UploadResult(env, env.uuids(2), output).error)
  {
  }

  /** An unsupported operation never reaches ffmpeg: the response is the
      same whatever the ffmpeg oracle would have done. */
  lemma UnsupportedNeverRunsFfmpeg(req: VideoProcessRequest, env: Env, other: Ffmpeg)
    requires req.operation !in SupportedOperations
    ensures HandleProcess(req, env) == HandleProcess(req, env.(ffmpeg := other))
  {
  }

  /** A failed download ends the request before processing and upload: the
      response does not depend on ffmpeg or on the copy into the public
      directory. */
  lemma DownloadFailureStopsEarly(req: VideoProcessRequest, env: Env, other: Ffmpeg,
                                  otherCopy: (Path, Path) -> Result<(), string>)
    requires env.tempDir.Success?
    requires env.fetch(req.videoUrl, InputPath(env.tempDir.value, env.uuids(0))).Failure?
    ensures HandleProcess(req, env) == HandleProcess(req, env.(ffmpeg := other, copy := otherCopy))
  {
  }

  /** A `/batch` failure before processing: creation passes its error
      through, a failed download gets its own prefix. */
  lemma BatchFailureMessages(req: BatchProcessRequest, env: Env)
    ensures var r := HandleBatch(req, env);
      && (env.tempDir.Failure? ==> r.error == Some(env.tempDir.error))
      && (env.tempDir.Success? && env.fetch(req.videoUrl, InputPath(env.tempDir.value, env.uuids(0))).Failure? ==>
            r.error == Some("Failed to download video: "
                            + env.fetch(req.videoUrl, InputPath(env.tempDir.value, env.uuids(0))).error))
  {
  }

  /** A `/batch` request whose steps all succeeded but whose upload failed
      reports the upload's error behind the upload prefix. */
  lemma BatchUploadFailureMessage(req: BatchProcessRequest, env: Env, dir: Path, output: Path)
    requires env.tempDir == Success(dir)
    requires env.fetch(req.videoUrl, InputPath(dir, env.uuids(0))).Success?
    requires ProcessBatchOperations(InputPath(dir, env.uuids(0)), req.operations, 1,
                                    StepOf(dir, env.uuids, env.display, env.ffmpeg)).outcome == Success(output)
    requires UploadResult(env, env.uuids(1 + |req.operations|), output).Failure?
    ensures HandleBatch(req, env).error
         == Some("Failed to upload result: " + UploadResult(env, env.uuids(1 + |req.operations|), output).error)
  {
  }

  /** A `/batch` failure in the processing stage carries the batch wording
      in front of the failing step's error. */
  lemma BatchProcessFailureMessage(req: BatchProcessRequest, env: Env)
    requires env.tempDir.Success?
    requires env.fetch(req.videoUrl, InputPath(env.tempDir.value, env.uuids(0))).Success?
    ensures var dir := env.tempDir.value;
      var run := ProcessBatchOperations(InputPath(dir, env.uuids(0)), req.operations, 1,
                                        StepOf(dir, env.uuids, env.display, env.ffmpeg));
      run.outcome.Failure? ==>
        HandleBatch(req, env).error == Some("Failed to process batch operations: " + run.outcome.error.Message())
  {
  }

  /** A successful `/batch` request with operations ran every step, and its
      URL names the uploaded copy of the last step's output. */
  lemma BatchSuccess(req: BatchProcessRequest, env: Env)
    requires |req.operations| > 0
    requires '/' !in env.uuids(|req.operations|)
    ensures var r := HandleBatch(req, env);
      r.success ==>
        && env.tempDir.Success?
        && (var dir := env.tempDir.value;
            var run := ProcessBatchOperations(InputPath(dir, env.uuids(0)), req.operations, 1,
                                              StepOf(dir, env.uuids, env.display, env.ffmpeg));
            |run.calls| == |req.operations|)
        && r.videoUrl == Some(PublicUrlBase + env.uuids(1 + |req.operations|) + "_output_"
                              + env.uuids(|req.operations|) + ".mp4")
  {
    var r := HandleBatch(req, env);
    var o := BatchOutcome(req, env);
    assert r == Respond(o, BatchOperationName, "Failed to process batch operations: ", env.elapsedMs);
    if r.success {
      assert o.Completed? && r.videoUrl == Some(o.url);
      var dir := env.tempDir.value;
      var n := |req.operations|;
      var input := InputPath(dir, env.uuids(0));
      BatchCompleted(req, env);
      BatchStageOutput(req, env, dir, input);
      UploadedOutputUrl(dir, env.uuids(1 + n), env.uuids(n));
    }
  }

  /** The URL of the uploaded copy of an `output_<uuid>` file. */
  lemma UploadedOutputUrl(dir: Path, upload: string, uuid: string)
    requires '/' !in uuid
    ensures PublicUrlBase + upload + "_" + FileName(OutputPath(dir, uuid))
         == PublicUrlBase + upload + "_output_" + uuid + ".mp4"
  {
    FileNameOfJoin(dir, "output_" + uuid + ".mp4");
    assert PublicUrlBase + upload + "_" + ("output_" + uuid + ".mp4")
        == PublicUrlBase + upload + "_output_" + uuid + ".mp4";
  }

  /** What a completed `/batch` outcome went through. */
  lemma BatchCompleted(req: BatchProcessRequest, env: Env)
    ensures var o := BatchOutcome(req, env);
      o.Completed? ==>
        && env.tempDir.Success?
        && var dir := env.tempDir.value;
           var output := BatchStage(env, req, dir, InputPath(dir, env.uuids(0)));
           output.Success? && UploadResult(env, env.uuids(1 + |req.operations|), output.value) == Success(o.url)
  {
    var o := BatchOutcome(req, env);
    if o.Completed? {
      var dir := env.tempDir.value;
      var input := InputPath(dir, env.uuids(0));
      assert DownloadVideo(env, dir, env.uuids(0), req.videoUrl) == Success(input);
    }
  }

  /** A successful processing stage of a non-empty batch ran every step and
      ends on the last step's output file. */
  lemma BatchStageOutput(req: BatchProcessRequest, env: Env, dir: Path, input: Path)
    requires |req.operations| > 0
    ensures var output := BatchStage(env, req, dir, input);
      var run := ProcessBatchOperations(input, req.operations, 1, StepOf(dir, env.uuids, env.display, env.ffmpeg));
      output.Success? ==>
        |run.calls| == |req.operations| && output.value == OutputPath(dir, env.uuids(|req.operations|))
  {
    BatchWritesOutputPaths(dir, env.uuids, 1, input, req.operations, env.display, env.ffmpeg);
  }

  /** An empty batch runs no step and uploads the downloaded file itself. */
  lemma EmptyBatchUploadsInput(req: BatchProcessRequest, env: Env)
    requires req.operations == []
    requires '/' !in env.uuids(0)
    ensures var r := HandleBatch(req, env);
      r.success ==> r.videoUrl == Some(PublicUrlBase + env.uuids(1) + "_input_" + env.uuids(0) + ".mp4")
  {
    var r := HandleBatch(req, env);
    if r.success {
      var dir := env.tempDir.value;
      FileNameOfJoin(dir, "input_" + env.uuids(0) + ".mp4");
      assert PublicUrlBase + env.uuids(1) + "_" + ("input_" + env.uuids(0) + ".mp4")
          == PublicUrlBase + env.uuids(1) + "_input_" + env.uuids(0) + ".mp4";
    }
  }
}
