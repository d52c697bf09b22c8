# Video processor: argument compiler, batch chain and handler outcomes

A Dafny model of the deterministic core of the Rust video-processing
service `video-processor-rust`. Besides a `/health` probe and the static
`/public` file service, its router has two processing handlers:

- `/process` downloads a video, applies one named operation by running
  ffmpeg, and publishes the result.
- `/batch` downloads a video, applies a list of operations in order, and
  publishes the result.

The model covers three pieces of `src/main.rs`:

- **The argument compiler** of `process_single_operation`:
  - The inputs are an operation name and a JSON parameter map.
  - The result is either the ffmpeg argument list `-i <input> <options> -y <output>` or the "Unsupported operation" error.
  - Each parameter is read through the typed lookups `as_f64`, `as_i64` and `as_str`, each with its own default.
  - Modules: `Json` (parameters and lookups), `Decimal` (the `i64` rendering used by the crop filter), `Text` (splitting and joining), and `Invocation` (the templates, the framing, and the read-back functions `Unframe`, `Flags`, `ArgumentOf`, `ParseCrop` and `ParseDrawtext`).
  - `InvocationLemmas` states what every operation's options mean through those read-back functions.
- **One processing step and the batch chain** (`Engine`, `StableSort`, `Batch`):
  - A step names its output `output_<uuid>.mp4`, compiles the arguments and hands them to an ffmpeg oracle.
  - `process_batch_operations` stably sorts the operations by `order`.
  - It threads the current file through the steps and stops at the first failure.
  - After each successful step it deletes the file that step read, unless that file is the original.
  - The chain is generic over the step (`Stage<E>`). `Batch.StepOf` instantiates it with the real step.
- **The handler outcome machine** of `process_video` and `process_batch` (`Requests`, `Handler`, `HandlerLemmas`):
  - The stages run in order: create processor, download, process, upload.
  - The first failure decides the error text.
  - Only a request that passes all four stages gets `success = true` and a URL.

The effects are parameters of the model. `Handler.Env` holds the temporary
directory, the successive UUIDs (indexed by generation order), fetching,
the ffmpeg subprocess, `Display` of `f64`, the creation of the public
directory, the file copy and the elapsed time.

Facts about the code that the model keeps as they are:

- Parameters are never range-checked.
- An unknown `applyFilter` name falls back to the generic
  `eq=contrast=1.1:brightness=0.05` graph instead of failing.
- Brightness is rendered as `brightness / 100`.
- The only named filters are `cinematic` and `vintage`.
- A failed batch leaves the file it was holding on disk; only the drop of the
  temporary directory, which is not modelled, removes it.
- The batch handler's processing prefix is "Failed to process batch
  operations: ", not the single-operation wording.

## Model

| member | source | states |
|---|---|---|
| Json.AsF64 | video-processor-rust/src/main.rs:150-152 | every JSON number (integer or not) is a float parameter and nothing else is |
| Json.AsI64 | video-processor-rust/src/main.rs:182-185 | only JSON integers inside the `i64` range are integer parameters; `2.0` or a large `u64` fall back to the default |
| Json.AsStr | video-processor-rust/src/main.rs:191-196 | only JSON strings are string parameters, and the parameter is the string's own content |
| Invocation.OperationArgs | video-processor-rust/src/main.rs:148-227 | fails exactly for names outside the six supported operations, with `UnsupportedOperation(name)`; otherwise the options are flag/value pairs over `-vf -af -ss -t` with at most one `-vf` |
| Invocation.Frame | video-processor-rust/src/main.rs:137-229 | the framed list reads back as exactly its input, options and output |
| Invocation.Compile | video-processor-rust/src/main.rs:133-229 | a compiled list starts with `-i <input>`, ends with `-y <output>`, holds the operation's options strictly between; an unsupported name is the only error |
| InvocationLemmas.OptionsIgnorePaths | video-processor-rust/src/main.rs:148-227 | the options depend on the operation and its parameters, never on the input or output path |
| InvocationLemmas.BrightnessOptions | video-processor-rust/src/main.rs:149-156 | one `-vf eq=brightness=` filter rendering brightness / 100, brightness defaulting to 0 |
| InvocationLemmas.SpeedOptions | video-processor-rust/src/main.rs:157-166 | `-vf` then `-af`; the video filter scales timestamps by 1 / speed, the audio tempo is speed itself, default 1 |
| InvocationLemmas.TrimOptions | video-processor-rust/src/main.rs:167-179 | always `-ss <start>` (default 0); `-t <end - start>` exactly when `endTime` is a number; never a video filter |
| InvocationLemmas.CropOptions | video-processor-rust/src/main.rs:181-188 | exactly one `-vf` whose crop box reads back as width, height, x, y in that order, each defaulting on its own to 1920, 1080, 0, 0 |
| InvocationLemmas.CropFilterReadsBack | video-processor-rust/src/main.rs:187 | a `crop=W:H:X:Y` filter parses back to the four integers it was built from, negative ones included |
| InvocationLemmas.CropDefaults | video-processor-rust/src/main.rs:182-188 | with no parameters the crop options are `-vf crop=1920:1080:0:0` |
| InvocationLemmas.TextPositions | video-processor-rust/src/main.rs:198-202 | "top" gives `50`, "bottom" gives `h-th-50`, every other position `(h-th)/2`, each in both directions |
| InvocationLemmas.TextOptions | video-processor-rust/src/main.rs:190-205 | one `-vf` drawtext filter from which the text (default "Sample Text") and the y expression of the position (default centre) read back |
| InvocationLemmas.DrawtextReadsBack | video-processor-rust/src/main.rs:204 | a drawtext filter parses back to its text and y expression when neither holds a single quote |
| InvocationLemmas.QuotedTextDoesNotReadBack | video-processor-rust/src/main.rs:204 | the text is spliced in unescaped: "it's" no longer reads back from its filter |
| InvocationLemmas.FilterOptions | video-processor-rust/src/main.rs:207-222 | always one of the three fixed graphs; cinematic for "cinematic" or no name, vintage for "vintage", the generic graph for any other name, each in both directions |
| Decimal.ParseIntOfIntToString | video-processor-rust/src/main.rs:187 | the decimal rendering of an `i64` is unambiguous: parsing it gives back the integer |
| Engine.RunFfmpeg | video-processor-rust/src/main.rs:105-125 | success exactly when ffmpeg spawned and exited successfully, with its stdout; a failing exit carries stderr; a spawn error its message |
| Engine.InputIsNeverOutput | video-processor-rust/src/main.rs:73-134 | a downloaded `input_` file is never a step's `output_` file |
| Engine.OutputPathInjective | video-processor-rust/src/main.rs:133-134 | distinct identifiers name distinct output files |
| Engine.ProcessSingle | video-processor-rust/src/main.rs:127-233 | an unsupported operation fails without invoking ffmpeg; otherwise ffmpeg is invoked once with the framed arguments, and the step succeeds exactly when ffmpeg does, returning its `output_<uuid>` path |
| StableSort.SortByKey | video-processor-rust/src/main.rs:243-244 | sorted by key, a permutation of the input, and for every key the elements with that key keep their relative order |
| StableSort.StableSortIsUnique | video-processor-rust/src/main.rs:244 | any sorted sequence that keeps each key's elements in input order equals `SortByKey`, so the model agrees with any stable sort |
| Batch.Chain | video-processor-rust/src/main.rs:246-259 | the loop's first step reads the file it holds; with no operations left it returns that file and changes nothing |
| Batch.ChainFollowsStages | video-processor-rust/src/main.rs:246-251 | step j runs the j-th operation with the j-th step index |
| Batch.ChainIsLinked | video-processor-rust/src/main.rs:247-258 | every step but the last succeeded and its output is the next step's input |
| Batch.ChainOutcome | video-processor-rust/src/main.rs:251-261 | the first failure is the last step run and gives the error; a run with no failure ran every step and returns the last output |
| Batch.ChainRemovals | video-processor-rust/src/main.rs:253-256 | the deleted files are exactly the inputs of the successful steps that are not the original, in step order |
| Batch.OriginalNeverRemoved | video-processor-rust/src/main.rs:254 | the original is never among the deleted files |
| Batch.ChainKeepsOneIntermediate | video-processor-rust/src/main.rs:253-258 | when no step writes the original or its own input, the only intermediate left on disk is the file the loop holds |
| Batch.ProcessBatchOperations | video-processor-rust/src/main.rs:240-261 | steps follow the stable order of `order` starting on the input; empty batch returns the input; success runs every operation and returns the last output; failure stops at the failing step; the input is never deleted |
| Batch.BatchStepsAreLinked | video-processor-rust/src/main.rs:246-258 | each step reads the file the step before it wrote |
| Batch.BatchRemovals | video-processor-rust/src/main.rs:253-256 | after each successful step the batch deletes the file that step read unless it is the original, and nothing else |
| Batch.BatchWritesOutputPaths | video-processor-rust/src/main.rs:247-258 | step j writes `output_<uuid>` for the identifier generated for it; a successful batch returns the last step's file |
| Batch.BatchKeepsOneIntermediate | video-processor-rust/src/main.rs:253-258 | with distinct identifiers, among the files written by successful steps only the one the loop holds is still on disk when it stops |
| Requests.MillisAsU64 | video-processor-rust/src/main.rs:348 | `as u64` keeps the low 64 bits of the elapsed milliseconds and changes nothing below 2^64 |
| Handler.RunStages | video-processor-rust/src/main.rs:285-346 | a stage runs only if every earlier one succeeded; the outcome names the first failing stage with its error, or carries the upload's URL |
| Handler.Respond | video-processor-rust/src/main.rs:285-357 | `success`, a URL and the absence of an error coincide and hold exactly for a completed outcome; a failure's error carries its stage's prefix |
| Handler.DownloadVideo | video-processor-rust/src/main.rs:68-77 | succeeds exactly when the fetch into `input_<uuid>.mp4` succeeds, and returns that path |
| Handler.FileNameOfJoin | video-processor-rust/src/main.rs:86-89 | the file name of a path joined to a slash-free name is that name |
| Handler.UploadResult | video-processor-rust/src/main.rs:79-103 | succeeds exactly when the public directory exists or is created and the copy to `<uuid>_<file name>` succeeds; the URL serves that name |
| Handler.HandleProcess | video-processor-rust/src/main.rs:278-358 | `success` iff a URL iff no error; the response echoes the requested operation |
| Handler.HandleBatch | video-processor-rust/src/main.rs:360-436 | `success` iff a URL iff no error; the response names the operation "batch" |
| HandlerLemmas.ProcessFailureMessages | video-processor-rust/src/main.rs:285-331 | a creation failure passes its error through; a failed download and an unsupported operation get their own prefixes |
| HandlerLemmas.ProcessFfmpegFailure | video-processor-rust/src/main.rs:315-330 | an unsuccessful ffmpeg exit is reported as "Failed to process video: FFmpeg failed: " and its stderr |
| HandlerLemmas.ProcessSuccess | video-processor-rust/src/main.rs:315-357 | a successful `/process` ran a supported operation through a successful ffmpeg, and its URL names the upload of that step's `output_` file |
| HandlerLemmas.UnsupportedNeverRunsFfmpeg | video-processor-rust/src/main.rs:224-231 | with an unsupported operation the response does not depend on what ffmpeg would do |
| HandlerLemmas.DownloadFailureStopsEarly | video-processor-rust/src/main.rs:300-312 | after a failed download the response depends neither on ffmpeg nor on the upload copy |
| HandlerLemmas.ProcessUploadFailureMessage | video-processor-rust/src/main.rs:334-345 | when the step succeeded but the upload failed, `/process` reports "Failed to upload result: " and the upload's error |
| HandlerLemmas.BatchFailureMessages | video-processor-rust/src/main.rs:367-393 | a `/batch` creation failure passes its error through; a failed download gets "Failed to download video: " |
| HandlerLemmas.BatchUploadFailureMessage | video-processor-rust/src/main.rs:412-423 | when the batch succeeded but the upload failed, `/batch` reports "Failed to upload result: " and the upload's error |
| HandlerLemmas.BatchProcessFailureMessage | video-processor-rust/src/main.rs:397-408 | a failing batch reports "Failed to process batch operations: " and the failing step's error |
| HandlerLemmas.BatchStageOutput | video-processor-rust/src/main.rs:397-409 | a successful non-empty batch stage ran every step and yields the last step's `output_` file |
| HandlerLemmas.BatchSuccess | video-processor-rust/src/main.rs:397-435 | a successful non-empty `/batch` ran every operation, and its URL names the upload of the last step's output file |
| HandlerLemmas.EmptyBatchUploadsInput | video-processor-rust/src/main.rs:412-435 | a successful empty batch publishes the downloaded `input_` file itself |

## Left out

- The axum router, `main`, CORS and the static file server carry no logic beyond wiring.
- `health_check` only spawns `ffmpeg -version`.
- The HTTP download, `fs::write`, `fs::copy`, `create_dir_all` and the ffmpeg subprocess are oracles in `Handler.Env` and `Engine.Ffmpeg`.
  - Their internal behaviour is outside the program.
  - `from_utf8_lossy` of the captured streams is folded into the oracle's strings.
- UUIDs are an oracle indexed by generation order, because they are random:
  - index 0 is the download;
  - the next indices are the processing steps;
  - the last index is the upload.
  - Distinctness is assumed only where a lemma needs it (`Batch.Injective`).
- `TempDir` is an oracle result. Removing the directory on drop is not modelled, because it happens after the response is built.
- Floating-point arithmetic and `Display` of `f64` are not computed:
  - the model records which quantity is rendered (`Json.F64`);
  - the rendering is the `display` parameter, since IEEE arithmetic and shortest round-trip formatting are outside the proof.
- Timing via `Instant` is the elapsed-time parameter, and all logging is omitted, because neither affects a result.
- `Path::join` and `file_name` are modelled only for the paths the service itself builds: a directory joined to a slash-free name.
- Path normalisation and non-UTF-8 paths are not modelled.
- InvocationLemmas.TextOptions: the read-back is stated only for texts without a single quote. The source does not escape the text, so a quote breaks the filter (`QuotedTextDoesNotReadBack`).
- HandlerLemmas.ProcessSuccess: the URL is stated for identifiers without a `/`, because a UUID never contains one.
- HandlerLemmas.BatchSuccess: the URL is stated for identifiers without a `/`, for the same reason.
- The batch's per-step removals are recorded as a sequence of paths (`Batch.BatchRemovals`). The result of `remove_file` is ignored by the source, and the model treats every deletion as done.
- Batch.BatchKeepsOneIntermediate: a failing ffmpeg run is assumed to write no output file. The ffmpeg oracle has no effect on files, so a partial `output_` file that a failed run may leave behind (and that the source never removes) is not tracked.
