/** The two denoising routes of server/app.py: `POST /denoise` (audio in the
    request body) and `POST /denoise/s3` (audio in object storage). The
    scratch directories, whether the default model file exists, the
    external processes and the object store are parameters. */
module Routes {
  import opened Text
  import opened S3Uri
  import opened Commands
  import opened Pipeline

  /** The model the denoiser is given: a truthy request value wins, then the
      configured default if that file exists, otherwise none. */
  function ResolveModel(requested: Option<string>, default: string, defaultExists: bool): Option<string>
  {
    if Truthy(requested) then requested
    else if defaultExists then Some(default)
    else None
  }

  /** Precedence as the denoiser sees it: it is handed a model argument
      exactly when one was requested or the default exists (and is named),
      and a requested model always beats the default. */
  lemma ModelPrecedence(rnnoise: string, src: string, dst: string,
                        requested: Option<string>, default: string, defaultExists: bool)
    ensures var argv := DenoiseArgv(rnnoise, src, dst, ResolveModel(requested, default, defaultExists));
      (|argv| == 4 <==> Truthy(requested) || (defaultExists && default != "")) &&
      (Truthy(requested) ==> argv[3] == requested.value) &&
      (!Truthy(requested) && |argv| == 4 ==> argv[3] == default)
  {
    DenoiseArgvShape(rnnoise, src, dst, ResolveModel(requested, default, defaultExists));
  }

  const OctetStream: string := "application/octet-stream"

  /** The content type of the direct route's reply, chosen by the
      lower-cased output format. */
  function MediaType(format: string): string
  {
    var token := Lower(format);
    if token == "wav" then "audio/wav"
    else if token == "mp3" then "audio/mpeg"
    else if token == "flac" then "audio/flac"
    else OctetStream
  }

  /** The reply is labelled as audio only for `wav`, `mp3` and `flac`, in
      any letter case, and those are formats the encoder table knows, so
      an audio label never sits on a fallback encoding or on raw PCM. */
  lemma MediaTypeCases(format: string)
    ensures MediaType(format) == MediaType(Lower(format))
    ensures MediaType(format) != OctetStream <==> Lower(format) in {"wav", "mp3", "flac"}
    ensures MediaType(format) != OctetStream ==> Lower(format) in CodecTable && !IsRaw(format)
    ensures MediaType(format) == "audio/wav" ==> CodecFor(format) == "pcm_s16le"
    ensures MediaType(format) == "audio/mpeg" ==> CodecFor(format) == "libmp3lame"
    ensures MediaType(format) == "audio/flac" ==> CodecFor(format) == "flac"
  {
    LowerIdempotent(format);
  }

  /** Why a request failed. */
  datatype Cause =
    | UnsupportedMediaType            // the body is not declared as octet-stream
    | EmptyBody
    | BadUri(uriError: UriError)
    | StageFailed(stageError: StageError)
    | StorageFailed(failure: StoreFailure)
    | MissingOutput                   // reading or uploading a file the pipeline did not leave

  datatype HttpError = HttpError(status: int, cause: Cause)

  /** What the object store reports when a transfer fails: a `ClientError`
      (detail prefixed "S3 error:") or any other exception. */
  datatype StoreFailure = ClientError | OtherFailure

  /** Downloading the object at a location. */
  type Fetch = Location -> Result<Bytes, StoreFailure>

  /** Uploading bytes to a location: `None` when the upload succeeded. */
  type Publish = (Location, Bytes) -> Option<StoreFailure>

  /** The direct route's reply. */
  datatype Audio = Audio(content: Bytes, mediaType: string)

  /** The header check: Python's substring test on the content type, which
      is empty when the header is absent. */
  predicate DeclaresOctetStream(contentType: Option<string>)
  {
    Contains(if contentType.Some? then contentType.value else "", OctetStream)
  }

  /** `output_format` of the direct route: the query value as given, even
      when empty, else "raw". */
  function DirectFormat(formatParam: Option<string>): string
  {
    if formatParam.Some? then formatParam.value else "raw"
  }

  /** `denoise_direct` after the busy check. `routeTmp` is the route's
      scratch directory, `processTmp` the one `_process_audio` makes; the
      trace lists the pipeline stages started. */
  method DenoiseDirect(cfg: Config, contentType: Option<string>, modelParam: Option<string>,
                       formatParam: Option<string>, body: Bytes, defaultModelExists: bool,
                       routeTmp: string, processTmp: string, files0: FileStore, exec: Exec)
    returns (response: Result<Audio, HttpError>, trace: seq<StageRun>)
    ensures !DeclaresOctetStream(contentType) ==>
      response == Failure(HttpError(415, UnsupportedMediaType)) && trace == []
    ensures DeclaresOctetStream(contentType) && body == [] ==>
      response == Failure(HttpError(400, EmptyBody)) && trace == []
    ensures DeclaresOctetStream(contentType) && body != [] ==>
      var inputPath, outputPath := Join(routeTmp, "input.pcm"), Join(routeTmp, "output");
      var o := RunPlan(Plan(cfg, processTmp, inputPath, outputPath,
                            ResolveModel(modelParam, cfg.defaultModel, defaultModelExists),
                            DirectFormat(formatParam)),
                       files0[inputPath := body], exec);
      trace == o.trace &&
      (o.error.Some? ==> response == Failure(HttpError(500, StageFailed(o.error.value)))) &&
      (o.error.None? && outputPath !in o.files ==> response == Failure(HttpError(500, MissingOutput))) &&
      (o.error.None? && outputPath in o.files ==>
        response == Success(Audio(o.files[outputPath], MediaType(DirectFormat(formatParam)))))
  {
    trace := [];
    if !Contains(if contentType.Some? then contentType.value else "", OctetStream) {
      return Failure(HttpError(415, UnsupportedMediaType)), trace;
    }
    var model := ResolveModel(modelParam, cfg.defaultModel, defaultModelExists);
    var format := if formatParam.Some? then formatParam.value else "raw";
    if body == [] {
      return Failure(HttpError(400, EmptyBody)), trace;
    }
    var inputPath := Join(routeTmp, "input.pcm");
    var outputPath := Join(routeTmp, "output");
    var files := files0[inputPath := body];
    var error;
    trace, files, error := ProcessAudio(cfg, processTmp, inputPath, outputPath, model, format, files, exec);
    if error.Some? {
      return Failure(HttpError(500, StageFailed(error.value))), trace;
    }
    if outputPath !in files {
      return Failure(HttpError(500, MissingOutput)), trace;
    }
    response := Success(Audio(files[outputPath], MediaType(format)));
  }

  /** The direct route stores the body under a `.pcm` name, so its pipeline
      never decodes: it denoises the body as raw PCM, then copies or encodes. */
  lemma DirectNeverDecodes(cfg: Config, routeTmp: string, processTmp: string,
                           model: Option<string>, format: string)
    ensures var plan := Plan(cfg, processTmp, Join(routeTmp, "input.pcm"), Join(routeTmp, "output"), model, format);
      |plan| == 2 && plan[0] == Denoise(DenoiseArgv(cfg.rnnoiseBin, Join(routeTmp, "input.pcm"), Join(processTmp, "output.pcm"), model))
  {
    var inputPath := Join(routeTmp, "input.pcm");
    assert inputPath[|inputPath| - 4..] == inputPath[|inputPath| - 9..][5..];
    PlanShape(cfg, processTmp, inputPath, Join(routeTmp, "output"), model, format);
  }

  /** The storage route's input is stored under a name without extension,
      so its pipeline always decodes first. */
  lemma S3AlwaysDecodes(cfg: Config, routeTmp: string, processTmp: string,
                        model: Option<string>, format: string)
    ensures var plan := Plan(cfg, processTmp, Join(routeTmp, "input"), Join(routeTmp, "output"), model, format);
      |plan| == 3 && plan[0] == Decode(DecodeArgv(cfg.ffmpegBin, Join(routeTmp, "input"), Join(processTmp, "input.pcm")))
  {
    StoredInputNeedsDecode(routeTmp);
    PlanShape(cfg, processTmp, Join(routeTmp, "input"), Join(routeTmp, "output"), model, format);
  }

  /** The body of a storage request. */
  datatype DenoiseRequest = DenoiseRequest(
    inputUri: string, outputUri: string, modelUri: Option<string>, outputFormat: Option<string>)

  /** The acknowledgement: the URIs echoed, and the format used. */
  datatype Ack = Ack(status: string, input: string, output: string, outputFormat: string)

  /** The call of `_process_audio` the storage route made, and its outcome. */
  datatype ProcessCall = ProcessCall(
    input: string, output: string, model: Option<string>, format: string, before: FileStore, outcome: Outcome)

  /** What the storage route did, in the order listed: downloads started,
      the pipeline run, the upload started. */
  datatype Activity = Activity(
    downloads: seq<(Location, string)>, processed: Option<ProcessCall>, uploaded: Option<(Location, Bytes)>)

  const Idle: Activity := Activity([], None, None)

  /** `req.output_format or "raw"`. */
  function S3Format(req: DenoiseRequest): string
  {
    if Truthy(req.outputFormat) then req.outputFormat.value else "raw"
  }

  /** The model the storage route hands the denoiser when the model URI
      parses: the downloaded copy, else the default if it exists. */
  function S3Model(req: DenoiseRequest, cfg: Config, defaultModelExists: bool, routeTmp: string): Option<string>
  {
    ResolveModel(if Truthy(req.modelUri) then Some(Join(routeTmp, "model.bin")) else None,
                 cfg.defaultModel, defaultModelExists)
  }

  /** The model step of `denoise_s3`, inside its `try`: download the model
      named by a truthy model URI (a malformed one is a server error here),
      else fall back to the default if it exists. */
  method FetchModel(cfg: Config, req: DenoiseRequest, defaultModelExists: bool,
                    routeTmp: string, files0: FileStore, fetch: Fetch)
    returns (model: Result<Option<string>, HttpError>, downloads: seq<(Location, string)>, files: FileStore)
    ensures !Truthy(req.modelUri) ==>
      model == Success(if defaultModelExists then Some(cfg.defaultModel) else None) &&
      downloads == [] && files == files0
    ensures Truthy(req.modelUri) && ParseS3Uri(req.modelUri.value).Failure? ==>
      model == Failure(HttpError(500, BadUri(ParseS3Uri(req.modelUri.value).error))) && downloads == []
    ensures Truthy(req.modelUri) && ParseS3Uri(req.modelUri.value).Success? ==>
      var loc, path := ParseS3Uri(req.modelUri.value).value, Join(routeTmp, "model.bin");
      downloads == [(loc, path)] &&
      (fetch(loc).Failure? ==> model == Failure(HttpError(500, StorageFailed(fetch(loc).error)))) &&
      (fetch(loc).Success? ==> model == Success(Some(path)) && files == files0[path := fetch(loc).value])
    ensures model.Success? ==> model.value == S3Model(req, cfg, defaultModelExists, routeTmp)
    ensures model.Failure? ==> model.error.status == 500
  {
    downloads, files := [], files0;
    if req.modelUri.Some? && req.modelUri.value != "" {
      var modelParsed := ParseS3Uri(req.modelUri.value);
      if modelParsed.Failure? {
        return Failure(HttpError(500, BadUri(modelParsed.error))), downloads, files;
      }
      var modelPath := Join(routeTmp, "model.bin");
      downloads := [(modelParsed.value, modelPath)];
      var modelBytes := fetch(modelParsed.value);
      if modelBytes.Failure? {
        return Failure(HttpError(500, StorageFailed(modelBytes.error))), downloads, files;
      }
      files := files[modelPath := modelBytes.value];
      model := Success(Some(modelPath));
    } else if defaultModelExists {
      model := Success(Some(cfg.defaultModel));
    } else {
      model := Success(None);
    }
  }

  /** The storage route's input name has no `.pcm` or `.raw` extension. */
  lemma StoredInputNeedsDecode(routeTmp: string)
    ensures NeedsDecode(Join(routeTmp, "input"))
  {
    var inputPath := Join(routeTmp, "input");
    assert inputPath[|inputPath| - 5..] == "input";
    assert inputPath[|inputPath| - 4..] == "nput";
  }

  /** The processing step of `denoise_s3`: `_process_audio` on the
      downloaded input, which it decodes first. */
  method ProcessStored(cfg: Config, processTmp: string, inputPath: string, outputPath: string,
                       model: Option<string>, format: string, files: FileStore, exec: Exec)
    returns (call: ProcessCall)
    requires NeedsDecode(inputPath)
    ensures call.input == inputPath && call.output == outputPath && call.model == model && call.format == format
    ensures call.before == files
    ensures call.outcome == RunPlan(Plan(cfg, processTmp, inputPath, outputPath, model, format), files, exec)
    ensures call.outcome.trace != [] && call.outcome.trace[0].stage.Decode?
  {
    PlanShape(cfg, processTmp, inputPath, outputPath, model, format);
    RunPlanTrace(Plan(cfg, processTmp, inputPath, outputPath, model, format), files, exec);
    var trace, after, error := ProcessAudio(cfg, processTmp, inputPath, outputPath, model, format, files, exec);
    call := ProcessCall(inputPath, outputPath, model, format, files, Outcome(trace, after, error));
  }

  /** How a run of `_process_audio` ends the storage route: a failed stage
      is a server error and nothing is uploaded; so is a run that left no
      output file; otherwise exactly the output file is uploaded to
      `destination`, and the route fails exactly when that upload does. */
  predicate Concluded(call: ProcessCall, destination: Location, publish: Publish,
                      uploaded: Option<(Location, Bytes)>, failure: Option<HttpError>)
  {
    var o := call.outcome;
    (o.error.Some? ==> failure == Some(HttpError(500, StageFailed(o.error.value))) && uploaded.None?) &&
    (o.error.None? && call.output !in o.files ==> failure == Some(HttpError(500, MissingOutput)) && uploaded.None?) &&
    (o.error.None? && call.output in o.files ==>
      uploaded == Some((destination, o.files[call.output])) &&
      failure == (match publish(destination, o.files[call.output])
                  case None => None
                  case Some(f) => Some(HttpError(500, StorageFailed(f)))))
  }

  /** The error a response carries, if any. */
  function FailureOf<T>(response: Result<T, HttpError>): Option<HttpError>
  {
    if response.Success? then None else Some(response.error)
  }

  /** The end of `denoise_s3`'s `try`: process the downloaded input, then
      upload the result only if processing succeeded and left it. */
  method ProcessAndPublish(cfg: Config, processTmp: string, inputPath: string, outputPath: string,
                           model: Option<string>, format: string, files: FileStore, exec: Exec,
                           destination: Location, publish: Publish)
    returns (failure: Option<HttpError>, call: ProcessCall, uploaded: Option<(Location, Bytes)>)
    requires NeedsDecode(inputPath)
    ensures call.input == inputPath && call.output == outputPath && call.model == model && call.format == format
    ensures call.before == files
    ensures call.outcome == RunPlan(Plan(cfg, processTmp, inputPath, outputPath, model, format), files, exec)
    ensures call.outcome.trace != [] && call.outcome.trace[0].stage.Decode?
    ensures Concluded(call, destination, publish, uploaded, failure)
  {
    call := ProcessStored(cfg, processTmp, inputPath, outputPath, model, format, files, exec);
    uploaded := None;
    if call.outcome.error.Some? {
      return Some(HttpError(500, StageFailed(call.outcome.error.value))), call, uploaded;
    }
    if outputPath !in call.outcome.files {
      return Some(HttpError(500, MissingOutput)), call, uploaded;
    }
    var result := call.outcome.files[outputPath];
    uploaded := Some((destination, result));
    var published := publish(destination, result);
    failure := if published.Some? then Some(HttpError(500, StorageFailed(published.value))) else None;
  }

  /** What the `try` of `denoise_s3` does once both URIs have parsed, from
      the source location to the destination location. */
  predicate Transferred(cfg: Config, req: DenoiseRequest, source: Location, destination: Location,
                        defaultModelExists: bool, routeTmp: string, processTmp: string, files0: FileStore,
                        exec: Exec, fetch: Fetch, publish: Publish,
                        response: Result<Ack, HttpError>, activity: Activity)
  {
    var inputPath, outputPath, modelPath := Join(routeTmp, "input"), Join(routeTmp, "output"), Join(routeTmp, "model.bin");
    // every failure from here on is a server error
    (response.Failure? ==> response.error.status == 500) &&
    // the input is downloaded first, the model, if any, second
    1 <= |activity.downloads| <= 2 &&
    activity.downloads[0] == (source, inputPath) &&
    (|activity.downloads| == 2 ==>
      Truthy(req.modelUri) && ParseS3Uri(req.modelUri.value).Success? &&
      activity.downloads[1] == (ParseS3Uri(req.modelUri.value).value, modelPath)) &&
    // a failed input download stops the route
    (fetch(source).Failure? ==>
      response == Failure(HttpError(500, StorageFailed(fetch(source).error))) &&
      |activity.downloads| == 1 && activity.processed.None?) &&
    // a malformed model URI is reported after the input download
    (fetch(source).Success? && Truthy(req.modelUri) && ParseS3Uri(req.modelUri.value).Failure? ==>
      response == Failure(HttpError(500, BadUri(ParseS3Uri(req.modelUri.value).error))) &&
      |activity.downloads| == 1 && activity.processed.None?) &&
    // a failed model download stops the route too
    (fetch(source).Success? && Truthy(req.modelUri) && ParseS3Uri(req.modelUri.value).Success? &&
     fetch(ParseS3Uri(req.modelUri.value).value).Failure? ==>
      response == Failure(HttpError(500, StorageFailed(fetch(ParseS3Uri(req.modelUri.value).value).error))) &&
      |activity.downloads| == 2 && activity.processed.None?) &&
    // once both downloads succeed, the input is always processed
    (fetch(source).Success? &&
     (Truthy(req.modelUri) ==>
        ParseS3Uri(req.modelUri.value).Success? && fetch(ParseS3Uri(req.modelUri.value).value).Success?) ==>
      activity.processed.Some?) &&
    // processing runs the plan on the stored input, which it decodes, with the
    // downloaded model (else the default) and `output_format or "raw"`; the
    // downloads are the only files added to the store
    (activity.processed.Some? ==>
      fetch(source).Success? &&
      (Truthy(req.modelUri) ==>
        ParseS3Uri(req.modelUri.value).Success? && fetch(ParseS3Uri(req.modelUri.value).value).Success?) &&
      var call := activity.processed.value;
      |activity.downloads| == (if Truthy(req.modelUri) then 2 else 1) &&
      call.input == inputPath && call.output == outputPath &&
      call.model == S3Model(req, cfg, defaultModelExists, routeTmp) && call.format == S3Format(req) &&
      call.before == StoredFiles(req, source, routeTmp, files0, fetch) &&
      call.input in call.before && call.before[call.input] == fetch(source).value &&
      call.outcome == RunPlan(Plan(cfg, processTmp, call.input, call.output, call.model, call.format), call.before, exec) &&
      call.outcome.trace != [] && call.outcome.trace[0].stage.Decode?) &&
    // the run decides the upload and the response
    (activity.processed.Some? ==>
      Concluded(activity.processed.value, destination, publish, activity.uploaded, FailureOf(response))) &&
    (activity.processed.None? ==> activity.uploaded.None? && response.Failure?) &&
    // success means the output was uploaded, and the reply echoes the request
    (response.Success? ==>
      activity.uploaded.Some? &&
      response.value == Ack("success", req.inputUri, req.outputUri, S3Format(req)))
  }

  /** The downloads the route made before processing: the input, then the
      model when a truthy model URI names one. */
  function StoredDownloads(req: DenoiseRequest, source: Location, routeTmp: string): seq<(Location, string)>
    requires Truthy(req.modelUri) ==> ParseS3Uri(req.modelUri.value).Success?
  {
    [(source, Join(routeTmp, "input"))] +
    (if Truthy(req.modelUri) then [(ParseS3Uri(req.modelUri.value).value, Join(routeTmp, "model.bin"))] else [])
  }

  /** The file store after both downloads: the input, then the model when
      one was downloaded, written over the files already present. */
  function StoredFiles(req: DenoiseRequest, source: Location, routeTmp: string, files0: FileStore, fetch: Fetch): FileStore
    requires fetch(source).Success?
    requires Truthy(req.modelUri) ==>
      ParseS3Uri(req.modelUri.value).Success? && fetch(ParseS3Uri(req.modelUri.value).value).Success?
  {
    var withInput := files0[Join(routeTmp, "input") := fetch(source).value];
    if Truthy(req.modelUri)
    then withInput[Join(routeTmp, "model.bin") := fetch(ParseS3Uri(req.modelUri.value).value).value]
    else withInput
  }

  /** A run on the downloaded files, concluded and answered, is a transfer. */
  lemma ProcessedTransfer(cfg: Config, req: DenoiseRequest, source: Location, destination: Location,
                          defaultModelExists: bool, routeTmp: string, processTmp: string, files0: FileStore,
                          exec: Exec, fetch: Fetch, publish: Publish,
                          response: Result<Ack, HttpError>, activity: Activity)
    requires fetch(source).Success?
    requires Truthy(req.modelUri) ==>
      ParseS3Uri(req.modelUri.value).Success? && fetch(ParseS3Uri(req.modelUri.value).value).Success?
    requires activity.downloads == StoredDownloads(req, source, routeTmp)
    requires activity.processed.Some?
    requires var call := activity.processed.value;
      call.input == Join(routeTmp, "input") && call.output == Join(routeTmp, "output") &&
      call.model == S3Model(req, cfg, defaultModelExists, routeTmp) && call.format == S3Format(req) &&
      call.before == StoredFiles(req, source, routeTmp, files0, fetch) &&
      call.outcome == RunPlan(Plan(cfg, processTmp, call.input, call.output, call.model, call.format), call.before, exec) &&
      call.outcome.trace != [] && call.outcome.trace[0].stage.Decode?
    requires Concluded(activity.processed.value, destination, publish, activity.uploaded, FailureOf(response))
    requires response.Success? ==> response.value == Ack("success", req.inputUri, req.outputUri, S3Format(req))
    ensures Transferred(cfg, req, source, destination, defaultModelExists, routeTmp, processTmp, files0,
                        exec, fetch, publish, response, activity)
  {
    var inputPath := Join(routeTmp, "input");
    var modelPath := Join(routeTmp, "model.bin");
    assert inputPath[|inputPath| - 1] == 't' && modelPath[|modelPath| - 1] == 'n';
  }

  /** The `try` of `denoise_s3` once both URIs have parsed. */
  method Transfer(cfg: Config, req: DenoiseRequest, source: Location, destination: Location,
                  defaultModelExists: bool, routeTmp: string, processTmp: string, files0: FileStore,
                  exec: Exec, fetch: Fetch, publish: Publish)
    returns (response: Result<Ack, HttpError>, activity: Activity)
    ensures Transferred(cfg, req, source, destination, defaultModelExists, routeTmp, processTmp, files0,
                        exec, fetch, publish, response, activity)
  {
    var inputPath := Join(routeTmp, "input");
    var outputPath := Join(routeTmp, "output");
    activity := Activity([(source, inputPath)], None, None);
    var input := fetch(source);
    if input.Failure? {
      return Failure(HttpError(500, StorageFailed(input.error))), activity;
    }
    var files := files0[inputPath := input.value];

    var model, modelDownloads;
    model, modelDownloads, files := FetchModel(cfg, req, defaultModelExists, routeTmp, files, fetch);
    activity := activity.(downloads := activity.downloads + modelDownloads);
    if model.Failure? {
      return Failure(model.error), activity;
    }

    assert files == StoredFiles(req, source, routeTmp, files0, fetch);
    assert activity.downloads == StoredDownloads(req, source, routeTmp);

    var format := if req.outputFormat.Some? && req.outputFormat.value != "" then req.outputFormat.value else "raw";
    StoredInputNeedsDecode(routeTmp);
    var failure, call, uploaded := ProcessAndPublish(cfg, processTmp, inputPath, outputPath, model.value, format,
                                                     files, exec, destination, publish);
    activity := activity.(processed := Some(call), uploaded := uploaded);
    response := if failure.Some? then Failure(failure.value) else Success(Ack("success", req.inputUri, req.outputUri, format));
    ProcessedTransfer(cfg, req, source, destination, defaultModelExists, routeTmp, processTmp, files0,
                      exec, fetch, publish, response, activity);
  }

  /** `denoise_s3` after the busy check. */
  method DenoiseS3(cfg: Config, req: DenoiseRequest, defaultModelExists: bool,
                   routeTmp: string, processTmp: string, files0: FileStore,
                   exec: Exec, fetch: Fetch, publish: Publish)
    returns (response: Result<Ack, HttpError>, activity: Activity)
    // a malformed input or output URI is the client's error, caught before any transfer
    ensures (response.Failure? && response.error.status == 400) <==>
      ParseS3Uri(req.inputUri).Failure? || ParseS3Uri(req.outputUri).Failure?
    ensures ParseS3Uri(req.inputUri).Failure? ==>
      response == Failure(HttpError(400, BadUri(ParseS3Uri(req.inputUri).error))) && activity == Idle
    ensures ParseS3Uri(req.inputUri).Success? && ParseS3Uri(req.outputUri).Failure? ==>
      response == Failure(HttpError(400, BadUri(ParseS3Uri(req.outputUri).error))) && activity == Idle
    // every later failure is a server error
    ensures response.Failure? ==> response.error.status == 400 || response.error.status == 500
    // once both parse, the route transfers from the input location to the output location
    ensures ParseS3Uri(req.inputUri).Success? && ParseS3Uri(req.outputUri).Success? ==>
      Transferred(cfg, req, ParseS3Uri(req.inputUri).value, ParseS3Uri(req.outputUri).value,
                  defaultModelExists, routeTmp, processTmp, files0, exec, fetch, publish, response, activity)
  {
    var inputParsed := ParseS3Uri(req.inputUri);
    if inputParsed.Failure? {
      return Failure(HttpError(400, BadUri(inputParsed.error))), Idle;
    }
    var outputParsed := ParseS3Uri(req.outputUri);
    if outputParsed.Failure? {
      return Failure(HttpError(400, BadUri(outputParsed.error))), Idle;
    }
    response, activity := Transfer(cfg, req, inputParsed.value, outputParsed.value, defaultModelExists,
                                   routeTmp, processTmp, files0, exec, fetch, publish);
  }
}
