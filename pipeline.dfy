/** `_process_audio` (server/app.py): decode the input to raw PCM unless its
    name says it already is, denoise it, then copy or encode it to the
    output. External processes are an oracle `exec` that, given an argument
    vector and the files present, yields an exit status and the files
    afterwards. */
module Pipeline {
  import opened Text
  import opened Commands

  type Bytes = seq<bv8>

  /** The files visible to the server and its child processes, by path. */
  type FileStore = map<string, Bytes>

  type Exec = (seq<string>, FileStore) -> (int, FileStore)

  /** One stage of the pipeline, with what it runs. */
  datatype Stage =
    | Decode(argv: seq<string>)    // `_convert_audio`
    | Denoise(argv: seq<string>)   // `_run_rnnoise`
    | Encode(argv: seq<string>)    // `_convert_output` with a conversion
    | Copy(src: string, dst: string)  // `_convert_output` for "raw"

  /** The exception each stage raises when it fails. */
  datatype StageError =
    | DecodeFailed(status: int)    // "ffmpeg conversion failed"
    | DenoiseFailed(status: int)   // "rnnoise failed with code"
    | EncodeFailed(status: int)    // "ffmpeg output conversion failed"
    | CopyFailed                   // the denoiser left no file to copy

  /** A stage that was started, and whether it completed. */
  datatype StageRun = StageRun(stage: Stage, ok: bool)

  /** Running one stage. */
  function Perform(stage: Stage, files: FileStore, exec: Exec): Result<FileStore, StageError>
  {
    match stage
    case Copy(src, dst) =>
      if src in files then Success(files[dst := files[src]]) else Failure(CopyFailed)
    case Decode(argv) =>
      var (status, after) := exec(argv, files);
      if Succeeded(status) then Success(after) else Failure(DecodeFailed(status))
    case Denoise(argv) =>
      var (status, after) := exec(argv, files);
      if Succeeded(status) then Success(after) else Failure(DenoiseFailed(status))
    case Encode(argv) =>
      var (status, after) := exec(argv, files);
      if Succeeded(status) then Success(after) else Failure(EncodeFailed(status))
  }

  /** The outcome of running stages in order: which were started, the files
      afterwards, and the error that stopped the run, if any. */
  datatype Outcome = Outcome(trace: seq<StageRun>, files: FileStore, error: Option<StageError>)

  /** Runs `plan` stage by stage, stopping at the first failure. */
  function RunPlan(plan: seq<Stage>, files: FileStore, exec: Exec): Outcome
    decreases |plan|
  {
    if plan == [] then Outcome([], files, None)
    else match Perform(plan[0], files, exec)
      case Failure(e) => Outcome([StageRun(plan[0], false)], files, Some(e))
      case Success(after) =>
        var rest := RunPlan(plan[1..], after, exec);
        Outcome([StageRun(plan[0], true)] + rest.trace, rest.files, rest.error)
  }

  /** The stages are started in the plan's order; every one but the last
      started completes; the run ends without error exactly when all of the
      plan was started and completed, and with the error of its last stage
      otherwise. */
  lemma {:induction false} RunPlanTrace(plan: seq<Stage>, files: FileStore, exec: Exec)
    ensures var o := RunPlan(plan, files, exec);
      |o.trace| <= |plan| &&
      (forall i :: 0 <= i < |o.trace| ==> o.trace[i].stage == plan[i]) &&
      (forall i :: 0 <= i < |o.trace| - 1 ==> o.trace[i].ok) &&
      (o.error.None? <==> |o.trace| == |plan| && forall i :: 0 <= i < |o.trace| ==> o.trace[i].ok) &&
      (o.error.Some? ==> o.trace != [] && !o.trace[|o.trace| - 1].ok)
    decreases |plan|
  {
    if plan != [] {
      var r := Perform(plan[0], files, exec);
      if r.Success? {
        RunPlanTrace(plan[1..], r.value, exec);
      }
    }
  }

  /** Whether the input must first be decoded: its path ends in neither
      `.pcm` nor `.raw` (case-sensitive, as `str.endswith`). */
  predicate NeedsDecode(inputPath: string)
  {
    !EndsWith(inputPath, ".pcm") && !EndsWith(inputPath, ".raw")
  }

  /** Whether `output_format` asks for the denoised PCM itself. */
  predicate IsRaw(format: string)
  {
    Lower(format) == "raw"
  }

  /** The stages `_process_audio` runs, in order, with scratch directory `tmp`. */
  function Plan(cfg: Config, tmp: string, inputPath: string, outputPath: string,
                model: Option<string>, format: string): seq<Stage>
  {
    var pcmInput := Join(tmp, "input.pcm");
    var pcmOutput := Join(tmp, "output.pcm");
    var decode := if NeedsDecode(inputPath) then [Decode(DecodeArgv(cfg.ffmpegBin, inputPath, pcmInput))] else [];
    var denoiseInput := if NeedsDecode(inputPath) then pcmInput else inputPath;
    var finish :=
      if IsRaw(format) then Copy(pcmOutput, outputPath)
      else Encode(EncodeArgv(cfg.ffmpegBin, pcmOutput, outputPath, CodecFor(format)));
    decode + [Denoise(DenoiseArgv(cfg.rnnoiseBin, denoiseInput, pcmOutput, model))] + [finish]
  }

  /** The file a stage reads. */
  function InputOf(stage: Stage): Option<string>
  {
    match stage
    case Copy(src, _) => Some(src)
    case Denoise(argv) => if |argv| >= 3 then Some(argv[1]) else None
    case Decode(argv) => (match Interpret(argv) case Some(call) => Some(call.input) case None => None)
    case Encode(argv) => (match Interpret(argv) case Some(call) => Some(call.input) case None => None)
  }

  /** The file a stage writes. */
  function OutputOf(stage: Stage): Option<string>
  {
    match stage
    case Copy(_, dst) => Some(dst)
    case Denoise(argv) => if |argv| >= 3 then Some(argv[2]) else None
    case Decode(argv) => (match Interpret(argv) case Some(call) => Some(call.output) case None => None)
    case Encode(argv) => (match Interpret(argv) case Some(call) => Some(call.output) case None => None)
  }

  /** The plan's shape: a decode stage exactly when the input's name is not
      `.pcm`/`.raw`, then one denoise stage, then a copy exactly when the
      format is raw and an encode with the table's codec otherwise. */
  lemma PlanShape(cfg: Config, tmp: string, inputPath: string, outputPath: string,
                  model: Option<string>, format: string)
    ensures var plan := Plan(cfg, tmp, inputPath, outputPath, model, format);
      var n := |plan|;
      n == (if NeedsDecode(inputPath) then 3 else 2) &&
      (plan[0].Decode? <==> NeedsDecode(inputPath)) &&
      (NeedsDecode(inputPath) ==> plan[0].argv == DecodeArgv(cfg.ffmpegBin, inputPath, Join(tmp, "input.pcm"))) &&
      plan[n - 2] == Denoise(DenoiseArgv(cfg.rnnoiseBin,
        (if NeedsDecode(inputPath) then Join(tmp, "input.pcm") else inputPath),
        Join(tmp, "output.pcm"), model)) &&
      (plan[n - 1].Copy? <==> IsRaw(format)) &&
      (IsRaw(format) ==> plan[n - 1] == Copy(Join(tmp, "output.pcm"), outputPath)) &&
      (!IsRaw(format) ==> plan[n - 1] == Encode(EncodeArgv(cfg.ffmpegBin, Join(tmp, "output.pcm"), outputPath, CodecFor(format))))
  {
  }

  /** The denoise stage reads `src` and writes `dst`. */
  lemma DenoiseFiles(rnnoise: string, src: string, dst: string, model: Option<string>)
    ensures InputOf(Denoise(DenoiseArgv(rnnoise, src, dst, model))) == Some(src)
    ensures OutputOf(Denoise(DenoiseArgv(rnnoise, src, dst, model))) == Some(dst)
  {
    DenoiseArgvShape(rnnoise, src, dst, model);
  }

  /** The last stage reads the denoiser's output and writes `outputPath`. */
  lemma FinishFiles(cfg: Config, pcmOutput: string, outputPath: string, format: string)
    ensures var finish :=
      if IsRaw(format) then Copy(pcmOutput, outputPath)
      else Encode(EncodeArgv(cfg.ffmpegBin, pcmOutput, outputPath, CodecFor(format)));
      InputOf(finish) == Some(pcmOutput) && OutputOf(finish) == Some(outputPath)
  {
    if !IsRaw(format) {
      EncodeCommandMeaning(cfg.ffmpegBin, pcmOutput, outputPath, CodecFor(format));
    }
  }

  /** Each stage reads the file the previous one wrote. */
  ghost predicate Wired(plan: seq<Stage>, inputPath: string, outputPath: string)
  {
    plan != [] &&
    InputOf(plan[0]) == Some(inputPath) &&
    OutputOf(plan[|plan| - 1]) == Some(outputPath) &&
    forall i :: 0 <= i < |plan| - 1 ==> OutputOf(plan[i]).Some? && OutputOf(plan[i]) == InputOf(plan[i + 1])
  }

  /** The plan's first stage reads the request's input, each later stage
      reads the file the one before it wrote, and the last writes the
      requested output. */
  lemma PlanWired(cfg: Config, tmp: string, inputPath: string, outputPath: string,
                  model: Option<string>, format: string)
    ensures Wired(Plan(cfg, tmp, inputPath, outputPath, model, format), inputPath, outputPath)
  {
    if NeedsDecode(inputPath) {
      PlanWiredDecoding(cfg, tmp, inputPath, outputPath, model, format);
    } else {
      PlanWiredRaw(cfg, tmp, inputPath, outputPath, model, format);
    }
  }

  /** `PlanWired` for an input that is decoded first. */
  lemma PlanWiredDecoding(cfg: Config, tmp: string, inputPath: string, outputPath: string,
                          model: Option<string>, format: string)
    requires NeedsDecode(inputPath)
    ensures Wired(Plan(cfg, tmp, inputPath, outputPath, model, format), inputPath, outputPath)
  {
    var pcmInput, pcmOutput := Join(tmp, "input.pcm"), Join(tmp, "output.pcm");
    var finish :=
      if IsRaw(format) then Copy(pcmOutput, outputPath)
      else Encode(EncodeArgv(cfg.ffmpegBin, pcmOutput, outputPath, CodecFor(format)));
    var decode := Decode(DecodeArgv(cfg.ffmpegBin, inputPath, pcmInput));
    var denoise := Denoise(DenoiseArgv(cfg.rnnoiseBin, pcmInput, pcmOutput, model));
    FinishFiles(cfg, pcmOutput, outputPath, format);
    DecodeCommandMeaning(cfg.ffmpegBin, inputPath, pcmInput);
    DenoiseFiles(cfg.rnnoiseBin, pcmInput, pcmOutput, model);
    WiredThree(decode, denoise, finish, inputPath, outputPath);
    assert Plan(cfg, tmp, inputPath, outputPath, model, format) == [decode, denoise, finish];
  }

  /** `PlanWired` for an input that is already raw PCM. */
  lemma PlanWiredRaw(cfg: Config, tmp: string, inputPath: string, outputPath: string,
                     model: Option<string>, format: string)
    requires !NeedsDecode(inputPath)
    ensures Wired(Plan(cfg, tmp, inputPath, outputPath, model, format), inputPath, outputPath)
  {
    var pcmOutput := Join(tmp, "output.pcm");
    var finish :=
      if IsRaw(format) then Copy(pcmOutput, outputPath)
      else Encode(EncodeArgv(cfg.ffmpegBin, pcmOutput, outputPath, CodecFor(format)));
    var denoise := Denoise(DenoiseArgv(cfg.rnnoiseBin, inputPath, pcmOutput, model));
    FinishFiles(cfg, pcmOutput, outputPath, format);
    DenoiseFiles(cfg.rnnoiseBin, inputPath, pcmOutput, model);
    WiredTwo(denoise, finish, inputPath, outputPath);
    assert Plan(cfg, tmp, inputPath, outputPath, model, format) == [denoise, finish];
  }

  lemma WiredTwo(first: Stage, second: Stage, inputPath: string, outputPath: string)
    requires InputOf(first) == Some(inputPath) && OutputOf(second) == Some(outputPath)
    requires OutputOf(first).Some? && OutputOf(first) == InputOf(second)
    ensures Wired([first, second], inputPath, outputPath)
  {
  }

  lemma WiredThree(first: Stage, second: Stage, third: Stage, inputPath: string, outputPath: string)
    requires InputOf(first) == Some(inputPath) && OutputOf(third) == Some(outputPath)
    requires OutputOf(first).Some? && OutputOf(first) == InputOf(second)
    requires OutputOf(second).Some? && OutputOf(second) == InputOf(third)
    ensures Wired([first, second, third], inputPath, outputPath)
  {
  }

  /** Running a plan that ends in a copy leaves at the destination exactly
      the bytes the earlier stages left at the source. */
  lemma {:induction false} CopyLast(plan: seq<Stage>, src: string, dst: string, files: FileStore, exec: Exec)
    requires RunPlan(plan + [Copy(src, dst)], files, exec).error.None?
    ensures var before := RunPlan(plan, files, exec);
      before.error.None? && src in before.files &&
      RunPlan(plan + [Copy(src, dst)], files, exec).files == before.files[dst := before.files[src]]
    decreases |plan|
  {
    var whole := plan + [Copy(src, dst)];
    if plan != [] {
      assert whole[0] == plan[0] && whole[1..] == plan[1..] + [Copy(src, dst)];
      var after := Perform(plan[0], files, exec);
      CopyLast(plan[1..], src, dst, after.value, exec);
    } else {
      assert whole[1..] == [];
    }
  }

  /** For the raw format the output file is a byte-identical copy of what
      the denoiser wrote; nothing is encoded after denoising. */
  lemma RawIsPassThrough(cfg: Config, tmp: string, inputPath: string, outputPath: string,
                         model: Option<string>, format: string, files: FileStore, exec: Exec)
    requires IsRaw(format)
    requires RunPlan(Plan(cfg, tmp, inputPath, outputPath, model, format), files, exec).error.None?
    ensures var plan := Plan(cfg, tmp, inputPath, outputPath, model, format);
      var denoised := RunPlan(plan[..|plan| - 1], files, exec);
      plan[|plan| - 2].Denoise? && OutputOf(plan[|plan| - 2]) == Some(Join(tmp, "output.pcm")) &&
      denoised.error.None? && Join(tmp, "output.pcm") in denoised.files &&
      outputPath in RunPlan(plan, files, exec).files &&
      RunPlan(plan, files, exec).files[outputPath] == denoised.files[Join(tmp, "output.pcm")]
  {
    var plan := Plan(cfg, tmp, inputPath, outputPath, model, format);
    var pcmOutput := Join(tmp, "output.pcm");
    PlanShape(cfg, tmp, inputPath, outputPath, model, format);
    PlanWired(cfg, tmp, inputPath, outputPath, model, format);
    assert OutputOf(plan[|plan| - 2]) == Some(pcmOutput);
    assert plan == plan[..|plan| - 1] + [Copy(pcmOutput, outputPath)];
    CopyLast(plan[..|plan| - 1], pcmOutput, outputPath, files, exec);
  }

  /** A run that has completed the stages in `done` and is to continue
      with an outcome `o` for the stages after them. */
  function After(done: seq<StageRun>, o: Outcome): Outcome
  {
    Outcome(done + o.trace, o.files, o.error)
  }

  /** Running a plan is running its first stage, then the rest. */
  lemma RunFirst(plan: seq<Stage>, done: seq<StageRun>, files: FileStore, exec: Exec)
    requires plan != []
    ensures var r := Perform(plan[0], files, exec);
      After(done, RunPlan(plan, files, exec)) ==
        if r.Success? then After(done + [StageRun(plan[0], true)], RunPlan(plan[1..], r.value, exec))
        else Outcome(done + [StageRun(plan[0], false)], files, Some(r.error))
  {
    var r := Perform(plan[0], files, exec);
    if r.Success? {
      var o := RunPlan(plan[1..], r.value, exec);
      assert done + ([StageRun(plan[0], true)] + o.trace) == done + [StageRun(plan[0], true)] + o.trace;
    }
  }

  /** `_process_audio`: its three steps, each raising on failure. */
  method ProcessAudio(cfg: Config, tmp: string, inputPath: string, outputPath: string,
                      model: Option<string>, format: string, files0: FileStore, exec: Exec)
    returns (trace: seq<StageRun>, files: FileStore, error: Option<StageError>)
    ensures Outcome(trace, files, error) == RunPlan(Plan(cfg, tmp, inputPath, outputPath, model, format), files0, exec)
  {
    ghost var whole := RunPlan(Plan(cfg, tmp, inputPath, outputPath, model, format), files0, exec);
    ghost var rest := Plan(cfg, tmp, inputPath, outputPath, model, format);
    trace, files, error := [], files0, None;
    assert whole == After(trace, RunPlan(rest, files, exec));
    // Step 1: decode to raw PCM if needed
    var pcmInput := Join(tmp, "input.pcm");
    var pcmInputPath := inputPath;
    if !EndsWith(inputPath, ".pcm") && !EndsWith(inputPath, ".raw") {
      var decode := Decode(DecodeArgv(cfg.ffmpegBin, inputPath, pcmInput));
      assert rest[0] == decode;
      RunFirst(rest, trace, files, exec);
      var r := Perform(decode, files, exec);
      if r.Failure? {
        return [StageRun(decode, false)], files, Some(r.error);
      }
      trace, files := [StageRun(decode, true)], r.value;
      pcmInputPath := pcmInput;
      rest := rest[1..];
    }
    // Step 2: denoise
    var pcmOutput := Join(tmp, "output.pcm");
    var denoise := Denoise(DenoiseArgv(cfg.rnnoiseBin, pcmInputPath, pcmOutput, model));
    assert rest[0] == denoise;
    RunFirst(rest, trace, files, exec);
    var r := Perform(denoise, files, exec);
    if r.Failure? {
      return trace + [StageRun(denoise, false)], files, Some(r.error);
    }
    trace, files := trace + [StageRun(denoise, true)], r.value;
    rest := rest[1..];
    // Step 3: copy or encode to the requested format
    var finish :=
      if Lower(format) == "raw" then Copy(pcmOutput, outputPath)
      else Encode(EncodeArgv(cfg.ffmpegBin, pcmOutput, outputPath, CodecFor(format)));
    assert rest == [finish];
    RunFirst(rest, trace, files, exec);
    r := Perform(finish, files, exec);
    if r.Failure? {
      return trace + [StageRun(finish, false)], files, Some(r.error);
    }
    trace, files := trace + [StageRun(finish, true)], r.value;
    assert rest[1..] == [];
  }
}
