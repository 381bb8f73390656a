/** The argument vectors the server hands to ffmpeg and to the denoiser
    (`_convert_audio`, `_convert_output`, `_run_rnnoise` in server/app.py),
    the format-to-codec table, and how ffmpeg reads such a vector. */
module Commands {
  import opened Text
  import WrapperDemo

  /** The executables and the default model the server is configured with. */
  datatype Config = Config(ffmpegBin: string, rnnoiseBin: string, defaultModel: string)

  /** Output format token (lower case) to ffmpeg encoder. */
  const CodecTable: map<string, string> := map[
    "wav" := "pcm_s16le",
    "mp3" := "libmp3lame",
    "flac" := "flac",
    "ogg" := "libvorbis",
    "aac" := "aac",
    "m4a" := "aac"
  ]

  /** The encoder used for any token the table does not know. */
  const FallbackCodec: string := "pcm_s16le"

  /** `codec_map.get(output_format.lower(), "pcm_s16le")`. */
  function CodecFor(format: string): string
  {
    var token := Lower(format);
    if token in CodecTable then CodecTable[token] else FallbackCodec
  }

  /** The lookup never fails, ignores case, and sends every unknown token
      to the 16-bit PCM encoder. */
  lemma CodecLookup(format: string)
    ensures CodecFor(format) in CodecTable.Values
    ensures CodecFor(format) == CodecFor(Lower(format))
    ensures Lower(format) in CodecTable ==> CodecFor(format) == CodecTable[Lower(format)]
    ensures Lower(format) !in CodecTable ==> CodecFor(format) == FallbackCodec
  {
    LowerIdempotent(format);
    assert CodecTable["wav"] == FallbackCodec;
  }

  /** The fixed PCM interchange format: signed 16-bit little endian, 48 kHz, mono. */
  const PcmOptions: seq<string> := ["-ar", "48000", "-ac", "1"]

  /** `_convert_audio`: decode any input to raw PCM. */
  function DecodeArgv(ffmpeg: string, src: string, dst: string): seq<string>
  {
    [ffmpeg, "-i", src, "-acodec", "pcm_s16le"] + PcmOptions + ["-f", "s16le", "-y", dst]
  }

  /** `_convert_output` when a conversion is needed: raw PCM in, `codec` out. */
  function EncodeArgv(ffmpeg: string, src: string, dst: string, codec: string): seq<string>
  {
    [ffmpeg, "-f", "s16le"] + PcmOptions + ["-i", src, "-acodec", codec, "-y", dst]
  }

  /** `_run_rnnoise`: the model argument is appended only when the model
      path is truthy, i.e. present and not empty. */
  function DenoiseArgv(rnnoise: string, src: string, dst: string, model: Option<string>): seq<string>
  {
    [rnnoise, src, dst] + (if Truthy(model) then [model.value] else [])
  }

  /** The denoiser always sees its input then its output; a fourth argument
      is there exactly when a non-empty model was given, and the vector is
      one the demo program's argument check accepts, loading that model. */
  lemma DenoiseArgvShape(rnnoise: string, src: string, dst: string, model: Option<string>)
    ensures var argv := DenoiseArgv(rnnoise, src, dst, model);
      argv[..3] == [rnnoise, src, dst] &&
      WrapperDemo.ArgumentsAccepted(|argv|) &&
      (WrapperDemo.LoadsModel(|argv|) <==> Truthy(model)) &&
      (|argv| == 4 ==> argv[3] == model.value)
  {
  }

  /** A process is successful exactly when its exit status is zero. */
  predicate Succeeded(status: int)
  {
    status == 0
  }

  /** How ffmpeg reads a command line: options before `-i` describe the
      input, the last argument is the output file, and the options between
      the input file and the output file describe the output. */
  datatype Invocation = Invocation(
    inputOptions: seq<string>, input: string, outputOptions: seq<string>, output: string)

  /** The position of the first `x` in `s`. */
  function IndexOf(s: seq<string>, x: string): (r: Option<nat>)
    ensures r.None? <==> x !in s
    ensures r.Some? ==> r.value < |s| && s[r.value] == x && x !in s[..r.value]
  {
    if s == [] then None
    else if s[0] == x then Some(0)
    else match IndexOf(s[1..], x)
      case None => None
      case Some(i) => assert s[1..][..i] == s[1..i + 1]; Some(i + 1)
  }

  function Interpret(argv: seq<string>): Option<Invocation>
  {
    if |argv| < 2 then None
    else match IndexOf(argv[1..], "-i")
      case None => None
      case Some(j) =>
        var i := j + 1;
        if i + 2 < |argv|
        then Some(Invocation(argv[1..i], argv[i + 1], argv[i + 2..|argv| - 1], argv[|argv| - 1]))
        else None
  }

  /** The value following the first `flag` in a list of flag/value pairs. */
  function OptionValue(options: seq<string>, flag: string): Option<string>
    decreases |options|
  {
    if |options| < 2 then None
    else if options[0] == flag then Some(options[1])
    else OptionValue(options[2..], flag)
  }

  /** Container format, sample rate and channel count named by some options. */
  datatype Layout = Layout(format: Option<string>, rate: Option<string>, channels: Option<string>)

  function LayoutOf(options: seq<string>): Layout
  {
    Layout(OptionValue(options, "-f"), OptionValue(options, "-ar"), OptionValue(options, "-ac"))
  }

  const Interchange: Layout := Layout(Some("s16le"), Some("48000"), Some("1"))

  /** `IndexOf` finds the first occurrence, wherever it is. */
  lemma IndexOfFirst(s: seq<string>, x: string, k: nat)
    requires k < |s| && s[k] == x && x !in s[..k]
    ensures IndexOf(s, x) == Some(k)
  {
  }

  /** How `Interpret` reads a vector whose first `-i` is at position `i`. */
  lemma InterpretAt(argv: seq<string>, i: nat)
    requires 1 <= i && i + 2 < |argv| && argv[i] == "-i" && "-i" !in argv[1..i]
    ensures Interpret(argv) == Some(Invocation(argv[1..i], argv[i + 1], argv[i + 2..|argv| - 1], argv[|argv| - 1]))
  {
    assert argv[1..][..i - 1] == argv[1..i];
    IndexOfFirst(argv[1..], "-i", i - 1);
  }

  /** Decoding leaves the input's format to ffmpeg's probe and writes the
      interchange PCM with the PCM encoder, from `src` to `dst`. */
  lemma DecodeCommandMeaning(ffmpeg: string, src: string, dst: string)
    ensures var call := Interpret(DecodeArgv(ffmpeg, src, dst));
      call.Some? && call.value.input == src && call.value.output == dst &&
      call.value.inputOptions == [] &&
      call.value.outputOptions == ["-acodec", "pcm_s16le", "-ar", "48000", "-ac", "1", "-f", "s16le", "-y"] &&
      LayoutOf(call.value.outputOptions) == Interchange &&
      OptionValue(call.value.outputOptions, "-acodec") == Some("pcm_s16le")
  {
    var argv := DecodeArgv(ffmpeg, src, dst);
    var opts := ["-acodec", "pcm_s16le", "-ar", "48000", "-ac", "1", "-f", "s16le", "-y"];
    assert argv == [ffmpeg, "-i", src] + opts + [dst];
    assert argv[1..1] == [] && argv[3..|argv| - 1] == opts;
    InterpretAt(argv, 1);
    OptionsDecode();
  }

  lemma OptionsDecode()
    ensures var opts := ["-acodec", "pcm_s16le", "-ar", "48000", "-ac", "1", "-f", "s16le", "-y"];
      LayoutOf(opts) == Interchange && OptionValue(opts, "-acodec") == Some("pcm_s16le")
  {
    var opts := ["-acodec", "pcm_s16le", "-ar", "48000", "-ac", "1", "-f", "s16le", "-y"];
    var o1 := ["-ar", "48000", "-ac", "1", "-f", "s16le", "-y"];
    var o2 := ["-ac", "1", "-f", "s16le", "-y"];
    var o3 := ["-f", "s16le", "-y"];
    assert opts[2..] == o1 && o1[2..] == o2 && o2[2..] == o3;
    assert OptionValue(o2, "-f") == Some("s16le");
    assert OptionValue(o1, "-f") == Some("s16le");
    assert OptionValue(o1, "-ac") == Some("1");
  }

  /** Encoding reads `src` as the interchange PCM (the options stand before
      `-i`) and writes `dst` with the chosen encoder. */
  lemma EncodeCommandMeaning(ffmpeg: string, src: string, dst: string, codec: string)
    ensures var call := Interpret(EncodeArgv(ffmpeg, src, dst, codec));
      call.Some? && call.value.input == src && call.value.output == dst &&
      LayoutOf(call.value.inputOptions) == Interchange &&
      call.value.outputOptions == ["-acodec", codec, "-y"]
  {
    var argv := EncodeArgv(ffmpeg, src, dst, codec);
    var opts := ["-f", "s16le", "-ar", "48000", "-ac", "1"];
    assert argv == [ffmpeg] + opts + ["-i", src, "-acodec", codec, "-y", dst];
    assert argv[1..7] == opts && argv[9..|argv| - 1] == ["-acodec", codec, "-y"];
    InterpretAt(argv, 7);
    OptionsEncode();
  }

  lemma OptionsEncode()
    ensures LayoutOf(["-f", "s16le", "-ar", "48000", "-ac", "1"]) == Interchange
  {
    var opts := ["-f", "s16le", "-ar", "48000", "-ac", "1"];
    var o1 := ["-ar", "48000", "-ac", "1"];
    assert opts[2..] == o1 && o1[2..] == ["-ac", "1"];
    assert OptionValue(o1, "-ac") == Some("1");
  }
}
