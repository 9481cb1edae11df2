/** The routing and text logic of the ASR-then-refinement pipeline: which input the
    recogniser gets (a decoded waveform or the file path, the latter only with ffmpeg),
    the language argument, PATH while ffmpeg decodes, the refinement's prompt-prefix
    strip and the fallback to the raw transcript. The recogniser, the language model,
    ffmpeg discovery and the file system are parameters. */
module InferencePipeline {
  import opened Wrappers
  import opened Text
  import opened AudioIo

  // ---------------------------------------------------------------------------
  // The language argument
  // ---------------------------------------------------------------------------

  /** The language passed to the recogniser: None for "auto" in any letter case, which asks
      it to detect the language; any other value unchanged. */
  function LanguageValue(language: string): (r: Option<string>)
    ensures r.None? <==> Lower(language) == "auto"
    ensures r.Some? ==> r.value == language
  {
    if Lower(language) == "auto" then None else Some(language)
  }

  // ---------------------------------------------------------------------------
  // The recogniser's input
  // ---------------------------------------------------------------------------

  /** What the recogniser is given: a waveform, or a path for ffmpeg to decode. */
  datatype TranscribeInput = Waveform(samples: seq<real>) | AudioPath(path: string)

  /** Why no input could be prepared: a `RuntimeError` with its message, or an exception of
      the WAV loader that is not a `WavFormatError` and so passes through: the file is
      missing, `wave.open` rejects the container (`wave.Error` for a non-RIFF or non-PCM
      file, `EOFError` for a truncated header), or numpy refuses the frame bytes. */
  datatype PrepareError =
    | Runtime(message: string)
    | FileNotFound
    | ContainerRejected(message: string)
    | DecodeFailed(error: WavError)

  const WavNeedsFfmpeg: string :=
    "WAV format is not 16kHz mono PCM16 and ffmpeg is unavailable. Please re-record as WAV or install ffmpeg."
  const NdarrayNeedsFfmpeg: string :=
    "Current mlx-whisper does not accept ndarray input and ffmpeg is unavailable."
  const NonWavNeedsFfmpeg: string :=
    "Non-WAV input requires ffmpeg. Please install ffmpeg or provide 16kHz mono PCM16 WAV."

  /** `Path(audio_path).suffix.lower() == ".wav"`. */
  predicate IsWav(audioPath: string) {
    Lower(Suffix(audioPath)) == ".wav"
  }

  /** An ffmpeg path was resolved (`if ffmpeg_path:`: present and non-empty). */
  predicate FfmpegFound(ffmpegPath: Option<string>) {
    ffmpegPath.Some? && ffmpegPath.value != ""
  }

  /** The loader errors that are `WavFormatError`s: the header guards. */
  predicate IsFormatError(e: WavError) {
    !e.BufferNotMultipleOfElementSize?
  }

  /** `_prepare_transcribe_input`: the input and whether ffmpeg must decode it. `file` is
      what `wave.open` makes of the file at the path: None when there is no file, the
      message of what it raised when it rejects the container, otherwise the header and
      frame bytes it reports. `acceptsWaveform` is whether the recogniser's signature
      binds an array, `ffmpegPath` what `_resolve_ffmpeg_path` found. */
  function PrepareTranscribeInput(audioPath: string, file: Option<Result<WavFile, string>>, acceptsWaveform: bool,
                                  ffmpegPath: Option<string>): (r: Result<(TranscribeInput, bool), PrepareError>)
    ensures r.Success? && r.value.1 ==> FfmpegFound(ffmpegPath) && r.value.0 == AudioPath(audioPath)
    ensures r.Success? && !r.value.1 ==>
      && IsWav(audioPath) && acceptsWaveform && file.Some? && file.value.Success?
      && LoadWavPcm16Mono(file.value.value).Success?
      && r.value.0 == Waveform(LoadWavPcm16Mono(file.value.value).value)
    ensures r.Failure? && r.error.Runtime? ==> !FfmpegFound(ffmpegPath)
    ensures IsWav(audioPath) && file.None? ==> r == Failure(FileNotFound)
    ensures IsWav(audioPath) && file.Some? && file.value.Failure? ==> r == Failure(ContainerRejected(file.value.error))
    ensures !IsWav(audioPath) ==>
      r == if FfmpegFound(ffmpegPath) then Success((AudioPath(audioPath), true)) else Failure(Runtime(NonWavNeedsFfmpeg))
  {
    if IsWav(audioPath) then
      match file
      case None => Failure(FileNotFound)
      case Some(Failure(message)) => Failure(ContainerRejected(message))
      case Some(Success(f)) =>
        match LoadWavPcm16Mono(f)
        case Failure(e) =>
          if !IsFormatError(e) then Failure(DecodeFailed(e))
          else if FfmpegFound(ffmpegPath) then Success((AudioPath(audioPath), true))
          else Failure(Runtime(WavNeedsFfmpeg))
        case Success(waveform) =>
          if acceptsWaveform then Success((Waveform(waveform), false))
          else if FfmpegFound(ffmpegPath) then Success((AudioPath(audioPath), true))
          else Failure(Runtime(NdarrayNeedsFfmpeg))
    else if FfmpegFound(ffmpegPath) then Success((AudioPath(audioPath), true))
    else Failure(Runtime(NonWavNeedsFfmpeg))
  }

  /** A conforming WAV file goes to a recogniser that accepts arrays as its waveform,
      without ffmpeg, whether or not ffmpeg is installed; to one that does not, it goes
      through ffmpeg or is refused with the ndarray message. One failing a header guard
      goes to ffmpeg when it is there and is refused with the WAV message when it is not;
      frame bytes that are not whole samples raise numpy's error, ffmpeg or not. A
      container `wave.open` rejects is not a `WavFormatError`, so its error passes
      through even when ffmpeg could have decoded the file. */
  lemma WavRouting(audioPath: string, f: WavFile, message: string, acceptsWaveform: bool,
                   ffmpegPath: Option<string>)
    requires IsWav(audioPath)
    ensures PrepareTranscribeInput(audioPath, Some(Failure(message)), acceptsWaveform, ffmpegPath)
            == Failure(ContainerRejected(message))
    ensures var r := PrepareTranscribeInput(audioPath, Some(Success(f)), acceptsWaveform, ffmpegPath);
      && (LoadWavPcm16Mono(f).Success? && acceptsWaveform ==> r == Success((Waveform(LoadWavPcm16Mono(f).value), false)))
      && (LoadWavPcm16Mono(f).Success? && !acceptsWaveform ==>
            r == if FfmpegFound(ffmpegPath) then Success((AudioPath(audioPath), true))
                 else Failure(Runtime(NdarrayNeedsFfmpeg)))
      && (CheckHeader(f.header).Some? ==>
            r == if FfmpegFound(ffmpegPath) then Success((AudioPath(audioPath), true))
                 else Failure(Runtime(WavNeedsFfmpeg)))
      && (CheckHeader(f.header).None? && |f.frames| % 2 != 0 ==>
            r == Failure(DecodeFailed(BufferNotMultipleOfElementSize(|f.frames|))))
  {
  }

  // ---------------------------------------------------------------------------
  // PATH while ffmpeg decodes
  // ---------------------------------------------------------------------------

  /** `os.pathsep`. */
  const PathSep: char := ':'

  /** The non-empty entries of a PATH value. */
  function PathEntries(path: string): (r: seq<string>)
    ensures forall d :: d in r <==> d in Split(path, PathSep) && d != ""
  {
    NonEmpty(Split(path, PathSep))
  }

  /** PATH with the ffmpeg directory in front: `dir:original`, or `dir` alone when PATH was
      empty. */
  function PrependedPath(dir: string, original: string): (r: string)
    ensures |r| >= |dir| && r[..|dir|] == dir
  {
    if original != "" then dir + [PathSep] + original else dir
  }

  /** The prepended directory becomes the first entry and every original entry keeps its
      place after it, so a program looked up on PATH is found in the ffmpeg directory
      first. */
  lemma PrependedEntries(dir: string, original: string)
    requires dir != "" && PathSep !in dir
    ensures PathEntries(PrependedPath(dir, original)) == [dir] + PathEntries(original)
  {
    if original != "" {
      SplitHead(dir, PathSep, original);
      assert NonEmpty([dir] + Split(original, PathSep))[1..] == NonEmpty(Split(original, PathSep)) by {
        assert ([dir] + Split(original, PathSep))[1..] == Split(original, PathSep);
      }
    } else {
      SplitWhole(dir, PathSep);
      assert Split("", PathSep) == [""];
      assert NonEmpty([""]) == [] by { assert [""][1..] == []; }
      assert NonEmpty([dir]) == [dir] + NonEmpty([dir][1..]);
      assert [dir][1..] == [];
    }
  }

  const FfmpegMissing: string := "ffmpeg is required for decoding this audio format but was not found."

  /** The process environment of the pipeline, as far as PATH goes. */
  class ProcessEnvironment {
    /** `os.environ.get("PATH")`. */
    var path: Option<string>

    constructor (initial: Option<string>)
      ensures path == initial
    {
      path := initial;
    }

    /** A `with _ffmpeg_decode_environment(requiresFfmpeg):` block around a body that leaves
        PATH alone. `during` is the PATH the body sees; `error` is the `RuntimeError` raised
        on entry, in which case the body does not run. `ffmpegPath` is what
        `_resolve_ffmpeg_path` finds and `ffmpegDir` the directory it resolves into. Without
        ffmpeg being required, or when its directory is already a PATH entry, PATH is not
        touched; otherwise the body sees the directory prepended, and on exit PATH is the
        original value again. */
    method WithDecodeEnvironment(requiresFfmpeg: bool, ffmpegPath: Option<string>, ffmpegDir: string)
      returns (during: Option<string>, error: Option<string>)
      modifies this
      ensures error.Some? <==> requiresFfmpeg && !FfmpegFound(ffmpegPath)
      ensures error.Some? ==> error.value == FfmpegMissing && path == old(path)
      ensures !requiresFfmpeg ==> during == old(path) && path == old(path)
      ensures requiresFfmpeg && FfmpegFound(ffmpegPath) && ffmpegDir in PathEntries(old(path).GetOr("")) ==>
        during == old(path) && path == old(path)
      ensures requiresFfmpeg && FfmpegFound(ffmpegPath) && ffmpegDir !in PathEntries(old(path).GetOr("")) ==>
        during == Some(PrependedPath(ffmpegDir, old(path).GetOr(""))) && path == Some(old(path).GetOr(""))
    {
      error := None;
      during := path;
      if !requiresFfmpeg {
        return;
      }
      if !FfmpegFound(ffmpegPath) {
        error := Some(FfmpegMissing);
        return;
      }
      var originalPath := path.GetOr("");
      var hasDir := ffmpegDir in PathEntries(originalPath);
      if hasDir {
        return;
      }
      path := Some(PrependedPath(ffmpegDir, originalPath));
      during := path;
      path := Some(originalPath);
    }
  }

  // ---------------------------------------------------------------------------
  // Transcript and refinement
  // ---------------------------------------------------------------------------

  /** `run_asr`'s `(result.get("text") or "").strip()`. */
  function RawText(text: Option<string>): (r: string)
    ensures IsStripped(r)
    ensures text.None? ==> r == ""
  {
    Strip(text.GetOr(""))
  }

  /** `run_llm`'s result given the chat prompt and what the model generated from it: ""
      for an empty transcript (no model is loaded); otherwise the generation with one
      leading copy of the prompt removed, stripped. */
  function RunLlm(rawText: string, prompt: string, generated: string): (r: string)
    ensures rawText == "" ==> r == ""
    ensures IsStripped(r)
  {
    if rawText == "" then ""
    else
      var refined := if StartsWith(generated, prompt) then generated[|prompt|..] else generated;
      Strip(refined)
  }

  /** An echoed prompt is removed exactly once: whatever follows it, repeats of the prompt
      included, is kept and stripped. Text that does not begin with the prompt is only
      stripped. */
  lemma PromptRemovedOnce(rawText: string, prompt: string, rest: string, other: string)
    requires rawText != ""
    requires !StartsWith(other, prompt)
    ensures RunLlm(rawText, prompt, prompt + rest) == Strip(rest)
    ensures RunLlm(rawText, prompt, prompt + prompt + rest) == Strip(prompt + rest)
    ensures RunLlm(rawText, prompt, other) == Strip(other)
  {
    assert (prompt + rest)[..|prompt|] == prompt && (prompt + rest)[|prompt|..] == rest;
    assert (prompt + prompt + rest)[..|prompt|] == prompt;
    assert (prompt + prompt + rest)[|prompt|..] == prompt + rest;
  }

  /** `main`'s refined text: the raw transcript when the refinement is skipped or comes
      back empty, the refinement otherwise. */
  function RefinedText(rawText: string, skipLlm: bool, refinement: string): (r: string)
    ensures skipLlm ==> r == rawText
    ensures r == rawText || (!skipLlm && r == refinement && r != "")
    ensures r == "" ==> rawText == ""
  {
    if skipLlm then rawText
    else if refinement == "" then rawText
    else refinement
  }

  /** With `run_llm` as the refinement, the refined text is empty exactly when the
      transcript is. */
  lemma RefinedEmptyIffRawEmpty(rawText: string, skipLlm: bool, prompt: string, generated: string)
    ensures RefinedText(rawText, skipLlm, RunLlm(rawText, prompt, generated)) == "" <==> rawText == ""
  {
  }

  // ---------------------------------------------------------------------------
  // main
  // ---------------------------------------------------------------------------

  /** The JSON payload `main` prints, without its timing and scheduling fields. */
  datatype Payload = Payload(rawText: string, refinedText: string, asrModel: string, llmModel: Option<string>)

  /** How `main` ends: exit code 2 for a missing audio file, 1 when the pipeline raised,
      0 with the payload. */
  datatype MainOutcome = MissingAudio | PipelineFailed(message: string) | Printed(payload: Payload)

  function ExitCode(o: MainOutcome): int {
    match o
    case MissingAudio => 2
    case PipelineFailed(_) => 1
    case Printed(_) => 0
  }

  /** `main` given whether the audio file exists, what the recogniser returned (its `text`
      field, or the message of what it raised) and what the language model did (the chat
      prompt and the generated text, or the message of what it raised). The model is only
      consulted for a non-empty transcript when refinement is not skipped. */
  function PipelineMain(audioExists: bool, asrModel: string, llmModel: string, skipLlm: bool,
                        asr: Result<Option<string>, string>, llm: Result<(string, string), string>): (r: MainOutcome)
    ensures !audioExists <==> r == MissingAudio
    ensures audioExists && asr.Failure? ==> r == PipelineFailed(asr.error)
    ensures r.Printed? ==> asr.Success? && r.payload.rawText == RawText(asr.value)
    ensures r.Printed? && skipLlm ==> r.payload.refinedText == r.payload.rawText && r.payload.llmModel == None
    ensures r.Printed? && !skipLlm ==> r.payload.llmModel == Some(llmModel)
    ensures r.Printed? ==> (r.payload.refinedText == "" <==> r.payload.rawText == "")
    ensures audioExists && asr.Success? && (skipLlm || RawText(asr.value) == "") ==> r.Printed?
    ensures audioExists && asr.Success? && !skipLlm && RawText(asr.value) != "" ==>
      var rawText := RawText(asr.value);
      r == if llm.Failure? then PipelineFailed(llm.error)
           else Printed(Payload(rawText, RefinedText(rawText, false, RunLlm(rawText, llm.value.0, llm.value.1)),
                                asrModel, Some(llmModel)))
  {
    if !audioExists then MissingAudio
    else
      match asr
      case Failure(e) => PipelineFailed(e)
      case Success(text) =>
        var rawText := RawText(text);
        if skipLlm then Printed(Payload(rawText, rawText, asrModel, None))
        else if rawText == "" then
          Printed(Payload(rawText, RefinedText(rawText, false, ""), asrModel, Some(llmModel)))
        else
          match llm
          case Failure(e) => PipelineFailed(e)
          case Success((prompt, generated)) =>
            RefinedEmptyIffRawEmpty(rawText, false, prompt, generated);
            Printed(Payload(rawText, RefinedText(rawText, false, RunLlm(rawText, prompt, generated)),
                            asrModel, Some(llmModel)))
  }
}
