/** `_apply_noise_suppression`: backend resolution over the optional plugins, and the
    WebRTC audio-processing path that feeds the signal to the module in 10 ms frames of
    16-bit PCM. */
module NoiseSuppression {
  import opened Wrappers
  import opened Numerics
  import opened Bytes
  import opened Pcm16
  import opened EngineConfig

  /** Which optional modules imported: rnnoise, deepfilternet, speexdsp and the WebRTC
      audio-processing module. */
  datatype Plugins = Plugins(rnnoise: bool, deepfilternet: bool, speexdsp: bool, webrtcApm: bool)

  /** Where a request ends up: no suppression, a plugin kept as pass-through, the WebRTC
      module being missing, or WebRTC processing. */
  datatype NsRoute = Off | Passthrough(backend: string) | Unavailable | WebRtc

  /** The engine names that stand for an optional plugin. */
  predicate IsPluginEngine(name: string) {
    name in {"rnnoise", "deepfilternet", "speex"}
  }

  /** Whether the plugin behind an engine name imported. */
  function PluginPresent(name: string, p: Plugins): bool {
    if name == "rnnoise" then p.rnnoise
    else if name == "deepfilternet" then p.deepfilternet
    else if name == "speex" then p.speexdsp
    else false
  }

  /** The chain of checks at the top of `_apply_noise_suppression`. A present plugin
      is used as pass-through; a missing one falls back to WebRTC; "webrtc" asks for it
      directly; any other name (including "off") switches suppression off. */
  function ResolveNsRoute(requested: string, p: Plugins): (r: NsRoute)
    ensures r == Off <==> requested !in {"rnnoise", "deepfilternet", "speex", "webrtc"}
    ensures r.Passthrough? <==> IsPluginEngine(requested) && PluginPresent(requested, p)
    ensures r.Passthrough? ==> r.backend == requested + "_passthrough"
    ensures r == WebRtc <==>
      (requested == "webrtc" || (IsPluginEngine(requested) && !PluginPresent(requested, p))) && p.webrtcApm
    ensures r == Unavailable <==>
      (requested == "webrtc" || (IsPluginEngine(requested) && !PluginPresent(requested, p))) && !p.webrtcApm
  {
    if requested == "off" then Off
    else if requested == "rnnoise" && p.rnnoise then Passthrough("rnnoise_passthrough")
    else if requested == "deepfilternet" && p.deepfilternet then Passthrough("deepfilternet_passthrough")
    else if requested == "speex" && p.speexdsp then Passthrough("speex_passthrough")
    else if requested !in {"rnnoise", "deepfilternet", "speex", "webrtc"} then Off
    else if !p.webrtcApm then Unavailable
    else WebRtc
  }

  /** Asking for a plugin that did not import is the same as asking for WebRTC. */
  lemma MissingPluginFallsBack(name: string, p: Plugins)
    requires IsPluginEngine(name) && !PluginPresent(name, p)
    ensures ResolveNsRoute(name, p) == ResolveNsRoute("webrtc", p)
  {
  }

  /** `max(1, int(round(sample_rate * 0.01)))`: samples in 10 ms, at least one. */
  function FrameSize(sampleRate: int): (fs: nat)
    ensures fs >= 1
    ensures sampleRate >= 100 ==> sampleRate as real / 100.0 - 0.5 <= fs as real <= sampleRate as real / 100.0 + 0.5
  {
    var n := RoundHalfEven(sampleRate as real / 100.0);
    if n < 1 then 1 else n
  }

  /** The audio-processing module. `init` stands for construction and the four setters
      (stream format, noise level, AGC target, AGC level) and gives the message of the
      exception they raise, if any. `process` is `process_stream`: its answer may depend on
      every frame sent before, which it receives in order. */
  datatype Apm = Apm(
    init: (int, int, int, int) -> Option<string>,
    process: (seq<seq<byte>>, seq<byte>) -> Result<seq<byte>, string>)

  /** The message `np.frombuffer` raises on a buffer of odd length. */
  const FrombufferError: string := "buffer size must be a multiple of element size"

  /** `np.pad(s, (0, len - s.size))` when `s` is shorter than `len`; longer input is kept. */
  function PadTo(s: seq<real>, len: nat): (r: seq<real>)
    ensures |r| == if |s| < len then len else |s|
    ensures forall j :: 0 <= j < |r| ==> r[j] == if j < |s| then s[j] else 0.0
  {
    if |s| < len then s + seq(len - |s|, _ => 0.0) else s
  }

  /** The frame starting at sample `s`: samples `s` up to `min(s + fs, n)`, zero-padded
      to `fs`. */
  function InputFrame(x: seq<real>, fs: nat, s: nat): (f: seq<real>)
    requires fs > 0 && s < |x|
    ensures |f| == fs
    ensures forall j :: 0 <= j < fs ==> f[j] == if s + j < |x| then x[s + j] else 0.0
  {
    var end := if s + fs < |x| then s + fs else |x|;
    PadTo(x[s..end], fs)
  }

  /** The bytes sent for the frame starting at `s`:
      `_float_to_pcm16(frame).tobytes()` of the padded frame. */
  function Payload(x: seq<real>, fs: nat, s: nat): (b: seq<byte>)
    requires fs > 0 && s < |x|
  {
    FrameBytes(x, fs, s, 0)
  }

  /** The little-endian codes of samples `j` to `fs - 1` of the padded frame at `s`. */
  function FrameBytes(x: seq<real>, fs: nat, s: nat, j: nat): (b: seq<byte>)
    decreases fs - j
  {
    if j >= fs then []
    else
      var p := Int16ToLE(SampleToPcm16(if s + j < |x| then x[s + j] else 0.0));
      [p.0, p.1] + FrameBytes(x, fs, s, j + 1)
  }

  /** The sample-by-sample encoding is `ndarray.tobytes()` of the quantised padded frame. */
  lemma {:induction false} FrameBytesEncode(x: seq<real>, fs: nat, s: nat, j: nat)
    requires fs > 0 && s < |x| && j <= fs
    ensures FrameBytes(x, fs, s, j) == EncodeInt16LE(FloatToPcm16(InputFrame(x, fs, s)[j..]))
    decreases fs - j
  {
    if j < fs {
      FrameBytesEncode(x, fs, s, j + 1);
      var f := InputFrame(x, fs, s)[j..];
      assert f[1..] == InputFrame(x, fs, s)[j + 1..];
      assert FloatToPcm16(f)[1..] == FloatToPcm16(f[1..]);
    }
  }

  lemma PayloadEncode(x: seq<real>, fs: nat, s: nat)
    requires fs > 0 && s < |x|
    ensures Payload(x, fs, s) == EncodeInt16LE(FloatToPcm16(InputFrame(x, fs, s)))
    ensures |Payload(x, fs, s)| == fs + fs
  {
    FrameBytesEncode(x, fs, s, 0);
    assert InputFrame(x, fs, s)[0..] == InputFrame(x, fs, s);
  }

  /** `np.frombuffer(..., dtype=np.int16).astype(np.float32) / 32768.0`. */
  function ToFloats(v: seq<int>): (r: seq<real>)
    requires forall i :: 0 <= i < |v| ==> IsInt16(v[i])
    ensures |r| == |v|
    ensures forall i :: 0 <= i < |v| ==> r[i] == Int16ToFloat(v[i])
  {
    seq(|v|, i requires 0 <= i < |v| => Int16ToFloat(v[i]))
  }

  /** What one call of `process_stream` yields: its error, the decoding error of an
      odd-length buffer, or the decoded samples padded to the frame size. */
  function DecodeResponse(response: Result<seq<byte>, string>, fs: nat): (r: Result<seq<real>, string>)
    ensures r.Success? ==> |r.value| >= fs
    ensures r.Success? <==> response.Success? && |response.value| % 2 == 0
  {
    match response
    case Failure(e) => Failure(e)
    case Success(b) =>
      if |b| % 2 != 0 then Failure(FrombufferError)
      else Success(DecodeFrame(b, fs, 0))
  }

  /** Samples `j`, `j + 1`, ... of an even-length answer decoded and zero-padded to `fs`:
      first the int16 values of its byte pairs over 32768, then zeros. */
  function DecodeFrame(b: seq<byte>, fs: nat, j: nat): (r: seq<real>)
    requires |b| % 2 == 0
    ensures |r| == (if |b| / 2 < fs then fs else |b| / 2) - j || (|r| == 0 && j >= |b| / 2 && j >= fs)
    decreases (if |b| / 2 < fs then fs else |b| / 2) - j
  {
    if j < |b| / 2 then [Int16ToFloat(Int16FromLE(b[2 * j], b[2 * j + 1]))] + DecodeFrame(b, fs, j + 1)
    else if j < fs then [0.0] + DecodeFrame(b, fs, j + 1)
    else []
  }

  lemma {:induction false} DecodeFrameAt(b: seq<byte>, fs: nat, j: nat, i: nat)
    requires |b| % 2 == 0 && i < |DecodeFrame(b, fs, j)|
    ensures DecodeFrame(b, fs, j)[i] ==
      if j + i < |b| / 2 then Int16ToFloat(Int16FromLE(b[2 * (j + i)], b[2 * (j + i) + 1])) else 0.0
    decreases i
  {
    if i > 0 {
      DecodeFrameAt(b, fs, j + 1, i - 1);
    }
  }

  /** The decoded frame is `np.frombuffer(b, dtype=np.int16) / 32768.0`, padded with
      `np.pad` to `fs` samples. */
  lemma DecodeFrameIsPadded(b: seq<byte>, fs: nat)
    requires |b| % 2 == 0
    ensures DecodeFrame(b, fs, 0) == PadTo(ToFloats(DecodeInt16LE(b)), fs)
  {
    var d := DecodeFrame(b, fs, 0);
    var e := PadTo(ToFloats(DecodeInt16LE(b)), fs);
    forall i | 0 <= i < |d|
      ensures d[i] == e[i]
    {
      DecodeFrameAt(b, fs, 0, i);
      if i < |b| / 2 {
        DecodeInt16LEAt(b, i);
      }
    }
  }

  /** The frame loop from the frame starting at `start`, after the payloads `sent` and
      with the samples `acc` filled in so far: the error of the first frame that fails,
      or the filled samples, each frame contributing as many of its decoded samples as
      it covers of the input. */
  function Loop(apm: Apm, x: seq<real>, fs: nat, start: nat, sent: seq<seq<byte>>, acc: seq<real>)
    : Result<seq<real>, string>
    requires fs > 0
    decreases |x| - start, 1
  {
    if start >= |x| then Success(acc) else LoopFrame(apm, x, fs, start, sent, acc)
  }

  /** `Loop` at a frame that starts inside the input: send its payload, stop on an
      error, otherwise fill its samples and go on. */
  function LoopFrame(apm: Apm, x: seq<real>, fs: nat, start: nat, sent: seq<seq<byte>>, acc: seq<real>)
    : Result<seq<real>, string>
    requires fs > 0 && start < |x|
    decreases |x| - start, 0
  {
    var p := Payload(x, fs, start);
    match DecodeResponse(apm.process(sent, p), fs)
    case Failure(e) => Failure(e)
    case Success(frame) =>
      var end := if start + fs < |x| then start + fs else |x|;
      Loop(apm, x, fs, start + fs, sent + [p], acc + frame[..end - start])
  }

  /** The outcome of the WebRTC frame loop on `x`. */
  function WebRtcRun(apm: Apm, x: seq<real>, fs: nat): Result<seq<real>, string>
    requires fs > 0
  {
    Loop(apm, x, fs, 0, [], [])
  }

  /** A successful loop fills exactly one sample per input sample. */
  lemma {:induction false} LoopLength(apm: Apm, x: seq<real>, fs: nat, start: nat, sent: seq<seq<byte>>,
                                      acc: seq<real>)
    requires fs > 0 && start <= |x| && |acc| == start
    ensures Loop(apm, x, fs, start, sent, acc).Success? ==> |Loop(apm, x, fs, start, sent, acc).value| == |x|
    decreases |x| - start
  {
    if start < |x| {
      var p := Payload(x, fs, start);
      var d := DecodeResponse(apm.process(sent, p), fs);
      if d.Success? {
        var end := if start + fs < |x| then start + fs else |x|;
        var acc2 := acc + d.value[..end - start];
        assert Loop(apm, x, fs, start, sent, acc) == Loop(apm, x, fs, start + fs, sent + [p], acc2);
        if start + fs < |x| {
          LoopLength(apm, x, fs, start + fs, sent + [p], acc2);
        } else {
          assert Loop(apm, x, fs, start + fs, sent + [p], acc2) == Success(acc2);
        }
      }
    }
  }

  /** A frame that succeeds fills its samples and the loop goes on with the next one. */
  lemma LoopAdvances(apm: Apm, x: seq<real>, fs: nat, start: nat, sent: seq<seq<byte>>, acc: seq<real>,
                     p: seq<byte>, frame: seq<real>, end: nat)
    requires fs > 0 && start < |x| && p == Payload(x, fs, start)
    requires DecodeResponse(apm.process(sent, p), fs) == Success(frame)
    requires end == if start + fs < |x| then start + fs else |x|
    ensures Loop(apm, x, fs, start, sent, acc) == Loop(apm, x, fs, start + fs, sent + [p], acc + frame[..end - start])
  {
  }

  /** `processed[start:end] = out_frame[:end - start]` on a prefix-filled buffer. */
  lemma SpliceFrame(before: seq<real>, after: seq<real>, frame: seq<real>, start: nat, end: nat)
    requires start <= end <= |after| == |before| && end - start <= |frame|
    requires forall t :: 0 <= t < |after| ==> after[t] == if start <= t < end then frame[t - start] else before[t]
    ensures after[..end] == before[..start] + frame[..end - start]
  {
  }

  /** One iteration of the frame loop: pad the frame, encode it, send it after the
      payloads already sent, decode the answer. Its outcome is the next step of `Loop`. */
  method ProcessFrame(apm: Apm, x: seq<real>, fs: nat, sent: seq<seq<byte>>, start: nat, ghost acc: seq<real>)
    returns (res: Result<seq<real>, string>, payload: seq<byte>)
    requires fs > 0 && start < |x|
    ensures payload == Payload(x, fs, start)
    ensures res == DecodeResponse(apm.process(sent, payload), fs)
    ensures res.Failure? ==> Loop(apm, x, fs, start, sent, acc) == Failure(res.error)
    ensures res.Success? ==> |res.value| >= fs
    ensures res.Success? ==>
      Loop(apm, x, fs, start, sent, acc) ==
      Loop(apm, x, fs, start + fs, sent + [payload],
           acc + res.value[..(if start + fs < |x| then start + fs else |x|) - start])
  {
    var end := if start + fs < |x| then start + fs else |x|;
    var frame := PadTo(x[start..end], fs);
    payload := EncodeInt16LE(FloatToPcm16(frame));
    PayloadEncode(x, fs, start);
    var response := apm.process(sent, payload);
    if response.Failure? {
      return Failure(response.error), payload;
    }
    if |response.value| % 2 != 0 {
      return Failure(FrombufferError), payload;
    }
    res := Success(PadTo(ToFloats(DecodeInt16LE(response.value)), fs));
    DecodeFrameIsPadded(response.value, fs);
  }

  /** `processed[start:end] = out_frame[:end - start]`. */
  method WriteFrame(processed: array<real>, frame: seq<real>, start: nat, end: nat)
    requires start <= end <= processed.Length && end - start <= |frame|
    modifies processed
    ensures processed[..end] == old(processed[..start]) + frame[..end - start]
  {
    ghost var before := processed[..];
    forall t | start <= t < end {
      processed[t] := frame[t - start];
    }
    SpliceFrame(before, processed[..], frame, start, end);
    assert before[..start] == old(processed[..start]);
  }

  /** The frame loop, `for start in range(0, n, frame_size)`: it returns what
      `WebRtcRun` describes and, on success, one sample per input sample after
      `ceil(n / frame_size)` frames. */
  method ProcessFrames(apm: Apm, x: seq<real>, fs: nat) returns (r: Result<seq<real>, string>, frames: nat)
    requires fs > 0
    ensures r == WebRtcRun(apm, x, fs)
    ensures r.Success? ==> |r.value| == |x| && frames == CeilDiv(|x|, fs)
  {
    var processed := new real[|x|];
    var sent: seq<seq<byte>> := [];
    ghost var total := Loop(apm, x, fs, 0, [], []);
    ghost var acc: seq<real> := [];
    var start := 0;
    frames := 0;
    while start < |x|
      invariant start == BlockStart(frames, fs) && start < |x| + fs
      invariant |acc| == if start <= |x| then start else |x|
      invariant processed[..|acc|] == acc
      invariant Loop(apm, x, fs, start, sent, acc) == total
      decreases |x| - start
    {
      var end := if start + fs < |x| then start + fs else |x|;
      var response, payload := ProcessFrame(apm, x, fs, sent, start, acc);
      if response.Failure? {
        return Failure(response.error), frames;
      }
      var outFrame := response.value;
      assert Loop(apm, x, fs, start + fs, sent + [payload], acc + outFrame[..end - start]) == total;
      WriteFrame(processed, outFrame, start, end);
      acc := acc + outFrame[..end - start];
      sent := sent + [payload];
      frames := frames + 1;
      start := start + fs;
    }
    assert processed[..] == processed[..|acc|];
    r := Success(processed[..]);
    BlockCount(|x|, fs, frames);
  }


  /** The success report of the WebRTC path. */
  function WebRtcStats(frames: nat, nsLevel: int, agc: (int, int)): Stats {
    map["ns_backend" := Tag("webrtc_apm"), "ns_frames_processed" := Int(frames),
        "ns_level" := Int(nsLevel), "agc_target" := Int(agc.0), "agc_level" := Int(agc.1)]
  }

  /** `_apply_noise_suppression` as a value, route by route: the untouched input with a
      report of why on every route but a successful WebRTC run, which yields the frame
      loop's output. */
  function Denoised(cfg: Config, plugins: Plugins, apm: Apm, x: seq<real>, sampleRate: int): (r: StageResult)
    ensures |r.signal| == |x|
    ensures "ns_backend" in r.stats
  {
    match ResolveNsRoute(cfg.nsEngine, plugins)
    case Off => StageResult(x, map["ns_backend" := Tag("off")])
    case Passthrough(backend) => StageResult(x, map["ns_backend" := Tag(backend)])
    case Unavailable => StageResult(x, map["ns_backend" := Tag("unavailable")])
    case WebRtc =>
      var fs := FrameSize(sampleRate);
      if |x| < fs then StageResult(x, map["ns_backend" := Tag("webrtc_apm"), "ns_frames_processed" := Int(0)])
      else
        var agc := MapAgcParams(cfg.mode);
        var init := apm.init(sampleRate, MapNsLevel(cfg.nsLevel), agc.0, agc.1);
        if init.Some? then
          StageResult(x, map["ns_backend" := Tag("error"), "ns_error" := Tag("init_failed: " + init.value)])
        else
          match WebRtcRun(apm, x, fs)
          case Failure(e) => StageResult(x, map["ns_backend" := Tag("error"), "ns_error" := Tag("process_failed: " + e)])
          case Success(processed) =>
            LoopLength(apm, x, fs, 0, [], []);
            StageResult(processed, WebRtcStats(CeilDiv(|x|, fs), MapNsLevel(cfg.nsLevel), agc))
  }

  /** `_apply_noise_suppression`. Every path except a successful WebRTC run returns the
      input unchanged with a report of why; a successful run returns the frame outputs
      in order, one sample per input sample, and counts `ceil(n / frame_size)` frames. */
  method NoiseSuppressionStage(cfg: Config, plugins: Plugins, apm: Apm, x: seq<real>, sampleRate: int)
    returns (r: StageResult)
    ensures r == Denoised(cfg, plugins, apm, x, sampleRate)
    ensures |r.signal| == |x|
    ensures "ns_backend" in r.stats
    ensures ResolveNsRoute(cfg.nsEngine, plugins) == Off ==> r == StageResult(x, map["ns_backend" := Tag("off")])
    ensures ResolveNsRoute(cfg.nsEngine, plugins).Passthrough? ==>
      r == StageResult(x, map["ns_backend" := Tag(ResolveNsRoute(cfg.nsEngine, plugins).backend)])
    ensures ResolveNsRoute(cfg.nsEngine, plugins) == Unavailable ==>
      r == StageResult(x, map["ns_backend" := Tag("unavailable")])
    ensures ResolveNsRoute(cfg.nsEngine, plugins) == WebRtc && |x| < FrameSize(sampleRate) ==>
      r == StageResult(x, map["ns_backend" := Tag("webrtc_apm"), "ns_frames_processed" := Int(0)])
    ensures ResolveNsRoute(cfg.nsEngine, plugins) == WebRtc && |x| >= FrameSize(sampleRate) ==>
      var agc := MapAgcParams(cfg.mode);
      var init := apm.init(sampleRate, MapNsLevel(cfg.nsLevel), agc.0, agc.1);
      var run := WebRtcRun(apm, x, FrameSize(sampleRate));
      if init.Some? then
        r == StageResult(x, map["ns_backend" := Tag("error"), "ns_error" := Tag("init_failed: " + init.value)])
      else if run.Failure? then
        r == StageResult(x, map["ns_backend" := Tag("error"), "ns_error" := Tag("process_failed: " + run.error)])
      else
        r == StageResult(run.value,
                         WebRtcStats(CeilDiv(|x|, FrameSize(sampleRate)), MapNsLevel(cfg.nsLevel), agc))
  {
    var route := ResolveNsRoute(cfg.nsEngine, plugins);
    match route {
      case Off => return StageResult(x, map["ns_backend" := Tag("off")]);
      case Passthrough(backend) => return StageResult(x, map["ns_backend" := Tag(backend)]);
      case Unavailable => return StageResult(x, map["ns_backend" := Tag("unavailable")]);
      case WebRtc =>
    }
    var fs := FrameSize(sampleRate);
    if |x| < fs {
      return StageResult(x, map["ns_backend" := Tag("webrtc_apm"), "ns_frames_processed" := Int(0)]);
    }
    var nsLevel := MapNsLevel(cfg.nsLevel);
    var agc := MapAgcParams(cfg.mode);
    var init := apm.init(sampleRate, nsLevel, agc.0, agc.1);
    if init.Some? {
      return StageResult(x, map["ns_backend" := Tag("error"), "ns_error" := Tag("init_failed: " + init.value)]);
    }
    var outcome, frames := ProcessFrames(apm, x, fs);
    match outcome {
      case Failure(e) =>
        return StageResult(x, map["ns_backend" := Tag("error"), "ns_error" := Tag("process_failed: " + e)]);
      case Success(processed) =>
        r := StageResult(processed, WebRtcStats(frames, nsLevel, agc));
    }
  }

  /** Each input sample quantised to 16 bits and back: clipped, scaled by 32767, rounded
      and divided by 32768. */
  function Quantised(x: seq<real>): (q: seq<real>)
    ensures |q| == |x|
  {
    ToFloats(FloatToPcm16(x))
  }

  lemma SplitSlice(q: seq<real>, s: nat, end: nat)
    requires s <= end <= |q|
    ensures q[s..] == q[s..end] + q[end..]
  {
  }

  /** Decoding a payload gives back the quantised padded frame it encodes. */
  lemma PayloadDecodes(x: seq<real>, fs: nat, s: nat)
    requires fs > 0 && s < |x|
    ensures |Payload(x, fs, s)| % 2 == 0
    ensures DecodeFrame(Payload(x, fs, s), fs, 0) == ToFloats(FloatToPcm16(InputFrame(x, fs, s)))
  {
    var codes := FloatToPcm16(InputFrame(x, fs, s));
    Int16SeqRoundTrip(codes);
    PayloadEncode(x, fs, s);
    DecodeFrameIsPadded(Payload(x, fs, s), fs);
  }

  /** The samples of the quantised padded frame that cover the input are the quantised
      input samples. */
  lemma QuantisedFrame(x: seq<real>, fs: nat, s: nat, end: nat)
    requires fs > 0 && s < |x| && end == if s + fs < |x| then s + fs else |x|
    ensures ToFloats(FloatToPcm16(InputFrame(x, fs, s)))[..end - s] == Quantised(x)[s..end]
  {
    var frame := InputFrame(x, fs, s);
    var back := ToFloats(FloatToPcm16(frame));
    forall j | 0 <= j < end - s
      ensures back[j] == Quantised(x)[s + j]
    {
      FloatToPcm16Pointwise(frame, j, x, s + j);
    }
  }

  /** With a module that echoes its input, one frame comes back as its samples quantised. */
  lemma EchoFrame(apm: Apm, x: seq<real>, fs: nat, s: nat, sent: seq<seq<byte>>)
    requires fs > 0 && s < |x|
    requires forall h, p :: apm.process(h, p) == Success(p)
    ensures DecodeResponse(apm.process(sent, Payload(x, fs, s)), fs).Success?
    ensures var end := if s + fs < |x| then s + fs else |x|;
      DecodeResponse(apm.process(sent, Payload(x, fs, s)), fs).value[..end - s] == Quantised(x)[s..end]
  {
    var end := if s + fs < |x| then s + fs else |x|;
    var p := Payload(x, fs, s);
    assert apm.process(sent, p) == Success(p);
    PayloadDecodes(x, fs, s);
    QuantisedFrame(x, fs, s, end);
  }

  /** With a module that echoes its input, the loop fills in the rest of the input
      quantised. */
  lemma {:induction false} EchoLoop(apm: Apm, x: seq<real>, fs: nat, s: nat, sent: seq<seq<byte>>, acc: seq<real>)
    requires fs > 0 && s <= |x|
    requires forall h, p :: apm.process(h, p) == Success(p)
    ensures Loop(apm, x, fs, s, sent, acc) == Success(acc + Quantised(x)[s..])
    decreases |x| - s
  {
    var q := Quantised(x);
    if s < |x| {
      var end := if s + fs < |x| then s + fs else |x|;
      var p := Payload(x, fs, s);
      EchoFrame(apm, x, fs, s, sent);
      var frame := DecodeResponse(apm.process(sent, p), fs).value;
      LoopAdvances(apm, x, fs, s, sent, acc, p, frame, end);
      var acc2 := acc + q[s..end];
      if s + fs < |x| {
        EchoLoop(apm, x, fs, s + fs, sent + [p], acc2);
      } else {
        LoopDone(apm, x, fs, s + fs, sent + [p], acc2);
        assert acc2 + q[end..] == acc2;
      }
      AppendSplit(acc, q, s, end);
    } else {
      LoopDone(apm, x, fs, s, sent, acc);
      assert acc + q[s..] == acc;
    }
  }

  /** Past the end of the input the loop returns what it has filled. */
  lemma LoopDone(apm: Apm, x: seq<real>, fs: nat, start: nat, sent: seq<seq<byte>>, acc: seq<real>)
    requires fs > 0 && start >= |x|
    ensures Loop(apm, x, fs, start, sent, acc) == Success(acc)
  {
  }

  lemma AppendSplit(acc: seq<real>, q: seq<real>, s: nat, end: nat)
    requires s <= end <= |q|
    ensures (acc + q[s..end]) + q[end..] == acc + q[s..]
  {
    assert q[s..] == q[s..end] + q[end..];
  }

  /** A module that returns every payload unchanged never fails, and the output is then
      exactly the input quantised to 16 bits. */
  lemma EchoApmQuantises(apm: Apm, x: seq<real>, fs: nat)
    requires fs > 0
    requires forall h, p :: apm.process(h, p) == Success(p)
    ensures WebRtcRun(apm, x, fs) == Success(Quantised(x))
  {
    EchoLoop(apm, x, fs, 0, [], []);
    assert [] + Quantised(x)[0..] == Quantised(x);
  }
}
