/** The strict WAV loader: a 16 kHz mono 16-bit PCM file becomes a waveform in [-1, 1];
    any other header is refused, channels checked first, then width, then rate. The
    `wave` module's parsing of the container is not modelled: a file is given by the
    header fields and frame bytes it reports. */
module AudioIo {
  import opened Wrappers
  import opened Numerics
  import opened Bytes
  import opened Pcm16
  import opened Signals

  /** `WavMetadata`. */
  datatype WavMetadata = WavMetadata(channels: int, sampleWidth: int, sampleRate: int, frameCount: int)

  /** What `wave.open` reports about a file: its header and the bytes `readframes`
      returns for the whole frame count. */
  datatype WavFile = WavFile(header: WavMetadata, frames: seq<byte>)

  /** `WavFormatError`, carrying the offending value, and numpy's refusal of a buffer
      whose length is not a whole number of int16 samples. */
  datatype WavError =
    | UnsupportedChannels(channels: int)
    | UnsupportedSampleWidth(width: int)
    | UnsupportedSampleRate(rate: int)
    | BufferNotMultipleOfElementSize(length: nat)

  const ExpectedChannels: int := 1
  const ExpectedSampleWidth: int := 2
  const ExpectedSampleRate: int := 16000

  /** `_read_wav_bytes`: the header, and the frame bytes only when asked for. */
  function ReadWavBytes(file: WavFile, readFrames: bool): (r: (WavMetadata, seq<byte>))
    ensures r.0 == file.header
    ensures r.1 == (if readFrames then file.frames else [])
  {
    (file.header, if readFrames then file.frames else [])
  }

  /** `read_wav_metadata`: the same header a full load reads, with no frame bytes read. */
  function ReadWavMetadata(file: WavFile): (r: WavMetadata)
    ensures r == ReadWavBytes(file, true).0
  {
    ReadWavBytes(file, false).0
  }

  /** The header guards in their order: the first field that differs is the one reported. */
  function CheckHeader(h: WavMetadata): (r: Option<WavError>)
    ensures r.None? <==> h.channels == 1 && h.sampleWidth == 2 && h.sampleRate == 16000
    ensures h.channels != 1 ==> r == Some(UnsupportedChannels(h.channels))
    ensures h.channels == 1 && h.sampleWidth != 2 ==> r == Some(UnsupportedSampleWidth(h.sampleWidth))
    ensures h.channels == 1 && h.sampleWidth == 2 && h.sampleRate != 16000 ==>
      r == Some(UnsupportedSampleRate(h.sampleRate))
  {
    if h.channels != ExpectedChannels then Some(UnsupportedChannels(h.channels))
    else if h.sampleWidth != ExpectedSampleWidth then Some(UnsupportedSampleWidth(h.sampleWidth))
    else if h.sampleRate != ExpectedSampleRate then Some(UnsupportedSampleRate(h.sampleRate))
    else None
  }

  /** `np.frombuffer(raw, dtype="<i2").astype(np.float32) / 32768.0`, then the clip. */
  function DecodePcm16(raw: seq<byte>): (r: Result<seq<real>, WavError>)
    ensures r.Success? <==> |raw| % 2 == 0
    ensures r.Failure? ==> r.error == BufferNotMultipleOfElementSize(|raw|)
    ensures r.Success? ==> |r.value| == |raw| / 2
  {
    if |raw| % 2 != 0 then Failure(BufferNotMultipleOfElementSize(|raw|))
    else
      var v := DecodeInt16LE(raw);
      Success(ClipAll(seq(|v|, i requires 0 <= i < |v| => Int16ToFloat(v[i]))))
  }

  /** `load_wav_pcm16_mono` on a file: the guards, then the decode of its frames. */
  function LoadWavPcm16Mono(file: WavFile): (r: Result<seq<real>, WavError>)
    ensures CheckHeader(file.header).Some? ==> r == Failure(CheckHeader(file.header).value)
    ensures CheckHeader(file.header).None? ==> r == DecodePcm16(file.frames)
  {
    var (header, raw) := ReadWavBytes(file, true);
    match CheckHeader(header)
    case Some(e) => Failure(e)
    case None => DecodePcm16(raw)
  }

  /** Sample `k` of a decoded buffer is the little-endian int16 of bytes `2k` and `2k + 1`
      divided by 32768, which lies in [-1, 32767/32768], so the clip changes nothing. */
  lemma DecodePcm16At(raw: seq<byte>, k: nat)
    requires |raw| % 2 == 0 && k < |raw| / 2
    ensures DecodePcm16(raw).Success?
    ensures DecodePcm16(raw).value[k] == Int16FromLE(raw[2 * k], raw[2 * k + 1]) as real / 32768.0
    ensures -1.0 <= DecodePcm16(raw).value[k] <= 32767.0 / 32768.0
  {
    DecodeInt16LEAt(raw, k);
  }

  /** A file is loaded exactly when it is mono, 16-bit, 16 kHz and its frames are whole
      samples; the waveform then has one sample per byte pair, all in [-1, 1]. */
  lemma LoadSucceeds(file: WavFile)
    ensures LoadWavPcm16Mono(file).Success? <==>
      && file.header == WavMetadata(1, 2, 16000, file.header.frameCount)
      && |file.frames| % 2 == 0
    ensures LoadWavPcm16Mono(file).Success? ==>
      && |LoadWavPcm16Mono(file).value| == |file.frames| / 2
      && forall k :: 0 <= k < |file.frames| / 2 ==> -1.0 <= LoadWavPcm16Mono(file).value[k] <= 1.0
  {
  }

  /** The bytes of int16 samples, as a conforming file holds them, load as those samples
      divided by 32768. */
  lemma LoadEncoded(v: seq<int>, frameCount: int)
    requires forall i :: 0 <= i < |v| ==> IsInt16(v[i])
    ensures var r := LoadWavPcm16Mono(WavFile(WavMetadata(1, 2, 16000, frameCount), EncodeInt16LE(v)));
      r.Success? && |r.value| == |v| && forall k :: 0 <= k < |v| ==> r.value[k] == v[k] as real / 32768.0
  {
    var raw := EncodeInt16LE(v);
    Int16SeqRoundTrip(v);
    var r := DecodePcm16(raw);
    forall k | 0 <= k < |v| ensures r.value[k] == v[k] as real / 32768.0 {
      assert DecodeInt16LE(raw)[k] == v[k];
    }
  }
}
