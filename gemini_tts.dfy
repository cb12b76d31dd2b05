/** `GeminiTTSService`: the audio MIME parameter parser, the PCM-to-WAV
    encoder, and the accumulation of streamed audio in `synthesize_dialog`. */
module GeminiTTS {
  import opened Wrappers
  import opened Strings
  import opened ByteSeq

  // ---------------------------------------------------------------------------
  // `_parse_audio_mime`
  // ---------------------------------------------------------------------------

  /** The two parameters read from an audio MIME type. */
  datatype AudioParams = AudioParams(bitsPerSample: int, rate: int)

  const DefaultParams := AudioParams(16, 24000)

  /** What one `;`-separated part says: a rate, a sample width (each with the
      number `int()` made of it, `None` where it raises), or nothing. */
  datatype Param = Rate(number: Option<int>) | Width(number: Option<int>) | Other

  /** `part.strip().lower()` */
  function Normalize(part: string): string {
    Lower(Strip(part))
  }

  /** A part read as a parameter: `rate=N` or `audio/lN` once stripped and
      lower-cased, with `N` the text after the first `=` or the first `l`. */
  function Classify(part: string): Param {
    var p := Normalize(part);
    if StartsWith(p, "rate=") then Rate(ParseInt(p[5..]))
    else if StartsWith(p, "audio/l") then Width(ParseInt(p[7..]))
    else Other
  }

  /** A parameter updating the values: a number that did not parse leaves
      the value as it was. */
  function ApplyParam(acc: AudioParams, q: Param): AudioParams {
    match q
    case Rate(Some(n)) => acc.(rate := n)
    case Width(Some(n)) => acc.(bitsPerSample := n)
    case _ => acc
  }

  /** The values after the parameters, taken left to right from the defaults. */
  function ParamsOf(qs: seq<Param>): AudioParams {
    if qs == [] then DefaultParams
    else ApplyParam(ParamsOf(qs[..|qs| - 1]), qs[|qs| - 1])
  }

  /** `(mime_type or "").split(";")` */
  function MimeParts(mime: Option<string>): seq<string> {
    Split(if mime.Some? then mime.value else "", ';')
  }

  /** Every part read as a parameter. */
  function ClassifyAll(parts: seq<string>): (r: seq<Param>)
    ensures |r| == |parts|
  {
    if parts == [] then []
    else ClassifyAll(parts[..|parts| - 1]) + [Classify(parts[|parts| - 1])]
  }

  /** Every part of the MIME type read as a parameter. */
  function MimeParams(mime: Option<string>): seq<Param> {
    ClassifyAll(MimeParts(mime))
  }

  /** `_parse_audio_mime`. */
  method ParseAudioMime(mime: Option<string>) returns (params: AudioParams)
    ensures params == ParamsOf(MimeParams(mime))
  {
    params := ReadParts(MimeParts(mime));
  }

  /** The loop of `_parse_audio_mime` over the parts. */
  method ReadParts(parts: seq<string>) returns (params: AudioParams)
    ensures params == ParamsOf(ClassifyAll(parts))
  {
    params := DefaultParams;
    var i := 0;
    while i < |parts|
      invariant 0 <= i <= |parts|
      invariant params == ParamsOf(ClassifyAll(parts[..i]))
    {
      var q := Classify(parts[i]);
      assert parts[..i + 1][..i] == parts[..i];
      assert ClassifyAll(parts[..i + 1]) == ClassifyAll(parts[..i]) + [q];
      ParamsOfSnoc(ClassifyAll(parts[..i]), q);
      params := ApplyParam(params, q);
      i := i + 1;
    }
    assert parts[..i] == parts;
  }

  /** The values after one more parameter. */
  lemma ParamsOfSnoc(qs: seq<Param>, q: Param)
    ensures ParamsOf(qs + [q]) == ApplyParam(ParamsOf(qs), q)
  {
    assert (qs + [q])[..|qs|] == qs;
  }

  /** Without a parsed rate or width the values are the defaults, 16 bits at
      24000 Hz. */
  lemma {:induction false} DefaultsWithoutParameters(qs: seq<Param>)
    requires forall i :: 0 <= i < |qs| ==> qs[i].Other? || qs[i].number.None?
    ensures ParamsOf(qs) == DefaultParams
  {
    if qs != [] {
      DefaultsWithoutParameters(qs[..|qs| - 1]);
    }
  }

  /** A missing MIME type yields the defaults. */
  lemma MissingMime()
    ensures ParamsOf(MimeParams(None)) == DefaultParams
  {
    assert MimeParts(None) == [""];
    StripUnpadded("");
    assert Normalize("") == "";
    assert [""][..0] == [];
    assert ClassifyAll([""]) == [Other];
    DefaultsWithoutParameters([Other]);
  }

  /** Whatever came before, the last parsed rate decides the rate and the last
      parsed width the sample width: a later part overrides an earlier one,
      and a part whose number does not parse changes nothing. */
  lemma {:induction false} LastParsedWins(qs: seq<Param>)
    ensures ParamsOf(qs).rate == LastNumber(qs, true, DefaultParams.rate)
    ensures ParamsOf(qs).bitsPerSample == LastNumber(qs, false, DefaultParams.bitsPerSample)
  {
    if qs != [] {
      LastParsedWins(qs[..|qs| - 1]);
    }
  }

  /** The number of the last rate (`rate`) or width (`!rate`) parameter that
      parsed, or `default`; read from the end. */
  function LastNumber(qs: seq<Param>, rate: bool, default: int): int {
    if qs == [] then default
    else
      var q := qs[|qs| - 1];
      if q.Other? || q.number.None? || q.Rate? != rate then LastNumber(qs[..|qs| - 1], rate, default)
      else q.number.value
  }

  // ---------------------------------------------------------------------------
  // `_convert_pcm_to_wav`
  // ---------------------------------------------------------------------------

  /** `struct.pack` format `H` takes `0 <= n < 2^16`, format `I` takes
      `0 <= n < 2^32`. */
  predicate IsU16(n: int) { 0 <= n < 0x1_0000 }
  predicate IsU32(n: int) { 0 <= n < 0x1_0000_0000 }

  /** `<H`: two bytes, least significant first. */
  function Le16(n: int): (r: Bytes)
    requires IsU16(n)
    ensures |r| == 2
  {
    assert 256 * (n / 256) <= n;
    [n % 256, n / 256]
  }

  /** `<I`: four bytes, least significant first. */
  function Le32(n: int): (r: Bytes)
    requires IsU32(n)
    ensures |r| == 4
  {
    Le16(n % 0x1_0000) + Le16(n / 0x1_0000)
  }

  /** The number two little-endian bytes at `i` stand for. */
  function U16At(b: Bytes, i: nat): int
    requires i + 2 <= |b|
  {
    b[i] as int + 256 * (b[i + 1] as int)
  }

  /** The number four little-endian bytes at `i` stand for. */
  function U32At(b: Bytes, i: nat): int
    requires i + 4 <= |b|
  {
    U16At(b, i) + 0x1_0000 * U16At(b, i + 2)
  }

  lemma Le16RoundTrip(n: int)
    requires IsU16(n)
    ensures U16At(Le16(n), 0) == n
  {
  }

  lemma Le32RoundTrip(n: int)
    requires IsU32(n)
    ensures U32At(Le32(n), 0) == n
  {
    var b := Le32(n);
    assert b[..2] == Le16(n % 0x1_0000) && b[2..] == Le16(n / 0x1_0000);
    assert U16At(b, 0) == U16At(Le16(n % 0x1_0000), 0);
    assert U16At(b, 2) == U16At(Le16(n / 0x1_0000), 0);
    Le16RoundTrip(n % 0x1_0000);
    Le16RoundTrip(n / 0x1_0000);
  }

  /** The fields of a canonical RIFF/WAVE PCM header (format
      `<4sI4s4sIHHIIHH4sI`), without its four fixed tags. */
  datatype WavHeader = WavHeader(
    chunkSize: int, fmtSize: int, audioFormat: int, channels: int,
    sampleRate: int, byteRate: int, blockAlign: int, bitsPerSample: int, dataSize: int)

  /** Every field fits its `struct` format, so packing does not raise. */
  predicate Fits(h: WavHeader) {
    && IsU32(h.chunkSize) && IsU32(h.fmtSize) && IsU16(h.audioFormat) && IsU16(h.channels)
    && IsU32(h.sampleRate) && IsU32(h.byteRate) && IsU16(h.blockAlign) && IsU16(h.bitsPerSample)
    && IsU32(h.dataSize)
  }

  /** `RIFF`, chunk size, `WAVE` */
  function RiffBlock(h: WavHeader): (r: Bytes)
    requires Fits(h)
    ensures |r| == 12
  {
    Ascii("RIFF") + Le32(h.chunkSize) + Ascii("WAVE")
  }

  /** `fmt `, format block size, format, channels, rate, byte rate, block
      align, bits per sample */
  function FmtBlock(h: WavHeader): (r: Bytes)
    requires Fits(h)
    ensures |r| == 24
  {
    Ascii("fmt ") + Le32(h.fmtSize) + Le16(h.audioFormat) + Le16(h.channels)
    + Le32(h.sampleRate) + Le32(h.byteRate) + Le16(h.blockAlign) + Le16(h.bitsPerSample)
  }

  /** `data`, data size */
  function DataBlock(h: WavHeader): (r: Bytes)
    requires Fits(h)
    ensures |r| == 8
  {
    Ascii("data") + Le32(h.dataSize)
  }

  /** `struct.pack("<4sI4s4sIHHIIHH4sI", ...)`: 44 bytes. */
  function EncodeHeader(h: WavHeader): (r: Bytes)
    requires Fits(h)
    ensures |r| == 44
  {
    RiffBlock(h) + FmtBlock(h) + DataBlock(h)
  }

  /** Reading a header back: the fields at their offsets, provided the four
      tags are in place. */
  function DecodeHeader(b: Bytes): Option<WavHeader> {
    if |b| >= 44 && b[0..4] == Ascii("RIFF") && b[8..12] == Ascii("WAVE")
       && b[12..16] == Ascii("fmt ") && b[36..40] == Ascii("data")
    then Some(WavHeader(U32At(b, 4), U32At(b, 16), U16At(b, 20), U16At(b, 22),
                        U32At(b, 24), U32At(b, 28), U16At(b, 32), U16At(b, 34), U32At(b, 40)))
    else None
  }

  /** Four bytes at `i` read as a number, through the slice. */
  lemma U32Slice(b: Bytes, i: nat)
    requires i + 4 <= |b|
    ensures U32At(b, i) == U32At(b[i..i + 4], 0)
  {
  }

  lemma U16Slice(b: Bytes, i: nat)
    requires i + 2 <= |b|
    ensures U16At(b, i) == U16At(b[i..i + 2], 0)
  {
  }

  /** The slices of the 44-byte header that hold the RIFF block's fields. */
  lemma RiffFields(h: WavHeader, b: Bytes)
    requires Fits(h) && |b| >= 44 && b[..44] == EncodeHeader(h)
    ensures b[0..4] == Ascii("RIFF") && b[8..12] == Ascii("WAVE")
    ensures U32At(b, 4) == h.chunkSize
  {
    var r := RiffBlock(h);
    assert b[..12] == r;
    assert r[..4] == Ascii("RIFF") && r[4..8] == Le32(h.chunkSize) && r[8..] == Ascii("WAVE");
    U32Slice(b, 4);
    assert b[4..8] == r[4..8];
    Le32RoundTrip(h.chunkSize);
  }

  /** The format block sits at offset 12. */
  lemma FmtAt(h: WavHeader, b: Bytes)
    requires Fits(h) && |b| >= 44 && b[..44] == EncodeHeader(h)
    ensures b[12..36] == FmtBlock(h)
  {
    assert b[..44][12..36] == FmtBlock(h);
  }

  /** The 4-byte fields of the format block. */
  lemma FmtWideFields(h: WavHeader, f: Bytes)
    requires Fits(h) && f == FmtBlock(h)
    ensures f[0..4] == Ascii("fmt ")
    ensures U32At(f, 4) == h.fmtSize && U32At(f, 12) == h.sampleRate && U32At(f, 16) == h.byteRate
  {
    assert f[4..8] == Le32(h.fmtSize);
    assert f[12..16] == Le32(h.sampleRate);
    assert f[16..20] == Le32(h.byteRate);
    U32Slice(f, 4);
    U32Slice(f, 12);
    U32Slice(f, 16);
    Le32RoundTrip(h.fmtSize);
    Le32RoundTrip(h.sampleRate);
    Le32RoundTrip(h.byteRate);
  }

  /** The 2-byte fields of the format block. */
  lemma FmtNarrowFields(h: WavHeader, f: Bytes)
    requires Fits(h) && f == FmtBlock(h)
    ensures U16At(f, 8) == h.audioFormat && U16At(f, 10) == h.channels
    ensures U16At(f, 20) == h.blockAlign && U16At(f, 22) == h.bitsPerSample
  {
    assert f[8..10] == Le16(h.audioFormat);
    assert f[10..12] == Le16(h.channels);
    assert f[20..22] == Le16(h.blockAlign);
    assert f[22..24] == Le16(h.bitsPerSample);
    U16Slice(f, 8);
    U16Slice(f, 10);
    U16Slice(f, 20);
    U16Slice(f, 22);
  }

  /** The data block's fields. */
  lemma DataFields(h: WavHeader, b: Bytes)
    requires Fits(h) && |b| >= 44 && b[..44] == EncodeHeader(h)
    ensures b[36..40] == Ascii("data") && U32At(b, 40) == h.dataSize
  {
    var d := DataBlock(h);
    assert b[36..44] == b[..44][36..44] == d;
    assert d[..4] == Ascii("data") && d[4..] == Le32(h.dataSize);
    assert b[40..44] == d[4..];
    U32Slice(b, 40);
    Le32RoundTrip(h.dataSize);
  }

  /** The header decodes to the fields it was packed from, whatever follows it. */
  lemma HeaderRoundTrip(h: WavHeader, data: Bytes)
    requires Fits(h)
    ensures DecodeHeader(EncodeHeader(h) + data) == Some(h)
  {
    var b := EncodeHeader(h) + data;
    assert b[..44] == EncodeHeader(h);
    RiffFields(h, b);
    DataFields(h, b);
    FmtAt(h, b);
    var f := b[12..36];
    FmtWideFields(h, f);
    FmtNarrowFields(h, f);
    assert b[12..16] == f[0..4];
    U32Slice(b, 16); U32Slice(f, 4);
    U32Slice(b, 24); U32Slice(f, 12);
    U32Slice(b, 28); U32Slice(f, 16);
    U16Slice(b, 20); U16Slice(f, 8);
    U16Slice(b, 22); U16Slice(f, 10);
    U16Slice(b, 32); U16Slice(f, 20);
    U16Slice(b, 34); U16Slice(f, 22);
    assert b[16..20] == f[4..8] && b[24..28] == f[12..16] && b[28..32] == f[16..20];
    assert b[20..22] == f[8..10] && b[22..24] == f[10..12] && b[32..34] == f[20..22] && b[34..36] == f[22..24];
  }

  /** The message `struct.pack` raises when a field is out of range. */
  const PackError := "struct.error: argument out of range"

  /** The header for mono PCM: 16-byte format block, format 1, one channel,
      `bits // 8` bytes per sample (Python's floor division, which Dafny's
      `/` matches for a positive divisor). */
  function PcmHeader(bits: int, rate: int, dataSize: nat): WavHeader {
    var blockAlign := 1 * (bits / 8);
    WavHeader(36 + dataSize, 16, 1, 1, rate, rate * blockAlign, blockAlign, bits, dataSize)
  }

  /** `params["bits_per_sample"] or 16` and `params["rate"] or 24000` */
  function EffectiveParams(mime: string): (r: AudioParams)
    ensures r.bitsPerSample != 0 && r.rate != 0
    ensures ParamsOf(MimeParams(Some(mime))).bitsPerSample == 0 ==> r.bitsPerSample == 16
    ensures ParamsOf(MimeParams(Some(mime))).bitsPerSample != 0 ==> r.bitsPerSample == ParamsOf(MimeParams(Some(mime))).bitsPerSample
    ensures ParamsOf(MimeParams(Some(mime))).rate == 0 ==> r.rate == 24000
    ensures ParamsOf(MimeParams(Some(mime))).rate != 0 ==> r.rate == ParamsOf(MimeParams(Some(mime))).rate
  {
    var p := ParamsOf(MimeParams(Some(mime)));
    AudioParams(if p.bitsPerSample == 0 then 16 else p.bitsPerSample, if p.rate == 0 then 24000 else p.rate)
  }

  /** `_convert_pcm_to_wav`: the packed header followed by the audio. */
  function ConvertPcmToWav(data: Bytes, mime: string): Result<Bytes> {
    var p := EffectiveParams(mime);
    PcmToWav(data, p.bitsPerSample, p.rate)
  }

  /** The width used is the last `audio/lN` number that parsed and the rate
      the last `rate=N` number that parsed, except that a missing one or a
      parsed 0 gives 16 bits or 24000 Hz. */
  lemma EffectiveIsLastParsed(mime: string)
    ensures
      var bits := LastNumber(MimeParams(Some(mime)), false, 16);
      EffectiveParams(mime).bitsPerSample == if bits == 0 then 16 else bits
    ensures
      var rate := LastNumber(MimeParams(Some(mime)), true, 24000);
      EffectiveParams(mime).rate == if rate == 0 then 24000 else rate
  {
    LastParsedWins(MimeParams(Some(mime)));
  }

  /** A MIME type without a parsable rate or `audio/lN` part, such as plain
      `audio/pcm`, converts to a 16-bit WAV at 24000 Hz: the 44-byte header
      reads back as mono PCM with those values, followed by the audio, and
      packing fails only when the audio is too long for the size fields. */
  lemma DefaultWav(data: Bytes, mime: string)
    requires forall i :: 0 <= i < |MimeParams(Some(mime))| ==>
               MimeParams(Some(mime))[i].Other? || MimeParams(Some(mime))[i].number.None?
    ensures ConvertPcmToWav(data, mime) == PcmToWav(data, 16, 24000)
    ensures ConvertPcmToWav(data, mime).Success? <==> 36 + |data| < 0x1_0000_0000
    ensures ConvertPcmToWav(data, mime).Success? ==>
      && |ConvertPcmToWav(data, mime).value| == 44 + |data| && ConvertPcmToWav(data, mime).value[44..] == data
      && DecodeHeader(ConvertPcmToWav(data, mime).value) == Some(PcmHeader(16, 24000, |data|))
  {
    DefaultsWithoutParameters(MimeParams(Some(mime)));
    WavContract(data, 16, 24000);
  }

  /** The packing for a given sample width and rate. */
  function PcmToWav(data: Bytes, bits: int, rate: int): Result<Bytes> {
    var h := PcmHeader(bits, rate, |data|);
    if Fits(h) then Success(EncodeHeader(h) + data) else Failure(PackError)
  }

  /** The WAV file is the 44-byte header, which reads back as the mono PCM
      header for that width and rate, followed by the audio unchanged; it is
      produced exactly when every header field fits its format, and otherwise
      packing raises. */
  lemma WavContract(data: Bytes, bits: int, rate: int)
    ensures
      var w := PcmToWav(data, bits, rate);
      && (w.Success? <==>
            && 0 <= bits < 0x1_0000 && 0 <= rate < 0x1_0000_0000
            && rate * (bits / 8) < 0x1_0000_0000 && 36 + |data| < 0x1_0000_0000)
      && (w.Failure? ==> w.error == PackError)
      && (w.Success? ==>
            && |w.value| == 44 + |data| && w.value[44..] == data
            && DecodeHeader(w.value) == Some(PcmHeader(bits, rate, |data|)))
  {
    var h := PcmHeader(bits, rate, |data|);
    if 0 <= bits < 0x1_0000 && 0 <= rate {
      assert 0 <= bits / 8 < 0x1_0000;
      assert 0 <= rate * (bits / 8);
    }
    if Fits(h) {
      HeaderRoundTrip(h, data);
      assert (EncodeHeader(h) + data)[44..] == data;
    }
  }

  // ---------------------------------------------------------------------------
  // `synthesize_dialog`: accumulating the stream
  // ---------------------------------------------------------------------------

  /** `inline_data`: the bytes and their MIME type. */
  datatype InlineData = InlineData(data: Bytes, mimeType: Option<string>)

  /** A content part: inline audio, or text. */
  datatype Part = Part(inlineData: Option<InlineData>, text: Option<string>)

  /** A candidate and its content's parts (`None` when there is no content). */
  datatype Candidate = Candidate(content: Option<seq<Part>>)

  /** One streamed response chunk. */
  datatype StreamChunk = StreamChunk(candidates: seq<Candidate>)

  /** The audio a chunk carries: the first part of the first candidate's
      content, when it has inline data with non-empty bytes. */
  function AudioOf(c: StreamChunk): (r: Option<InlineData>)
    ensures r.Some? ==> r.value.data != []
  {
    if c.candidates == [] || c.candidates[0].content.None? || c.candidates[0].content.value == [] then None
    else
      var part0 := c.candidates[0].content.value[0];
      if part0.inlineData.Some? && part0.inlineData.value.data != [] then part0.inlineData else None
  }

  /** The audio pieces of the stream, in stream order. */
  function Pieces(stream: seq<StreamChunk>): (r: seq<Bytes>)
    ensures forall i :: 0 <= i < |r| ==> r[i] != []
  {
    if stream == [] then []
    else
      var c := stream[|stream| - 1];
      Pieces(stream[..|stream| - 1]) + (if AudioOf(c).Some? then [AudioOf(c).value.data] else [])
  }

  /** `final_mime`: the last non-empty MIME type that came with audio. */
  function LastMime(stream: seq<StreamChunk>): (r: Option<string>)
    ensures r.Some? ==> r.value != ""
  {
    if stream == [] then None
    else
      var a := AudioOf(stream[|stream| - 1]);
      if a.Some? && a.value.mimeType.Some? && a.value.mimeType.value != "" then a.value.mimeType
      else LastMime(stream[..|stream| - 1])
  }

  /** `b"".join(...)` */
  function Concat(pieces: seq<Bytes>): Bytes {
    if pieces == [] then [] else Concat(pieces[..|pieces| - 1]) + pieces[|pieces| - 1]
  }

  /** The loop over the stream: the pieces of audio and the final MIME type. */
  method CollectAudio(stream: seq<StreamChunk>) returns (chunks: seq<Bytes>, finalMime: Option<string>)
    ensures chunks == Pieces(stream) && finalMime == LastMime(stream)
  {
    chunks := [];
    finalMime := None;
    var i := 0;
    while i < |stream|
      invariant 0 <= i <= |stream|
      invariant chunks == Pieces(stream[..i]) && finalMime == LastMime(stream[..i])
    {
      assert stream[..i + 1][..i] == stream[..i];
      var c := stream[i];
      if !(c.candidates == [] || c.candidates[0].content.None?) {
        var parts := c.candidates[0].content.value;
        if parts != [] {
          var part0 := parts[0];
          if part0.inlineData.Some? && part0.inlineData.value.data != [] {
            if part0.inlineData.value.mimeType.Some? && part0.inlineData.value.mimeType.value != "" {
              finalMime := part0.inlineData.value.mimeType;
            }
            chunks := chunks + [part0.inlineData.value.data];
          }
        }
      }
      i := i + 1;
    }
    assert stream[..i] == stream;
  }

  /** The finished audio: its file name and its bytes. */
  datatype AudioFile = AudioFile(path: string, bytes: Bytes)

  const NoAudio := "No se recibieron datos de audio del stream."

  /** `mimetypes.guess_extension`: an extension for a MIME type, if known. */
  type ExtensionGuess = string -> Option<string>

  /** `synthesize_dialog` from the stream on: concatenate the audio; with a
      known extension keep it as it is, otherwise treat it as raw PCM and wrap
      it in a WAV header. The file write itself is not modelled. */
  method SynthesizeDialog(stream: seq<StreamChunk>, guessExtension: ExtensionGuess, basename: string)
    returns (r: Result<AudioFile>)
    ensures Pieces(stream) == [] ==> r == Failure(NoAudio)
    ensures Pieces(stream) != [] ==>
      var audio := Concat(Pieces(stream));
      var mime := LastMime(stream);
      var ext := guessExtension(if mime.Some? then mime.value else "");
      && (ext.Some? ==> r == Success(AudioFile(basename + ext.value, audio)))
      && (ext.None? ==>
            var wav := ConvertPcmToWav(audio, if mime.Some? then mime.value else "audio/L16;rate=24000");
            && (r.Success? <==> wav.Success?)
            && (r.Success? ==> r.value == AudioFile(basename + ".wav", wav.value))
            && (r.Failure? ==> r.error == wav.error))
  {
    var chunks, finalMime := CollectAudio(stream);
    if chunks == [] {
      return Failure(NoAudio);
    }
    var audio := Concat(chunks);
    var ext := guessExtension(if finalMime.Some? then finalMime.value else "");
    if ext.None? {
      var wav := ConvertPcmToWav(audio, if finalMime.Some? then finalMime.value else "audio/L16;rate=24000");
      if wav.Failure? {
        return Failure(wav.error);
      }
      r := Success(AudioFile(basename + ".wav", wav.value));
    } else {
      r := Success(AudioFile(basename + ext.value, audio));
    }
  }

  /** The audio of a stream split in two is the audio of the first half
      followed by that of the second: pieces keep stream order. */
  lemma {:induction false} PiecesAppend(a: seq<StreamChunk>, b: seq<StreamChunk>)
    ensures Pieces(a + b) == Pieces(a) + Pieces(b)
    decreases |b|
  {
    if b != [] {
      var b' := b[..|b| - 1];
      assert (a + b)[..|a + b| - 1] == a + b';
      assert (a + b)[|a + b| - 1] == b[|b| - 1];
      PiecesAppend(a, b');
    } else {
      assert a + b == a;
    }
  }

  /** A chunk without audio (no candidates, no content, no parts, or a first
      part without bytes) contributes nothing. */
  lemma SkippedChunk(a: seq<StreamChunk>, c: StreamChunk, b: seq<StreamChunk>)
    requires AudioOf(c).None?
    ensures Pieces(a + [c] + b) == Pieces(a + b)
    ensures LastMime(a + [c] + b) == LastMime(a + b)
  {
    PiecesAppend(a + [c], b);
    PiecesAppend(a, b);
    assert (a + [c])[..|a|] == a;
    LastMimeAppend(a + [c], b);
    LastMimeAppend(a, b);
  }

  /** A MIME type that arrives later replaces an earlier one; chunks without
      one leave it alone. */
  lemma {:induction false} LastMimeAppend(a: seq<StreamChunk>, b: seq<StreamChunk>)
    ensures LastMime(a + b) == if LastMime(b).Some? then LastMime(b) else LastMime(a)
    decreases |b|
  {
    if b != [] {
      var b' := b[..|b| - 1];
      assert (a + b)[..|a + b| - 1] == a + b';
      assert (a + b)[|a + b| - 1] == b[|b| - 1];
      LastMimeAppend(a, b');
    } else {
      assert a + b == a;
    }
  }

  /** The concatenation is empty exactly when no audio piece arrived, so "no
      audio" means no bytes at all. */
  lemma {:induction false} ConcatEmpty(pieces: seq<Bytes>)
    requires forall i :: 0 <= i < |pieces| ==> pieces[i] != []
    ensures Concat(pieces) == [] <==> pieces == []
    ensures |Concat(pieces)| >= |pieces|
  {
    if pieces != [] {
      ConcatEmpty(pieces[..|pieces| - 1]);
    }
  }
}
