/** The WAV decoder: a non-destructive format sniff, construction that hands the stream back
    when the sniff fails, and the pull loop that turns hound's raw sample words into
    normalised samples. The `hound` crate's header parsing and word decoding are modelled by
    a parser function (`HeaderParser`) that yields a spec and the sequence of raw words. */
module Wav {
  import opened Common
  import Decimal
  import SamplesConverter

  // ---------------------------------------------------------------------------------------
  // What hound delivers
  // ---------------------------------------------------------------------------------------

  datatype SampleFormat = Float | Int

  /** The part of `hound::WavSpec` the decoder reads. */
  datatype WavSpec = WavSpec(channels: u16, sampleRate: u32, bitsPerSample: u16, sampleFormat: SampleFormat)

  /** A raw sample word as hound returns it: a float for float data, a signed integer
      (sign-extended to its read type) for integer data. */
  datatype RawWord = FloatWord(x: real) | IntWord(v: int)

  /** A word hound can return for `spec`: a float for float data; for `bits`-bit integer data,
      a signed integer of that width. */
  predicate WordFits(spec: WavSpec, w: RawWord) {
    match spec.sampleFormat
    case Float => w.FloatWord?
    case Int =>
      w.IntWord? && 1 <= spec.bitsPerSample <= 32 &&
      -(Pow2(spec.bitsPerSample as nat - 1) as int) <= w.v < Pow2(spec.bitsPerSample as nat - 1)
  }

  /** `None` marks a word that fails to read (corrupt or truncated data). */
  predicate WordsFit(spec: WavSpec, words: seq<Option<RawWord>>) {
    forall i :: 0 <= i < |words| && words[i].Some? ==> WordFits(spec, words[i].value)
  }

  /** A parsed WAV file as hound sees it: the spec and every sample word of the data chunk,
      at most `u32::MAX` of them (hound's `len()` is a `u32`). */
  datatype WavData = WavData(spec: WavSpec, words: seq<Option<RawWord>>)

  type HoundData = d: WavData | |d.words| < 0x1_0000_0000 && WordsFit(d.spec, d.words)
    witness WavData(WavSpec(1, 1, 16, Int), [])

  /** One attempt to parse a WAV header at a stream position: the data, if the header is
      valid, and the position at which the parser left the stream. */
  datatype ParseAttempt = ParseAttempt(data: Option<HoundData>, posAfter: nat)

  /** hound's header parser, as a function of the stream's bytes and position. */
  type HeaderParser = (seq<byte>, nat) -> ParseAttempt

  predicate IsWaveAt(parse: HeaderParser, bytes: seq<byte>, pos: nat) {
    parse(bytes, pos).data.Some?
  }

  // ---------------------------------------------------------------------------------------
  // Format label and the per-sample conversion
  // ---------------------------------------------------------------------------------------

  /** Reads a label back into the format and bit depth it names. */
  function ParseSampleFormatStr(s: string): Option<(SampleFormat, nat)> {
    if |s| > 5 && s[..5] == "FLOAT" && Decimal.AllDigits(s[5..]) then
      Some((Float, Decimal.ParseDecimal(s[5..])))
    else if |s| > 3 && s[..3] == "PCM" && Decimal.AllDigits(s[3..]) then
      Some((Int, Decimal.ParseDecimal(s[3..])))
    else
      None
  }

  /** `make_sample_format_str`: "FLOAT" or "PCM" followed by the decimal bit depth, and
      nothing else, so the label reads back as exactly the format and depth it was made from. */
  function MakeSampleFormatStr(format: SampleFormat, bits: u16): (s: string)
    ensures ParseSampleFormatStr(s) == Some((format, bits as nat))
  {
    var digits := Decimal.NatToString(bits as nat);
    Decimal.ParseNatToString(bits as nat);
    match format
    case Float =>
      var s := "FLOAT" + digits;
      assert s[..5] == "FLOAT" && s[5..] == digits;
      s
    case Int =>
      var s := "PCM" + digits;
      assert s[..3] == "PCM" && s[3..] == digits;
      assert s[0] == 'P';
      s
  }

  /** Two specs get the same label only if they have the same format and bit depth. */
  lemma SampleFormatStrInjective(f1: SampleFormat, b1: u16, f2: SampleFormat, b2: u16)
    requires MakeSampleFormatStr(f1, b1) == MakeSampleFormatStr(f2, b2)
    ensures f1 == f2 && b1 == b2
  {
  }

  /** The (format, bits) combinations the pull loop has an arm for. */
  predicate Supported(spec: WavSpec) {
    match spec.sampleFormat
    case Float => spec.bitsPerSample == 32
    case Int => spec.bitsPerSample in {32, 24, 16, 8}
  }

  /** The failure the pull loop raises for any other combination. */
  datatype Unsupported = Unsupported(format: SampleFormat, bits: u16)

  /** `value.unwrap_or(0)` for an integer word. */
  function IntOrZero(w: Option<RawWord>): int
    requires w.Some? ==> w.value.IntWord?
  {
    if w.None? then 0 else w.value.v
  }

  /** The sample one raw word yields in the arm for `spec`. A word that failed to read is
      replaced by silence in every arm; an N-bit integer word v decodes to v / 2^(N-1), which
      lies in [-1, 1) so the clamp never acts; a float word passes through unchanged (the
      decoder applies no clamp to it). */
  function SampleOf(spec: WavSpec, w: Option<RawWord>): (r: real)
    requires Supported(spec) && (w.Some? ==> WordFits(spec, w.value))
    ensures w.None? ==> r == 0.0
    ensures spec.sampleFormat == Int ==> -1.0 <= r < 1.0
    ensures spec.sampleFormat == Float && w.Some? ==> r == w.value.x
    ensures spec.sampleFormat == Int && w.Some? ==>
      r == w.value.v as real / Pow2(spec.bitsPerSample as nat - 1) as real
  {
    Pow2Constants();
    if spec.sampleFormat == Float then
      if w.None? then 0.0 else w.value.x
    else
      var v := IntOrZero(w);
      var n := spec.bitsPerSample as nat - 1;
      if spec.bitsPerSample == 32 then
        assert Pow2(n) == 0x8000_0000;
        SamplesConverter.I32ToF32(v as i32)
      else if spec.bitsPerSample == 16 then
        assert Pow2(n) == 0x8000;
        SamplesConverter.I16ToF32(v as i16)
      else if spec.bitsPerSample == 24 then
        assert Pow2(n) == 0x80_0000;
        SamplesConverter.I24ToF32(v as i32)
      else
        assert Pow2(n) == 0x80;
        SamplesConverter.I8ToF32(v as i8)
  }

  /** Every sample the decoder yields for `words`, in order. */
  function Decoded(spec: WavSpec, words: seq<Option<RawWord>>): (r: seq<real>)
    requires Supported(spec) && WordsFit(spec, words)
  {
    seq(|words|, i requires 0 <= i < |words| => SampleOf(spec, words[i]))
  }

  /** A corrupt word in the middle of the stream costs nothing but its own value: the decoded
      stream has the same length, silence in that position, and every other sample intact. */
  lemma CorruptWordResilience(spec: WavSpec, words: seq<Option<RawWord>>, i: nat)
    requires Supported(spec) && WordsFit(spec, words) && i < |words|
    ensures WordsFit(spec, words[i := None])
    ensures |Decoded(spec, words[i := None])| == |Decoded(spec, words)| == |words|
    ensures Decoded(spec, words[i := None]) == Decoded(spec, words)[i := 0.0]
  {
  }

  // ---------------------------------------------------------------------------------------
  // The pull loop as a state machine
  // ---------------------------------------------------------------------------------------

  /** The decoder's state: hound's data and how many samples have been pulled. */
  datatype Progress = Progress(data: HoundData, read: nat) {
    predicate Valid() {
      read <= |data.words|
    }

    /** The exact number of samples still to come. */
    function Remaining(): nat
      requires Valid()
    {
      |data.words| - read
    }
  }

  /** One `next` call: dispatch on (format, bits) first; an unsupported combination fails
      whatever the state, otherwise one word is read if one remains. */
  function Step(p: Progress): (res: (Result<Option<real>, Unsupported>, Progress))
    requires p.Valid()
    ensures res.1.Valid() && res.1.data == p.data
    ensures res.1.read == p.read + 1 <==> res.0.Ok? && res.0.value.Some?
    ensures res.1.read != p.read + 1 ==> res.1.read == p.read
  {
    var spec := p.data.spec;
    if !Supported(spec) then
      (Err(Unsupported(spec.sampleFormat, spec.bitsPerSample)), p)
    else if p.read < |p.data.words| then
      (Ok(Some(SampleOf(spec, p.data.words[p.read]))), p.(read := p.read + 1))
    else
      (Ok(None), p)
  }

  /** `k` successive `next` calls: what each returned, and the state afterwards. */
  function Pulls(p: Progress, k: nat): (r: (seq<Result<Option<real>, Unsupported>>, Progress))
    requires p.Valid()
    ensures |r.0| == k && r.1.Valid() && r.1.data == p.data
    decreases k
  {
    if k == 0 then ([], p)
    else
      var (o, q) := Step(p);
      var (os, end) := Pulls(q, k - 1);
      ([o] + os, end)
  }

  /** On a supported spec, while words remain, each pull yields the next decoded sample and
      counts it: after `k` pulls the yielded samples are the next `k` of `Decoded`, and exactly
      `k` fewer remain. */
  lemma {:induction false} PullsYieldDecoded(p: Progress, k: nat)
    requires p.Valid() && Supported(p.data.spec) && p.read + k <= |p.data.words|
    ensures Pulls(p, k).1.read == p.read + k
    ensures Pulls(p, k).1.Remaining() == p.Remaining() - k
    ensures forall j :: 0 <= j < k ==>
      Pulls(p, k).0[j] == Ok(Some(Decoded(p.data.spec, p.data.words)[p.read + j]))
    decreases k
  {
    if k > 0 {
      var q := Step(p).1;
      PullsYieldDecoded(q, k - 1);
      var os := Pulls(p, k).0;
      forall j | 0 <= j < k
        ensures os[j] == Ok(Some(Decoded(p.data.spec, p.data.words)[p.read + j]))
      {
        if j > 0 {
          assert os[j] == Pulls(q, k - 1).0[j - 1];
        }
      }
    }
  }

  /** Draining a stream of `n` words yields exactly its `n` decoded samples, corrupt words
      included as silence. */
  lemma DrainYieldsAll(data: HoundData)
    requires Supported(data.spec)
    ensures var (os, end) := Pulls(Progress(data, 0), |data.words|);
      end.Remaining() == 0 &&
      forall j :: 0 <= j < |data.words| ==> os[j] == Ok(Some(Decoded(data.spec, data.words)[j]))
  {
    PullsYieldDecoded(Progress(data, 0), |data.words|);
  }

  /** Once the words are exhausted, every further pull returns `None` and counts nothing. */
  lemma {:induction false} PullsAtEnd(p: Progress, k: nat)
    requires p.Valid() && Supported(p.data.spec) && p.Remaining() == 0
    ensures Pulls(p, k).1 == p
    ensures forall j :: 0 <= j < k ==> Pulls(p, k).0[j] == Ok(None)
    decreases k
  {
    if k > 0 {
      PullsAtEnd(p, k - 1);
      var os := Pulls(p, k).0;
      forall j | 0 <= j < k ensures os[j] == Ok(None) {
        if j > 0 {
          assert os[j] == Pulls(p, k - 1).0[j - 1];
        }
      }
    }
  }

  /** An unsupported (format, bits) combination fails on every pull, before and after the
      words are exhausted, and the state never moves. */
  lemma {:induction false} UnsupportedAlwaysFails(p: Progress, k: nat)
    requires p.Valid() && !Supported(p.data.spec)
    ensures Pulls(p, k).1 == p
    ensures forall j :: 0 <= j < k ==>
      Pulls(p, k).0[j] == Err(Unsupported(p.data.spec.sampleFormat, p.data.spec.bitsPerSample))
    decreases k
  {
    if k > 0 {
      UnsupportedAlwaysFails(p, k - 1);
      var os := Pulls(p, k).0;
      forall j | 0 <= j < k
        ensures os[j] == Err(Unsupported(p.data.spec.sampleFormat, p.data.spec.bitsPerSample))
      {
        if j > 0 {
          assert os[j] == Pulls(p, k - 1).0[j - 1];
        }
      }
    }
  }

  // ---------------------------------------------------------------------------------------
  // Duration
  // ---------------------------------------------------------------------------------------

  /** `remaining * 1000 / (channels * sample_rate)` in `u64`: every intermediate product fits,
      and the result is the whole number of milliseconds the remaining samples play for. */
  function DurationMillis(remaining: u32, channels: u16, sampleRate: u32): (ms: u64)
    requires channels > 0 && sampleRate > 0
    ensures ms as int * (channels as int * sampleRate as int) <= remaining as int * 1000
    ensures remaining as int * 1000 < (ms as int + 1) * (channels as int * sampleRate as int)
  {
    ProductFits(channels, sampleRate);
    var num := remaining as u64 * 1000;
    var den := channels as u64 * sampleRate as u64;
    DivisionBounds(num as nat, den as nat);
    num / den
  }

  lemma ProductFits(channels: u16, sampleRate: u32)
    ensures channels as int * sampleRate as int < 0x1_0000_0000_0000
  {
    MulMonotone(channels as nat, 0xFFFF, sampleRate as nat);
  }

  lemma {:induction false} MulMonotone(a: nat, b: nat, c: nat)
    requires a <= b
    ensures a * c <= b * c
  {
    if c > 0 {
      MulMonotone(a, b, c - 1);
      assert a * c == a * (c - 1) + a && b * c == b * (c - 1) + b;
    }
  }

  lemma DivisionBounds(a: nat, b: nat)
    requires b > 0
    ensures (a / b) * b <= a < (a / b + 1) * b
  {
  }

  /** Fewer remaining samples never report a longer duration. */
  lemma DurationMonotone(r1: u32, r2: u32, channels: u16, sampleRate: u32)
    requires channels > 0 && sampleRate > 0 && r1 <= r2
    ensures DurationMillis(r1, channels, sampleRate) <= DurationMillis(r2, channels, sampleRate)
  {
    var d := channels as int * sampleRate as int;
    var m1, m2 := DurationMillis(r1, channels, sampleRate) as int, DurationMillis(r2, channels, sampleRate) as int;
    if m1 > m2 {
      MulMonotone(m2 + 1, m1, d);
      assert false;
    }
  }

  /** With 2 channels at 44100 Hz, a second's worth of samples reports 1000 ms. */
  lemma DurationExample()
    ensures DurationMillis(88200, 2, 44100) == 1000
    ensures DurationMillis(44100, 2, 44100) == 500
    ensures DurationMillis(0, 2, 44100) == 0
  {
  }

  // ---------------------------------------------------------------------------------------
  // The stream and hound's reader
  // ---------------------------------------------------------------------------------------

  /** A seekable byte stream (`R: Read + Seek`): its bytes and its current position. */
  class Stream {
    const bytes: seq<byte>
    var pos: nat

    constructor (bytes: seq<byte>, pos: nat)
      ensures this.bytes == bytes && this.pos == pos
    {
      this.bytes := bytes;
      this.pos := pos;
    }

    /** `seek(SeekFrom::Current(0))`: reports the position. */
    method Position() returns (p: nat)
      ensures p == pos
    {
      p := pos;
    }

    /** `seek(SeekFrom::Start(p))`. */
    method SeekStart(p: nat)
      modifies this
      ensures pos == p
    {
      pos := p;
    }
  }

  /** `hound::WavReader`: owns the stream, holds the parsed data, and counts the words its
      sample iterator has handed out. */
  class WavReader {
    const source: Stream
    const data: HoundData
    var samplesRead: nat

    ghost predicate Valid()
      reads this
    {
      samplesRead <= |data.words|
    }

    constructor (source: Stream, data: HoundData)
      ensures Valid() && this.source == source && this.data == data && samplesRead == 0
    {
      this.source := source;
      this.data := data;
      samplesRead := 0;
    }

    /** `WavReader::new`: parses the header at the stream's position, leaving the stream
        wherever the parser stopped. */
    static method Open(stream: Stream, parse: HeaderParser) returns (r: Option<WavReader>)
      modifies stream
      ensures stream.pos == parse(stream.bytes, old(stream.pos)).posAfter
      ensures r.Some? <==> IsWaveAt(parse, stream.bytes, old(stream.pos))
      ensures r.Some? ==>
        fresh(r.value) && r.value.Valid() && r.value.source == stream &&
        r.value.data == parse(stream.bytes, old(stream.pos)).data.value && r.value.samplesRead == 0
    {
      var attempt := parse(stream.bytes, stream.pos);
      stream.pos := attempt.posAfter;
      if attempt.data.None? {
        return None;
      }
      var reader := new WavReader(stream, attempt.data.value);
      return Some(reader);
    }

    /** `len()`: the number of sample words in the data chunk. */
    function Len(): (n: u32)
      ensures n as int == |data.words|
    {
      |data.words| as u32
    }

    /** `samples().next()`: `None` once every word has been handed out, else the next word,
        which is itself `None` when it fails to read. A word that fails still uses its slot. */
    method NextSample() returns (w: Option<Option<RawWord>>)
      requires Valid()
      modifies this
      ensures Valid()
      ensures old(samplesRead) < |data.words| ==>
        w == Some(data.words[old(samplesRead)]) && samplesRead == old(samplesRead) + 1
      ensures old(samplesRead) == |data.words| ==> w == None && samplesRead == old(samplesRead)
    {
      if samplesRead < |data.words| {
        w := Some(data.words[samplesRead]);
        samplesRead := samplesRead + 1;
      } else {
        w := None;
      }
    }

    /** `into_inner`: gives the stream back. */
    method IntoInner() returns (s: Stream)
      ensures s == source
    {
      s := source;
    }
  }

  // ---------------------------------------------------------------------------------------
  // The decoder
  // ---------------------------------------------------------------------------------------

  /** `is_wave`: tries to parse a header and, whatever the outcome, puts the stream back at
      the position it had on entry. */
  method IsWave(data: Stream, parse: HeaderParser) returns (b: bool)
    modifies data
    ensures b == IsWaveAt(parse, data.bytes, old(data.pos))
    ensures data.pos == old(data.pos)
  {
    var streamPos := data.Position();
    var reader := WavReader.Open(data, parse);
    if reader.None? {
      data.SeekStart(streamPos);
      return false;
    }
    data.SeekStart(streamPos);
    return true;
  }

  /** Sniffing twice in a row gives the same answer and leaves the stream where it was. */
  method SniffTwice(data: Stream, parse: HeaderParser) returns (first: bool, second: bool)
    modifies data
    ensures first == second == IsWaveAt(parse, data.bytes, old(data.pos))
    ensures data.pos == old(data.pos)
  {
    first := IsWave(data, parse);
    second := IsWave(data, parse);
  }

  /** `SamplesIterator`: hound's reader plus the decoder's own count of yielded samples. */
  class SamplesIterator {
    const reader: WavReader
    var samplesRead: u32

    ghost predicate Valid()
      reads this, reader
    {
      reader.Valid() && samplesRead as int == reader.samplesRead
    }

    /** The pull loop's state, as `Step` sees it. */
    ghost function State(): (p: Progress)
      reads this, reader
      requires Valid()
      ensures p.Valid()
    {
      Progress(reader.data, samplesRead as nat)
    }

    constructor (reader: WavReader)
      requires reader.Valid() && reader.samplesRead == 0
      ensures Valid() && this.reader == reader && samplesRead == 0
    {
      this.reader := reader;
      samplesRead := 0;
    }

    /** `Iterator::next`: dispatches on (format, bits) before reading; in a supported arm it
        pulls one word, counts it, and yields its sample (silence for a corrupt word). */
    method Next() returns (r: Result<Option<real>, Unsupported>)
      requires Valid()
      modifies this, reader
      ensures Valid()
      ensures (r, State()) == Step(old(State()))
    {
      var spec := reader.data.spec;
      if !Supported(spec) {
        return Err(Unsupported(spec.sampleFormat, spec.bitsPerSample));
      }
      var w := reader.NextSample();
      if w.Some? {
        samplesRead := samplesRead + 1;
        r := Ok(Some(SampleOf(spec, w.value)));
      } else {
        r := Ok(None);
      }
    }

    /** `size_hint`: `len - samples_read`, an exact count of the samples still to come. The
        `u32` subtraction cannot underflow because `samples_read <= len`. */
    function SizeHint(): (h: SamplesConverter.SizeHint)
      reads this, reader
      requires Valid()
      ensures h.0 == State().Remaining() && SamplesConverter.IsExact(h)
    {
      var len := (reader.Len() - samplesRead) as nat;
      (len, Some(len))
    }
  }

  /** `WavDecoder`: the sample iterator plus the metadata captured from the spec at
      construction. The metadata fields are constants: no pull can change them. */
  class WavDecoder {
    const iter: SamplesIterator
    const sampleRate: u32
    const channels: u16
    const sampleFormatStr: string

    ghost predicate Valid()
      reads this, iter, iter.reader
    {
      iter.Valid() &&
      channels == iter.reader.data.spec.channels &&
      sampleRate == iter.reader.data.spec.sampleRate &&
      sampleFormatStr == MakeSampleFormatStr(iter.reader.data.spec.sampleFormat, iter.reader.data.spec.bitsPerSample)
    }

    /** Builds the decoder over a fresh sample iterator, capturing the spec once. */
    constructor (iter: SamplesIterator)
      requires iter.Valid()
      ensures this.iter == iter && Valid()
    {
      var spec := iter.reader.data.spec;
      this.iter := iter;
      sampleRate := spec.sampleRate;
      channels := spec.channels;
      sampleFormatStr := MakeSampleFormatStr(spec.sampleFormat, spec.bitsPerSample);
    }

    /** `WavDecoder::new`: if the sniff fails, the untouched stream comes back as `Err`, at the
        position it had; otherwise the decoder owns the stream, has read nothing yet, and
        holds the spec the header describes. */
    static method New(data: Stream, parse: HeaderParser) returns (r: Result<WavDecoder, Stream>)
      modifies data
      ensures r.Err? <==> !IsWaveAt(parse, data.bytes, old(data.pos))
      ensures r.Err? ==> r.error == data && data.pos == old(data.pos)
      ensures r.Ok? ==>
        var d := r.value;
        fresh(d) && fresh(d.iter) && fresh(d.iter.reader) && d.Valid() &&
        d.iter.reader.source == data &&
        d.iter.reader.data == parse(data.bytes, old(data.pos)).data.value &&
        d.iter.samplesRead == 0
    {
      var wave := IsWave(data, parse);
      if !wave {
        return Err(data);
      }
      // The sniff left the stream where it was, so parsing again succeeds.
      var reader := WavReader.Open(data, parse);
      var it := new SamplesIterator(reader.value);
      var decoder := new WavDecoder(it);
      return Ok(decoder);
    }

    /** `into_inner`: the stream the decoder was built from. */
    method IntoInner() returns (s: Stream)
      ensures s == iter.reader.source
    {
      s := iter.reader.IntoInner();
    }

    /** `Iterator::next`, delegated to the sample iterator. */
    method Next() returns (r: Result<Option<real>, Unsupported>)
      requires Valid()
      modifies iter, iter.reader
      ensures Valid()
      ensures (r, iter.State()) == Step(old(iter.State()))
    {
      r := iter.Next();
    }

    function SizeHint(): (h: SamplesConverter.SizeHint)
      reads this, iter, iter.reader
      requires Valid()
      ensures h.0 == iter.State().Remaining() && SamplesConverter.IsExact(h)
    {
      iter.SizeHint()
    }

    /** `ExactSizeIterator::len`: the remaining count. */
    function Len(): (n: nat)
      reads this, iter, iter.reader
      requires Valid()
      ensures n == iter.State().Remaining()
    {
      SizeHint().0
    }

    /** The whole stream is one frame: the frame length is never known. */
    function CurrentFrameLen(): (n: Option<nat>)
      ensures n.None?
    {
      None
    }

    function Channels(): (c: u16)
      reads this, iter, iter.reader
      requires Valid()
      ensures c == iter.reader.data.spec.channels
    {
      channels
    }

    function SampleRate(): (r: u32)
      reads this, iter, iter.reader
      requires Valid()
      ensures r == iter.reader.data.spec.sampleRate
    {
      sampleRate
    }

    /** `total_duration`: the play time of the samples not yet pulled, in whole milliseconds.
        The source divides without a check, so a zero channel count or sample rate is
        excluded here. */
    function TotalDuration(): (d: Option<nat>)
      reads this, iter, iter.reader
      requires Valid() && channels > 0 && sampleRate > 0
      ensures d.Some?
      ensures d.value * (channels as nat * sampleRate as nat) <= iter.State().Remaining() * 1000
      ensures iter.State().Remaining() * 1000 < (d.value + 1) * (channels as nat * sampleRate as nat)
    {
      Some(DurationMillis(Len() as u32, channels, sampleRate) as nat)
    }

    function SampleFormatStr(): (s: string)
      reads this, iter, iter.reader
      requires Valid()
      ensures s == MakeSampleFormatStr(iter.reader.data.spec.sampleFormat, iter.reader.data.spec.bitsPerSample)
      ensures ParseSampleFormatStr(s) ==
        Some((iter.reader.data.spec.sampleFormat, iter.reader.data.spec.bitsPerSample as nat))
    {
      sampleFormatStr
    }
  }

  /** The reported duration shrinks as samples are pulled: after `k` pulls it is computed from
      `k` fewer remaining samples and is no larger than before. */
  lemma DurationAfterPulls(p: Progress, k: nat)
    requires p.Valid() && Supported(p.data.spec) && p.read + k <= |p.data.words|
    requires p.data.spec.channels > 0 && p.data.spec.sampleRate > 0
    ensures var q := Pulls(p, k).1;
      q.Remaining() == p.Remaining() - k &&
      DurationMillis(q.Remaining() as u32, p.data.spec.channels, p.data.spec.sampleRate) <=
      DurationMillis(p.Remaining() as u32, p.data.spec.channels, p.data.spec.sampleRate)
  {
    PullsYieldDecoded(p, k);
    DurationMonotone(Pulls(p, k).1.Remaining() as u32, p.Remaining() as u32,
                     p.data.spec.channels, p.data.spec.sampleRate);
  }
}
