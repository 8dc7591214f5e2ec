/** The `Source` capability every stream stage exposes, the `SamplesConverter` adapter that
    re-exposes a source under another sample type, and the integer-to-float sample scalers. */
module SamplesConverter {
  import opened Common

  // ---------------------------------------------------------------------------------------
  // Scalers. Each divides a signed N-bit sample by 2^(N-1) and clamps to [-1, 1].
  // The source computes in IEEE-754 f32; here the division is exact over `real`, so
  // rounding is not captured (for instance `i32::MAX as f32` rounds up to 2^31, so the
  // f32 result for i32::MAX is exactly 1.0, whereas the exact quotient is just below 1).
  // ---------------------------------------------------------------------------------------

  /** `f32::clamp(self, min, max)` for finite values. */
  function Clamp(x: real, lo: real, hi: real): (r: real)
    requires lo <= hi
    ensures lo <= r <= hi
    ensures r == x <==> lo <= x <= hi
    ensures x < lo ==> r == lo
    ensures x > hi ==> r == hi
  {
    if x < lo then lo else if x > hi then hi else x
  }

  lemma ClampMonotone(x: real, y: real, lo: real, hi: real)
    requires lo <= hi && x <= y
    ensures Clamp(x, lo, hi) <= Clamp(y, lo, hi)
  {
  }

  /** `i8_to_f32`: the clamp never triggers for an 8-bit input. */
  function I8ToF32(i: i8): (r: real)
    ensures r == i as real / 128.0
    ensures -1.0 <= r < 1.0
  {
    Pow2Constants();
    Clamp(i as real / Pow2(7) as real, -1.0, 1.0)
  }

  /** `i16_to_f32`: the clamp never triggers for a 16-bit input. */
  function I16ToF32(i: i16): (r: real)
    ensures r == i as real / 32768.0
    ensures -1.0 <= r < 1.0
  {
    Pow2Constants();
    Clamp(i as real / Pow2(15) as real, -1.0, 1.0)
  }

  /** `i24_to_f32`: takes a full `i32`; only a value inside the 24-bit range (or exactly 2^23)
      escapes the clamp. */
  function I24ToF32(i: i32): (r: real)
    ensures -1.0 <= r <= 1.0
    ensures r == i as real / 8388608.0 <==> -8388608 <= i <= 8388608
    ensures i > 8388608 ==> r == 1.0
    ensures i < -8388608 ==> r == -1.0
  {
    Pow2Constants();
    Clamp(i as real / Pow2(23) as real, -1.0, 1.0)
  }

  /** `i32_to_f32`: the clamp never triggers for a 32-bit input. */
  function I32ToF32(i: i32): (r: real)
    ensures r == i as real / 2147483648.0
    ensures -1.0 <= r < 1.0
  {
    Pow2Constants();
    Clamp(i as real / Pow2(31) as real, -1.0, 1.0)
  }

  /** Every scaler maps silence to silence and the most negative value of its width to -1. */
  lemma ScalersFixedPoints()
    ensures I8ToF32(0) == 0.0 && I16ToF32(0) == 0.0 && I24ToF32(0) == 0.0 && I32ToF32(0) == 0.0
    ensures I8ToF32(-128) == -1.0 && I8ToF32(127) == 127.0 / 128.0
    ensures I16ToF32(-32768) == -1.0 && I16ToF32(32767) == 32767.0 / 32768.0
    ensures I24ToF32(-8388608) == -1.0 && I24ToF32(8388607) == 8388607.0 / 8388608.0
    ensures I32ToF32(-2147483648) == -1.0 && I32ToF32(2147483647) == 2147483647.0 / 2147483648.0
  {
  }

  /** Every scaler is monotone non-decreasing in its input. */
  lemma ScalersMonotone(a: i32, b: i32)
    requires a <= b
    ensures I32ToF32(a) <= I32ToF32(b)
    ensures I24ToF32(a) <= I24ToF32(b)
    ensures -0x8000 <= a && b < 0x8000 ==> I16ToF32(a as i16) <= I16ToF32(b as i16)
    ensures -0x80 <= a && b < 0x80 ==> I8ToF32(a as i8) <= I8ToF32(b as i8)
  {
    ClampMonotone(a as real / Pow2(23) as real, b as real / Pow2(23) as real, -1.0, 1.0);
  }

  /** The scalers agree with each other: widening a sample by shifting it left into a wider
      word (as a higher bit depth stores the same amplitude) does not change its value. */
  lemma ScalersAgreeAcrossWidths(i: i8)
    ensures I8ToF32(i) == I16ToF32(i as i16 * 256)
    ensures I16ToF32(i as i16 * 256) == I24ToF32(i as i32 * 65536)
    ensures I24ToF32(i as i32 * 65536) == I32ToF32(i as i32 * 16777216)
  {
  }

  // ---------------------------------------------------------------------------------------
  // The `Source` capability: an iterator plus stream metadata. A source is its current state
  // together with the operations it supports; pulling a sample yields the next state.
  // ---------------------------------------------------------------------------------------

  /** `Iterator::size_hint`: a lower bound and an optional upper bound on what remains. */
  type SizeHint = (nat, Option<nat>)

  /** The hint is exact, as `ExactSizeIterator` promises. */
  predicate IsExact(h: SizeHint) {
    h.1 == Some(h.0)
  }

  /** The operations of a `Source`, over an abstract state `St` and sample type `S`.
      Durations are whole milliseconds. */
  datatype SourceOps<!St, S> = SourceOps(
    next: St -> (Option<S>, St),
    sizeHint: St -> SizeHint,
    currentFrameLen: St -> Option<nat>,
    channels: St -> u16,
    sampleRate: St -> u32,
    totalDuration: St -> Option<nat>,
    sampleFormatStr: St -> string)

  datatype Source<!St, S> = Source(state: St, ops: SourceOps<St, S>) {

    /** `Iterator::next`: the sample (or end of stream) and the source after the pull. */
    function Pull(): (r: (Option<S>, Source<St, S>))
      ensures r.1.ops == ops
    {
      var (o, st) := ops.next(state);
      (o, Source(st, ops))
    }

    function SizeHint(): SizeHint { ops.sizeHint(state) }
    function CurrentFrameLen(): Option<nat> { ops.currentFrameLen(state) }
    function Channels(): u16 { ops.channels(state) }
    function SampleRate(): u32 { ops.sampleRate(state) }
    function TotalDuration(): Option<nat> { ops.totalDuration(state) }
    function SampleFormatStr(): string { ops.sampleFormatStr(state) }
  }

  /** `k` successive pulls: what each returned, and the source afterwards. */
  function Run<St, S>(src: Source<St, S>, k: nat): (r: (seq<Option<S>>, Source<St, S>))
    ensures |r.0| == k && r.1.ops == src.ops
    decreases k
  {
    if k == 0 then ([], src)
    else
      var (o, rest) := src.Pull();
      var (os, end) := Run(rest, k - 1);
      ([o] + os, end)
  }

  /** Applies the conversion to every pulled value, keeping the end-of-stream markers. */
  function MapAll<S, D>(os: seq<Option<S>>, f: S -> D): (r: seq<Option<D>>)
    ensures |r| == |os|
    ensures forall i :: 0 <= i < |os| ==> r[i] == MapOption(os[i], f)
  {
    if os == [] then [] else [MapOption(os[0], f)] + MapAll(os[1..], f)
  }

  /** The operations of `SamplesConverter` over an inner source's operations: `next` maps the
      inner value through `f`, every other operation is the inner one. */
  function ConvertOps<St, S, D>(ops: SourceOps<St, S>, f: S -> D): (r: SourceOps<St, D>)
    ensures r.sizeHint == ops.sizeHint && r.currentFrameLen == ops.currentFrameLen
    ensures r.channels == ops.channels && r.sampleRate == ops.sampleRate
    ensures r.totalDuration == ops.totalDuration && r.sampleFormatStr == ops.sampleFormatStr
  {
    SourceOps(
      st => var (o, st') := ops.next(st); (MapOption(o, f), st'),
      ops.sizeHint,
      ops.currentFrameLen,
      ops.channels,
      ops.sampleRate,
      ops.totalDuration,
      ops.sampleFormatStr)
  }

  /** The converter as a source: it has no state of its own beyond the inner source's. */
  function Converted<St, S, D>(src: Source<St, S>, f: S -> D): (r: Source<St, D>)
    ensures r.state == src.state
    ensures r.Pull().0 == MapOption(src.Pull().0, f) && r.Pull().1.state == src.Pull().1.state
    ensures r.Pull().0.None? <==> src.Pull().0.None?
    ensures r.SizeHint() == src.SizeHint() && r.CurrentFrameLen() == src.CurrentFrameLen()
    ensures r.Channels() == src.Channels() && r.SampleRate() == src.SampleRate()
    ensures r.TotalDuration() == src.TotalDuration() && r.SampleFormatStr() == src.SampleFormatStr()
  {
    Source(src.state, ConvertOps(src.ops, f))
  }

  /** One pull of the converter is one pull of the inner source, mapped. */
  lemma ConvertedPull<St, S, D>(src: Source<St, S>, f: S -> D)
    ensures Converted(src, f).Pull() == (MapOption(src.Pull().0, f), Converted(src.Pull().1, f))
  {
  }

  /** After any number of pulls, the converter has produced exactly the inner source's values
      mapped through the conversion, and it is still the converter over the inner source's
      state. */
  lemma {:induction false} ConvertedRun<St, S, D>(src: Source<St, S>, f: S -> D, k: nat)
    ensures Run(Converted(src, f), k).0 == MapAll(Run(src, k).0, f)
    ensures Run(Converted(src, f), k).1 == Converted(Run(src, k).1, f)
    decreases k
  {
    if k > 0 {
      ConvertedPull(src, f);
      var rest := src.Pull().1;
      ConvertedRun(rest, f, k - 1);
      assert MapAll(Run(src, k).0, f) == [MapOption(src.Pull().0, f)] + MapAll(Run(rest, k - 1).0, f);
    }
  }

  /** The metadata and the length hint of the converter equal the inner source's, at every
      point of the stream; so the converter is exact-size whenever the inner source is, and it
      ends exactly when the inner source does. */
  lemma ConvertedMetadata<St, S, D>(src: Source<St, S>, f: S -> D, k: nat)
    ensures var c, i := Run(Converted(src, f), k).1, Run(src, k).1;
      c.SizeHint() == i.SizeHint() &&
      (IsExact(c.SizeHint()) <==> IsExact(i.SizeHint())) &&
      c.CurrentFrameLen() == i.CurrentFrameLen() &&
      c.Channels() == i.Channels() &&
      c.SampleRate() == i.SampleRate() &&
      c.TotalDuration() == i.TotalDuration() &&
      c.SampleFormatStr() == i.SampleFormatStr()
    ensures forall j :: 0 <= j < k ==>
      (Run(Converted(src, f), k).0[j].None? <==> Run(src, k).0[j].None?)
  {
    ConvertedRun(src, f, k);
  }

  /** `SamplesConverter<I, D>`: wraps an inner source and converts each sample with `convert`
      (the sample-type conversion selected by `D`). */
  class SamplesConverter<!St, S, D> {
    var inner: Source<St, S>
    const convert: S -> D

    /** `SamplesConverter::new`. */
    constructor (input: Source<St, S>, convert: S -> D)
      ensures inner == input && this.convert == convert
    {
      inner := input;
      this.convert := convert;
    }

    /** The converter seen as a `Source` of converted samples. */
    function AsSource(): (s: Source<St, D>)
      reads this
      ensures s.state == inner.state
    {
      Converted(inner, convert)
    }

    /** `inner`: the wrapped source. */
    function Inner(): (s: Source<St, S>)
      reads this
      ensures s == inner && Converted(s, convert) == AsSource()
    {
      inner
    }

    /** `into_inner`: gives the wrapped source back. */
    method IntoInner() returns (s: Source<St, S>)
      ensures s == inner && Converted(s, convert) == AsSource()
    {
      s := inner;
    }

    /** `Iterator::next`: pulls from the inner source exactly once and converts the value. */
    method Next() returns (r: Option<D>)
      modifies this
      ensures inner == old(inner.Pull().1)
      ensures r == MapOption(old(inner.Pull().0), convert)
      ensures (r, AsSource()) == old(AsSource().Pull())
    {
      var (o, rest) := inner.Pull();
      inner := rest;
      r := MapOption(o, convert);
      ConvertedPull(old(inner), convert);
    }

    function SizeHint(): (h: SizeHint)
      reads this
      ensures h == AsSource().SizeHint()
    {
      inner.SizeHint()
    }

    function CurrentFrameLen(): (n: Option<nat>)
      reads this
      ensures n == AsSource().CurrentFrameLen()
    {
      inner.CurrentFrameLen()
    }

    function Channels(): (c: u16)
      reads this
      ensures c == AsSource().Channels()
    {
      inner.Channels()
    }

    function SampleRate(): (r: u32)
      reads this
      ensures r == AsSource().SampleRate()
    {
      inner.SampleRate()
    }

    function TotalDuration(): (d: Option<nat>)
      reads this
      ensures d == AsSource().TotalDuration()
    {
      inner.TotalDuration()
    }

    function SampleFormatStr(): (s: string)
      reads this
      ensures s == AsSource().SampleFormatStr()
    {
      inner.SampleFormatStr()
    }
  }
}
