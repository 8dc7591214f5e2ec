# rodio WAV decoding: sample stream and sample converter

A Dafny model of the sample-stream layer of rodio's WAV decoding path.

- **`WavDecoder`** (`src/decoder/wav.rs`) sniffs a seekable byte stream for a WAV header and puts the stream back where it was. If the sniff fails, construction hands the stream back untouched. Otherwise it captures the channel count, the sample rate and a `"FLOAT{bits}"`/`"PCM{bits}"` label. Each pull then turns one raw sample word from the `hound` reader into a normalised sample:
  - a word that fails to read becomes silence;
  - an unsupported (format, bit depth) pair is a hard failure on every pull.
- **`SamplesConverter`** (`src/source/samples_converter.rs`) wraps any `Source`. It converts each pulled sample and passes every piece of metadata through unchanged. The same file holds the `i8_to_f32`, `i16_to_f32`, `i24_to_f32` and `i32_to_f32` scalers.

Files:

- `common.dfy` (module `Common`): Rust's fixed-width integers as newtypes, `Option`, `Result`, powers of two.
- `decimal.dfy` (module `Decimal`): the decimal text `format!("{}", n)` prints for an unsigned number, and its inverse.
- `samples_converter.dfy` (module `SamplesConverter`):
  - the scalers, over `real`;
  - the `Source` capability as a value: a state plus a record of total functions for `next`, `size_hint` and the metadata getters;
  - the pure converter `Converted`;
  - the class `SamplesConverter`, proved against `Converted`.
- `wav.dfy` (module `Wav`), with `hound` reduced to a header-parser function that yields a spec and the raw words:
  - the stream (`Stream`: bytes and a position);
  - hound's reader (`WavReader`);
  - `SamplesIterator` and `WavDecoder` as classes;
  - the pull loop as a pure state machine (`Progress`, `Step`, `Pulls`). The classes' `Next` methods are proved to take exactly one `Step`.

Behaviour of the code worth knowing, which the model keeps:

- Only the integer arms clamp. A 32-bit float sample is passed through as read (`value.unwrap_or(0.0)`), so `SampleOf` states pass-through for float words, and only the integer arms lie in [-1, 1).
- Neither a zero channel count nor a zero sample rate is rejected. `WavDecoder.New` accepts such a spec, and `total_duration` divides by their product without a check. So `TotalDuration` requires both to be positive.
- The duration is computed from `self.len()`, the number of samples still to come, not from the total. So it shrinks as samples are pulled (`DurationAfterPulls`).

## Model

| member | source | states |
|---|---|---|
| `Decimal.ParseNatToString` | src/decoder/wav.rs:12-13 | the decimal rendering of the bit depth reads back as that number |
| `Decimal.NatToStringInjective` | src/decoder/wav.rs:12-13 | different bit depths render as different text |
| `Decimal.NatToString` | src/decoder/wav.rs:12-13 | `format!("{}")` of the bit depth: a non-empty string of digits with no leading zero |
| `Wav.MakeSampleFormatStr` | src/decoder/wav.rs:10-15 | the label is "FLOAT" or "PCM" followed by the decimal bit depth and nothing else: it parses back to exactly (format, bits) |
| `Wav.SampleFormatStrInjective` | src/decoder/wav.rs:10-15 | two specs share a label only if format and bit depth are equal |
| `Wav.Stream.Position` | src/decoder/wav.rs:166 | `seek(SeekFrom::Current(0))` reports the current position |
| `Wav.Stream.SeekStart` | src/decoder/wav.rs:169 | `seek(SeekFrom::Start(p))` sets the position to p |
| `Wav.WavReader.Open` | src/decoder/wav.rs:168 | `WavReader::new` succeeds exactly when the header at the current position is valid; the stream is left where the parser stopped; the new reader owns the stream and has read nothing |
| `Wav.IsWave` | src/decoder/wav.rs:162-175 | the result is whether a valid header starts at the entry position, and the position is restored on both the false and the true path |
| `Wav.SniffTwice` | src/decoder/wav.rs:162-175 | two sniffs in a row give the same answer and leave the position unchanged |
| `Wav.WavDecoder.New` | src/decoder/wav.rs:33-51 | on a failed sniff: `Err` holding the same stream at its entry position; otherwise: a fresh decoder that owns the stream, has read nothing, and holds the spec the header describes |
| `Wav.WavDecoder.constructor` | src/decoder/wav.rs:45-50 | channels, sample rate and label are captured from the spec; they are constants, so no later pull changes them |
| `Wav.WavDecoder.IntoInner` | src/decoder/wav.rs:52-54 | hands back the stream the decoder was built from |
| `Wav.SamplesIterator.constructor` | src/decoder/wav.rs:40-43 | a fresh iterator over a fresh reader, with `samples_read == 0` |
| `Wav.WavReader.IntoInner` | src/decoder/wav.rs:53 | hound's `into_inner` gives back the stream the reader owns |
| `Wav.WavReader.Len` | src/decoder/wav.rs:104 | `len()` is the number of sample words in the data chunk |
| `Wav.WavReader.NextSample` | src/decoder/wav.rs:75 | `samples().next()` hands out the next word and advances hound's own counter; `None` at the end, with nothing counted |
| `Wav.SampleOf` | src/decoder/wav.rs:75-94 | a corrupt word yields 0.0 in every supported arm; an N-bit integer word v yields v / 2^(N-1), in [-1, 1); a float word passes through unchanged |
| `Wav.CorruptWordResilience` | src/decoder/wav.rs:75-94 | a corrupt word in the middle gives the same number of samples, 0.0 at its position, and every other sample unchanged |
| `Wav.Pulls` | src/decoder/wav.rs:72-100 | k successive pulls give k results and keep the state valid over the same data |
| `Wav.Step` | src/decoder/wav.rs:72-100 | one pull advances the counter by exactly 1 when it yields a sample and leaves it unchanged otherwise; the data never changes |
| `Wav.SamplesIterator.Next` | src/decoder/wav.rs:72-100 | the method takes exactly one `Step`: dispatch on (format, bits) before reading, then one word read, counted and converted |
| `Wav.WavDecoder.Next` | src/decoder/wav.rs:149-151 | delegates one `Step` to the sample iterator and keeps the decoder invariant |
| `Wav.PullsYieldDecoded` | src/decoder/wav.rs:75-94 | on a supported spec, k pulls yield the next k decoded samples, raise `samples_read` by k, and leave exactly k fewer remaining |
| `Wav.DrainYieldsAll` | src/decoder/wav.rs:75-94 | pulling all n words yields exactly the n decoded samples, corrupt ones as silence, and nothing remains |
| `Wav.PullsAtEnd` | src/decoder/wav.rs:75-94 | after exhaustion every pull returns `None` and the state stays the same |
| `Wav.UnsupportedAlwaysFails` | src/decoder/wav.rs:73-74 | any (format, bits) outside the five arms fails on every pull, including after exhaustion, and nothing moves |
| `Wav.SamplesIterator.SizeHint` | src/decoder/wav.rs:103-106 | `(r, Some(r))` with r the exact number of words still to come; the `u32` subtraction does not underflow |
| `Wav.WavDecoder.SizeHint` | src/decoder/wav.rs:154-156 | the decoder's hint is the iterator's exact remaining count |
| `Wav.WavDecoder.Len` | src/decoder/wav.rs:132 | `self.len()` is the remaining count, not the total |
| `Wav.WavDecoder.CurrentFrameLen` | src/decoder/wav.rs:116-118 | the frame length is always unknown |
| `Wav.WavDecoder.Channels` | src/decoder/wav.rs:121-123 | equals the channel count of the captured spec |
| `Wav.WavDecoder.SampleRate` | src/decoder/wav.rs:126-128 | equals the sample rate of the captured spec |
| `Wav.WavDecoder.SampleFormatStr` | src/decoder/wav.rs:137-139 | exactly the label made from the captured spec, which parses back to its format and bit depth |
| `Wav.DurationMillis` | src/decoder/wav.rs:132 | every `u64` product fits; the result is the floor of remaining * 1000 / (channels * rate) |
| `Wav.WavDecoder.TotalDuration` | src/decoder/wav.rs:131-134 | `Some(ms)`, with ms the whole milliseconds of the samples still to come |
| `Wav.DurationMonotone` | src/decoder/wav.rs:131-134 | fewer remaining samples never report a longer duration |
| `Wav.DurationExample` | src/decoder/wav.rs:131-134 | at 2 channels and 44100 Hz, 88200 remaining samples report 1000 ms |
| `Wav.DurationAfterPulls` | src/decoder/wav.rs:131-134 | after k pulls the duration is computed from k fewer samples and is no larger |
| `SamplesConverter.Clamp` | src/source/samples_converter.rs:107 | `clamp(-1., 1.)` lands in the bounds and is the identity exactly on them |
| `SamplesConverter.I8ToF32` | src/source/samples_converter.rs:105-108 | i / 128, in [-1, 1): the clamp never acts |
| `SamplesConverter.I16ToF32` | src/source/samples_converter.rs:110-113 | i / 32768, in [-1, 1): the clamp never acts |
| `SamplesConverter.I24ToF32` | src/source/samples_converter.rs:115-118 | in [-1, 1] for every `i32`; equal to i / 2^23 exactly when abs(i) <= 2^23, otherwise clamped to -1 or 1 |
| `SamplesConverter.I32ToF32` | src/source/samples_converter.rs:120-123 | i / 2^31, in [-1, 1): the clamp never acts |
| `SamplesConverter.ScalersFixedPoints` | src/source/samples_converter.rs:105-123 | 0 maps to 0; the most negative value maps to -1.0; the most positive value maps to (2^(N-1) - 1) / 2^(N-1) |
| `SamplesConverter.ScalersMonotone` | src/source/samples_converter.rs:105-123 | every scaler is monotone non-decreasing |
| `SamplesConverter.ScalersAgreeAcrossWidths` | src/source/samples_converter.rs:105-123 | one amplitude stored at 8, 16, 24 or 32 bits scales to the same value |
| `SamplesConverter.ConvertOps` | src/source/samples_converter.rs:59-102 | the converter's size hint, frame length, channels, sample rate, duration and label are the inner source's operations |
| `SamplesConverter.Converted` | src/source/samples_converter.rs:46-102 | the converter as a source has the inner source's state; one pull gives the inner pull's value mapped (`None` exactly when the inner gives `None`) and the inner's next state; every metadata getter and the size hint equal the inner source's |
| `SamplesConverter.ConvertedPull` | src/source/samples_converter.rs:55-57 | one converter pull is one inner pull, mapped through the conversion; `None` exactly when the inner source gives `None` |
| `SamplesConverter.ConvertedRun` | src/source/samples_converter.rs:46-63 | after any k pulls the converter has produced the inner source's k results mapped, and it still wraps the inner source's state |
| `SamplesConverter.ConvertedMetadata` | src/source/samples_converter.rs:59-102 | at every point of the stream, the size hint, frame length, channels, sample rate, duration and label equal the inner source's; exact-size exactly when the inner source is |
| `SamplesConverter.SamplesConverter.constructor` | src/source/samples_converter.rs:19-25 | the converter wraps exactly the given source and keeps no other state |
| `SamplesConverter.SamplesConverter.Inner` | src/source/samples_converter.rs:29-31 | the wrapped source, which the converter is a pure view of |
| `SamplesConverter.SamplesConverter.IntoInner` | src/source/samples_converter.rs:41-43 | gives back the wrapped source |
| `SamplesConverter.SamplesConverter.Next` | src/source/samples_converter.rs:55-57 | pulls the inner source exactly once and returns the mapped value; as a source, it takes one step of `Converted` |
| `SamplesConverter.SamplesConverter.SizeHint` | src/source/samples_converter.rs:59-62 | the size hint of the converter as a source |
| `SamplesConverter.SamplesConverter.CurrentFrameLen` | src/source/samples_converter.rs:80-82 | the frame length of the converter as a source |
| `SamplesConverter.SamplesConverter.Channels` | src/source/samples_converter.rs:85-87 | the channel count of the converter as a source |
| `SamplesConverter.SamplesConverter.SampleRate` | src/source/samples_converter.rs:90-92 | the sample rate of the converter as a source |
| `SamplesConverter.SamplesConverter.TotalDuration` | src/source/samples_converter.rs:95-97 | the duration of the converter as a source |
| `SamplesConverter.SamplesConverter.SampleFormatStr` | src/source/samples_converter.rs:100-102 | the label of the converter as a source |

## Left out

- hound's internals are not modelled. This covers RIFF/WAVE header parsing, the little-endian decoding of sample words (including 8-bit unsigned-to-signed) and spec extraction. They are reduced to a function of the stream's bytes and position. It yields the spec, the raw words (`None` for one that fails to read) and the position the parser stops at.
- The stream's position while samples are read is not modelled. The model says nothing about where hound leaves the stream during decoding, so it says nothing about the position of the stream `into_inner` returns.
- Real I/O is not modelled. Seek errors and the `unwrap()` panics on them cannot occur in the model.
- IEEE-754 `f32` is not modelled: the scalers divide exactly over `real`. For example, `i32::MAX as f32` rounds up to 2^31, so the real `i32_to_f32(i32::MAX)` is 1.0. The model gives (2^31 - 1)/2^31. Float words are finite reals; NaN and infinities are not modelled.
- `cpal::Sample::from` (the converter's per-sample conversion) is an abstract total function passed to the converter's constructor. Its rounding rules are not visible. So the round-trip of a decoded sample through an integer quantizer is not stated.
- `inner_mut`, the derived `Clone` and the `PhantomData` marker of `SamplesConverter` are not modelled. `inner_mut` hands out a mutable borrow, which a value model cannot express. The marker's role is taken by the conversion function.
- The WAV decoder is not given as a value of the generic `Source` record. That record's `next` has no failure outcome, and the decoder's unsupported-format failure does not fit it. The converter's lemmas are stated for an arbitrary inner `Source` value.
- `Duration` is a whole number of milliseconds. `Duration::from_millis` is exact, so nothing is lost.
- `usize` is taken to be at least 32 bits wide, so `as usize` of a `u32` is the identity.
- `Wav.WavDecoder.TotalDuration`: requires a positive channel count and sample rate. The source divides by their product without a check and panics on zero.
