/** Little-endian PCM decoding: `np.frombuffer(raw, int16 | int32)` scaled to
    [-1, 1), with channel 0 kept from interleaved multichannel data
    (`read_mono_wav`), and the int16 decoding the microphone loops reuse. */
module Pcm {
  import opened Wrappers

  type Byte = x: int | 0 <= x < 256
  type Int16 = x: int | -0x8000 <= x < 0x8000
  type Int32 = x: int | -0x8000_0000 <= x < 0x8000_0000

  // ---------------------------------------------------------------------------
  // One value from its little-endian two's-complement bytes, and back
  // ---------------------------------------------------------------------------

  function Int16Le(lo: Byte, hi: Byte): Int16
  {
    var u := lo + 0x100 * hi;
    if u >= 0x8000 then u - 0x1_0000 else u
  }

  function EncodeInt16(v: Int16): (r: seq<Byte>)
    ensures |r| == 2
  {
    var u := if v < 0 then v + 0x1_0000 else v;
    [u % 0x100, u / 0x100]
  }

  function Int32Le(b0: Byte, b1: Byte, b2: Byte, b3: Byte): Int32
  {
    var u := b0 + 0x100 * b1 + 0x1_0000 * b2 + 0x100_0000 * b3;
    if u >= 0x8000_0000 then u - 0x1_0000_0000 else u
  }

  function EncodeInt32(v: Int32): (r: seq<Byte>)
    ensures |r| == 4
  {
    var u := if v < 0 then v + 0x1_0000_0000 else v;
    [u % 0x100, (u / 0x100) % 0x100, (u / 0x1_0000) % 0x100, u / 0x100_0000]
  }

  /** Decoding inverts encoding for every int16 value ... */
  lemma Int16RoundTrip(v: Int16)
    ensures Int16Le(EncodeInt16(v)[0], EncodeInt16(v)[1]) == v
  {
    var u := if v < 0 then v + 0x1_0000 else v;
    assert u == u % 0x100 + 0x100 * (u / 0x100);
  }

  /** ... and encoding inverts decoding for every pair of bytes. */
  lemma Int16BytesRoundTrip(lo: Byte, hi: Byte)
    ensures EncodeInt16(Int16Le(lo, hi)) == [lo, hi]
  {
    var u := lo + 0x100 * hi;
    assert u % 0x100 == lo && u / 0x100 == hi;
  }

  lemma Int32RoundTrip(v: Int32)
    ensures var b := EncodeInt32(v); Int32Le(b[0], b[1], b[2], b[3]) == v
  {
    var u := if v < 0 then v + 0x1_0000_0000 else v;
    var q1 := u / 0x100;
    var q2 := q1 / 0x100;
    assert u / 0x1_0000 == q2;
    assert u / 0x100_0000 == q2 / 0x100;
    assert u == u % 0x100 + 0x100 * q1;
    assert q1 == q1 % 0x100 + 0x100 * q2;
    assert q2 == q2 % 0x100 + 0x100 * (q2 / 0x100);
  }

  // ---------------------------------------------------------------------------
  // Whole buffers (`np.frombuffer`)
  // ---------------------------------------------------------------------------

  function DecodeInt16s(raw: seq<Byte>): (r: seq<Int16>)
    requires |raw| % 2 == 0
    ensures |r| == |raw| / 2
    ensures forall i :: 0 <= i < |r| ==> r[i] == Int16Le(raw[2 * i], raw[2 * i + 1])
  {
    if raw == [] then []
    else [Int16Le(raw[0], raw[1])] + DecodeInt16s(raw[2..])
  }

  function EncodeInt16s(vs: seq<Int16>): (r: seq<Byte>)
    ensures |r| == 2 * |vs|
  {
    if vs == [] then [] else EncodeInt16(vs[0]) + EncodeInt16s(vs[1..])
  }

  function DecodeInt32s(raw: seq<Byte>): (r: seq<Int32>)
    requires |raw| % 4 == 0
    ensures |r| == |raw| / 4
    ensures forall i :: 0 <= i < |r| ==>
      r[i] == Int32Le(raw[4 * i], raw[4 * i + 1], raw[4 * i + 2], raw[4 * i + 3])
  {
    if raw == [] then []
    else [Int32Le(raw[0], raw[1], raw[2], raw[3])] + DecodeInt32s(raw[4..])
  }

  function EncodeInt32s(vs: seq<Int32>): (r: seq<Byte>)
    ensures |r| == 4 * |vs|
  {
    if vs == [] then [] else EncodeInt32(vs[0]) + EncodeInt32s(vs[1..])
  }

  lemma {:induction false} Int16sRoundTrip(vs: seq<Int16>)
    ensures DecodeInt16s(EncodeInt16s(vs)) == vs
  {
    if vs != [] {
      var b := EncodeInt16s(vs);
      assert b[2..] == EncodeInt16s(vs[1..]);
      Int16RoundTrip(vs[0]);
      Int16sRoundTrip(vs[1..]);
    }
  }

  lemma {:induction false} Int32sRoundTrip(vs: seq<Int32>)
    ensures DecodeInt32s(EncodeInt32s(vs)) == vs
  {
    if vs != [] {
      var b := EncodeInt32s(vs);
      assert b[4..] == EncodeInt32s(vs[1..]);
      Int32RoundTrip(vs[0]);
      Int32sRoundTrip(vs[1..]);
    }
  }

  /** Decoding a joined buffer gives the joined decodings (`b''.join` then
      `np.frombuffer`), as long as every piece holds whole samples. */
  lemma {:induction false} DecodeInt16sAppend(a: seq<Byte>, b: seq<Byte>)
    requires |a| % 2 == 0 && |b| % 2 == 0
    ensures DecodeInt16s(a + b) == DecodeInt16s(a) + DecodeInt16s(b)
    decreases |a|
  {
    if a == [] {
      assert a + b == b;
    } else {
      assert (a + b)[2..] == a[2..] + b;
      DecodeInt16sAppend(a[2..], b);
    }
  }

  // ---------------------------------------------------------------------------
  // Scaling to floating-point samples
  // ---------------------------------------------------------------------------

  /** `int16 / 32768.0` */
  function Int16ToSample(v: Int16): (x: real)
    ensures -1.0 <= x < 1.0
  {
    v as real / 32768.0
  }

  /** `int32 / 2147483648.0` */
  function Int32ToSample(v: Int32): (x: real)
    ensures -1.0 <= x < 1.0
  {
    v as real / 2147483648.0
  }

  function Int16sToSamples(vs: seq<Int16>): (r: seq<real>)
    ensures |r| == |vs|
    ensures forall i :: 0 <= i < |vs| ==> r[i] == Int16ToSample(vs[i])
  {
    seq(|vs|, i requires 0 <= i < |vs| => Int16ToSample(vs[i]))
  }

  function Int32sToSamples(vs: seq<Int32>): (r: seq<real>)
    ensures |r| == |vs|
    ensures forall i :: 0 <= i < |vs| ==> r[i] == Int32ToSample(vs[i])
  {
    seq(|vs|, i requires 0 <= i < |vs| => Int32ToSample(vs[i]))
  }

  // ---------------------------------------------------------------------------
  // read_mono_wav
  // ---------------------------------------------------------------------------

  datatype WavError =
    | FileNotFound
    | UnsupportedWidth(bits: int)
    | BufferNotWholeSamples  // np.frombuffer: size not a multiple of the item size
    | FramesNotWhole         // reshape(-1, channels): samples not a multiple of channels

  /** What `wave.open` reports for a file: header fields and the raw frame bytes. */
  datatype WavFile = WavFile(channels: nat, sampleWidth: nat, frameRate: int, frames: seq<Byte>)

  lemma {:induction false} MulGrows(a: int, c: int)
    requires a >= 1 && c > 0
    ensures a * c >= c
  {
    if a > 1 {
      MulGrows(a - 1, c);
      assert a * c == (a - 1) * c + c;
    }
  }

  /** Frame `i` of `n` frames of `c` samples starts inside the buffer. */
  lemma FrameInside(i: int, x: int, c: int)
    requires c > 0 && x >= 0 && x % c == 0 && 0 <= i < x / c
    ensures i * c + c <= x
  {
    var n := x / c;
    assert x == c * n + x % c;
    assert n * c - i * c == (n - i) * c;
    MulGrows(n - i, c);
  }

  /** `reshape(-1, c)[:, 0]`: the first sample of every frame of `c` samples. */
  function Channel0(data: seq<real>, c: nat): (r: seq<real>)
    requires c > 0 && |data| % c == 0
    ensures |r| == |data| / c
    ensures forall i :: 0 <= i < |r| ==> i * c < |data| && r[i] == data[i * c]
  {
    var n := |data| / c;
    assert forall i :: 0 <= i < n ==> i * c < |data| by {
      forall i | 0 <= i < n ensures i * c < |data| { FrameInside(i, |data|, c); }
    }
    seq(n, i requires 0 <= i < n => data[i * c])
  }

  /** The samples of every channel, scaled, before channel 0 is selected. */
  function DecodeSamples(raw: seq<Byte>, width: nat): (r: Result<seq<real>, WavError>)
    ensures width != 2 && width != 4 <==> r == Failure(UnsupportedWidth(width * 8))
    ensures (width == 2 || width == 4) && |raw| % width != 0 <==> r == Failure(BufferNotWholeSamples)
    ensures r.Success? ==> width > 0 && |r.value| == |raw| / width
    ensures r.Success? ==> forall i :: 0 <= i < |r.value| ==> -1.0 <= r.value[i] < 1.0
    // 16-bit items are little-endian int16 over 32768 ...
    ensures r.Success? && width == 2 ==> forall i :: 0 <= i < |r.value| ==>
      2 * i + 1 < |raw| && r.value[i] == Int16ToSample(Int16Le(raw[2 * i], raw[2 * i + 1]))
    // ... and 32-bit items little-endian int32 over 2^31
    ensures r.Success? && width == 4 ==> forall i :: 0 <= i < |r.value| ==>
      4 * i + 3 < |raw| &&
      r.value[i] == Int32ToSample(Int32Le(raw[4 * i], raw[4 * i + 1], raw[4 * i + 2], raw[4 * i + 3]))
  {
    if width == 2 then
      if |raw| % 2 != 0 then Failure(BufferNotWholeSamples)
      else Success(Int16sToSamples(DecodeInt16s(raw)))
    else if width == 4 then
      if |raw| % 4 != 0 then Failure(BufferNotWholeSamples)
      else Success(Int32sToSamples(DecodeInt32s(raw)))
    else Failure(UnsupportedWidth(width * 8))
  }

  /** `read_mono_wav`: the mono signal in [-1, 1) and the file's frame rate. */
  function ReadMonoWav(file: Option<WavFile>): (r: Result<(seq<real>, int), WavError>)
    ensures file.None? ==> r == Failure(FileNotFound)
    ensures file.Some? && r.Success? ==> r.value.1 == file.value.frameRate
    ensures file.Some? && r.Success? ==>
      var f := file.value;
      var c := if f.channels > 1 then f.channels else 1;
      f.sampleWidth > 0 && |r.value.0| == |f.frames| / f.sampleWidth / c
    // whatever the width, a mono file gives its decoded samples, and a
    // multichannel file the decoded sample of channel 0 of every frame
    ensures file.Some? && r.Success? && file.value.channels <= 1 ==>
      var data := DecodeSamples(file.value.frames, file.value.sampleWidth);
      data.Success? && r.value.0 == data.value
    ensures file.Some? && r.Success? && file.value.channels > 1 ==>
      var f := file.value;
      var data := DecodeSamples(f.frames, f.sampleWidth);
      && data.Success?
      && forall i :: 0 <= i < |r.value.0| ==>
           i * f.channels < |data.value| && r.value.0[i] == data.value[i * f.channels]
    ensures r.Success? ==> forall i :: 0 <= i < |r.value.0| ==> -1.0 <= r.value.0[i] < 1.0
  {
    match file
    case None => Failure(FileNotFound)
    case Some(f) =>
      var data :- DecodeSamples(f.frames, f.sampleWidth);
      if f.channels > 1 then
        if |data| % f.channels != 0 then Failure(FramesNotWhole)
        else Success((Channel0(data, f.channels), f.frameRate))
      else Success((data, f.frameRate))
  }

  /** A file is read exactly when its width is supported, its bytes hold whole
      samples and, with several channels, its samples whole frames. */
  lemma ReadMonoWavSucceeds(f: WavFile)
    ensures ReadMonoWav(Some(f)).Success? <==>
      && DecodeSamples(f.frames, f.sampleWidth).Success?
      && (f.channels > 1 ==> |DecodeSamples(f.frames, f.sampleWidth).value| % f.channels == 0)
  {
  }

  /** Writing int16 samples as a mono 16-bit file and reading it back gives
      each sample divided by 32768. */
  lemma MonoInt16RoundTrip(vs: seq<Int16>, rate: int)
    ensures ReadMonoWav(Some(WavFile(1, 2, rate, EncodeInt16s(vs))))
         == Success((Int16sToSamples(vs), rate))
  {
    Int16sRoundTrip(vs);
  }

  /** Writing int32 samples as a mono 32-bit file and reading it back gives
      each sample divided by 2^31. */
  lemma MonoInt32RoundTrip(vs: seq<Int32>, rate: int)
    ensures ReadMonoWav(Some(WavFile(1, 4, rate, EncodeInt32s(vs))))
         == Success((Int32sToSamples(vs), rate))
  {
    Int32sRoundTrip(vs);
  }

  /** A 16-bit multichannel file decodes exactly when its bytes hold whole
      samples and its samples whole frames; then only channel 0 survives, the
      first sample of every frame. */
  lemma MultichannelKeepsChannel0(f: WavFile, i: nat)
    requires f.channels > 1 && f.sampleWidth == 2
    ensures ReadMonoWav(Some(f)).Success? <==>
      |f.frames| % 2 == 0 && (|f.frames| / 2) % f.channels == 0
    ensures ReadMonoWav(Some(f)).Success? && i < |ReadMonoWav(Some(f)).value.0| ==>
      var k := i * f.channels;
      ReadMonoWav(Some(f)).value.0[i] == Int16ToSample(Int16Le(f.frames[2 * k], f.frames[2 * k + 1]))
  {
    var r := ReadMonoWav(Some(f));
    if r.Success? && i < |r.value.0| {
      var data := DecodeSamples(f.frames, 2).value;
      assert r.value.0 == Channel0(data, f.channels);
    }
  }
}
