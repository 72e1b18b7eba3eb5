/** What the two harness scripts (ANC/ANC_test.py, ANC/reference_then_anc.py)
    share: the zero-padded playback block, the stereo frame with the
    reference on the left channel and silence on the right, and the keyword
    arguments `run_anc` hands to `FxLMSANC`. */
module Harness {
  import opened Wrappers
  import opened Signal
  import opened Fxlms

  // ---------------------------------------------------------------------------
  // Playback blocks
  // ---------------------------------------------------------------------------

  /** The `m` samples of `s` from `a` on, zeros past its end. */
  function Segment(s: seq<real>, a: nat, m: nat): (r: seq<real>)
    ensures |r| == m
    ensures forall j :: 0 <= j < m ==> r[j] == if a + j < |s| then s[a + j] else 0.0
  {
    seq(m, j requires 0 <= j < m => if a + j < |s| then s[a + j] else 0.0)
  }

  lemma SegmentJoin(s: seq<real>, a: nat, m: nat, k: nat)
    ensures Segment(s, a, m) + Segment(s, a + m, k) == Segment(s, a, m + k)
  {
    var l, r := Segment(s, a, m) + Segment(s, a + m, k), Segment(s, a, m + k);
    forall j | 0 <= j < m + k ensures l[j] == r[j] {
      if j >= m { assert l[j] == Segment(s, a + m, k)[j - m]; }
    }
  }

  /** `signal[index : index + block_len]`, zero-padded when short, is the
      segment of `block_len` samples at `index`. */
  lemma PaddedSliceIsSegment(s: seq<real>, index: nat, blockLen: nat)
    requires Slice(s, index, index + blockLen) != []
    ensures |Slice(s, index, index + blockLen)| <= blockLen
    ensures PadTo(Slice(s, index, index + blockLen), blockLen) == Segment(s, index, blockLen)
  {
    var b := Slice(s, index, index + blockLen);
    assert b == s[index..Min(index + blockLen, |s|)];
    var l, r := PadTo(b, blockLen), Segment(s, index, blockLen);
    forall j | 0 <= j < blockLen ensures l[j] == r[j] {
      if j < |b| { assert l[j] == l[..|b|][j]; }
    }
  }

  // ---------------------------------------------------------------------------
  // Stereo frames
  // ---------------------------------------------------------------------------

  /** `stereo = np.zeros(2 * n); stereo[0::2] = block`: the block on the even
      (left) slots, silence on the odd (right) slots. */
  function Interleaved(block: seq<real>): (r: seq<real>)
    ensures |r| == 2 * |block|
  {
    seq(2 * |block|, j requires 0 <= j < 2 * |block| => if j % 2 == 0 then block[j / 2] else 0.0)
  }

  /** `frame[0::2]`, the left channel. */
  function Left(frame: seq<real>): (r: seq<real>)
    ensures |r| == (|frame| + 1) / 2
  {
    seq((|frame| + 1) / 2, i requires 0 <= i < (|frame| + 1) / 2 => frame[2 * i])
  }

  /** `frame[1::2]`, the right channel. */
  function Right(frame: seq<real>): (r: seq<real>)
    ensures |r| == |frame| / 2
  {
    seq(|frame| / 2, i requires 0 <= i < |frame| / 2 => frame[2 * i + 1])
  }

  /** Splitting a stereo frame into its channels gives back the block on the
      left and silence of the same length on the right. */
  lemma InterleavedChannels(block: seq<real>)
    ensures Left(Interleaved(block)) == block
    ensures Right(Interleaved(block)) == Zeros(|block|)
  {
    var f := Interleaved(block);
    forall i | 0 <= i < |block| ensures Left(f)[i] == block[i] && Right(f)[i] == 0.0 {
      assert (2 * i) % 2 == 0 && (2 * i) / 2 == i;
      assert (2 * i + 1) % 2 == 1;
    }
  }

  /** Builds the stereo frame in a fresh buffer. */
  method WriteStereo(block: seq<real>) returns (stereo: array<real>)
    ensures stereo[..] == Interleaved(block)
  {
    stereo := new real[2 * |block|](_ => 0.0);
    var i := 0;
    while i < |block|
      invariant 0 <= i <= |block|
      invariant forall j :: 0 <= j < 2 * i ==> stereo[j] == Interleaved(block)[j]
      invariant forall j :: 2 * i <= j < stereo.Length ==> stereo[j] == 0.0
    {
      stereo[2 * i] := block[i];
      assert (2 * i) % 2 == 0 && (2 * i) / 2 == i && (2 * i + 1) % 2 == 1;
      i := i + 1;
    }
    assert forall j :: 0 <= j < stereo.Length ==> stereo[j] == Interleaved(block)[j];
  }

  /** What goes to the control stream for one block. */
  function ControlFrame(block: seq<real>, split: bool): seq<real>
  {
    if split then Interleaved(block) else block
  }

  function ControlFrames(blocks: seq<seq<real>>, split: bool): (r: seq<seq<real>>)
    ensures |r| == |blocks|
    ensures forall k :: 0 <= k < |r| ==> r[k] == ControlFrame(blocks[k], split)
  {
    seq(|blocks|, k requires 0 <= k < |blocks| => ControlFrame(blocks[k], split))
  }

  // ---------------------------------------------------------------------------
  // Controller keyword arguments (`run_anc`)
  // ---------------------------------------------------------------------------

  /** The keyword names `run_anc` and `FxLMSANC.__init__` use. */
  datatype Keyword =
    | ReferencePath | SampleRate | FilterLength | StepSize | BlockSize | SecondaryPath
    | ControlDeviceIndex | RecordDeviceIndex | ReferenceDeviceIndex | PlayReference | NormalizeStep
    | SplitReferenceChannels

  /** The parameters `FxLMSANC.__init__` declares: every name above except
      `split_reference_channels`. */
  predicate Declared(k: Keyword)
  {
    k != SplitReferenceChannels
  }

  /** A keyword argument's value. */
  datatype Arg =
    | Text(text: string)
    | Taps(taps: NdArray)
    | Device(device: Option<int>)
    | Number(number: int)
    | Decimal(decimal: real)
    | Flag(flag: bool)

  type Kwargs = seq<(Keyword, Arg)>

  function Keys(kw: Kwargs): (r: seq<Keyword>)
    ensures |r| == |kw|
    ensures forall i :: 0 <= i < |kw| ==> r[i] == kw[i].0
  {
    seq(|kw|, i requires 0 <= i < |kw| => kw[i].0)
  }

  /** `init_kwargs` of `run_anc`: eight fixed entries, then `block_size` and
      `filter_length` only when they are configured. */
  function RunAncKwargs(referencePath: string, taps: NdArray, control: Option<int>, record: Option<int>,
                        reference: Option<int>, stepSize: real, split: bool,
                        blockSize: Option<int>, filterLength: Option<int>): (r: Kwargs)
    // the channel split is passed whatever the configuration
    ensures |r| >= 8 && r[7] == (SplitReferenceChannels, Flag(split))
  {
    [(ReferencePath, Text(referencePath)), (SecondaryPath, Taps(taps)),
     (ControlDeviceIndex, Device(control)), (RecordDeviceIndex, Device(record)),
     (ReferenceDeviceIndex, Device(reference)), (PlayReference, Flag(true)),
     (StepSize, Decimal(stepSize)), (SplitReferenceChannels, Flag(split))]
    + (if blockSize.Some? then [(BlockSize, Number(blockSize.value))] else [])
    + (if filterLength.Some? then [(FilterLength, Number(filterLength.value))] else [])
  }

  /** The reference stays audible and the channel split is always passed;
      `block_size` and `filter_length` are passed exactly when configured,
      with the configured values. */
  lemma RunAncKwargsShape(referencePath: string, taps: NdArray, control: Option<int>, record: Option<int>,
                          reference: Option<int>, stepSize: real, split: bool,
                          blockSize: Option<int>, filterLength: Option<int>)
    ensures var r := RunAncKwargs(referencePath, taps, control, record, reference, stepSize, split,
                                  blockSize, filterLength);
      && |r| == 8 + (if blockSize.Some? then 1 else 0) + (if filterLength.Some? then 1 else 0)
      && r[5] == (PlayReference, Flag(true)) && r[7] == (SplitReferenceChannels, Flag(split))
      && ((BlockSize in Keys(r)) <==> blockSize.Some?)
      && ((FilterLength in Keys(r)) <==> filterLength.Some?)
      && (blockSize.Some? ==> r[8] == (BlockSize, Number(blockSize.value)))
      && (filterLength.Some? ==> r[|r| - 1] == (FilterLength, Number(filterLength.value)))
  {
    var r := RunAncKwargs(referencePath, taps, control, record, reference, stepSize, split, blockSize, filterLength);
    var keys := [ReferencePath, SecondaryPath, ControlDeviceIndex, RecordDeviceIndex, ReferenceDeviceIndex,
                 PlayReference, StepSize, SplitReferenceChannels]
                + (if blockSize.Some? then [BlockSize] else [])
                + (if filterLength.Some? then [FilterLength] else []);
    assert Keys(r) == keys;
  }

  /** Python refuses a call naming a keyword the function does not declare,
      before the body runs. */
  datatype CallError = UnexpectedKeyword(name: Keyword)

  function FirstUndeclared(keys: seq<Keyword>): (r: Option<Keyword>)
    ensures r.None? <==> forall i :: 0 <= i < |keys| ==> Declared(keys[i])
    ensures r.Some? ==> r.value in keys && !Declared(r.value)
  {
    if keys == [] then None
    else if !Declared(keys[0]) then Some(keys[0])
    else FirstUndeclared(keys[1..])
  }

  /** `FxLMSANC(**kwargs)` as far as keyword binding goes. */
  function BindConstructor(kw: Kwargs): (r: Result<Kwargs, CallError>)
    ensures r.Success? <==> forall i :: 0 <= i < |kw| ==> Declared(kw[i].0)
  {
    match FirstUndeclared(Keys(kw))
    case Some(name) => Failure(UnexpectedKeyword(name))
    case None => Success(kw)
  }

  lemma {:induction false} FirstUndeclaredSkips(keys: seq<Keyword>, n: nat)
    requires n <= |keys| && forall i :: 0 <= i < n ==> Declared(keys[i])
    ensures FirstUndeclared(keys) == FirstUndeclared(keys[n..])
  {
    if n > 0 {
      FirstUndeclaredSkips(keys[1..], n - 1);
      assert keys[1..][n - 1..] == keys[n..];
    }
  }

  /** `run_anc` always passes `split_reference_channels`, which the
      constructor does not declare, so the controller is never built. */
  lemma RunAncNeverBindsConstructor(referencePath: string, taps: NdArray, control: Option<int>,
                                    record: Option<int>, reference: Option<int>, stepSize: real,
                                    split: bool, blockSize: Option<int>, filterLength: Option<int>)
    ensures BindConstructor(RunAncKwargs(referencePath, taps, control, record, reference, stepSize,
                                         split, blockSize, filterLength))
         == Failure(UnexpectedKeyword(SplitReferenceChannels))
  {
    var kw := RunAncKwargs(referencePath, taps, control, record, reference, stepSize, split, blockSize, filterLength);
    var keys := Keys(kw);
    FirstUndeclaredSkips(keys, 7);
    assert keys[7..][0] == SplitReferenceChannels;
  }
}
