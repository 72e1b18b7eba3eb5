/** `FxLMSANC` (ANC/fxlms_controller.py): constructor validation and the
    controller object whose methods update its filter state in place. The
    audio streams are left out; what the input stream returns is a parameter
    of `Run`, and what the output streams are given is its result. */
module Fxlms {
  import opened Wrappers
  import opened Signal
  import opened Pcm
  import opened ReferenceBlock
  import opened AdaptiveFilter
  import opened ControlLoop

  const DEFAULT_SAMPLE_RATE: int := 16000
  const DEFAULT_FILTER_LENGTH: int := 128
  const DEFAULT_BLOCK_SIZE: nat := 128
  const DEFAULT_STEP_SIZE: real := 0.0005

  // ---------------------------------------------------------------------------
  // Constructor validation
  // ---------------------------------------------------------------------------

  /** An array handed in as `secondary_path`: its rank and its values. */
  datatype NdArray = NdArray(ndim: nat, values: seq<real>)

  datatype ConfigError =
    | ReferenceUnreadable(cause: WavError)
    | SampleRateMismatch(referenceRate: int, requested: int)
    | NotOneDimensional
    | NegativeFilterLength(filterLength: int)  // np.zeros raises in _reset_state

  /** The validated constructor arguments. */
  datatype Settings = Settings(signal: seq<real>, sampleRate: int, filterLength: nat, blockSize: nat,
                               stepSize: real, secondaryPath: seq<real>, referenceDevice: Option<int>,
                               playReference: bool, normalize: bool)

  /** The identity secondary path used when none is given: a unit impulse
      followed by seven zeros. */
  function DefaultSecondaryPath(): (r: seq<real>)
    ensures |r| == 8 && r[0] == 1.0
    ensures forall k :: 1 <= k < 8 ==> r[k] == 0.0
  {
    [1.0] + Zeros(7)
  }

  /** `sample_rate or ref_rate`: a missing or zero request means "use the
      file's rate". */
  function EffectiveRate(requested: Option<int>, referenceRate: int): (r: int)
    ensures requested.None? ==> r == referenceRate
    ensures requested.Some? && requested.value != 0 ==> r == requested.value
    ensures requested == Some(0) ==> r == referenceRate
  {
    match requested
    case None => referenceRate
    case Some(rate) => if rate == 0 then referenceRate else rate
  }

  /** `FxLMSANC.__init__` up to the point where the state is reset: read the
      reference, check the rate, default and check the secondary path, and
      reject a filter length `np.zeros` refuses. */
  function Configure(reference: Option<WavFile>, requestedRate: Option<int>, filterLength: int,
                     stepSize: real, blockSize: nat, secondaryPath: Option<NdArray>,
                     referenceDevice: Option<int>, playReference: bool, normalize: bool)
    : (r: Result<Settings, ConfigError>)
    // accepted exactly when every check passes
    ensures r.Success? <==>
      && ReadMonoWav(reference).Success?
      && EffectiveRate(requestedRate, ReadMonoWav(reference).value.1) == ReadMonoWav(reference).value.1
      && (secondaryPath.None? || secondaryPath.value.ndim == 1)
      && filterLength >= 0
    // the checks run in source order, and each failure names its cause
    ensures r.Failure? && r.error.ReferenceUnreadable? <==> ReadMonoWav(reference).Failure?
    ensures ReadMonoWav(reference).Failure? ==> r == Failure(ReferenceUnreadable(ReadMonoWav(reference).error))
    ensures r.Failure? && r.error.SampleRateMismatch? <==>
      && ReadMonoWav(reference).Success?
      && EffectiveRate(requestedRate, ReadMonoWav(reference).value.1) != ReadMonoWav(reference).value.1
    ensures ReadMonoWav(reference).Success? && r.Failure? && r.error.SampleRateMismatch? ==>
      r.error == SampleRateMismatch(ReadMonoWav(reference).value.1,
                                    EffectiveRate(requestedRate, ReadMonoWav(reference).value.1))
    ensures r == Failure(NotOneDimensional) <==>
      && ReadMonoWav(reference).Success?
      && EffectiveRate(requestedRate, ReadMonoWav(reference).value.1) == ReadMonoWav(reference).value.1
      && secondaryPath.Some? && secondaryPath.value.ndim != 1
    ensures r.Failure? && r.error.NegativeFilterLength? <==>
      && ReadMonoWav(reference).Success?
      && EffectiveRate(requestedRate, ReadMonoWav(reference).value.1) == ReadMonoWav(reference).value.1
      && (secondaryPath.None? || secondaryPath.value.ndim == 1)
      && filterLength < 0
    ensures r.Failure? && r.error.NegativeFilterLength? ==> r.error.filterLength == filterLength
    ensures r.Success? ==>
      && r.value.signal == ReadMonoWav(reference).value.0
      && r.value.sampleRate == ReadMonoWav(reference).value.1
      && r.value.filterLength == filterLength
      && r.value.blockSize == blockSize && r.value.stepSize == stepSize
      && r.value.secondaryPath == (if secondaryPath.None? then DefaultSecondaryPath() else secondaryPath.value.values)
      && r.value.referenceDevice == referenceDevice
      && r.value.playReference == playReference && r.value.normalize == normalize
  {
    match ReadMonoWav(reference)
    case Failure(e) => Failure(ReferenceUnreadable(e))
    case Success((signal, referenceRate)) =>
      var rate := EffectiveRate(requestedRate, referenceRate);
      if rate != referenceRate then Failure(SampleRateMismatch(referenceRate, rate))
      else
        var path := if secondaryPath.None? then NdArray(1, DefaultSecondaryPath()) else secondaryPath.value;
        if path.ndim != 1 then Failure(NotOneDimensional)
        else if filterLength < 0 then Failure(NegativeFilterLength(filterLength))
        else Success(Settings(signal, rate, filterLength, blockSize, stepSize, path.values,
                              referenceDevice, playReference, normalize))
  }

  // ---------------------------------------------------------------------------
  // Arrays
  // ---------------------------------------------------------------------------

  /** `h[1:] = h[:-1]; h[0] = x`, in place. */
  method ShiftIn(h: array<real>, x: real)
    requires h.Length >= 1
    modifies h
    ensures h[..] == Shift(old(h[..]), x)
  {
    var k := h.Length - 1;
    while k > 0
      invariant 0 <= k <= h.Length - 1
      invariant forall j :: 0 <= j <= k ==> h[j] == old(h[j])
      invariant forall j :: k < j < h.Length ==> h[j] == old(h[j - 1])
    {
      h[k] := h[k - 1];
      k := k - 1;
    }
    h[0] := x;
  }

  /** `np.zeros(n)`. */
  method ZeroArray(n: nat) returns (a: array<real>)
    ensures fresh(a) && a[..] == Zeros(n)
  {
    a := new real[n](_ => 0.0);
  }

  /** `w += c * m[i]`, in place. */
  method AddScaledRow(w: array<real>, c: real, m: array2<real>, i: nat)
    requires i < m.Length0 && m.Length1 == w.Length
    modifies w
    ensures w[..] == AddScaled(old(w[..]), c, Row(m, i))
  {
    var k := 0;
    while k < w.Length
      invariant 0 <= k <= w.Length
      invariant forall j :: 0 <= j < k ==> w[j] == old(w[j]) + c * m[i, j]
      invariant forall j :: k <= j < w.Length ==> w[j] == old(w[j])
    {
      w[k] := w[k] + c * m[i, k];
      k := k + 1;
    }
    ghost var r := AddScaled(old(w[..]), c, Row(m, i));
    assert forall j :: 0 <= j < w.Length ==> w[j] == r[j];
  }

  /** `m[i] = v`, in place; the other rows keep their values. */
  method CopyRow(m: array2<real>, i: nat, v: array<real>)
    requires i < m.Length0 && m.Length1 == v.Length
    modifies m
    ensures Row(m, i) == v[..]
    ensures forall r :: 0 <= r < m.Length0 && r != i ==> Row(m, r) == old(Row(m, r))
  {
    var k := 0;
    while k < v.Length
      invariant 0 <= k <= v.Length
      invariant forall c :: 0 <= c < k ==> m[i, c] == v[c]
      invariant forall r, c :: 0 <= r < m.Length0 && 0 <= c < m.Length1 && r != i ==> m[r, c] == old(m[r, c])
    {
      m[i, k] := v[k];
      k := k + 1;
    }
  }

  /** Row `i` of a matrix. */
  function Row(m: array2<real>, i: nat): (r: seq<real>)
    requires i < m.Length0
    reads m
    ensures |r| == m.Length1
    ensures forall c :: 0 <= c < m.Length1 ==> r[c] == m[i, c]
  {
    seq(m.Length1, c requires 0 <= c < m.Length1 reads m => m[i, c])
  }

  ghost function Rows(m: array2<real>): (r: seq<seq<real>>)
    reads m
    ensures |r| == m.Length0
    ensures forall i :: 0 <= i < m.Length0 ==> r[i] == Row(m, i)
  {
    seq(m.Length0, i requires 0 <= i < m.Length0 reads m => Row(m, i))
  }

  /** The int16 samples each input read returned, scaled to [-1, 1). */
  function ErrorBlocks(captured: seq<seq<Int16>>): (r: seq<seq<real>>)
    ensures |r| == |captured|
    ensures forall i :: 0 <= i < |captured| ==> r[i] == Int16sToSamples(captured[i])
  {
    seq(|captured|, i requires 0 <= i < |captured| => Int16sToSamples(captured[i]))
  }

  // ---------------------------------------------------------------------------
  // The controller
  // ---------------------------------------------------------------------------

  class Controller {
    const referenceSignal: seq<real>
    const sampleRate: int
    const filterLength: nat
    const blockSize: nat
    const baseStepSize: real
    const normalizeStep: bool
    const playReference: bool
    const referenceDevice: Option<int>
    const secondaryPath: seq<real>

    var weights: array<real>
    var refHistory: array<real>
    var secHistory: array<real>
    var fxHistory: array<real>
    var referenceIndex: nat
    var frameIndex: nat
    var stopRequested: bool

    /** The session-fixed settings, as the loop functions take them. */
    function Params(): ControlLoop.Params
    {
      ControlLoop.Params(referenceSignal, blockSize, filterLength, baseStepSize, normalizeStep, secondaryPath)
    }

    /** The four buffers have the shapes `_reset_state` gives them and are
        four distinct arrays. */
    ghost predicate Valid()
      reads this
    {
      && weights.Length == filterLength && refHistory.Length == filterLength
      && fxHistory.Length == filterLength && secHistory.Length == |secondaryPath|
      && weights != refHistory && weights != secHistory && weights != fxHistory
      && refHistory != secHistory && refHistory != fxHistory && secHistory != fxHistory
    }

    ghost function Hist(): Histories
      reads this, refHistory, secHistory, fxHistory
    {
      Histories(refHistory[..], secHistory[..], fxHistory[..])
    }

    /** The controller's state as the loop functions see it. */
    ghost function State(): ControlLoop.State
      reads this, weights, refHistory, secHistory, fxHistory
    {
      ControlLoop.State(weights[..], Hist(), referenceIndex, frameIndex)
    }

    constructor(s: Settings)
      ensures referenceSignal == s.signal && sampleRate == s.sampleRate
      ensures filterLength == s.filterLength && blockSize == s.blockSize
      ensures baseStepSize == s.stepSize && normalizeStep == s.normalize
      ensures playReference == s.playReference && referenceDevice == s.referenceDevice
      ensures secondaryPath == s.secondaryPath
      ensures Valid() && State() == Reset(Params()) && !stopRequested
    {
      referenceSignal := s.signal;
      sampleRate := s.sampleRate;
      filterLength := s.filterLength;
      blockSize := s.blockSize;
      baseStepSize := s.stepSize;
      normalizeStep := s.normalize;
      playReference := s.playReference;
      referenceDevice := s.referenceDevice;
      secondaryPath := s.secondaryPath;
      new;
      stopRequested := false;
      ResetState();
    }

    /** `_reset_state`: fresh zero buffers, both counters at 0. */
    method ResetState()
      modifies this
      ensures Valid() && State() == Reset(Params())
      ensures fresh(weights) && fresh(refHistory) && fresh(secHistory) && fresh(fxHistory)
      ensures stopRequested == old(stopRequested)
    {
      weights := ZeroArray(filterLength);
      refHistory := ZeroArray(filterLength);
      secHistory := ZeroArray(|secondaryPath|);
      fxHistory := ZeroArray(filterLength);
      referenceIndex := 0;
      frameIndex := 0;
    }

    /** `stop`: the loop halts after the current block. */
    method Stop()
      modifies this`stopRequested
      ensures stopRequested
    {
      stopRequested := true;
    }

    /** `_next_reference_block`. */
    method NextReferenceBlock(loop: bool) returns (block: seq<real>)
      modifies this`referenceIndex
      ensures Fetch(block, referenceIndex) == NextBlock(referenceSignal, old(referenceIndex), blockSize, loop)
      decreases loop
    {
      var start := referenceIndex;
      var end := start + blockSize;
      if start >= |referenceSignal| {
        if loop {
          referenceIndex := 0;
          block := NextReferenceBlock(false);
          return;
        }
        return Zeros(blockSize);
      }
      block := Slice(referenceSignal, start, end);
      if |block| < blockSize {
        if loop {
          var remaining := blockSize - |block|;
          referenceIndex := 0;
          var head := NextReferenceBlock(false);
          block := block + head[..remaining];
          referenceIndex := remaining;
        } else {
          block := PadTo(block, blockSize);
          referenceIndex := |referenceSignal|;
          return;
        }
      } else {
        referenceIndex := end;
      }
    }

    /** One sample of `_synthesize_block`: shift `x` into the reference
        history and write `w . x_hist` to `antiNoise[i]`, shift `x` into the
        secondary-path history, shift the filtered sample into the
        filtered-reference history and copy that history to row `i` of
        `fxVectors`. */
    method SynthesizeSample(x: real, i: nat, antiNoise: array<real>, fxVectors: array2<real>)
      requires Valid() && Runnable(Params())
      requires i < antiNoise.Length && i < fxVectors.Length0 && fxVectors.Length1 == filterLength
      requires antiNoise != weights && antiNoise != refHistory && antiNoise != secHistory && antiNoise != fxHistory
      modifies refHistory, secHistory, fxHistory, antiNoise, fxVectors
      ensures Hist() == SampleStep(old(Hist()), x, secondaryPath)
      ensures antiNoise[..] == old(antiNoise[..])[i := Dot(weights[..], refHistory[..])]
      ensures Row(fxVectors, i) == fxHistory[..]
      ensures forall r :: 0 <= r < fxVectors.Length0 && r != i ==> Row(fxVectors, r) == old(Row(fxVectors, r))
    {
      ShiftIn(refHistory, x);
      antiNoise[i] := Dot(weights[..], refHistory[..]);
      ShiftIn(secHistory, x);
      var filtered := Dot(secondaryPath, secHistory[..]);
      ShiftIn(fxHistory, filtered);
      CopyRow(fxVectors, i, fxHistory);
    }

    /** `_synthesize_block`: per sample, shift the reference into its history,
        emit `w . x`, filter the reference through the secondary path and
        record the filtered-reference history as one row of `fxVectors`. */
    method SynthesizeBlock(refBlock: seq<real>) returns (antiNoise: array<real>, fxVectors: array2<real>)
      requires Valid() && Runnable(Params()) && |refBlock| == blockSize
      modifies refHistory, secHistory, fxHistory
      ensures fresh(antiNoise) && fresh(fxVectors)
      ensures fxVectors.Length0 == blockSize && fxVectors.Length1 == filterLength
      ensures var syn := Synthesize(old(Hist()), refBlock, weights[..], secondaryPath);
        && Hist() == syn.hist && antiNoise[..] == syn.antiNoise && Rows(fxVectors) == syn.fxVectors
    {
      antiNoise := new real[blockSize](_ => 0.0);
      fxVectors := new real[blockSize, filterLength]((_, _) => 0.0);
      SynthesizeInto(refBlock, antiNoise, fxVectors);
    }

    /** The loop of `_synthesize_block`, writing into the output arrays. */
    method SynthesizeInto(refBlock: seq<real>, antiNoise: array<real>, fxVectors: array2<real>)
      requires Valid() && Runnable(Params())
      requires |refBlock| == antiNoise.Length == fxVectors.Length0 && fxVectors.Length1 == filterLength
      requires antiNoise != weights && antiNoise != refHistory && antiNoise != secHistory && antiNoise != fxHistory
      modifies refHistory, secHistory, fxHistory, antiNoise, fxVectors
      ensures var syn := Synthesize(old(Hist()), refBlock, weights[..], secondaryPath);
        && Hist() == syn.hist && antiNoise[..] == syn.antiNoise && Rows(fxVectors) == syn.fxVectors
    {
      ghost var h0 := Hist();
      ghost var w := weights[..];
      ghost var syn := Synthesize(h0, refBlock[..0], w, secondaryPath);
      var i := 0;
      while i < |refBlock|
        invariant 0 <= i <= |refBlock|
        invariant syn == Synthesize(h0, refBlock[..i], w, secondaryPath)
        invariant Hist() == syn.hist && antiNoise[..i] == syn.antiNoise
        invariant forall r :: 0 <= r < i ==> Row(fxVectors, r) == syn.fxVectors[r]
      {
        SynthesizeNext(refBlock, i, antiNoise, fxVectors, h0, w);
        i := i + 1;
        syn := Synthesize(h0, refBlock[..i], w, secondaryPath);
      }
      assert refBlock[..i] == refBlock;
    }

    /** One pass of the loop of `SynthesizeInto`: sample `i` joins the
        synthesis of the samples before it. */
    method SynthesizeNext(refBlock: seq<real>, i: nat, antiNoise: array<real>, fxVectors: array2<real>,
                          ghost h0: Histories, ghost w: seq<real>)
      requires Valid() && Runnable(Params()) && w == weights[..] && Fits(h0, filterLength, secondaryPath)
      requires i < |refBlock| == antiNoise.Length == fxVectors.Length0 && fxVectors.Length1 == filterLength
      requires antiNoise != weights && antiNoise != refHistory && antiNoise != secHistory && antiNoise != fxHistory
      requires var syn := Synthesize(h0, refBlock[..i], w, secondaryPath);
        && Hist() == syn.hist && antiNoise[..i] == syn.antiNoise
        && forall r :: 0 <= r < i ==> Row(fxVectors, r) == syn.fxVectors[r]
      modifies refHistory, secHistory, fxHistory, antiNoise, fxVectors
      ensures var syn := Synthesize(h0, refBlock[..i + 1], w, secondaryPath);
        && Hist() == syn.hist && antiNoise[..i + 1] == syn.antiNoise
        && forall r :: 0 <= r < i + 1 ==> Row(fxVectors, r) == syn.fxVectors[r]
    {
      ghost var before := Synthesize(h0, refBlock[..i], w, secondaryPath);
      SynthesizeSample(refBlock[i], i, antiNoise, fxVectors);
      assert refBlock[..i + 1] == refBlock[..i] + [refBlock[i]];
      SynthesizeSnoc(h0, refBlock[..i], refBlock[i], w, secondaryPath);
      assert antiNoise[..i + 1] == before.antiNoise + [antiNoise[i]];
    }

    /** `_update_weights`: for each (error, filtered-reference) pair, in block
        order, `w += step(fx) * e * fx`. */
    method UpdateWeights(errorBlock: seq<real>, fxVectors: array2<real>)
      requires Valid() && fxVectors.Length1 == filterLength
      modifies weights
      ensures weights[..] == AdaptiveFilter.UpdateWeights(old(weights[..]), errorBlock, Rows(fxVectors),
                                                         baseStepSize, normalizeStep)
    {
      ghost var w0 := weights[..];
      ghost var rows := Rows(fxVectors);
      var n := Min(|errorBlock|, fxVectors.Length0);
      var i := 0;
      while i < n
        invariant 0 <= i <= n
        invariant weights[..] == UpdatePrefix(w0, errorBlock, rows, i, baseStepSize, normalizeStep)
      {
        ghost var prev := weights[..];
        assert rows[i] == Row(fxVectors, i);
        var c := ComputeStep(baseStepSize, normalizeStep, Row(fxVectors, i)) * errorBlock[i];
        AddScaledRow(weights, c, fxVectors, i);
        LmsStepMoves(prev, errorBlock[i], rows[i], baseStepSize, normalizeStep, c);
        i := i + 1;
      }
    }

    /** The work of one iteration of `run` on the filter: fetch the next
        reference block, synthesise its anti-noise and adapt the weights from
        the error block captured for it. The frame counter is left to `run`. */
    method ProcessBlock(loop: bool, errorBlock: seq<real>) returns (refBlock: seq<real>, antiNoise: seq<real>)
      requires Valid() && Runnable(Params())
      modifies this`referenceIndex, weights, refHistory, secHistory, fxHistory
      ensures Valid()
      ensures var b := Step(Params(), old(State()), loop, errorBlock);
        && Frame(refBlock, antiNoise) == b.frame
        && State() == b.after.(frameIndex := frameIndex)
    {
      ghost var s := State();
      refBlock := NextReferenceBlock(loop);
      var anti, fxVectors := SynthesizeBlock(refBlock);
      antiNoise := anti[..];
      UpdateWeights(errorBlock, fxVectors);
    }

    /** One iteration of the loop in `run`: process a block, raise the stop
        flag once a non-looping reference is exhausted, choose what goes to
        the speakers, report the metrics and count the frame. `rest` are the
        error blocks still to come (the first is this one's) and `done` the
        frames already processed. */
    method RunIteration(loop: bool, errorBlock: seq<real>, withCallback: bool,
                        ghost rest: seq<seq<real>>, ghost done: seq<Frame>)
      returns (frame: Frame, out: Playback, report: seq<AncMetrics>)
      requires Valid() && Runnable(Params()) && !stopRequested && rest != [] && rest[0] == errorBlock
      modifies this`referenceIndex, this`stopRequested, this`frameIndex, weights, refHistory, secHistory, fxHistory
      ensures Valid() && frameIndex == old(frameIndex) + 1
      ensures |frame.reference| == |frame.antiNoise|
      ensures out == Mix(playReference, referenceDevice.Some?, frame.reference, frame.antiNoise)
      ensures report == if withCallback then [AncMetrics(old(frameIndex), MeanSquare(errorBlock), baseStepSize)] else []
      ensures var prior := Continue(Params(), old(State()), loop, rest, done);
        if stopRequested then prior == Session(State(), done + [frame])
        else prior == Continue(Params(), State(), loop, rest[1..], done + [frame])
      ensures stopRequested == StopAfter(Params(), State(), loop)
    {
      ghost var b := Step(Params(), State(), loop, errorBlock);
      ContinueStep(Params(), State(), loop, rest, done);
      var refBlock, antiNoise := ProcessBlock(loop, errorBlock);
      if !loop && referenceIndex >= |referenceSignal| {
        stopRequested := true;
      }
      frame := Frame(refBlock, antiNoise);
      out := Mix(playReference, referenceDevice.Some?, refBlock, antiNoise);
      report := if withCallback then [AncMetrics(frameIndex, MeanSquare(errorBlock), baseStepSize)] else [];
      frameIndex := frameIndex + 1;
      assert State() == b.after && frame == b.frame;
    }

    /** `run`: reset, then one block per input read until the captured reads
        run out or the stop flag is raised. Returns what each block wrote to
        the speakers and, when a callback is given, the metrics it received. */
    method Run(loopReference: bool, captured: seq<seq<Int16>>, withCallback: bool)
      returns (played: seq<Playback>, metrics: seq<AncMetrics>)
      requires Valid() && Runnable(Params())
      modifies this, weights, refHistory, secHistory, fxHistory
      ensures Valid()
      ensures var session := RunFrom(Params(), Reset(Params()), loopReference, ErrorBlocks(captured));
        && State() == session.final
        && |played| == |session.frames|
        && (forall i :: 0 <= i < |played| ==>
              played[i] == Mix(playReference, referenceDevice.Some?,
                               session.frames[i].reference, session.frames[i].antiNoise))
        && (withCallback ==>
              && |metrics| == |played|
              && forall i :: 0 <= i < |metrics| ==>
                   metrics[i] == AncMetrics(i, MeanSquare(Int16sToSamples(captured[i])), baseStepSize))
        && (!withCallback ==> metrics == [])
    {
      ResetState();
      stopRequested := false;
      ghost var errors := ErrorBlocks(captured);
      assert errors[0..] == errors;
      ghost var frames;
      ghost var start := State();
      frames, played, metrics := RunBlocks(loopReference, captured, withCallback);
      ContinueFromNothing(Params(), start, loopReference, errors);
    }

    /** The loop of `run`, from the state `_reset_state` leaves. */
    method RunBlocks(loopReference: bool, captured: seq<seq<Int16>>, withCallback: bool)
      returns (ghost frames: seq<Frame>, played: seq<Playback>, metrics: seq<AncMetrics>)
      requires Valid() && Runnable(Params()) && !stopRequested && Shaped(Params(), State())
      requires frameIndex == 0
      modifies this`referenceIndex, this`stopRequested, this`frameIndex, weights, refHistory, secHistory, fxHistory
      ensures Valid()
      ensures Continue(Params(), old(State()), loopReference, ErrorBlocks(captured), []) == Session(State(), frames)
      ensures |played| == |frames|
      ensures forall i :: 0 <= i < |played| ==>
        played[i] == Mix(playReference, referenceDevice.Some?, frames[i].reference, frames[i].antiNoise)
      ensures withCallback ==> |metrics| == |frames| && forall i :: 0 <= i < |metrics| ==>
        metrics[i] == AncMetrics(i, MeanSquare(Int16sToSamples(captured[i])), baseStepSize)
      ensures !withCallback ==> metrics == []
    {
      ghost var p := Params();
      ghost var errors := ErrorBlocks(captured);
      ghost var whole := Continue(p, State(), loopReference, errors, []);
      frames := [];
      played := [];
      metrics := [];
      assert errors[0..] == errors;
      while !stopRequested && frameIndex < |captured|
        invariant Valid() && Shaped(p, State())
        invariant frameIndex <= |captured| && |frames| == frameIndex
        invariant !stopRequested ==> whole == Continue(p, State(), loopReference, errors[frameIndex..], frames)
        invariant stopRequested ==> whole == Session(State(), frames)
        invariant |played| == |frames|
        invariant forall i :: 0 <= i < |played| ==>
          |frames[i].reference| == |frames[i].antiNoise| &&
          played[i] == Mix(playReference, referenceDevice.Some?, frames[i].reference, frames[i].antiNoise)
        invariant withCallback ==> |metrics| == |frames| && forall i :: 0 <= i < |metrics| ==>
          metrics[i] == AncMetrics(i, MeanSquare(Int16sToSamples(captured[i])), baseStepSize)
        invariant !withCallback ==> metrics == []
        decreases |captured| - frameIndex, !stopRequested
      {
        ghost var rest := errors[frameIndex..];
        var errorBlock := Int16sToSamples(captured[frameIndex]);
        var frame, out, report := RunIteration(loopReference, errorBlock, withCallback, rest, frames);
        played := played + [out];
        metrics := metrics + report;
        frames := frames + [frame];
        assert rest[1..] == errors[frameIndex..];
      }
      if !stopRequested {
        assert errors[frameIndex..] == [];
      }
    }
  }
}
