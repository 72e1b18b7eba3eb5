/** The test harness ANC/ANC_test.py: configuration checks, loading the saved
    secondary path, and the pass-through loop that plays the reference alone.
    The configuration constants are a `Config` value; the audio streams are
    left out, and what the loop writes to them is its result. */
module AncTest {
  import opened Wrappers
  import opened Signal
  import opened Fxlms
  import opened Harness

  /** The configuration constants at the top of the script. */
  datatype Config = Config(mode: string, controlDevice: Option<int>, recordDevice: Option<int>,
                           referenceDevice: Option<int>, splitReferenceChannels: bool, stepSize: real,
                           blockSize: Option<int>, filterLength: Option<int>, duration: Option<real>)

  datatype ConfigError =
    | UnsupportedMode(mode: string)
    | ControlDeviceUnset
    | RecordDeviceUnset
    | ReferenceDeviceWhileSplitting
    | BlockSizeNotPositive
    | FilterLengthNotPositive

  /** `MODE in {"a", "r"}` */
  predicate ModeAccepted(mode: string)
  {
    mode == "a" || mode == "r"
  }

  /** Every condition `validate_config` demands, in one place. */
  predicate ConfigAcceptable(c: Config)
  {
    && ModeAccepted(c.mode)
    && c.controlDevice.Some?
    && (c.mode == "a" ==> c.recordDevice.Some?)
    && !(c.splitReferenceChannels && c.referenceDevice.Some?)
    && (c.blockSize.None? || c.blockSize.value > 0)
    && (c.filterLength.None? || c.filterLength.value > 0)
  }

  /** `validate_config`: `None` when it returns, otherwise the first check
      that raises. */
  function ValidateConfig(c: Config): (r: Option<ConfigError>)
    ensures r.None? <==> ConfigAcceptable(c)
    // each error is raised exactly when every earlier check passed and its own failed
    ensures r == Some(UnsupportedMode(c.mode)) <==> !ModeAccepted(c.mode)
    ensures r == Some(ControlDeviceUnset) <==> ModeAccepted(c.mode) && c.controlDevice.None?
    ensures r == Some(RecordDeviceUnset) <==>
      ModeAccepted(c.mode) && c.controlDevice.Some? && c.mode == "a" && c.recordDevice.None?
    ensures r == Some(ReferenceDeviceWhileSplitting) <==>
      && ModeAccepted(c.mode) && c.controlDevice.Some? && (c.mode == "a" ==> c.recordDevice.Some?)
      && c.splitReferenceChannels && c.referenceDevice.Some?
    ensures r == Some(BlockSizeNotPositive) <==>
      && ModeAccepted(c.mode) && c.controlDevice.Some? && (c.mode == "a" ==> c.recordDevice.Some?)
      && !(c.splitReferenceChannels && c.referenceDevice.Some?)
      && c.blockSize.Some? && c.blockSize.value <= 0
    ensures r == Some(FilterLengthNotPositive) <==>
      && ModeAccepted(c.mode) && c.controlDevice.Some? && (c.mode == "a" ==> c.recordDevice.Some?)
      && !(c.splitReferenceChannels && c.referenceDevice.Some?)
      && (c.blockSize.None? || c.blockSize.value > 0)
      && c.filterLength.Some? && c.filterLength.value <= 0
    // the refused mode is the configured one
    ensures r.Some? && r.value.UnsupportedMode? ==> r.value.mode == c.mode
  {
    if !ModeAccepted(c.mode) then Some(UnsupportedMode(c.mode))
    else if c.controlDevice.None? then Some(ControlDeviceUnset)
    else if c.mode == "a" && c.recordDevice.None? then Some(RecordDeviceUnset)
    else if c.splitReferenceChannels && c.referenceDevice.Some? then Some(ReferenceDeviceWhileSplitting)
    else if c.blockSize.Some? && c.blockSize.value <= 0 then Some(BlockSizeNotPositive)
    else if c.filterLength.Some? && c.filterLength.value <= 0 then Some(FilterLengthNotPositive)
    else None
  }

  /** The long mode names the error message and the comment suggest are
      refused: only the one-letter names pass. */
  lemma LongModeNamesRejected(c: Config)
    ensures ValidateConfig(c.(mode := "anc")) == Some(UnsupportedMode("anc"))
    ensures ValidateConfig(c.(mode := "reference")) == Some(UnsupportedMode("reference"))
  {
    assert "anc" != "a" && "anc" != "r" by { assert |"anc"| == 3; }
    assert "reference" != "a" && "reference" != "r" by { assert |"reference"| == 9; }
  }

  // ---------------------------------------------------------------------------
  // load_secondary_path
  // ---------------------------------------------------------------------------

  datatype PathError = PathFileNotFound | PathNotOneDimensional

  /** `load_secondary_path`: the saved array (`None` for a missing file) must
      be one-dimensional. */
  function LoadSecondaryPath(file: Option<NdArray>): (r: Result<seq<real>, PathError>)
    ensures file.None? ==> r == Failure(PathFileNotFound)
    ensures file.Some? ==> (r.Success? <==> file.value.ndim == 1)
    ensures file.Some? && file.value.ndim != 1 ==> r == Failure(PathNotOneDimensional)
    ensures r.Success? ==> r.value == file.value.values
  {
    match file
    case None => Failure(PathFileNotFound)
    case Some(taps) => if taps.ndim != 1 then Failure(PathNotOneDimensional) else Success(taps.values)
  }

  datatype RunAncError = PathUnusable(cause: PathError) | ConstructorRefused(refusal: CallError)

  /** `run_anc`: load the path, build the keyword arguments, construct the
      controller. The construction always fails on `split_reference_channels`,
      so no session starts. */
  function RunAnc(c: Config, pathFile: Option<NdArray>, referencePath: string): (r: Result<Kwargs, RunAncError>)
    ensures r.Failure?
    ensures LoadSecondaryPath(pathFile).Failure? ==> r == Failure(PathUnusable(LoadSecondaryPath(pathFile).error))
    ensures LoadSecondaryPath(pathFile).Success? ==>
      r == Failure(ConstructorRefused(UnexpectedKeyword(SplitReferenceChannels)))
  {
    match LoadSecondaryPath(pathFile)
    case Failure(e) => Failure(PathUnusable(e))
    case Success(taps) =>
      var kw := RunAncKwargs(referencePath, NdArray(1, taps), c.controlDevice, c.recordDevice,
                             c.referenceDevice, c.stepSize, c.splitReferenceChannels, c.blockSize, c.filterLength);
      RunAncNeverBindsConstructor(referencePath, NdArray(1, taps), c.controlDevice, c.recordDevice,
                                  c.referenceDevice, c.stepSize, c.splitReferenceChannels, c.blockSize, c.filterLength);
      match BindConstructor(kw)
      case Failure(e) => Failure(ConstructorRefused(e))
      case Success(args) => Success(args)
  }

  // ---------------------------------------------------------------------------
  // play_reference_only
  // ---------------------------------------------------------------------------

  /** `BLOCK_SIZE if BLOCK_SIZE is not None else DEFAULT_BLOCK_SIZE` */
  function BlockLen(c: Config): (n: nat)
    requires c.blockSize.None? || c.blockSize.value >= 0
    ensures c.blockSize.Some? ==> n == c.blockSize.value
    ensures c.blockSize.None? ==> n == DEFAULT_BLOCK_SIZE
    // a configuration that passed `validate_config` gives a non-empty block
    ensures ValidateConfig(c).None? ==> n >= 1
  {
    if c.blockSize.Some? then c.blockSize.value else DEFAULT_BLOCK_SIZE
  }

  /** The blocks the loop plays from `index` when it may run `budget` more
      iterations before the duration elapses or the user interrupts it: an
      empty slice ends playback, a short one is padded; past the end the index
      returns to 0 when looping, otherwise playback ends. */
  function ReferenceOnly(signal: seq<real>, blockLen: nat, loop: bool, index: nat, budget: nat)
    : (r: seq<seq<real>>)
    ensures |r| <= budget
    ensures forall k :: 0 <= k < |r| ==> |r[k]| == blockLen
    decreases budget
  {
    if budget == 0 then []
    else
      var block := Slice(signal, index, index + blockLen);
      if block == [] then []
      else
        var padded := PadTo(block, blockLen);
        var next := index + blockLen;
        if next >= |signal| then
          if loop then [padded] + ReferenceOnly(signal, blockLen, loop, 0, budget - 1) else [padded]
        else [padded] + ReferenceOnly(signal, blockLen, loop, next, budget - 1)
  }

  /** Without looping the loop plays the signal from `index` once, in order,
      zero-padded only at the very end. */
  lemma {:induction false} NonLoopPlaysSignalOnce(signal: seq<real>, blockLen: nat, index: nat, budget: nat)
    ensures var played := Concat(ReferenceOnly(signal, blockLen, false, index, budget));
      played == Segment(signal, index, |played|)
    decreases budget
  {
    var r := ReferenceOnly(signal, blockLen, false, index, budget);
    var block := Slice(signal, index, index + blockLen);
    if budget == 0 || block == [] {
      assert r == [] && Concat(r) == [];
      assert Segment(signal, index, 0) == [];
    } else {
      PaddedSliceIsSegment(signal, index, blockLen);
      var padded := PadTo(block, blockLen);
      var next := index + blockLen;
      if next >= |signal| {
        assert r == [padded];
        assert Concat(r) == padded by { assert r[1..] == []; }
      } else {
        var rest := ReferenceOnly(signal, blockLen, false, next, budget - 1);
        assert r == [padded] + rest;
        assert Concat(r) == padded + Concat(rest) by { assert r[1..] == rest; }
        NonLoopPlaysSignalOnce(signal, blockLen, next, budget - 1);
        SegmentJoin(signal, index, blockLen, |Concat(rest)|);
      }
    }
  }

  /** Without looping playback ends early only once the signal is exhausted,
      and never plays a block that lies wholly past the end. */
  lemma {:induction false} NonLoopStopsAtSignalEnd(signal: seq<real>, blockLen: nat, index: nat, budget: nat)
    ensures var r := ReferenceOnly(signal, blockLen, false, index, budget);
      var n := |Concat(r)|;
      && (|r| < budget && blockLen > 0 ==> index + n >= |signal|)
      && (index < |signal| ==> index + n < |signal| + blockLen)
    decreases budget
  {
    var r := ReferenceOnly(signal, blockLen, false, index, budget);
    var block := Slice(signal, index, index + blockLen);
    if budget == 0 || block == [] {
      assert r == [];
    } else {
      var padded := PadTo(block, blockLen);
      var next := index + blockLen;
      if next >= |signal| {
        assert r == [padded];
        assert Concat(r) == padded by { assert r[1..] == []; }
      } else {
        var rest := ReferenceOnly(signal, blockLen, false, next, budget - 1);
        assert r == [padded] + rest;
        assert Concat(r) == padded + Concat(rest) by { assert r[1..] == rest; }
        NonLoopStopsAtSignalEnd(signal, blockLen, next, budget - 1);
      }
    }
  }

  /** With looping and a non-empty signal, only the duration or the user ends
      playback: every iteration plays a block. */
  lemma {:induction false} LoopingNeverStops(signal: seq<real>, blockLen: nat, index: nat, budget: nat)
    requires blockLen > 0 && index < |signal|
    ensures |ReferenceOnly(signal, blockLen, true, index, budget)| == budget
    decreases budget
  {
    if budget > 0 {
      if index + blockLen >= |signal| {
        LoopingNeverStops(signal, blockLen, 0, budget - 1);
      } else {
        LoopingNeverStops(signal, blockLen, index + blockLen, budget - 1);
      }
    }
  }

  /** One iteration of the loop: the padded block it plays, then the rest
      from the next index, or nothing more. */
  lemma ReferenceOnlyStep(signal: seq<real>, blockLen: nat, loop: bool, index: nat, budget: nat)
    requires budget > 0 && Slice(signal, index, index + blockLen) != []
    ensures var next := index + blockLen;
      var rest := if next < |signal| then ReferenceOnly(signal, blockLen, loop, next, budget - 1)
                  else if loop then ReferenceOnly(signal, blockLen, loop, 0, budget - 1)
                  else [];
      ReferenceOnly(signal, blockLen, loop, index, budget)
        == [PadTo(Slice(signal, index, index + blockLen), blockLen)] + rest
  {
  }

  lemma ControlFramesSnoc(blocks: seq<seq<real>>, block: seq<real>, split: bool)
    ensures ControlFrames(blocks + [block], split) == ControlFrames(blocks, split) + [ControlFrame(block, split)]
  {
  }

  /** The frame for the control stream: the stereo frame when the channels
      are split, the block itself otherwise. */
  method MakeControlFrame(block: seq<real>, split: bool) returns (frame: seq<real>)
    ensures frame == ControlFrame(block, split)
  {
    frame := block;
    if split {
      var stereo := WriteStereo(block);
      frame := stereo[..];
    }
  }

  /** The body of one iteration: the slice at `index`, padded when short,
      and where playback goes next. An empty slice plays nothing and ends
      playback. */
  method ReferenceStep(signal: seq<real>, blockLen: nat, loop: bool, index: nat, budget: nat)
    returns (played: bool, block: seq<real>, next: nat, more: bool)
    requires budget > 0
    ensures !played ==> ReferenceOnly(signal, blockLen, loop, index, budget) == []
    ensures played ==>
      ReferenceOnly(signal, blockLen, loop, index, budget)
        == [block] + (if more then ReferenceOnly(signal, blockLen, loop, next, budget - 1) else [])
  {
    var slice := Slice(signal, index, index + blockLen);
    if |slice| == 0 {
      return false, [], index, false;
    }
    block := slice;
    if |slice| < blockLen {
      block := PadTo(slice, blockLen);
    }
    assert block == PadTo(slice, blockLen);
    ReferenceOnlyStep(signal, blockLen, loop, index, budget);
    played := true;
    next := index + blockLen;
    more := true;
    if next >= |signal| {
      if loop {
        next := 0;
      } else {
        more := false;
      }
    }
  }

  /** `play_reference_only`, for a session that would run `budget` iterations
      before the duration elapses or the user interrupts it: the frames
      written to the control stream and to the dedicated reference stream.
      Looping is on exactly when no duration is configured. */
  method PlayReferenceOnly(signal: seq<real>, c: Config, budget: nat)
    returns (control: seq<seq<real>>, reference: seq<seq<real>>)
    requires c.blockSize.None? || c.blockSize.value >= 0
    ensures var blocks := ReferenceOnly(signal, BlockLen(c), c.duration.None?, 0, budget);
      && control == ControlFrames(blocks, c.splitReferenceChannels)
      && reference == (if c.referenceDevice.Some? then blocks else [])
  {
    var loopReference := c.duration.None?;
    var blockLen := BlockLen(c);
    ghost var whole := ReferenceOnly(signal, blockLen, loopReference, 0, budget);
    ghost var blocks: seq<seq<real>> := [];
    ghost var rest := whole;
    control, reference := [], [];
    var index: nat := 0;
    var remaining := budget;
    var more := true;
    while more && remaining > 0
      invariant blocks + rest == whole
      invariant more ==> rest == ReferenceOnly(signal, blockLen, loopReference, index, remaining)
      invariant !more ==> rest == []
      invariant control == ControlFrames(blocks, c.splitReferenceChannels)
      invariant reference == (if c.referenceDevice.Some? then blocks else [])
      decreases remaining
    {
      var played, block, next;
      played, block, next, more := ReferenceStep(signal, blockLen, loopReference, index, remaining);
      if !played {
        assert blocks + [] == blocks;
        return;
      }
      var frame := MakeControlFrame(block, c.splitReferenceChannels);
      ControlFramesSnoc(blocks, block, c.splitReferenceChannels);
      control := control + [frame];
      if c.referenceDevice.Some? {
        reference := reference + [block];
      }
      ghost var after := if more then ReferenceOnly(signal, blockLen, loopReference, next, remaining - 1) else [];
      assert rest == [block] + after;
      AppendAssoc(blocks, [block], after);
      blocks := blocks + [block];
      rest := after;
      remaining := remaining - 1;
      index := next;
    }
    if more {
      assert rest == [];
    }
    assert blocks + [] == blocks;
  }
}
