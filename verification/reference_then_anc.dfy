/** The script ANC/reference_then_anc.py: a preview that plays the reference
    alone for a fixed time, then an ANC session built from the same
    configuration. Time is replaced by the number of loop iterations the
    preview gets before `REFERENCE_PREVIEW_SECONDS` elapse; the audio streams
    are left out, and what the loop writes to them is its result. */
module ReferenceThenAnc {
  import opened Wrappers
  import opened Signal
  import opened Fxlms
  import opened Harness
  import opened AncTest

  /** The blocks the preview plays from `index` in `budget` more iterations.
      An empty slice writes nothing, sends the index back to 0 and uses up
      the iteration; after a block the index moves on and returns to 0 once
      it reaches the end of the signal. The preview always loops. */
  function Preview(signal: seq<real>, blockLen: nat, index: nat, budget: nat): (r: seq<seq<real>>)
    ensures |r| <= budget
    ensures forall k :: 0 <= k < |r| ==> |r[k]| == blockLen
    decreases budget
  {
    if budget == 0 then []
    else
      var block := Slice(signal, index, index + blockLen);
      if block == [] then Preview(signal, blockLen, 0, budget - 1)
      else
        var next := if index + blockLen >= |signal| then 0 else index + blockLen;
        [PadTo(block, blockLen)] + Preview(signal, blockLen, next, budget - 1)
  }

  /** An empty reference file makes the preview spin without writing. */
  lemma {:induction false} EmptySignalPlaysNothing(signal: seq<real>, blockLen: nat, index: nat, budget: nat)
    requires signal == []
    ensures Preview(signal, blockLen, index, budget) == []
    decreases budget
  {
    if budget > 0 {
      EmptySignalPlaysNothing(signal, blockLen, 0, budget - 1);
    }
  }

  /** Starting inside the signal, the preview is exactly the looping
      pass-through of ANC/ANC_test.py: the index never lands past the end, so
      the empty-slice branch that would tell them apart never fires on a
      non-empty block length. */
  lemma {:induction false} PreviewIsLoopingPassThrough(signal: seq<real>, blockLen: nat, index: nat, budget: nat)
    requires index < |signal|
    ensures Preview(signal, blockLen, index, budget) == ReferenceOnly(signal, blockLen, true, index, budget)
    decreases budget
  {
    if budget > 0 {
      var block := Slice(signal, index, index + blockLen);
      if block == [] {
        assert blockLen == 0;
        PreviewIsLoopingPassThrough(signal, blockLen, 0, budget - 1);
        assert Slice(signal, 0, blockLen) == [];
        assert ReferenceOnly(signal, blockLen, true, 0, budget - 1) == [];
      } else {
        var next := if index + blockLen >= |signal| then 0 else index + blockLen;
        ReferenceOnlyStep(signal, blockLen, true, index, budget);
        assert Preview(signal, blockLen, index, budget)
            == [PadTo(block, blockLen)] + Preview(signal, blockLen, next, budget - 1);
        PreviewIsLoopingPassThrough(signal, blockLen, next, budget - 1);
      }
    }
  }

  /** With a non-empty signal and block every iteration writes a block:
      the preview lasts its whole time. */
  lemma PreviewFillsItsTime(signal: seq<real>, blockLen: nat, budget: nat)
    requires signal != [] && blockLen > 0
    ensures |Preview(signal, blockLen, 0, budget)| == budget
  {
    PreviewIsLoopingPassThrough(signal, blockLen, 0, budget);
    LoopingNeverStops(signal, blockLen, 0, budget);
  }

  /** The body of one preview iteration: the block it writes, if any, and
      the index the next iteration starts from. */
  method PreviewStep(signal: seq<real>, blockLen: nat, index: nat, budget: nat)
    returns (played: bool, block: seq<real>, next: nat)
    requires budget > 0
    ensures !played ==> Preview(signal, blockLen, index, budget) == Preview(signal, blockLen, next, budget - 1)
    ensures played ==>
      Preview(signal, blockLen, index, budget) == [block] + Preview(signal, blockLen, next, budget - 1)
  {
    var slice := Slice(signal, index, index + blockLen);
    if |slice| == 0 {
      return false, [], 0;
    }
    block := slice;
    if |slice| < blockLen {
      block := PadTo(slice, blockLen);
    }
    assert block == PadTo(slice, blockLen);
    played := true;
    next := index + blockLen;
    if next >= |signal| {
      next := 0;
    }
  }

  /** `play_reference_preview` for a preview that lasts `budget` iterations:
      the frames written to the control stream and, when a reference device
      is configured, to the reference stream. */
  method PlayReferencePreview(signal: seq<real>, blockLen: nat, split: bool, referenceDevice: Option<int>,
                              budget: nat)
    returns (control: seq<seq<real>>, reference: seq<seq<real>>)
    ensures var blocks := Preview(signal, blockLen, 0, budget);
      && control == ControlFrames(blocks, split)
      && reference == (if referenceDevice.Some? then blocks else [])
  {
    ghost var whole := Preview(signal, blockLen, 0, budget);
    ghost var blocks: seq<seq<real>> := [];
    control, reference := [], [];
    var index: nat := 0;
    var remaining := budget;
    while remaining > 0
      invariant blocks + Preview(signal, blockLen, index, remaining) == whole
      invariant control == ControlFrames(blocks, split)
      invariant reference == (if referenceDevice.Some? then blocks else [])
      decreases remaining
    {
      var played, block, next := PreviewStep(signal, blockLen, index, remaining);
      ghost var after := Preview(signal, blockLen, next, remaining - 1);
      if played {
        var frame := MakeControlFrame(block, split);
        ControlFramesSnoc(blocks, block, split);
        control := control + [frame];
        if referenceDevice.Some? {
          reference := reference + [block];
        }
        AppendAssoc(blocks, [block], after);
        blocks := blocks + [block];
      }
      remaining := remaining - 1;
      index := next;
    }
    assert blocks + [] == blocks;
  }

  // ---------------------------------------------------------------------------
  // run_anc
  // ---------------------------------------------------------------------------

  /** The arguments `run_anc` gives `controller.run`. */
  datatype RunCall = RunCall(loopReference: bool, maxDuration: Option<real>)

  /** `loop_reference=ANC_DURATION is None, max_duration=ANC_DURATION`: a
      session either has a duration or loops the reference until it is
      interrupted, never both and never neither. */
  function SessionCall(ancDuration: Option<real>): (r: RunCall)
    ensures r.loopReference <==> r.maxDuration.None?
    ensures r.maxDuration == ancDuration
  {
    RunCall(ancDuration.None?, ancDuration)
  }

  /** `run_anc`: the saved taps go to the constructor as loaded (this script
      does not check their shape), with the keyword arguments of
      `Harness.RunAncKwargs`; the constructor refuses them, so `run` is never
      reached. */
  function RunAnc(taps: NdArray, referencePath: string, control: Option<int>, record: Option<int>,
                  reference: Option<int>, stepSize: real, split: bool, blockSize: Option<int>,
                  filterLength: Option<int>, ancDuration: Option<real>)
    : (r: Result<(Kwargs, RunCall), CallError>)
    ensures r == Failure(UnexpectedKeyword(SplitReferenceChannels))
  {
    var kw := RunAncKwargs(referencePath, taps, control, record, reference, stepSize, split, blockSize, filterLength);
    RunAncNeverBindsConstructor(referencePath, taps, control, record, reference, stepSize, split, blockSize,
                                filterLength);
    match BindConstructor(kw)
    case Failure(e) => Failure(e)
    case Success(args) => Success((args, SessionCall(ancDuration)))
  }
}
