/** The block loop of `FxLMSANC.run` as a function of the controller state:
    fetch a reference block, synthesise anti-noise, adapt the weights from the
    captured error block, count the frame, and stop after the block that
    exhausts a non-looping reference. */
module ControlLoop {
  import opened Signal
  import opened ReferenceBlock
  import opened AdaptiveFilter
  import opened Wrappers

  /** The session-fixed settings the loop reads. */
  datatype Params = Params(signal: seq<real>, blockSize: nat, filterLength: nat,
                           baseStep: real, normalize: bool, path: seq<real>)

  /** `_synthesize_block` writes tap 0 of every history: it needs at least one
      adaptive tap and one secondary-path coefficient. */
  predicate Runnable(p: Params)
  {
    p.filterLength >= 1 && |p.path| >= 1
  }

  /** The fields of the controller the loop changes. */
  datatype State = State(weights: seq<real>, hist: Histories, referenceIndex: nat, frameIndex: nat)

  predicate Shaped(p: Params, s: State)
  {
    |s.weights| == p.filterLength && Fits(s.hist, p.filterLength, p.path)
  }

  /** `_reset_state`: zero weights and histories, both counters at 0. */
  function Reset(p: Params): (s: State)
    ensures Runnable(p) ==> Shaped(p, s)
    ensures AllZero(s.weights) && s.referenceIndex == 0 && s.frameIndex == 0
  {
    var fl := p.filterLength;
    State(Zeros(fl), Histories(Zeros(fl), Zeros(|p.path|), Zeros(fl)), 0, 0)
  }

  /** The samples one iteration of the loop body works on: the reference
      block it fetched and the anti-noise it synthesised. */
  datatype Frame = Frame(reference: seq<real>, antiNoise: seq<real>)

  /** One iteration's frame and the state after the weight update and the
      frame count. */
  datatype Block = Block(frame: Frame, after: State)

  /** One iteration of the loop body, given the error block captured for it. */
  function Step(p: Params, s: State, loop: bool, errors: seq<real>): (b: Block)
    requires Runnable(p) && Shaped(p, s)
    ensures Shaped(p, b.after) && b.after.frameIndex == s.frameIndex + 1
    ensures Fetch(b.frame.reference, b.after.referenceIndex) == NextBlock(p.signal, s.referenceIndex, p.blockSize, loop)
    ensures b.after.referenceIndex == NextIndex(|p.signal|, s.referenceIndex, p.blockSize, loop)
    ensures |b.frame.antiNoise| == p.blockSize
    // the block plays the FIR output of the old weights over the reference ...
    ensures forall i :: 0 <= i < p.blockSize ==>
      b.frame.antiNoise[i] == Dot(s.weights, Window(s.hist.ref, b.frame.reference[..i + 1]))
    // ... the histories slide over the block and its path-filtered values ...
    ensures b.after.hist.ref == Window(s.hist.ref, b.frame.reference)
    ensures b.after.hist.sec == Window(s.hist.sec, b.frame.reference)
    ensures b.after.hist.fx == Window(s.hist.fx, Filtered(s.hist.sec, p.path, b.frame.reference))
    // ... and the weights adapt to the error block over the filtered-reference snapshots
    ensures b.after.weights == UpdateWeights(s.weights, errors,
                                             Synthesize(s.hist, b.frame.reference, s.weights, p.path).fxVectors,
                                             p.baseStep, p.normalize)
  {
    var fetched := NextBlock(p.signal, s.referenceIndex, p.blockSize, loop);
    var syn := Synthesize(s.hist, fetched.block, s.weights, p.path);
    AntiNoiseIsFir(s.hist, fetched.block, s.weights, p.path);
    HistoriesSlide(s.hist, fetched.block, s.weights, p.path);
    FxHistorySlides(s.hist, fetched.block, s.weights, p.path);
    var weights := UpdateWeights(s.weights, errors, syn.fxVectors, p.baseStep, p.normalize);
    Block(Frame(fetched.block, syn.antiNoise), State(weights, syn.hist, fetched.index, s.frameIndex + 1))
  }

  /** The stop flag `run` raises after fetching: no looping and the index at
      or past the end of the reference. */
  function StopAfter(p: Params, s: State, loop: bool): (stop: bool)
    // a looping session never stops on its own, and a stopped one has
    // reached the end: a further non-looping fetch would not move the index
    ensures loop ==> !stop
    ensures stop ==> NextIndex(|p.signal|, s.referenceIndex, p.blockSize, false) == s.referenceIndex
  {
    !loop && s.referenceIndex >= |p.signal|
  }

  /** How many blocks the loop processes, followed on the reference index
      alone: at most `budget`, and no more once a non-looping fetch reaches the
      end of the reference. */
  function Fetches(len: nat, index: nat, blockSize: nat, loop: bool, budget: nat): (n: nat)
    ensures n <= budget && (budget > 0 ==> n >= 1)
    decreases budget
  {
    if budget == 0 then 0
    else
      var next := NextIndex(len, index, blockSize, loop);
      if !loop && next >= len then 1 else 1 + Fetches(len, next, blockSize, loop, budget - 1)
  }

  /** A finished loop: the state it leaves and the frames it went through. */
  datatype Session = Session(final: State, frames: seq<Frame>)

  /** The loop from state `s`, one block per captured error block, until the
      captured blocks run out or the stop flag is raised. */
  function RunFrom(p: Params, s: State, loop: bool, captured: seq<seq<real>>): (r: Session)
    requires Runnable(p) && Shaped(p, s)
    ensures Shaped(p, r.final) && r.final.frameIndex == s.frameIndex + |r.frames|
    ensures |r.frames| == Fetches(|p.signal|, s.referenceIndex, p.blockSize, loop, |captured|)
    ensures forall i :: 0 <= i < |r.frames| ==>
      |r.frames[i].reference| == p.blockSize && |r.frames[i].antiNoise| == p.blockSize
    decreases |captured|, 1
  {
    if captured == [] then Session(s, []) else Advance(p, s, loop, captured)
  }

  /** The loop from state `s` when an error block is available: process one
      block, then stop or carry on with the remaining blocks. */
  function Advance(p: Params, s: State, loop: bool, captured: seq<seq<real>>): (r: Session)
    requires Runnable(p) && Shaped(p, s) && captured != []
    ensures Shaped(p, r.final) && r.final.frameIndex == s.frameIndex + |r.frames|
    ensures |r.frames| == Fetches(|p.signal|, s.referenceIndex, p.blockSize, loop, |captured|)
    ensures forall i :: 0 <= i < |r.frames| ==>
      |r.frames[i].reference| == p.blockSize && |r.frames[i].antiNoise| == p.blockSize
    decreases |captured|, 0
  {
    var b := Step(p, s, loop, captured[0]);
    if StopAfter(p, b.after, loop) then Session(b.after, [b.frame])
    else
      var rest := RunFrom(p, b.after, loop, captured[1..]);
      Session(rest.final, [b.frame] + rest.frames)
  }

  /** The session of a loop that has already gone through `done` and
      continues from state `s`. */
  function Continue(p: Params, s: State, loop: bool, captured: seq<seq<real>>, done: seq<Frame>): Session
    requires Runnable(p) && Shaped(p, s)
  {
    var rest := RunFrom(p, s, loop, captured);
    Session(rest.final, done + rest.frames)
  }

  /** A loop that has done nothing yet is the whole run. */
  lemma ContinueFromNothing(p: Params, s: State, loop: bool, captured: seq<seq<real>>)
    requires Runnable(p) && Shaped(p, s)
    ensures Continue(p, s, loop, captured, []) == RunFrom(p, s, loop, captured)
  {
    var rest := RunFrom(p, s, loop, captured);
    assert [] + rest.frames == rest.frames;
  }

  /** One step of a loop in progress: the block from `s` joins the frames
      done, and the loop either stops there or continues from the state the
      block leaves. */
  lemma ContinueStep(p: Params, s: State, loop: bool, captured: seq<seq<real>>, done: seq<Frame>)
    requires Runnable(p) && Shaped(p, s) && captured != []
    ensures var b := Step(p, s, loop, captured[0]);
      Continue(p, s, loop, captured, done) ==
        if StopAfter(p, b.after, loop) then Session(b.after, done + [b.frame])
        else Continue(p, b.after, loop, captured[1..], done + [b.frame])
  {
    var b := Step(p, s, loop, captured[0]);
    if StopAfter(p, b.after, loop) {
      assert RunFrom(p, s, loop, captured) == Session(b.after, [b.frame]);
    } else {
      var rest := RunFrom(p, b.after, loop, captured[1..]);
      assert RunFrom(p, s, loop, captured) == Session(rest.final, [b.frame] + rest.frames);
      assert done + ([b.frame] + rest.frames) == (done + [b.frame]) + rest.frames;
    }
  }

  /** Looping never raises the stop flag: every captured block is processed. */
  lemma {:induction false} LoopingProcessesEveryBlock(len: nat, index: nat, blockSize: nat, budget: nat)
    ensures Fetches(len, index, blockSize, true, budget) == budget
    decreases budget
  {
    if budget > 0 {
      LoopingProcessesEveryBlock(len, NextIndex(len, index, blockSize, true), blockSize, budget - 1);
    }
  }

  /** The reference samples `n` full blocks span, by repeated addition so
      that the proofs below stay linear. */
  function Span(n: nat, blockSize: nat): nat
  {
    if n == 0 then 0 else Span(n - 1, blockSize) + blockSize
  }

  lemma {:induction false} SpanIsProduct(n: nat, blockSize: nat)
    ensures Span(n, blockSize) == n * blockSize
  {
    if n > 0 {
      SpanIsProduct(n - 1, blockSize);
      assert n * blockSize == (n - 1) * blockSize + blockSize;
    }
  }

  /** Without looping the index after `f` blocks is `min(f * blockSize, len)`. */
  lemma NonLoopIndexStep(n: nat, index: nat, blockSize: nat, f: nat)
    requires index == Min(Span(f, blockSize), n)
    requires f == 0 || index < n
    ensures NextIndex(n, index, blockSize, false) == Min(Span(f + 1, blockSize), n)
  {
  }

  lemma {:induction false} NonLoopFetches(len: nat, index: nat, blockSize: nat, f: nat, budget: nat)
    requires index == Min(Span(f, blockSize), len)
    requires f == 0 || Span(f, blockSize) < len
    ensures var n := f + Fetches(len, index, blockSize, false, budget);
      && (n < f + budget ==> Span(n, blockSize) >= len)
      && (n > 1 ==> Span(n - 1, blockSize) < len)
    decreases budget
  {
    if budget > 0 {
      NonLoopIndexStep(len, index, blockSize, f);
      var next := NextIndex(len, index, blockSize, false);
      if next < len {
        NonLoopFetches(len, next, blockSize, f + 1, budget - 1);
      }
    }
  }

  /** Without looping, `run` stops right after the block that reaches the end
      of the reference: it processes the first `n >= 1` blocks with
      `n * blockSize >= len`, unless the captured blocks run out first. */
  lemma NonLoopStopsAtEnd(p: Params, captured: seq<seq<real>>)
    requires Runnable(p)
    ensures var n := |RunFrom(p, Reset(p), false, captured).frames|;
      && (n < |captured| ==> n * p.blockSize >= |p.signal|)
      && (n > 1 ==> (n - 1) * p.blockSize < |p.signal|)
  {
    var n := |RunFrom(p, Reset(p), false, captured).frames|;
    NonLoopFetches(|p.signal|, 0, p.blockSize, 0, |captured|);
    SpanIsProduct(n, p.blockSize);
    if n > 1 {
      SpanIsProduct(n - 1, p.blockSize);
    }
  }

  /** The first block after a reset plays silence: the weights start at zero. */
  lemma FirstBlockSilent(p: Params, loop: bool, errors: seq<real>)
    requires Runnable(p)
    ensures AllZero(Step(p, Reset(p), loop, errors).frame.antiNoise)
  {
    var s := Reset(p);
    var fetched := NextBlock(p.signal, s.referenceIndex, p.blockSize, loop);
    ZeroWeightsSilent(s.hist, fetched.block, s.weights, p.path);
  }

  // ---------------------------------------------------------------------------
  // Output mixing
  // ---------------------------------------------------------------------------

  /** `np.clip(x, -1.0, 1.0)`. */
  function Clip(x: real): (r: real)
    ensures -1.0 <= r <= 1.0
    ensures -1.0 <= x <= 1.0 ==> r == x
    ensures x > 1.0 ==> r == 1.0
    ensures x < -1.0 ==> r == -1.0
  {
    if x < -1.0 then -1.0 else if x > 1.0 then 1.0 else x
  }

  /** What one block writes: the control speaker's samples and, when the
      reference has a speaker of its own, the reference speaker's samples. */
  datatype Playback = Playback(control: seq<real>, reference: Option<seq<real>>)

  /** The output selection in `run`: with a dedicated reference speaker the
      reference goes there and the anti-noise is written unclipped; otherwise
      the reference is mixed in when it is to be heard, and the control
      output is clipped to full scale. */
  function Mix(playReference: bool, dedicated: bool, reference: seq<real>, antiNoise: seq<real>): (r: Playback)
    requires |reference| == |antiNoise|
    ensures |r.control| == |antiNoise|
    ensures playReference && dedicated ==> r == Playback(antiNoise, Some(reference))
    ensures !(playReference && dedicated) ==>
      r.reference == None && forall i :: 0 <= i < |r.control| ==> -1.0 <= r.control[i] <= 1.0
    ensures playReference && !dedicated ==>
      forall i :: 0 <= i < |r.control| ==> r.control[i] == Clip(reference[i] + antiNoise[i])
    ensures !playReference ==> forall i :: 0 <= i < |r.control| ==> r.control[i] == Clip(antiNoise[i])
  {
    if playReference && dedicated then Playback(antiNoise, Some(reference))
    else if playReference then
      Playback(seq(|antiNoise|, i requires 0 <= i < |antiNoise| => Clip(reference[i] + antiNoise[i])), None)
    else
      Playback(seq(|antiNoise|, i requires 0 <= i < |antiNoise| => Clip(antiNoise[i])), None)
  }

  // ---------------------------------------------------------------------------
  // Metrics
  // ---------------------------------------------------------------------------

  /** The record passed to `metrics_callback`. The mean square stands for
      `error_rms`, which is its square root. */
  datatype AncMetrics = AncMetrics(frameIndex: nat, errorMeanSquare: real, stepSize: real)

  function SumSquares(e: seq<real>): (r: real)
    ensures r >= 0.0
  {
    if e == [] then 0.0 else e[0] * e[0] + SumSquares(e[1..])
  }

  /** A silent block has no energy. */
  lemma {:induction false} SilentHasNoEnergy(e: seq<real>)
    requires AllZero(e)
    ensures SumSquares(e) == 0.0
  {
    if e != [] {
      assert e[0] == 0.0;
      assert e[0] * e[0] == 0.0 * 0.0;
      SilentHasNoEnergy(e[1..]);
    }
  }

  /** `mean(error_block ** 2)`; an empty block is reported as 0 (see README). */
  function MeanSquare(e: seq<real>): (r: real)
    ensures r >= 0.0
  {
    if e == [] then 0.0 else SumSquares(e) / (|e| as real)
  }

  /** A silent error block reports zero error power. */
  lemma SilentBlockReportsZero(e: seq<real>)
    requires AllZero(e)
    ensures MeanSquare(e) == 0.0
  {
    SilentHasNoEnergy(e);
  }
}
