/** The filtered-x LMS arithmetic of `FxLMSANC`: shift-register histories,
    anti-noise synthesis (`_synthesize_block`) and the per-sample weight update
    (`_compute_step`, `_update_weights`), over exact reals. */
module AdaptiveFilter {
  import opened Signal

  /** Small constant keeping the normalised step finite. */
  const EPSILON: real := 0.000000001

  // ---------------------------------------------------------------------------
  // Vectors
  // ---------------------------------------------------------------------------

  /** `np.dot(a, b)` */
  function Dot(a: seq<real>, b: seq<real>): real
    requires |a| == |b|
  {
    if a == [] then 0.0 else a[0] * b[0] + Dot(a[1..], b[1..])
  }

  lemma {:induction false} DotZeroLeft(a: seq<real>, b: seq<real>)
    requires |a| == |b| && AllZero(a)
    ensures Dot(a, b) == 0.0
  {
    if a != [] { DotZeroLeft(a[1..], b[1..]); }
  }

  /** The energy of a vector is never negative. */
  lemma {:induction false} EnergyNonNegative(a: seq<real>)
    ensures Dot(a, a) >= 0.0
  {
    if a != [] { EnergyNonNegative(a[1..]); }
  }

  /** `w + c * v`, the vector form of `self.weights += step * e * fx`. */
  function AddScaled(w: seq<real>, c: real, v: seq<real>): (r: seq<real>)
    requires |w| == |v|
    ensures |r| == |w|
  {
    seq(|w|, k requires 0 <= k < |w| => w[k] + c * v[k])
  }

  /** Moving the weights along `v` changes their response to `v` by `c` times
      the energy of `v`. */
  lemma {:induction false} DotAddScaled(v: seq<real>, w: seq<real>, c: real)
    requires |v| == |w|
    ensures Dot(v, AddScaled(w, c, v)) == Dot(v, w) + c * Dot(v, v)
  {
    if v != [] {
      var l, r := AddScaled(w, c, v)[1..], AddScaled(w[1..], c, v[1..]);
      assert |l| == |r|;
      forall k | 0 <= k < |l| ensures l[k] == r[k] { }
      assert l == r;
      DotAddScaled(v[1..], w[1..], c);
    }
  }

  // ---------------------------------------------------------------------------
  // Shift registers
  // ---------------------------------------------------------------------------

  /** `h[1:] = h[:-1]; h[0] = x`: the newest sample enters at 0, the oldest
      drops off the end, the length stays. */
  function Shift(h: seq<real>, x: real): (r: seq<real>)
    requires |h| >= 1
    ensures |r| == |h| && r[0] == x
    ensures forall k :: 1 <= k < |h| ==> r[k] == h[k - 1]
  {
    [x] + h[..|h| - 1]
  }

  /** The register after `xs` has been shifted in, newest first: position `k`
      holds the sample `k` steps back, reaching into the past register once
      `xs` runs out. */
  function Window(past: seq<real>, xs: seq<real>): (r: seq<real>)
    ensures |r| == |past|
  {
    seq(|past|, k requires 0 <= k < |past| =>
      if k < |xs| then xs[|xs| - 1 - k] else past[k - |xs|])
  }

  lemma WindowStep(past: seq<real>, xs: seq<real>, x: real)
    requires |past| >= 1
    ensures Window(past, xs + [x]) == Shift(Window(past, xs), x)
  {
    var l, r := Window(past, xs + [x]), Shift(Window(past, xs), x);
    forall k | 0 <= k < |past| ensures l[k] == r[k] {
      if k > 0 && k - 1 < |xs| {
        assert (xs + [x])[|xs| - k] == xs[|xs| - 1 - (k - 1)];
      }
    }
  }

  /** The three histories of the controller. */
  datatype Histories = Histories(ref: seq<real>, sec: seq<real>, fx: seq<real>)

  /** The shapes `_reset_state` gives the histories: `filter_length` reference
      and filtered-reference taps, one secondary-path tap per coefficient.
      `_synthesize_block` writes index 0 of every history, so each must have
      at least one tap. */
  predicate Fits(h: Histories, filterLength: nat, path: seq<real>)
  {
    && filterLength >= 1 && |path| >= 1
    && |h.ref| == filterLength && |h.fx| == filterLength && |h.sec| == |path|
  }

  /** One sample of `_synthesize_block`: shift `x` into the reference and
      secondary histories, filter it through the secondary path and shift the
      result into the filtered-reference history. */
  function SampleStep(h: Histories, x: real, path: seq<real>): (r: Histories)
    requires |h.ref| >= 1 && |h.fx| >= 1 && |h.sec| == |path| >= 1
    ensures |r.ref| == |h.ref| && |r.sec| == |h.sec| && |r.fx| == |h.fx|
    // the sample is the newest entry of both signal histories, and the newest
    // filtered-reference entry is the path applied to the new secondary history
    ensures r.ref[0] == x && r.sec[0] == x && r.fx[0] == Dot(path, r.sec)
  {
    var sec := Shift(h.sec, x);
    Histories(Shift(h.ref, x), sec, Shift(h.fx, Dot(path, sec)))
  }

  /** What `_synthesize_block` computes: the histories after the block, the
      anti-noise samples and the filtered-reference snapshots. */
  datatype Synthesis = Synthesis(hist: Histories, antiNoise: seq<real>, fxVectors: seq<seq<real>>)

  function Synthesize(h: Histories, block: seq<real>, weights: seq<real>, path: seq<real>): (r: Synthesis)
    requires Fits(h, |weights|, path)
    ensures Fits(r.hist, |weights|, path)
    ensures |r.antiNoise| == |block| && |r.fxVectors| == |block|
    ensures forall i :: 0 <= i < |block| ==> |r.fxVectors[i]| == |weights|
    decreases |block|
  {
    if block == [] then Synthesis(h, [], [])
    else
      var p := Synthesize(h, block[..|block| - 1], weights, path);
      var h' := SampleStep(p.hist, block[|block| - 1], path);
      Synthesis(h', p.antiNoise + [Dot(weights, h'.ref)], p.fxVectors + [h'.fx])
  }

  /** Synthesising one more sample extends the synthesis of the samples
      before it by one sample step. */
  lemma SynthesizeSnoc(h: Histories, block: seq<real>, x: real, weights: seq<real>, path: seq<real>)
    requires Fits(h, |weights|, path)
    ensures var p := Synthesize(h, block, weights, path);
      var h' := SampleStep(p.hist, x, path);
      Synthesize(h, block + [x], weights, path)
        == Synthesis(h', p.antiNoise + [Dot(weights, h'.ref)], p.fxVectors + [h'.fx])
  {
    var b := block + [x];
    assert b[..|b| - 1] == block;
  }

  /** Synthesis is causal: the outputs for a prefix of the block do not depend
      on the samples after it. */
  lemma {:induction false} SynthesizePrefix(h: Histories, block: seq<real>, weights: seq<real>, path: seq<real>, n: nat)
    requires Fits(h, |weights|, path) && n <= |block|
    ensures var full, part := Synthesize(h, block, weights, path), Synthesize(h, block[..n], weights, path);
      full.antiNoise[..n] == part.antiNoise && full.fxVectors[..n] == part.fxVectors
    decreases |block|
  {
    if n < |block| {
      var init := block[..|block| - 1];
      SynthesizePrefix(h, init, weights, path, n);
      assert init[..n] == block[..n];
    } else {
      assert block[..n] == block;
    }
  }

  /** The reference and secondary histories slide one sample per input: after
      a block they hold its samples newest first, followed by the oldest part
      of the histories they started from. */
  lemma {:induction false} HistoriesSlide(h: Histories, block: seq<real>, weights: seq<real>, path: seq<real>)
    requires Fits(h, |weights|, path)
    ensures var r := Synthesize(h, block, weights, path);
      r.hist.ref == Window(h.ref, block) && r.hist.sec == Window(h.sec, block)
    decreases |block|
  {
    if block != [] {
      var init := block[..|block| - 1];
      HistoriesSlide(h, init, weights, path);
      WindowStep(h.ref, init, block[|block| - 1]);
      WindowStep(h.sec, init, block[|block| - 1]);
      assert init + [block[|block| - 1]] == block;
    }
  }

  /** Anti-noise sample `i` is the FIR output `sum_k w[k] * x[i - k]`, where
      samples before the block come from the reference history. */
  lemma AntiNoiseIsFirOutput(h: Histories, block: seq<real>, weights: seq<real>, path: seq<real>, i: nat)
    requires Fits(h, |weights|, path) && i < |block|
    ensures Synthesize(h, block, weights, path).antiNoise[i] == Dot(weights, Window(h.ref, block[..i + 1]))
  {
    SynthesizePrefix(h, block, weights, path, i + 1);
    var part := block[..i + 1];
    assert part[..|part| - 1] == block[..i];
    HistoriesSlide(h, block[..i], weights, path);
    WindowStep(h.ref, block[..i], block[i]);
    assert block[..i] + [block[i]] == part;
  }

  /** Every anti-noise sample of the block is the FIR output over its window. */
  lemma AntiNoiseIsFir(h: Histories, block: seq<real>, weights: seq<real>, path: seq<real>)
    requires Fits(h, |weights|, path)
    ensures forall i :: 0 <= i < |block| ==>
      Synthesize(h, block, weights, path).antiNoise[i] == Dot(weights, Window(h.ref, block[..i + 1]))
  {
    forall i | 0 <= i < |block|
      ensures Synthesize(h, block, weights, path).antiNoise[i] == Dot(weights, Window(h.ref, block[..i + 1]))
    {
      AntiNoiseIsFirOutput(h, block, weights, path, i);
    }
  }

  /** The reference passed through the secondary path, one value per input
      sample: the path applied to the secondary history after that sample. */
  function Filtered(past: seq<real>, path: seq<real>, block: seq<real>): (r: seq<real>)
    requires |past| == |path|
    ensures |r| == |block|
  {
    seq(|block|, i requires 0 <= i < |block| => Dot(path, Window(past, block[..i + 1])))
  }

  /** The filtered-reference history slides like the others, over the
      path-filtered reference: after a block it holds the filtered values
      newest first, then the oldest part of the history it started from. */
  lemma {:induction false} FxHistorySlides(h: Histories, block: seq<real>, weights: seq<real>, path: seq<real>)
    requires Fits(h, |weights|, path)
    ensures Synthesize(h, block, weights, path).hist.fx == Window(h.fx, Filtered(h.sec, path, block))
    decreases |block|
  {
    if block != [] {
      var init, x := block[..|block| - 1], block[|block| - 1];
      assert init + [x] == block;
      FxHistorySlides(h, init, weights, path);
      HistoriesSlide(h, init, weights, path);
      WindowStep(h.sec, init, x);
      var y := Dot(path, Window(h.sec, block));
      var f, g := Filtered(h.sec, path, block), Filtered(h.sec, path, init);
      assert f == g + [y] by {
        forall i | 0 <= i < |init| ensures f[i] == g[i] {
          assert block[..i + 1] == init[..i + 1];
        }
        assert block[..|init| + 1] == block;
      }
      WindowStep(h.fx, g, y);
    }
  }

  /** Synthesis only reads the weights: zero weights give a silent block. */
  lemma {:induction false} ZeroWeightsSilent(h: Histories, block: seq<real>, weights: seq<real>, path: seq<real>)
    requires Fits(h, |weights|, path) && AllZero(weights)
    ensures AllZero(Synthesize(h, block, weights, path).antiNoise)
    decreases |block|
  {
    if block != [] {
      var init := block[..|block| - 1];
      ZeroWeightsSilent(h, init, weights, path);
      var h' := SampleStep(Synthesize(h, init, weights, path).hist, block[|block| - 1], path);
      DotZeroLeft(weights, h'.ref);
    }
  }

  // ---------------------------------------------------------------------------
  // Weight update
  // ---------------------------------------------------------------------------

  /** `_compute_step`: the base step, or with normalisation the base step
      divided by the filtered-reference energy plus EPSILON. */
  function ComputeStep(baseStep: real, normalize: bool, fx: seq<real>): (r: real)
    ensures !normalize ==> r == baseStep
    ensures normalize ==> Dot(fx, fx) + EPSILON > 0.0 && r * (Dot(fx, fx) + EPSILON) == baseStep
  {
    EnergyNonNegative(fx);
    if !normalize then baseStep else baseStep / (Dot(fx, fx) + EPSILON)
  }

  /** The normalised correction is bounded by the error: one update moves the
      filter's response to `fx` by at most `baseStep * |e|`. */
  lemma NormalizedCorrectionBounded(w: seq<real>, fx: seq<real>, baseStep: real, e: real)
    requires |w| == |fx| && baseStep >= 0.0
    ensures var c := ComputeStep(baseStep, true, fx) * e;
      var delta := Dot(fx, AddScaled(w, c, fx)) - Dot(fx, w);
      -baseStep * Abs(e) <= delta <= baseStep * Abs(e)
  {
    var energy := Dot(fx, fx);
    EnergyNonNegative(fx);
    var step := ComputeStep(baseStep, true, fx);
    var c := ComputeStep(baseStep, true, fx) * e;
    DotAddScaled(fx, w, c);
    CorrectionBound(step, baseStep, e, energy, c);
  }

  /** With `step * (energy + EPSILON) == b` and `c == step * e`, the change of
      response `c * energy` lies within `b * |e|`. */
  lemma CorrectionBound(step: real, b: real, e: real, energy: real, c: real)
    requires b >= 0.0 && energy >= 0.0 && step * (energy + EPSILON) == b && c == step * e
    ensures -b * Abs(e) <= c * energy <= b * Abs(e)
  {
    var ratio := energy / (energy + EPSILON);
    assert step == b / (energy + EPSILON);
    NormalizedCorrection(b, e, energy);
    RatioBelowOne(energy);
    ScaledBound(b, e, ratio);
  }

  lemma NormalizedCorrection(b: real, e: real, energy: real)
    requires energy >= 0.0
    ensures (b / (energy + EPSILON)) * e * energy == b * e * (energy / (energy + EPSILON))
  {
    var d := energy + EPSILON;
    assert (b / d) * energy == b * (energy / d);
  }

  lemma RatioBelowOne(energy: real)
    requires energy >= 0.0
    ensures 0.0 <= energy / (energy + EPSILON) <= 1.0
  {
  }

  lemma ScaledBound(b: real, e: real, ratio: real)
    requires b >= 0.0 && 0.0 <= ratio <= 1.0
    ensures -b * Abs(e) <= b * e * ratio <= b * Abs(e)
  {
    if e >= 0.0 {
      assert 0.0 <= b * e;
      assert b * e * ratio <= b * e * 1.0;
    } else {
      assert b * e <= 0.0;
      assert b * e * 1.0 <= b * e * ratio;
    }
  }

  function Abs(x: real): real { if x < 0.0 then -x else x }

  /** One sample of `_update_weights`: `w += step(fx) * e * fx`. */
  function LmsStep(w: seq<real>, e: real, fx: seq<real>, baseStep: real, normalize: bool): (r: seq<real>)
    requires |w| == |fx|
    ensures |r| == |w|
    ensures forall k :: 0 <= k < |w| ==> r[k] == w[k] + ComputeStep(baseStep, normalize, fx) * e * fx[k]
  {
    AddScaled(w, ComputeStep(baseStep, normalize, fx) * e, fx)
  }

  /** One sample update moves the weights by the correction `c` computed
      from that sample. */
  lemma LmsStepMoves(w: seq<real>, e: real, fx: seq<real>, baseStep: real, normalize: bool, c: real)
    requires |w| == |fx| && c == ComputeStep(baseStep, normalize, fx) * e
    ensures LmsStep(w, e, fx, baseStep, normalize) == AddScaled(w, c, fx)
  {
  }

  /** The first `n` sample updates of `_update_weights`, in block order:
      `w := w + step(fx_i) * e_i * fx_i`. */
  function UpdatePrefix(w: seq<real>, errors: seq<real>, fxVectors: seq<seq<real>>, n: nat,
                        baseStep: real, normalize: bool): (r: seq<real>)
    requires n <= |errors| && n <= |fxVectors|
    requires forall i :: 0 <= i < n ==> |fxVectors[i]| == |w|
    ensures |r| == |w|
  {
    if n == 0 then w
    else
      LmsStep(UpdatePrefix(w, errors, fxVectors, n - 1, baseStep, normalize),
              errors[n - 1], fxVectors[n - 1], baseStep, normalize)
  }

  /** `_update_weights`: `zip` pairs errors with filtered-reference vectors
      and stops at the shorter of the two. */
  function UpdateWeights(w: seq<real>, errors: seq<real>, fxVectors: seq<seq<real>>,
                         baseStep: real, normalize: bool): (r: seq<real>)
    requires forall i :: 0 <= i < |fxVectors| ==> |fxVectors[i]| == |w|
    ensures |r| == |w|
  {
    UpdatePrefix(w, errors, fxVectors, Min(|errors|, |fxVectors|), baseStep, normalize)
  }

  /** A silent error leaves the weights where they were. */
  lemma {:induction false} ZeroErrorKeepsWeights(w: seq<real>, errors: seq<real>, fxVectors: seq<seq<real>>,
                                                 n: nat, baseStep: real, normalize: bool)
    requires n <= |errors| && n <= |fxVectors|
    requires forall i :: 0 <= i < n ==> |fxVectors[i]| == |w|
    requires forall i :: 0 <= i < n ==> errors[i] == 0.0
    ensures UpdatePrefix(w, errors, fxVectors, n, baseStep, normalize) == w
  {
    if n > 0 {
      ZeroErrorKeepsWeights(w, errors, fxVectors, n - 1, baseStep, normalize);
      var fx := fxVectors[n - 1];
      var r := LmsStep(w, errors[n - 1], fx, baseStep, normalize);
      forall k | 0 <= k < |w| ensures r[k] == w[k] { }
      assert r == w;
    }
  }

  /** The update is sequential: the first `m` samples are applied, then the
      rest start from the weights they left. */
  lemma {:induction false} UpdateInOrder(w: seq<real>, errors: seq<real>, fxVectors: seq<seq<real>>,
                                         m: nat, n: nat, baseStep: real, normalize: bool)
    requires m <= n <= |errors| && n <= |fxVectors|
    requires forall i :: 0 <= i < n ==> |fxVectors[i]| == |w|
    ensures UpdatePrefix(w, errors, fxVectors, n, baseStep, normalize)
         == UpdatePrefix(UpdatePrefix(w, errors, fxVectors, m, baseStep, normalize),
                         errors[m..], fxVectors[m..], n - m, baseStep, normalize)
    decreases n
  {
    if n > m {
      UpdateInOrder(w, errors, fxVectors, m, n - 1, baseStep, normalize);
      var mid := UpdatePrefix(w, errors, fxVectors, m, baseStep, normalize);
      var es, fs := errors[m..], fxVectors[m..];
      assert es[n - m - 1] == errors[n - 1];
      assert fs[n - m - 1] == fxVectors[n - 1];
    }
  }
}
