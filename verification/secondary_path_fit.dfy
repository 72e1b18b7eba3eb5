/** The linear system `measure_secondary_path` hands to the least-squares
    solver: one row per recorded sample from `fir_length` on, `X[r, i] =
    excitation[r + i]`, target `y = recorded[fir_length:]`. The solve itself
    is not part of this model. */
module SecondaryPathFit {
  import opened Wrappers
  import opened Signal
  import opened AdaptiveFilter

  datatype FitError =
    | NegativeDimension(rows: int)  // np.zeros((n - fir_length, fir_length)) with n < fir_length

  /** Row `r` of the system as built: `excitation[r : r + fir_length]`. */
  function DesignRow(x: seq<real>, firLength: nat, r: nat): seq<real>
    requires r + firLength <= |x|
  {
    x[r..r + firLength]
  }

  /** `X[:, i] = excitation[i : i + rows]`, in place. */
  method FillColumn(m: array2<real>, x: seq<real>, i: nat)
    requires i < m.Length1 && m.Length0 + m.Length1 <= |x|
    modifies m
    ensures forall r :: 0 <= r < m.Length0 ==> m[r, i] == x[r + i]
    ensures forall r, j :: 0 <= r < m.Length0 && 0 <= j < m.Length1 && j != i ==> m[r, j] == old(m[r, j])
  {
    var r := 0;
    while r < m.Length0
      invariant 0 <= r <= m.Length0
      invariant forall q :: 0 <= q < r ==> m[q, i] == x[q + i]
      invariant forall q, j :: 0 <= q < m.Length0 && 0 <= j < m.Length1 && j != i ==> m[q, j] == old(m[q, j])
    {
      m[r, i] := x[r + i];
      r := r + 1;
    }
  }

  /** Lines 414-417 of `measure_secondary_path`: the matrix `X` and the
      target `y`, or the error `np.zeros` raises when there are fewer samples
      than taps. */
  method BuildSystem(excitation: seq<real>, recorded: seq<real>, firLength: nat)
    returns (r: Result<(array2<real>, seq<real>), FitError>)
    requires |recorded| == |excitation|
    ensures r.Failure? <==> firLength > |excitation|
    ensures r.Failure? ==> r.error == NegativeDimension(|excitation| - firLength)
    ensures r.Success? ==>
      var (m, y) := r.value;
      && m.Length0 == |excitation| - firLength && m.Length1 == firLength
      && (forall row, i :: 0 <= row < m.Length0 && 0 <= i < m.Length1 ==> m[row, i] == excitation[row + i])
      && y == recorded[firLength..]
  {
    var n := |excitation|;
    if firLength > n {
      return Failure(NegativeDimension(n - firLength));
    }
    var m := new real[n - firLength, firLength]((_, _) => 0.0);
    var i := 0;
    while i < firLength
      invariant 0 <= i <= firLength
      invariant forall row, j :: 0 <= row < m.Length0 && 0 <= j < i ==> m[row, j] == excitation[row + j]
    {
      FillColumn(m, excitation, i);
      i := i + 1;
    }
    return Success((m, recorded[firLength..]));
  }

  // ---------------------------------------------------------------------------
  // How the rows pair taps with delays
  // ---------------------------------------------------------------------------

  /** `v[::-1]` */
  function Reverse(v: seq<real>): (r: seq<real>)
    ensures |r| == |v|
  {
    seq(|v|, k requires 0 <= k < |v| => v[|v| - 1 - k])
  }

  /** What the controller's `sec_history` holds after the samples `xs` have
      been shifted into a zeroed register of `taps` entries: the sample `k`
      steps back at position `k`. `np.dot(secondary_path, sec_history)` is the
      filter output the path is meant to model. */
  function History(xs: seq<real>, taps: nat): seq<real>
  {
    Window(Zeros(taps), xs)
  }

  /** The response a path gives at sample `n` under the controller's tap
      order. */
  function Response(path: seq<real>, x: seq<real>, n: nat): real
    requires n < |x|
  {
    Dot(path, History(x[..n + 1], |path|))
  }

  /** Row `r` of the system as built is the history that ends one sample
      before the target `recorded[fir_length + r]`, in reverse: tap `i` is
      paired with the sample `fir_length - i` steps back, so the solution is
      the path reversed, with no tap for the current sample. */
  lemma DesignRowIsReversedHistory(x: seq<real>, firLength: nat, r: nat)
    requires r + firLength <= |x|
    ensures DesignRow(x, firLength, r) == Reverse(History(x[..r + firLength], firLength))
  {
    var h := History(x[..r + firLength], firLength);
    var d := DesignRow(x, firLength, r);
    forall i | 0 <= i < firLength ensures d[i] == Reverse(h)[i] {
      assert Reverse(h)[i] == h[firLength - 1 - i];
    }
  }

  /** For the identity path `[1, 0]` and a unit impulse, the true path does not
      satisfy the system as built: row 0 asks for 1.0 where 0.0 was recorded. */
  lemma DesignSystemMissesIdentityPath()
    ensures var x := [1.0, 0.0, 0.0, 0.0];
      var path := [1.0, 0.0];
      && (forall n :: 0 <= n < |x| ==> Response(path, x, n) == x[n])
      && Dot(path, DesignRow(x, 2, 0)) == 1.0 != x[2]
  {
    var x := [1.0, 0.0, 0.0, 0.0];
    var path := [1.0, 0.0];
    forall n | 0 <= n < |x| ensures Response(path, x, n) == x[n] {
      var h := History(x[..n + 1], 2);
      assert h[0] == x[n];
      assert Dot(path[1..], h[1..]) == 0.0 * h[1] + Dot(path[2..], h[2..]);
    }
    assert DesignRow(x, 2, 0) == [1.0, 0.0];
  }

  /** Row `r` of the system in the controller's tap order: tap `k` is paired
      with the sample `k` steps before the target `recorded[fir_length + r]`. */
  function CausalRow(x: seq<real>, firLength: nat, r: nat): (row: seq<real>)
    requires r + firLength < |x|
    ensures |row| == firLength
  {
    seq(firLength, k requires 0 <= k < firLength => x[r + firLength - k])
  }

  /** The causal row is exactly the controller's history at the target sample ... */
  lemma CausalRowIsHistory(x: seq<real>, firLength: nat, r: nat)
    requires r + firLength < |x|
    ensures CausalRow(x, firLength, r) == History(x[..r + firLength + 1], firLength)
  {
    var h := History(x[..r + firLength + 1], firLength);
    forall k | 0 <= k < firLength ensures CausalRow(x, firLength, r)[k] == h[k] { }
  }

  /** ... so whenever the recording is the response of some path of
      `fir_length` taps, that path solves every row of the causal system
      exactly. */
  lemma CausalSystemSolvedByPath(path: seq<real>, x: seq<real>, recorded: seq<real>, r: nat)
    requires |recorded| == |x| && r + |path| < |x|
    requires forall n {:trigger recorded[n]} :: 0 <= n < |x| ==> recorded[n] == Response(path, x, n)
    ensures Dot(path, CausalRow(x, |path|, r)) == recorded[|path| + r]
  {
    var n := |path| + r;
    assert recorded[n] == Response(path, x, n);
    CausalRowIsHistory(x, |path|, r);
  }

  /** The system in the controller's tap order, built the same way. */
  method BuildCausalSystem(excitation: seq<real>, recorded: seq<real>, firLength: nat)
    returns (r: Result<(array2<real>, seq<real>), FitError>)
    requires |recorded| == |excitation|
    ensures r.Failure? <==> firLength > |excitation|
    ensures r.Success? ==>
      var (m, y) := r.value;
      && m.Length0 == |excitation| - firLength && m.Length1 == firLength
      && (forall row :: 0 <= row < m.Length0 ==> Row(m, row) == CausalRow(excitation, firLength, row))
      && y == recorded[firLength..]
  {
    var n := |excitation|;
    if firLength > n {
      return Failure(NegativeDimension(n - firLength));
    }
    var m := new real[n - firLength, firLength]((_, _) => 0.0);
    var row := 0;
    while row < m.Length0
      invariant 0 <= row <= m.Length0
      invariant forall q :: 0 <= q < row ==> Row(m, q) == CausalRow(excitation, firLength, q)
    {
      FillCausalRow(m, excitation, row);
      row := row + 1;
    }
    return Success((m, recorded[firLength..]));
  }

  /** Row `i` of a matrix. */
  function Row(m: array2<real>, i: nat): (r: seq<real>)
    requires i < m.Length0
    reads m
    ensures |r| == m.Length1
  {
    seq(m.Length1, k requires 0 <= k < m.Length1 reads m => m[i, k])
  }

  /** `X[row, :] = excitation[row + fir_length : row : -1]`, in place. */
  method FillCausalRow(m: array2<real>, x: seq<real>, row: nat)
    requires row < m.Length0 && m.Length0 + m.Length1 <= |x|
    modifies m
    ensures Row(m, row) == CausalRow(x, m.Length1, row)
    ensures forall q :: 0 <= q < m.Length0 && q != row ==> Row(m, q) == old(Row(m, q))
  {
    var k := 0;
    while k < m.Length1
      invariant 0 <= k <= m.Length1
      invariant forall j :: 0 <= j < k ==> m[row, j] == x[row + m.Length1 - j]
      invariant forall q, j :: 0 <= q < m.Length0 && 0 <= j < m.Length1 && q != row ==> m[q, j] == old(m[q, j])
    {
      m[row, k] := x[row + m.Length1 - k];
      k := k + 1;
    }
    assert Row(m, row) == CausalRow(x, m.Length1, row);
  }
}
