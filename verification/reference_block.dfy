/** How `FxLMSANC._next_reference_block` cuts the reference signal into blocks
    of `block_size` samples: a slice when one fits, otherwise a zero-padded
    tail (no looping) or a tail completed from the start of the signal
    (looping). */
module ReferenceBlock {
  import opened Signal

  /** The block returned and the new value of `reference_index`. */
  datatype Fetch = Fetch(block: seq<real>, index: nat)

  /** Where `reference_index` goes after a fetch, for a signal of `n` samples:
      one block on when a whole block fits; to the end (no looping) or past the
      wrap point (looping) for a short tail; back to the start and on, for
      looping, once at or past the end. */
  function NextIndex(n: nat, index: nat, blockSize: nat, loop: bool): (r: nat)
    // without looping the index never moves back, and from inside the signal
    // it stops at the end; with looping and a block no longer than the signal
    // it stays within the signal
    ensures !loop ==> r >= index
    ensures !loop && index <= n ==> r <= n
    ensures loop && blockSize <= n ==> r <= n
    decreases loop
  {
    if index >= n then (if loop then NextIndex(n, 0, blockSize, false) else index)
    else if index + blockSize <= n then index + blockSize
    else if loop then index + blockSize - n
    else n
  }

  function NextBlock(signal: seq<real>, index: nat, blockSize: nat, loop: bool): (r: Fetch)
    ensures |r.block| == blockSize
    ensures r.index == NextIndex(|signal|, index, blockSize, loop)
    decreases loop
  {
    var start := index;
    var end := start + blockSize;
    if start >= |signal| then
      if loop then NextBlock(signal, 0, blockSize, false)
      else Fetch(Zeros(blockSize), index)
    else
      var block := Slice(signal, start, end);
      if |block| < blockSize then
        if loop then
          var remaining := blockSize - |block|;
          var head := NextBlock(signal, 0, blockSize, false).block;
          Fetch(block + head[..remaining], remaining)
        else
          Fetch(PadTo(block, blockSize), |signal|)
      else
        Fetch(block, end)
  }

  /** The cases that need no padding or wrapping. */
  lemma NextBlockCases(signal: seq<real>, index: nat, blockSize: nat, loop: bool)
    // the block lies inside the signal: that slice, and the index moves by exactly one block
    ensures index < |signal| && index + blockSize <= |signal| ==>
      NextBlock(signal, index, blockSize, loop) == Fetch(signal[index..index + blockSize], index + blockSize)
    // past the end without looping: silence, and the index stays put
    ensures index >= |signal| && !loop ==> NextBlock(signal, index, blockSize, loop) == Fetch(Zeros(blockSize), index)
    // past the end with looping: restart from sample 0 as a non-looping read
    ensures index >= |signal| && loop ==> NextBlock(signal, index, blockSize, loop) == NextBlock(signal, 0, blockSize, false)
  {
  }

  /** Without looping, a short tail is padded with zeros and the index jumps to
      the end of the signal; from there every later fetch is silence. */
  lemma ShortTailPadded(signal: seq<real>, index: nat, blockSize: nat)
    requires index < |signal| < index + blockSize
    ensures var r := NextBlock(signal, index, blockSize, false);
      && r.index == |signal|
      && r.block == signal[index..] + Zeros(index + blockSize - |signal|)
      && NextBlock(signal, r.index, blockSize, false) == Fetch(Zeros(blockSize), |signal|)
  {
    assert Slice(signal, index, index + blockSize) == signal[index..];
  }

  /** With looping, a short tail of `k` samples is followed by the first
      `blockSize - k` samples of the signal read without looping (zeros past its
      end), and the index becomes `blockSize - k`. */
  lemma ShortTailWraps(signal: seq<real>, index: nat, blockSize: nat)
    requires index < |signal| < index + blockSize
    ensures var r := NextBlock(signal, index, blockSize, true);
      var k := |signal| - index;
      && r.index == blockSize - k
      && r.block[..k] == signal[index..]
      && forall j :: 0 <= j < blockSize - k ==>
           r.block[k + j] == if j < |signal| then signal[j] else 0.0
  {
    var k := |signal| - index;
    assert Slice(signal, index, index + blockSize) == signal[index..];
    var head := NextBlock(signal, 0, blockSize, false);
    if blockSize <= |signal| {
      assert head.block == signal[..blockSize];
    } else {
      assert Slice(signal, 0, blockSize) == signal;
      assert head.block == PadTo(signal, blockSize);
    }
  }

  /** Wrap a position of the doubled signal back into the signal. */
  function Wrap(x: nat, n: nat): nat
  {
    if x >= n then x - n else x
  }

  /** The read position an index stands for: at the very end, reading restarts at 0. */
  function Position(index: nat, n: nat): nat
  {
    if index == n then 0 else index
  }

  /** Looping playback skips and repeats nothing: when a block fits in the
      signal, every fetched sample is the next one of the cyclically repeated
      signal, and the index keeps pointing at the sample after the block. */
  lemma LoopIsCyclic(signal: seq<real>, index: nat, blockSize: nat)
    requires 0 < blockSize <= |signal| && index <= |signal|
    ensures var r := NextBlock(signal, index, blockSize, true);
      var p := Position(index, |signal|);
      && r.index <= |signal|
      && Position(r.index, |signal|) == Wrap(p + blockSize, |signal|)
      && forall j :: 0 <= j < blockSize ==> r.block[j] == signal[Wrap(p + j, |signal|)]
  {
    var n := |signal|;
    var r := NextBlock(signal, index, blockSize, true);
    if index == n {
      assert r == NextBlock(signal, 0, blockSize, false);
    } else if index + blockSize > n {
      ShortTailWraps(signal, index, blockSize);
    }
  }
}
