/** The recorder local_client/mic_stream.py: 16-bit mono chunks of 0.1 s go
    into a bounded queue; whenever the queue holds a full window, the window
    is saved as float samples and the oldest half of the queue is dropped, so
    consecutive windows overlap by half. The microphone is the sequence of
    chunks it delivers before the user interrupts; saving a window is
    emitting it. */
module MicStream {
  import opened Signal
  import opened Pcm

  const SAMPLE_RATE: nat := 16000
  const CHUNK: nat := 1600
  const WINDOW_DURATION: nat := 5
  const OVERLAP: real := 0.5

  /** `int(SAMPLE_RATE * WINDOW_DURATION / CHUNK)`: the quotient is positive,
      so truncation is the floor. */
  const WINDOW_CHUNKS: nat := (SAMPLE_RATE * WINDOW_DURATION) / CHUNK

  /** `int(WINDOW_CHUNKS * (1 - OVERLAP))` */
  const STEP_CHUNKS: int := ((WINDOW_CHUNKS as real) * (1.0 - OVERLAP)).Floor

  /** The windows are 50 chunks (5 s) long and advance by 25 chunks. */
  lemma WindowConstants()
    ensures WINDOW_CHUNKS == 50 && STEP_CHUNKS == 25
    ensures WINDOW_CHUNKS * CHUNK == WINDOW_DURATION * SAMPLE_RATE
  {
    assert (50 as real) * (1.0 - 0.5) == 25.0;
  }

  /** What `stream.read(CHUNK)` returns: `CHUNK` little-endian int16 frames. */
  predicate ChunkShaped(c: seq<Byte>)
  {
    |c| == 2 * CHUNK
  }

  predicate AllShaped(chunks: seq<seq<Byte>>)
  {
    forall i :: 0 <= i < |chunks| ==> ChunkShaped(chunks[i])
  }

  /** `deque.append` on a deque created with `maxlen`: the newest `maxlen`
      items of the old contents followed by `x`; nothing is evicted while
      there is room. */
  function DequeAppend<T>(buf: seq<T>, x: T, maxlen: nat): (r: seq<T>)
    ensures |r| == Min(|buf| + 1, maxlen)
    ensures r == (buf + [x])[|buf| + 1 - |r|..]
    ensures |buf| < maxlen ==> r == buf + [x]
  {
    if |buf| < maxlen then buf + [x] else (buf + [x])[|buf| + 1 - maxlen..]
  }

  /** `np.frombuffer(b''.join(buffer), dtype=np.int16).astype(np.float32) / 32768.0` */
  function Frames(buf: seq<seq<Byte>>): (r: seq<real>)
    requires AllShaped(buf)
    ensures |r| == |buf| * CHUNK
  {
    ConcatUniform(buf, 2 * CHUNK);
    Int16sToSamples(DecodeInt16s(Concat(buf)))
  }

  /** The samples of a run of chunks are those of its first part followed by
      those of the rest: a window keeps its chunks in order. */
  lemma FramesAppend(a: seq<seq<Byte>>, b: seq<seq<Byte>>)
    requires AllShaped(a) && AllShaped(b)
    ensures AllShaped(a + b)
    ensures Frames(a + b) == Frames(a) + Frames(b)
  {
    assert AllShaped(a + b) by {
      forall i | 0 <= i < |a + b| ensures ChunkShaped((a + b)[i]) {
        if i >= |a| { assert (a + b)[i] == b[i - |a|]; }
      }
    }
    ConcatAppend(a, b);
    ConcatUniform(a, 2 * CHUNK);
    ConcatUniform(b, 2 * CHUNK);
    DecodeInt16sAppend(Concat(a), Concat(b));
    var l, r := Frames(a + b), Frames(a) + Frames(b);
    assert |l| == |r|;
  }

  /** The `k`-th saved window: the chunks `STEP_CHUNKS * k` up to
      `STEP_CHUNKS * k + WINDOW_CHUNKS`. */
  function WindowAt(chunks: seq<seq<Byte>>, k: nat): (r: seq<real>)
    requires AllShaped(chunks) && 25 * k + 50 <= |chunks|
    ensures |r| == WINDOW_CHUNKS * CHUNK
  {
    Frames(chunks[25 * k..25 * k + 50])
  }

  /** Consecutive windows share `WINDOW_CHUNKS - STEP_CHUNKS` chunks: the
      second half of one window is the first half of the next. */
  lemma ConsecutiveWindowsOverlap(chunks: seq<seq<Byte>>, k: nat)
    requires AllShaped(chunks) && 25 * (k + 1) + 50 <= |chunks|
    ensures WindowAt(chunks, k)[STEP_CHUNKS * CHUNK..]
         == WindowAt(chunks, k + 1)[..(WINDOW_CHUNKS - STEP_CHUNKS) * CHUNK]
  {
    WindowConstants();
    var a, b, c := chunks[25 * k..25 * k + 25], chunks[25 * k + 25..25 * k + 50], chunks[25 * k + 50..25 * k + 75];
    assert chunks[25 * k..25 * k + 50] == a + b;
    assert chunks[25 * (k + 1)..25 * (k + 1) + 50] == b + c;
    FramesAppend(a, b);
    FramesAppend(b, c);
    assert |Frames(a)| == 25 * CHUNK && |Frames(b)| == 25 * CHUNK;
  }

  /** `for _ in range(STEP_CHUNKS): buffer.popleft()` */
  method Slide(buffer: seq<seq<Byte>>) returns (r: seq<seq<Byte>>)
    requires |buffer| >= STEP_CHUNKS
    ensures r == buffer[STEP_CHUNKS..]
  {
    WindowConstants();
    r := buffer;
    for n := 0 to STEP_CHUNKS
      invariant r == buffer[n..]
    {
      r := r[1..];
    }
  }

  /** What holds between reads once `i` chunks have been read and `index`
      windows saved. */
  predicate Recorded(chunks: seq<seq<Byte>>, i: nat, windows: seq<seq<real>>, buffer: seq<seq<Byte>>)
    requires AllShaped(chunks)
  {
    && i <= |chunks| && 25 * |windows| <= i
    && buffer == chunks[25 * |windows|..i] && |buffer| < 50
    && forall k :: 0 <= k < |windows| ==> 25 * k + 50 <= i && windows[k] == WindowAt(chunks, k)
  }

  /** One pass of the loop body: read chunk `i`, save a window when the queue
      is full and slide it. */
  method ReadChunk(chunks: seq<seq<Byte>>, i: nat, windows: seq<seq<real>>, buffer: seq<seq<Byte>>)
    returns (windows': seq<seq<real>>, buffer': seq<seq<Byte>>)
    requires AllShaped(chunks) && i < |chunks| && Recorded(chunks, i, windows, buffer)
    ensures Recorded(chunks, i + 1, windows', buffer')
  {
    WindowConstants();
    var index := |windows|;
    buffer' := DequeAppend(buffer, chunks[i], WINDOW_CHUNKS);
    assert buffer' == chunks[25 * index..i + 1];
    windows' := windows;
    if |buffer'| == WINDOW_CHUNKS {
      var frames := Frames(buffer');
      assert frames == WindowAt(chunks, index);
      windows' := windows + [frames];
      buffer' := Slide(buffer');
      assert buffer' == chunks[25 * |windows'|..i + 1];
    }
  }

  /** The recording loop over the chunks the microphone delivers before the
      interrupt: the windows saved, in order, and the queue left unsaved.
      Exactly the complete windows at a stride of `STEP_CHUNKS` chunks are
      saved; the queue never reaches `WINDOW_CHUNKS` chunks between reads,
      so its `maxlen` never evicts anything. */
  method Record(chunks: seq<seq<Byte>>) returns (windows: seq<seq<real>>, buffer: seq<seq<Byte>>)
    requires AllShaped(chunks)
    ensures var count := |windows|;
      && (forall k :: 0 <= k < count ==> 25 * k + 50 <= |chunks| && windows[k] == WindowAt(chunks, k))
      && 25 * count <= |chunks| < 25 * count + 50
      && buffer == chunks[25 * count..]
      && |buffer| < WINDOW_CHUNKS
  {
    WindowConstants();
    buffer := [];
    windows := [];
    var i := 0;
    while i < |chunks|
      invariant Recorded(chunks, i, windows, buffer)
    {
      windows, buffer := ReadChunk(chunks, i, windows, buffer);
      i := i + 1;
    }
    assert chunks[25 * |windows|..i] == chunks[25 * |windows|..];
  }
}
