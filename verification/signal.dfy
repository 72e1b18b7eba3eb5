/** Sample sequences and the numpy slicing and padding the audio scripts rely on. */
module Signal {

  function Min(a: int, b: int): int { if a <= b then a else b }

  /** `np.zeros(n)`. */
  function Zeros(n: nat): (r: seq<real>)
    ensures |r| == n
    ensures forall i :: 0 <= i < n ==> r[i] == 0.0
  {
    seq(n, _ => 0.0)
  }

  /** `s[start:end]` for non-negative bounds: the end is clamped to the length,
      and an empty slice results when `start` is at or past either bound. */
  function Slice(s: seq<real>, start: nat, end: nat): (r: seq<real>)
    ensures start < |s| && start < end ==> r == s[start..Min(end, |s|)]
    ensures start >= |s| || end <= start ==> r == []
    ensures |r| <= |s|
  {
    if start >= |s| || end <= start then [] else s[start..Min(end, |s|)]
  }

  /** `np.pad(b, (0, n - len(b)))`: zeros appended up to length `n`. */
  function PadTo(b: seq<real>, n: nat): (r: seq<real>)
    requires |b| <= n
    ensures |r| == n
    ensures r[..|b|] == b
    ensures forall i :: |b| <= i < n ==> r[i] == 0.0
  {
    b + Zeros(n - |b|)
  }

  predicate AllZero(s: seq<real>)
  {
    forall i :: 0 <= i < |s| ==> s[i] == 0.0
  }

  /** `b''.join(parts)` / `np.concatenate(parts)`: the parts end to end. */
  function Concat<T>(parts: seq<seq<T>>): seq<T>
  {
    if parts == [] then [] else parts[0] + Concat(parts[1..])
  }

  lemma {:induction false} ConcatAppend<T>(a: seq<seq<T>>, b: seq<seq<T>>)
    ensures Concat(a + b) == Concat(a) + Concat(b)
  {
    if a == [] {
      assert a + b == b;
    } else {
      assert (a + b)[1..] == a[1..] + b;
      ConcatAppend(a[1..], b);
    }
  }

  lemma AppendAssoc<T>(a: seq<T>, b: seq<T>, c: seq<T>)
    ensures a + (b + c) == (a + b) + c
  {
  }

  /** Joining parts that all have `len` elements gives `|parts| * len`. */
  lemma {:induction false} ConcatUniform<T>(parts: seq<seq<T>>, len: nat)
    requires forall i :: 0 <= i < |parts| ==> |parts[i]| == len
    ensures |Concat(parts)| == |parts| * len
  {
    if parts != [] {
      ConcatUniform(parts[1..], len);
      assert |parts| * len == len + (|parts| - 1) * len;
    }
  }
}
