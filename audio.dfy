/**
 * Audio as the registry handles it through pydub: a sequence of samples
 * indexed by millisecond, so that `len(segment)` is the length of the
 * sequence and slicing by milliseconds is sequence slicing.
 */
module Audio {

  type Audio = seq<int>

  function Min(a: int, b: int): int {
    if a <= b then a else b
  }

  /** `AudioSegment.silent(duration)`: `duration` milliseconds of silence. */
  function Silent(duration: nat): (r: Audio)
    ensures |r| == duration
    ensures forall i | 0 <= i < duration :: r[i] == 0
  {
    seq(duration, _ => 0)
  }

  /**
   * `base.overlay(top)`: `top` is mixed onto `base` sample by sample from
   * the start; the part of `top` longer than `base` is dropped, so the
   * result always has the length of `base`.
   */
  function Overlay(base: Audio, top: Audio): (r: Audio)
    ensures |r| == |base|
  {
    seq(|base|, i requires 0 <= i < |base| => if i < |top| then base[i] + top[i] else base[i])
  }

  /** Overlaying onto silence of the same length reproduces the overlaid audio. */
  lemma OverlayOnSilence(top: Audio)
    ensures Overlay(Silent(|top|), top) == top
  {
  }

  /** Overlaying nothing leaves the base as it was. */
  lemma OverlayNothing(base: Audio)
    ensures Overlay(base, []) == base
  {
  }

  /** The concatenation of a sequence of segments (repeated `+=`). */
  function Flatten(cs: seq<Audio>): Audio {
    if cs == [] then [] else Flatten(cs[..|cs| - 1]) + cs[|cs| - 1]
  }

  /** `ceil(x / n)` for non-negative integers. */
  function CeilDiv(x: nat, n: nat): nat
    requires n > 0
  {
    (x + n - 1) / n
  }

  lemma CeilDivBounds(x: nat, n: nat)
    requires n > 0
    ensures CeilDiv(x, n) * n >= x
    ensures CeilDiv(x, n) > 0 ==> (CeilDiv(x, n) - 1) * n < x
  {
    var q, r := (x + n - 1) / n, (x + n - 1) % n;
    assert x + n - 1 == q * n + r;
    assert (q - 1) * n == q * n - n;
  }

  lemma MulMonotone(a: nat, b: nat, n: nat)
    requires a <= b
    ensures a * n <= b * n
  {
  }

  /**
   * pydub's `make_chunks(audio, size)`: `ceil(len / size)` slices
   * `audio[k * size:(k + 1) * size]`, Python slicing clamping the bounds.
   */
  function MakeChunks(a: Audio, size: nat): (cs: seq<Audio>)
    requires size > 0
    ensures |cs| == CeilDiv(|a|, size)
  {
    seq(CeilDiv(|a|, size), k requires 0 <= k < CeilDiv(|a|, size) =>
      a[Min(k * size, |a|)..Min(k * size + size, |a|)])
  }

  /** Flattening one more segment appends it. */
  lemma FlattenStep(cs: seq<Audio>, k: nat)
    requires 0 < k <= |cs|
    ensures Flatten(cs[..k]) == Flatten(cs[..k - 1]) + cs[k - 1]
  {
    assert cs[..k][..k - 1] == cs[..k - 1];
  }

  /** Window `j` of `MakeChunks`, which starts at `start`. */
  lemma ChunkAt(a: Audio, size: nat, j: nat, start: nat)
    requires size > 0 && j < |MakeChunks(a, size)| && start == j * size
    ensures MakeChunks(a, size)[j] == a[Min(start, |a|)..Min(start + size, |a|)]
  {
  }

  /** The windows before `k`, joined, are the first `k * size` milliseconds (clamped). */
  lemma ChunksPrefix(a: Audio, size: nat, k: nat)
    requires size > 0 && k <= CeilDiv(|a|, size)
    ensures Flatten(MakeChunks(a, size)[..k]) == a[..Min(k * size, |a|)]
  {
    ChunksPrefixAt(a, size, k, k * size);
  }

  lemma {:induction false} ChunksPrefixAt(a: Audio, size: nat, k: nat, x: nat)
    requires size > 0 && k <= |MakeChunks(a, size)| && x == k * size
    ensures Flatten(MakeChunks(a, size)[..k]) == a[..Min(x, |a|)]
  {
    if k > 0 {
      var cs := MakeChunks(a, size);
      var start := StepBack(k, size, x);
      var lo, hi := Min(start, |a|), Min(x, |a|);
      ChunksPrefixAt(a, size, k - 1, start);
      ChunkAt(a, size, k - 1, start);
      JoinWindow(cs, k, a, lo, hi);
    }
  }

  /** Joining the next window, which continues the audio, extends the prefix. */
  lemma JoinWindow(cs: seq<Audio>, k: nat, a: Audio, lo: nat, hi: nat)
    requires 0 < k <= |cs| && lo <= hi <= |a|
    requires Flatten(cs[..k - 1]) == a[..lo] && cs[k - 1] == a[lo..hi]
    ensures Flatten(cs[..k]) == a[..hi]
  {
    FlattenStep(cs, k);
    assert a[..lo] + a[lo..hi] == a[..hi];
  }

  /** Where window `k - 1` starts, when window `k` starts at `x`. */
  lemma StepBack(k: nat, size: nat, x: nat) returns (start: nat)
    requires k > 0 && x == k * size
    ensures start == (k - 1) * size && start + size == x
  {
    start := (k - 1) * size;
  }

  /** Window `k` starts inside the audio, and every window but the last ends inside it. */
  lemma WindowBounds(len: nat, size: nat, k: nat)
    requires size > 0 && k < CeilDiv(len, size)
    ensures k * size < len
    ensures k < CeilDiv(len, size) - 1 ==> (k + 1) * size <= len
  {
    var count := CeilDiv(len, size);
    CeilDivBounds(len, size);
    MulMonotone(k, count - 1, size);
    if k < count - 1 {
      MulMonotone(k + 1, count - 1, size);
    }
  }

  lemma ChunkLength(a: Audio, size: nat, k: nat)
    requires size > 0 && k < CeilDiv(|a|, size)
    ensures 0 < |MakeChunks(a, size)[k]| <= size
    ensures k < CeilDiv(|a|, size) - 1 ==> |MakeChunks(a, size)[k]| == size
  {
    WindowBounds(|a|, size, k);
    var lo, hi := k * size, (k + 1) * size;
    assert hi == lo + size;
    assert MakeChunks(a, size)[k] == a[lo..Min(hi, |a|)];
  }

  /**
   * The windows of `MakeChunks` put back together give the audio again; no
   * window is longer than `size`, every window but the last is exactly
   * `size` long and the last one is not empty.
   */
  lemma ChunksReassemble(a: Audio, size: nat)
    requires size > 0
    ensures Flatten(MakeChunks(a, size)) == a
    ensures forall k | 0 <= k < |MakeChunks(a, size)| :: 0 < |MakeChunks(a, size)[k]| <= size
    ensures forall k | 0 <= k < |MakeChunks(a, size)| - 1 :: |MakeChunks(a, size)[k]| == size
  {
    var cs := MakeChunks(a, size);
    var count := |cs|;
    assert Flatten(cs) == a by {
      CeilDivBounds(|a|, size);
      ChunksPrefix(a, size, count);
      assert cs[..count] == cs;
    }
    forall k | 0 <= k < count
      ensures 0 < |cs[k]| <= size
      ensures k < count - 1 ==> |cs[k]| == size
    {
      ChunkLength(a, size, k);
    }
  }
}
