/**
 * The sample-buffer helpers of dtmf.js: `generateSilence`, `mergeBuffers`,
 * `mixBuffers`, and the fade envelope of `generateTone`.  A Float32Array is
 * an `array<real>`; single-precision rounding is not modelled.
 */
module Buffers {
  import opened Wrappers
  import Wav

  /** 2^53 - 1, the largest length `new Float32Array(n)` accepts before ToIndex throws RangeError. */
  const MaxSafeInteger: int := 0x1F_FFFF_FFFF_FFFF

  /**
   * ToIndex of the number passed to `new Float32Array(n)`: truncated toward
   * zero; None stands for the RangeError thrown when the result is negative
   * or above 2^53 - 1.
   */
  function SampleCount(x: real): (r: Option<nat>)
    ensures r.Some? <==> -1.0 < x < MaxSafeInteger as real + 1.0
    ensures r.Some? && x >= 0.0 ==> r.value as real <= x < r.value as real + 1.0
    ensures r.Some? && x < 0.0 ==> r.value == 0
  {
    var t := Wav.Trunc(x);
    if t < 0 || t > MaxSafeInteger then None else Some(t)
  }

  /** The contents of a buffer of n silent samples. */
  function Silence(n: nat): (s: seq<real>)
    ensures |s| == n
    ensures forall i :: 0 <= i < n ==> s[i] == 0.0
  {
    seq(n, _ => 0.0)
  }

  /**
   * `generateSilence`: a fresh buffer of sampleRate*duration (truncated)
   * zero samples; None when the Float32Array constructor throws.
   */
  method GenerateSilence(sampleRate: real, duration: real) returns (floats: Option<array<real>>)
    ensures floats.Some? <==> SampleCount(sampleRate * duration).Some?
    ensures floats.Some? ==> fresh(floats.value)
    ensures floats.Some? ==> floats.value[..] == Silence(SampleCount(sampleRate * duration).value)
  {
    var nSamples := SampleCount(sampleRate * duration);
    if nSamples.None? {
      return None;
    }
    var a := new real[nSamples.value];
    for i := 0 to a.Length
      invariant forall k :: 0 <= k < i ==> a[k] == 0.0
    {
      a[i] := 0.0;
    }
    floats := Some(a);
  }

  // ---------------------------------------------------------------------------
  // mergeBuffers

  /** `recBuffers.reduce((r, x) => r + x.length, 0)`: room for every buffer. */
  function TotalLength(bufs: seq<seq<real>>): (r: nat)
    ensures forall i :: 0 <= i < |bufs| ==> |bufs[i]| <= r
  {
    if bufs == [] then 0
    else
      var init := bufs[..|bufs| - 1];
      assert forall i :: 0 <= i < |init| ==> init[i] == bufs[i];
      TotalLength(init) + |bufs[|bufs| - 1]|
  }

  /** The buffers one after the other, in order. */
  function Concat(bufs: seq<seq<real>>): (r: seq<real>)
    ensures |r| == TotalLength(bufs)
  {
    if bufs == [] then [] else Concat(bufs[..|bufs| - 1]) + bufs[|bufs| - 1]
  }

  /** The lengths of a prefix of the buffers never exceed the total. */
  lemma {:induction false} TotalLengthPrefix(bufs: seq<seq<real>>, i: nat)
    requires i <= |bufs|
    ensures TotalLength(bufs[..i]) <= TotalLength(bufs)
  {
    if i < |bufs| {
      var init := bufs[..|bufs| - 1];
      assert init[..i] == bufs[..i];
      TotalLengthPrefix(init, i);
    } else {
      assert bufs[..i] == bufs;
    }
  }

  /**
   * Sample j of buffer i sits in the merged buffer at the sum of the lengths
   * of the buffers before it, plus j.
   */
  lemma {:induction false} ConcatAt(bufs: seq<seq<real>>, i: nat, j: nat)
    requires i < |bufs| && j < |bufs[i]|
    ensures TotalLength(bufs[..i]) + j < |Concat(bufs)|
    ensures Concat(bufs)[TotalLength(bufs[..i]) + j] == bufs[i][j]
  {
    var n := |bufs|;
    var init := bufs[..n - 1];
    if i == n - 1 {
      assert bufs[..i] == init;
    } else {
      assert init[..i] == bufs[..i];
      ConcatAt(init, i, j);
    }
  }

  /** `mergeBuffers`: a fresh buffer holding the inputs concatenated in order. */
  method MergeBuffers(recBuffers: seq<seq<real>>) returns (result: array<real>)
    ensures fresh(result)
    ensures result[..] == Concat(recBuffers)
  {
    var recLength := TotalLength(recBuffers);
    result := new real[recLength];
    var ofs := 0;
    for i := 0 to |recBuffers|
      invariant ofs == TotalLength(recBuffers[..i]) <= result.Length
      invariant result[..ofs] == Concat(recBuffers[..i])
    {
      var buf := recBuffers[i];
      assert recBuffers[..i + 1][..i] == recBuffers[..i];
      TotalLengthPrefix(recBuffers, i + 1);
      assert TotalLength(recBuffers[..i + 1]) == ofs + |buf|;
      // result.set(buf, ofs)
      for j := 0 to |buf|
        invariant result[..ofs + j] == Concat(recBuffers[..i]) + buf[..j]
      {
        result[ofs + j] := buf[j];
        assert buf[..j + 1] == buf[..j] + [buf[j]];
      }
      assert buf[..|buf|] == buf;
      ofs := ofs + |buf|;
    }
    assert recBuffers[..|recBuffers|] == recBuffers;
    assert result[..] == result[..ofs];
  }

  // ---------------------------------------------------------------------------
  // mixBuffers

  /** Every buffer has a sample at index j. */
  predicate HasColumn(bufs: seq<seq<real>>, j: nat)
  {
    forall i :: 0 <= i < |bufs| ==> j < |bufs[i]|
  }

  /** The sum of sample j over all buffers. */
  function ColumnSum(bufs: seq<seq<real>>, j: nat): real
    requires HasColumn(bufs, j)
  {
    if bufs == [] then 0.0 else ColumnSum(bufs[..|bufs| - 1], j) + bufs[|bufs| - 1][j]
  }

  /** The arithmetic mean of sample j over all buffers; a single buffer is its own mean. */
  function Mean(bufs: seq<seq<real>>, j: nat): (r: real)
    requires bufs != [] && HasColumn(bufs, j)
    ensures |bufs| == 1 ==> r == bufs[0][j]
  {
    assert |bufs| == 1 ==> ColumnSum(bufs, j) == ColumnSum([], j) + bufs[0][j] by {
      if |bufs| == 1 {
        assert bufs[..0] == [];
      }
    }
    ColumnSum(bufs, j) / |bufs| as real
  }

  /** mixBuffers' assumption: no buffer is shorter than the first. */
  predicate NoneShorterThanFirst(bufs: seq<seq<real>>)
  {
    bufs != [] ==> forall i :: 0 <= i < |bufs| ==> |bufs[0]| <= |bufs[i]|
  }

  /** The per-sample mean over the length of the first buffer. */
  function Mixed(bufs: seq<seq<real>>): (r: seq<real>)
    requires bufs != [] && NoneShorterThanFirst(bufs)
    ensures |r| == |bufs[0]|
  {
    seq(|bufs[0]|, j requires 0 <= j < |bufs[0]| => Mean(bufs, j))
  }

  /** If sample j of every buffer lies in [lo, hi], so does their sum scaled by the count. */
  lemma {:induction false} ColumnSumBounds(bufs: seq<seq<real>>, j: nat, lo: real, hi: real)
    requires HasColumn(bufs, j)
    requires forall i :: 0 <= i < |bufs| ==> lo <= bufs[i][j] <= hi
    ensures |bufs| as real * lo <= ColumnSum(bufs, j) <= |bufs| as real * hi
  {
    if bufs != [] {
      ColumnSumBounds(bufs[..|bufs| - 1], j, lo, hi);
    }
  }

  /**
   * The mean of samples that all lie in [lo, hi] lies in [lo, hi]: mixing
   * signals in [-1, 1] never leaves that range.
   */
  lemma MeanBounds(bufs: seq<seq<real>>, j: nat, lo: real, hi: real)
    requires bufs != [] && HasColumn(bufs, j)
    requires forall i :: 0 <= i < |bufs| ==> lo <= bufs[i][j] <= hi
    ensures lo <= Mean(bufs, j) <= hi
  {
    ColumnSumBounds(bufs, j, lo, hi);
    var n := |bufs| as real;
    assert ColumnSum(bufs, j) / n >= lo by {
      assert ColumnSum(bufs, j) >= n * lo;
    }
    assert ColumnSum(bufs, j) / n <= hi by {
      assert ColumnSum(bufs, j) <= n * hi;
    }
  }

  /** Mixing buffers that agree at sample j leaves that sample unchanged. */
  lemma {:induction false} MeanOfEqual(bufs: seq<seq<real>>, j: nat, v: real)
    requires bufs != [] && HasColumn(bufs, j)
    requires forall i :: 0 <= i < |bufs| ==> bufs[i][j] == v
    ensures ColumnSum(bufs, j) == |bufs| as real * v
    ensures Mean(bufs, j) == v
  {
    if |bufs| > 1 {
      MeanOfEqual(bufs[..|bufs| - 1], j, v);
    }
  }

  /** The two-buffer mix that builds each tone: half the sum of the two samples. */
  lemma MeanOfTwo(a: seq<real>, b: seq<real>, j: nat)
    requires j < |a| && j < |b|
    ensures Mean([a, b], j) == (a[j] + b[j]) / 2.0
  {
    assert [a, b][..1] == [a];
    assert [a][..0] == [];
    assert ColumnSum([a], j) == a[j];
    assert ColumnSum([a, b], j) == a[j] + b[j];
  }

  /**
   * `mixBuffers`: null for an empty list; otherwise a fresh buffer as long as
   * the first whose sample j is the mean of sample j of every buffer.
   */
  method MixBuffers(recBuffers: seq<seq<real>>) returns (result: Option<array<real>>)
    requires NoneShorterThanFirst(recBuffers)
    ensures result.None? <==> recBuffers == []
    ensures result.Some? ==> fresh(result.value) && result.value[..] == Mixed(recBuffers)
  {
    if |recBuffers| < 1 {
      return None;
    }
    var first := recBuffers[0];
    var numBuffers := |recBuffers|;
    var numSamples := |first|;
    var mix := new real[numSamples];
    for j := 0 to numSamples
      invariant forall k :: 0 <= k < j ==> mix[k] == 0.0
    {
      mix[j] := 0.0;
    }
    for i := 0 to numBuffers
      invariant forall k :: 0 <= k < numSamples ==> HasColumn(recBuffers[..i], k) && mix[k] == ColumnSum(recBuffers[..i], k)
    {
      var buf := recBuffers[i];
      assert recBuffers[..i + 1][..i] == recBuffers[..i];
      for j := 0 to numSamples
        invariant forall k :: 0 <= k < j ==> mix[k] == ColumnSum(recBuffers[..i + 1], k)
        invariant forall k :: j <= k < numSamples ==> mix[k] == ColumnSum(recBuffers[..i], k)
      {
        assert ColumnSum(recBuffers[..i + 1], j) == ColumnSum(recBuffers[..i], j) + buf[j];
        mix[j] := mix[j] + buf[j];
        assert mix[j] == ColumnSum(recBuffers[..i + 1], j);
      }
    }
    assert recBuffers[..numBuffers] == recBuffers;
    for j := 0 to numSamples
      invariant forall k :: 0 <= k < j ==> mix[k] == Mean(recBuffers, k)
      invariant forall k :: j <= k < numSamples ==> mix[k] == ColumnSum(recBuffers, k)
    {
      mix[j] := mix[j] / numBuffers as real;
    }
    result := Some(mix);
  }

  // ---------------------------------------------------------------------------
  // The fade envelope of generateTone

  /** Fade lengths below this are treated as no fade. */
  const Eps: real := 0.000001

  /**
   * One ramp, at `u` = time minus the end of the fade window: it never
   * leaves [0, 1] from the start of the window on, and it has reached 1
   * at the window's end.
   */
  function Ramp(u: real, fade: real): (r: real)
    ensures -fade <= u ==> 0.0 <= r <= 1.0
    ensures u >= 0.0 ==> r == 1.0
  {
    if u > 0.0 || fade < Eps then 1.0
    else
      assert -fade <= u ==> 0.0 <= (u + fade) / fade <= 1.0 by {
        if -fade <= u {
          FractionInUnit(u + fade, fade);
        }
      }
      assert u == 0.0 ==> (u + fade) / fade == 1.0 by {
        if u == 0.0 {
          assert fade > 0.0 && u + fade == fade;
          assert fade / fade * fade == fade;
        }
      }
      (u + fade) / fade
  }

  /**
   * The gain factor `vFadeIn * vFadeOut` that generateTone applies at time t
   * of a tone of the given duration: within the tone it never amplifies and
   * never inverts.
   */
  function Envelope(t: real, duration: real, fadeIn: real, fadeOut: real): (r: real)
    ensures 0.0 <= t <= duration ==> 0.0 <= r <= 1.0
  {
    var a := Ramp(t - fadeIn, fadeIn);
    var b := Ramp(duration - t - fadeOut, fadeOut);
    assert 0.0 <= a <= 1.0 && 0.0 <= b <= 1.0 ==> 0.0 <= a * b <= 1.0 * b;
    a * b
  }

  /** A quotient of a non-negative number by a larger positive one lies in [0, 1]. */
  lemma FractionInUnit(x: real, y: real)
    requires 0.0 <= x <= y && y > 0.0
    ensures 0.0 <= x / y <= 1.0
  {
    assert x / y * y == x;
  }

  /**
   * With a duration of 0 the tone itself still lasts 5 s (`duration || 5`),
   * but the fade-out ramp uses the raw 0: at 5 s with 5 ms fades the gain
   * is -1000, outside [0, 1].
   */
  lemma EnvelopeZeroDuration()
    ensures Envelope(5.0, 0.0, 0.005, 0.005) == -1000.0
  {
    assert Ramp(5.0 - 0.005, 0.005) == 1.0;
    assert Ramp(0.0 - 5.0 - 0.005, 0.005) == -1000.0;
  }

  /** Between the two fade windows, and everywhere when both fades are shorter than Eps, the envelope is 1. */
  lemma EnvelopeFlat(t: real, duration: real, fadeIn: real, fadeOut: real)
    requires (fadeIn < Eps || t >= fadeIn) && (fadeOut < Eps || t <= duration - fadeOut)
    ensures Envelope(t, duration, fadeIn, fadeOut) == 1.0
  {
  }
}
