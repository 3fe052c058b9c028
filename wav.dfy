/**
 * The WAV encoder of dtmf.js (`WAV`, `interleave`, `floatTo16BitPCM`,
 * `writeString`, `encodeWAV`).  The JavaScript `DataView` over a fresh
 * `ArrayBuffer` is an `array<uint8>`; its setters are methods that write
 * the little-endian bytes.  Samples are reals (Float32 rounding is not modelled).
 */
module Wav {
  import opened Wrappers

  newtype uint8 = x: int | 0 <= x < 256

  const HeaderSize: nat := 44

  /** Truncation toward zero, the first step of every JavaScript number-to-integer conversion. */
  function Trunc(x: real): (r: int)
    ensures x >= 0.0 ==> 0 <= r && r as real <= x < r as real + 1.0
    ensures x < 0.0 ==> r <= 0 && r as real - 1.0 < x <= r as real
  {
    if x < 0.0 then -((-x).Floor) else x.Floor
  }

  /** ToUint16 of an integral number: reduction modulo 2^16. */
  function ToUint16(v: int): (r: nat)
    ensures r < 0x1_0000
    ensures 0 <= v < 0x1_0000 ==> r == v
    ensures -0x8000 <= v < 0 ==> r == v + 0x1_0000
  {
    v % 0x1_0000
  }

  /** ToUint32 of an integral number: reduction modulo 2^32. */
  function ToUint32(v: int): (r: nat)
    ensures r < 0x1_0000_0000
    ensures 0 <= v < 0x1_0000_0000 ==> r == v
  {
    v % 0x1_0000_0000
  }

  /** The two bytes of a 16-bit value, least significant first. */
  function LE16(v: nat): (r: seq<uint8>)
    requires v < 0x1_0000
    ensures |r| == 2
  {
    [(v % 256) as uint8, (v / 256) as uint8]
  }

  /** The four bytes of a 32-bit value, least significant first. */
  function LE32(v: nat): (r: seq<uint8>)
    requires v < 0x1_0000_0000
    ensures |r| == 4
  {
    var v1 := v / 256;
    var v2 := v1 / 256;
    [(v % 256) as uint8, (v1 % 256) as uint8, (v2 % 256) as uint8, (v2 / 256) as uint8]
  }

  /** Reads back an unsigned little-endian 16-bit field. */
  function U16At(s: seq<uint8>, off: nat): int
    requires off + 2 <= |s|
  {
    s[off] as int + 256 * s[off + 1] as int
  }

  /** Reads back an unsigned little-endian 32-bit field. */
  function U32At(s: seq<uint8>, off: nat): int
    requires off + 4 <= |s|
  {
    s[off] as int + 256 * (s[off + 1] as int + 256 * (s[off + 2] as int + 256 * s[off + 3] as int))
  }

  /** Reads back a signed (two's complement) little-endian 16-bit field. */
  function I16At(s: seq<uint8>, off: nat): int
    requires off + 2 <= |s|
  {
    var u := U16At(s, off);
    if u >= 0x8000 then u - 0x1_0000 else u
  }

  lemma LE16ReadBack(v: nat)
    requires v < 0x1_0000
    ensures U16At(LE16(v), 0) == v
  {
  }

  lemma LE32ReadBack(v: nat)
    requires v < 0x1_0000_0000
    ensures U32At(LE32(v), 0) == v
  {
    var v1 := v / 256;
    var v2 := v1 / 256;
    assert v == v % 256 + 256 * v1;
    assert v1 == v1 % 256 + 256 * v2;
    assert v2 == v2 % 256 + 256 * (v2 / 256);
  }

  /** A signed 16-bit value written with setInt16 reads back unchanged. */
  lemma Int16ReadBack(v: int)
    requires -0x8000 <= v < 0x8000
    ensures I16At(LE16(ToUint16(v)), 0) == v
  {
    LE16ReadBack(ToUint16(v));
  }

  /** `string.charCodeAt(i)` stored by setUint8 (ToUint8 keeps the low byte). */
  function CharBytes(s: string): (r: seq<uint8>)
    ensures |r| == |s|
    ensures forall i :: 0 <= i < |s| ==> r[i] as int == (s[i] as int) % 256
  {
    if s == [] then [] else CharBytes(s[..|s| - 1]) + [((s[|s| - 1] as int) % 256) as uint8]
  }

  /** `Math.max(-1, Math.min(1, x))`. */
  function Clamp(x: real): (r: real)
    ensures -1.0 <= r <= 1.0
    ensures -1.0 <= x <= 1.0 ==> r == x
    ensures x > 1.0 ==> r == 1.0
    ensures x < -1.0 ==> r == -1.0
  {
    if x > 1.0 then 1.0 else if x < -1.0 then -1.0 else x
  }

  /**
   * The integer that floatTo16BitPCM stores for one sample: the clamped
   * sample scaled by 0x8000 when negative and by 0x7FFF otherwise, then
   * truncated toward zero by setInt16.
   */
  function Pcm16(x: real): (r: int)
    ensures -0x8000 <= r <= 0x7FFF
    ensures x < 0.0 ==> r <= 0
    ensures x >= 0.0 ==> r >= 0
  {
    var s := Clamp(x);
    if s < 0.0 then
      assert -32768.0 <= s * 32768.0 < 0.0;
      Trunc(s * 32768.0)
    else
      assert 0.0 <= s * 32767.0 <= 32767.0;
      Trunc(s * 32767.0)
  }

  /** The code saturates at both ends of the 16-bit range and is 0 for silence. */
  lemma Pcm16Saturates(x: real)
    ensures x >= 1.0 ==> Pcm16(x) == 0x7FFF
    ensures x <= -1.0 ==> Pcm16(x) == -0x8000
    ensures x == 0.0 ==> Pcm16(x) == 0
  {
  }

  /** The two bytes setInt16 writes for one sample. */
  function SampleBytes(x: real): (r: seq<uint8>)
    ensures |r| == 2
  {
    LE16(ToUint16(Pcm16(x)))
  }

  /** The PCM payload: one little-endian 16-bit code per sample, in order. */
  function PcmBytes(samples: seq<real>): (r: seq<uint8>)
    ensures |r| == 2 * |samples|
  {
    if samples == [] then []
    else PcmBytes(samples[..|samples| - 1]) + SampleBytes(samples[|samples| - 1])
  }

  /** Sample i of the payload occupies bytes 2i and 2i+1. */
  lemma {:induction false} PcmBytesAt(samples: seq<real>, i: nat)
    requires i < |samples|
    ensures PcmBytes(samples)[2 * i..2 * i + 2] == SampleBytes(samples[i])
  {
    var n := |samples|;
    if i < n - 1 {
      var init := samples[..n - 1];
      PcmBytesAt(init, i);
      assert init[i] == samples[i];
      assert PcmBytes(samples)[..2 * (n - 1)] == PcmBytes(init);
    }
  }

  /** The RIFF chunk header: id, the size field as encodeWAV computes it (32 + data bytes), and the form type. */
  function RiffHeader(sampleCount: nat): (r: seq<uint8>)
    ensures |r| == 12
  {
    CharBytes("RIFF") + LE32(ToUint32(32 + sampleCount * 2)) + CharBytes("WAVE")
  }

  /** The "fmt " chunk id, its length and the PCM format tag. */
  function FmtIntro(): (r: seq<uint8>)
    ensures |r| == 10
  {
    CharBytes("fmt ") + LE32(16) + LE16(1)
  }

  /** Channel count, sample rate, byte rate (always sampleRate*4) and block align (always 4), bits per sample. */
  function FmtFields(sampleRate: real, mono: bool): (r: seq<uint8>)
    ensures |r| == 14
  {
    LE16(if mono then 1 else 2) + LE32(ToUint32(Trunc(sampleRate))) + LE32(ToUint32(Trunc(sampleRate * 4.0))) + LE16(4) + LE16(16)
  }

  /** The "data" chunk id and its byte length. */
  function DataHeader(sampleCount: nat): (r: seq<uint8>)
    ensures |r| == 8
  {
    CharBytes("data") + LE32(ToUint32(sampleCount * 2))
  }

  /** The 44-byte header exactly as encodeWAV writes it. */
  function Header(sampleRate: real, sampleCount: nat, mono: bool): (r: seq<uint8>)
    ensures |r| == HeaderSize
  {
    RiffHeader(sampleCount) + FmtIntro() + FmtFields(sampleRate, mono) + DataHeader(sampleCount)
  }

  /** The bytes encodeWAV produces for `samples`. */
  function WavBytes(sampleRate: real, samples: seq<real>, mono: bool): (r: seq<uint8>)
    ensures |r| == HeaderSize + 2 * |samples|
  {
    Header(sampleRate, |samples|, mono) + PcmBytes(samples)
  }

  /** The RIFF chunk header reads back as "RIFF", 32 + 2n (modulo 2^32) and "WAVE". */
  lemma RiffHeaderFields(sampleCount: nat)
    ensures var h := RiffHeader(sampleCount);
      && h[0..4] == CharBytes("RIFF")
      && U32At(h, 4) == ToUint32(32 + 2 * sampleCount)
      && h[8..12] == CharBytes("WAVE")
  {
    var h := RiffHeader(sampleCount);
    assert h[4..8] == LE32(ToUint32(32 + sampleCount * 2));
    LE32ReadBack(ToUint32(32 + sampleCount * 2));
  }

  /** The "fmt " chunk reads back as its id, length 16, format 1, and the channel, rate and layout fields. */
  lemma FmtChunkFields(sampleRate: real, mono: bool)
    ensures var h := FmtIntro() + FmtFields(sampleRate, mono);
      && h[0..4] == CharBytes("fmt ")
      && U32At(h, 4) == 16
      && U16At(h, 8) == 1
      && U16At(h, 10) == (if mono then 1 else 2)
      && U32At(h, 12) == ToUint32(Trunc(sampleRate))
      && U32At(h, 16) == ToUint32(Trunc(sampleRate * 4.0))
      && U16At(h, 20) == 4
      && U16At(h, 22) == 16
  {
    var i := FmtIntro();
    var f := FmtFields(sampleRate, mono);
    var h := i + f;
    assert i[4..8] == LE32(16);
    LE32ReadBack(16);
    LE16ReadBack(1);
    LE16ReadBack(if mono then 1 else 2);
    LE32ReadBack(ToUint32(Trunc(sampleRate)));
    LE32ReadBack(ToUint32(Trunc(sampleRate * 4.0)));
    LE16ReadBack(4);
    LE16ReadBack(16);
    assert f[0..2] == LE16(if mono then 1 else 2);
    assert f[2..6] == LE32(ToUint32(Trunc(sampleRate)));
    assert f[6..10] == LE32(ToUint32(Trunc(sampleRate * 4.0)));
    assert f[10..12] == LE16(4);
    assert f[12..14] == LE16(16);
  }

  /**
   * Reading the encoded file back field by field recovers every header value
   * (including the fixed 32 + data size, byte rate sampleRate*4 and block
   * align 4 of this encoder).
   */
  lemma WavLayout(sampleRate: real, samples: seq<real>, mono: bool)
    ensures var w := WavBytes(sampleRate, samples, mono);
      && |w| == 44 + 2 * |samples|
      && w[0..4] == CharBytes("RIFF")
      && U32At(w, 4) == ToUint32(32 + 2 * |samples|)
      && w[8..12] == CharBytes("WAVE")
      && w[12..16] == CharBytes("fmt ")
      && U32At(w, 16) == 16
      && U16At(w, 20) == 1
      && U16At(w, 22) == (if mono then 1 else 2)
      && U32At(w, 24) == ToUint32(Trunc(sampleRate))
      && U32At(w, 28) == ToUint32(Trunc(sampleRate * 4.0))
      && U16At(w, 32) == 4
      && U16At(w, 34) == 16
      && w[36..40] == CharBytes("data")
      && U32At(w, 40) == ToUint32(2 * |samples|)
  {
    var n := |samples|;
    var w := WavBytes(sampleRate, samples, mono);
    var riff := RiffHeader(n);
    var fmt := FmtIntro() + FmtFields(sampleRate, mono);
    var data := DataHeader(n);
    assert w[..12] == riff;
    assert w[12..36] == fmt;
    assert w[36..44] == data;
    RiffHeaderFields(n);
    FmtChunkFields(sampleRate, mono);
    assert data[4..8] == LE32(ToUint32(n * 2));
    LE32ReadBack(ToUint32(n * 2));
  }

  /** Sample i reads back, as a signed 16-bit value at offset 44 + 2i, as its PCM code. */
  lemma WavSampleAt(sampleRate: real, samples: seq<real>, mono: bool, i: nat)
    requires i < |samples|
    ensures I16At(WavBytes(sampleRate, samples, mono), 44 + 2 * i) == Pcm16(samples[i])
  {
    var w := WavBytes(sampleRate, samples, mono);
    PcmBytesAt(samples, i);
    assert w[44 + 2 * i..44 + 2 * i + 2] == PcmBytes(samples)[2 * i..2 * i + 2];
    Int16ReadBack(Pcm16(samples[i]));
  }

  /** The stereo sample order of `interleave`: L[0], R[0], L[1], R[1], ... */
  function Interleaved(l: seq<real>, r: seq<real>): (out: seq<real>)
    requires |l| == |r|
    ensures |out| == 2 * |l|
  {
    if l == [] then []
    else Interleaved(l[..|l| - 1], r[..|r| - 1]) + [l[|l| - 1], r[|r| - 1]]
  }

  /** Even positions hold the left channel and odd positions the right one. */
  lemma {:induction false} InterleavedAt(l: seq<real>, r: seq<real>, i: nat)
    requires |l| == |r| && i < |l|
    ensures Interleaved(l, r)[2 * i] == l[i]
    ensures Interleaved(l, r)[2 * i + 1] == r[i]
  {
    var n := |l|;
    if i < n - 1 {
      InterleavedAt(l[..n - 1], r[..n - 1], i);
    }
  }

  // ---------------------------------------------------------------------------
  // The DataView setters used by encodeWAV.  Each writes its bytes at `off`
  // and leaves every other byte as it was.

  /** `view.setUint8(off, v)`. */
  method SetUint8(view: array<uint8>, off: nat, v: int)
    requires off < view.Length
    modifies view
    ensures view[..off + 1] == old(view[..off]) + [(v % 256) as uint8]
    ensures view[off + 1..] == old(view[off + 1..])
  {
    view[off] := (v % 256) as uint8;
  }

  /** `view.setUint16(off, v, true)` for an integral `v`. */
  method SetUint16(view: array<uint8>, off: nat, v: int)
    requires off + 2 <= view.Length
    modifies view
    ensures view[..off + 2] == old(view[..off]) + LE16(ToUint16(v))
    ensures view[off + 2..] == old(view[off + 2..])
  {
    var b := LE16(ToUint16(v));
    view[off] := b[0];
    view[off + 1] := b[1];
  }

  /** `view.setInt16(off, v, true)` for an integral `v`: the same bytes as setUint16. */
  method SetInt16(view: array<uint8>, off: nat, v: int)
    requires off + 2 <= view.Length
    modifies view
    ensures view[..off + 2] == old(view[..off]) + LE16(ToUint16(v))
    ensures view[off + 2..] == old(view[off + 2..])
  {
    SetUint16(view, off, v);
  }

  /** `view.setUint32(off, v, true)` for an integral `v`. */
  method SetUint32(view: array<uint8>, off: nat, v: int)
    requires off + 4 <= view.Length
    modifies view
    ensures view[..off + 4] == old(view[..off]) + LE32(ToUint32(v))
    ensures view[off + 4..] == old(view[off + 4..])
  {
    var b := LE32(ToUint32(v));
    view[off] := b[0];
    view[off + 1] := b[1];
    view[off + 2] := b[2];
    view[off + 3] := b[3];
  }

  // ---------------------------------------------------------------------------
  // The encoder proper.

  /** `writeString`: one setUint8 per character code. */
  method WriteString(view: array<uint8>, offset: nat, s: string)
    requires offset + |s| <= view.Length
    modifies view
    ensures view[..offset + |s|] == old(view[..offset]) + CharBytes(s)
    ensures view[offset + |s|..] == old(view[offset + |s|..])
  {
    for i := 0 to |s|
      invariant view[..offset + i] == old(view[..offset]) + CharBytes(s[..i])
      invariant forall j :: offset + i <= j < view.Length ==> view[j] == old(view[j])
    {
      SetUint8(view, offset + i, s[i] as int);
      assert s[..i + 1][..i] == s[..i];
    }
    assert s[..|s|] == s;
  }

  /** `floatTo16BitPCM`: sample i becomes a 16-bit code at offset + 2i. */
  method FloatTo16BitPCM(output: array<uint8>, offset: nat, input: seq<real>)
    requires offset + 2 * |input| <= output.Length
    modifies output
    ensures output[..offset + 2 * |input|] == old(output[..offset]) + PcmBytes(input)
    ensures output[offset + 2 * |input|..] == old(output[offset + 2 * |input|..])
  {
    var pos := offset;
    for i := 0 to |input|
      invariant pos == offset + 2 * i
      invariant output[..pos] == old(output[..offset]) + PcmBytes(input[..i])
      invariant forall j :: pos <= j < output.Length ==> output[j] == old(output[j])
    {
      var s := Clamp(input[i]);
      SetInt16(output, pos, if s < 0.0 then Trunc(s * 32768.0) else Trunc(s * 32767.0));
      assert input[..i + 1][..i] == input[..i];
      pos := pos + 2;
    }
    assert input[..|input|] == input;
  }

  /** The first twelve header bytes of encodeWAV: "RIFF", the size field, "WAVE". */
  method WriteRiffHeader(view: array<uint8>, sampleCount: nat)
    requires 12 <= view.Length
    modifies view
    ensures view[..12] == RiffHeader(sampleCount)
    ensures view[12..] == old(view[12..])
  {
    WriteString(view, 0, "RIFF");
    assert view[..0] == [];
    SetUint32(view, 4, 32 + sampleCount * 2);
    WriteString(view, 8, "WAVE");
  }

  /** Header bytes 12 to 35 of encodeWAV: the "fmt " chunk. */
  method WriteFmtChunk(view: array<uint8>, sampleRate: real, mono: bool)
    requires 36 <= view.Length
    modifies view
    ensures view[..36] == old(view[..12]) + FmtIntro() + FmtFields(sampleRate, mono)
    ensures view[36..] == old(view[36..])
  {
    ghost var tail := view[36..];
    WriteString(view, 12, "fmt ");
    assert view[36..] == tail;
    SetUint32(view, 16, 16);
    assert view[36..] == tail;
    SetUint16(view, 20, 1);
    assert view[..22] == old(view[..12]) + FmtIntro() && view[36..] == tail;
    WriteFmtFields(view, sampleRate, mono);
  }

  /** Header bytes 22 to 35 of encodeWAV: the fields of the "fmt " chunk. */
  method WriteFmtFields(view: array<uint8>, sampleRate: real, mono: bool)
    requires 36 <= view.Length
    modifies view
    ensures view[..36] == old(view[..22]) + FmtFields(sampleRate, mono)
    ensures view[36..] == old(view[36..])
  {
    ghost var head := view[..22];
    ghost var tail := view[36..];
    ghost var f := LE16(if mono then 1 else 2);
    SetUint16(view, 22, if mono then 1 else 2);
    assert view[..24] == head + f && view[36..] == tail;
    SetUint32(view, 24, Trunc(sampleRate));
    f := f + LE32(ToUint32(Trunc(sampleRate)));
    assert view[..28] == head + f && view[36..] == tail;
    SetUint32(view, 28, Trunc(sampleRate * 4.0));
    f := f + LE32(ToUint32(Trunc(sampleRate * 4.0)));
    assert view[..32] == head + f && view[36..] == tail;
    SetUint16(view, 32, 4);
    f := f + LE16(4);
    assert view[..34] == head + f && view[36..] == tail;
    SetUint16(view, 34, 16);
    f := f + LE16(16);
    assert view[..36] == head + f;
  }

  /** Header bytes 36 to 43 of encodeWAV: "data" and the payload length. */
  method WriteDataHeader(view: array<uint8>, sampleCount: nat)
    requires 44 <= view.Length
    modifies view
    ensures view[..44] == old(view[..36]) + DataHeader(sampleCount)
    ensures view[44..] == old(view[44..])
  {
    WriteString(view, 36, "data");
    SetUint32(view, 40, sampleCount * 2);
  }

  /** `encodeWAV`: a fresh buffer of 44 + 2n bytes holding the header and the payload. */
  method EncodeWav(sampleRate: real, samples: seq<real>, mono: bool) returns (view: array<uint8>)
    ensures fresh(view)
    ensures view[..] == WavBytes(sampleRate, samples, mono)
  {
    var n := |samples|;
    view := new uint8[44 + n * 2];
    WriteRiffHeader(view, n);
    WriteFmtChunk(view, sampleRate, mono);
    WriteDataHeader(view, n);
    assert view[..44] == Header(sampleRate, n, mono);
    FloatTo16BitPCM(view, 44, samples);
    assert view[..] == view[..44 + 2 * n];
  }

  /** `interleave`: alternates the two channels into a fresh buffer of twice the length. */
  method Interleave(inputL: seq<real>, inputR: seq<real>) returns (result: array<real>)
    requires |inputL| == |inputR|
    ensures fresh(result)
    ensures result[..] == Interleaved(inputL, inputR)
  {
    var length := |inputL| + |inputR|;
    result := new real[length];
    var index, inputIndex := 0, 0;
    while index < length
      invariant 0 <= inputIndex <= |inputL| && index == 2 * inputIndex
      invariant result[..index] == Interleaved(inputL[..inputIndex], inputR[..inputIndex])
    {
      result[index] := inputL[inputIndex];
      index := index + 1;
      result[index] := inputR[inputIndex];
      index := index + 1;
      inputIndex := inputIndex + 1;
      assert inputL[..inputIndex][..inputIndex - 1] == inputL[..inputIndex - 1];
      assert inputR[..inputIndex][..inputIndex - 1] == inputR[..inputIndex - 1];
    }
    assert inputL[..inputIndex] == inputL && inputR[..inputIndex] == inputR;
  }

  /** The samples `WAV` encodes: the left buffer alone, or both channels interleaved. */
  function ChannelSamples(bufferL: seq<real>, bufferR: Option<seq<real>>): (s: seq<real>)
    requires bufferR.Some? ==> |bufferR.value| == |bufferL|
    ensures bufferR.None? ==> s == bufferL
    ensures bufferR.Some? ==> |s| == 2 * |bufferL|
    ensures bufferR.Some? ==>
              forall i :: 0 <= i < |bufferL| ==> s[2 * i] == bufferL[i] && s[2 * i + 1] == bufferR.value[i]
  {
    if bufferR.None? then bufferL
    else
      var s := Interleaved(bufferL, bufferR.value);
      assert forall i :: 0 <= i < |bufferL| ==> s[2 * i] == bufferL[i] && s[2 * i + 1] == bufferR.value[i] by {
        forall i | 0 <= i < |bufferL| ensures s[2 * i] == bufferL[i] && s[2 * i + 1] == bufferR.value[i] {
          InterleavedAt(bufferL, bufferR.value, i);
        }
      }
      s
  }

  /**
   * `WAV(sampleRate, bufferL, bufferR)`: mono when `bufferR` is undefined,
   * otherwise two channels interleaved.  The Blob wrapper is not modelled.
   */
  method EncodeChannels(sampleRate: real, bufferL: seq<real>, bufferR: Option<seq<real>>) returns (view: array<uint8>)
    requires bufferR.Some? ==> |bufferR.value| == |bufferL|
    ensures fresh(view)
    ensures view[..] == WavBytes(sampleRate, ChannelSamples(bufferL, bufferR), bufferR.None?)
  {
    if bufferR.None? {
      view := EncodeWav(sampleRate, bufferL, true);
    } else {
      var both := Interleave(bufferL, bufferR.value);
      view := EncodeWav(sampleRate, both[..], false);
    }
  }

  /** The channel-count field at byte 22 is 1 exactly when there is no right channel, and the file has 44 + 2 bytes per sample. */
  lemma ChannelCountField(sampleRate: real, bufferL: seq<real>, bufferR: Option<seq<real>>)
    requires bufferR.Some? ==> |bufferR.value| == |bufferL|
    ensures var w := WavBytes(sampleRate, ChannelSamples(bufferL, bufferR), bufferR.None?);
      && U16At(w, 22) == (if bufferR.None? then 1 else 2)
      && |w| == 44 + (if bufferR.None? then 2 else 4) * |bufferL|
  {
    WavLayout(sampleRate, ChannelSamples(bufferL, bufferR), bufferR.None?);
  }
}
