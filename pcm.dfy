/**
 * The PCM payload written into the WAV file: every sample becomes two bytes,
 * low byte first, in 16-bit two's complement (`int.to_bytes(2, 'little',
 * signed=True)`), and the per-sample byte strings are joined in order.
 */
module Pcm {
  import opened Wrappers

  newtype byte = x: int | 0 <= x < 256

  /** The values `to_bytes(2, signed=True)` accepts without an OverflowError. */
  predicate InInt16(s: int) {
    -32768 <= s <= 32767
  }

  /** The two bytes of one sample, or None where Python raises OverflowError. */
  function EncodeSample(s: int): (r: Option<seq<byte>>)
    ensures r.Some? <==> InInt16(s)
    ensures r.Some? ==> |r.value| == 2
    ensures r.Some? ==> (r.value[0] as int + 256 * r.value[1] as int) % 65536 == s % 65536
  {
    if InInt16(s) then
      var u := if s < 0 then s + 65536 else s;
      Some([(u % 256) as byte, (u / 256) as byte])
    else
      None
  }

  /** Reads a little-endian two's-complement 16-bit value back. */
  function DecodeSample(lo: byte, hi: byte): (s: int)
    ensures InInt16(s)
    ensures s % 65536 == (lo as int + 256 * hi as int) % 65536
  {
    var u := lo as int + 256 * hi as int;
    if u >= 32768 then u - 65536 else u
  }

  lemma SampleRoundTrip(s: int)
    requires InInt16(s)
    ensures EncodeSample(s).Some?
    ensures DecodeSample(EncodeSample(s).value[0], EncodeSample(s).value[1]) == s
  {
  }

  lemma BytesRoundTrip(lo: byte, hi: byte)
    ensures EncodeSample(DecodeSample(lo, hi)) == Some([lo, hi])
  {
  }

  /**
   * The joined payload; None when some sample is out of 16-bit range (the
   * list comprehension raises before anything is written).
   */
  function EncodePcm(samples: seq<int>): (r: Option<seq<byte>>)
    ensures r.Some? <==> forall i :: 0 <= i < |samples| ==> InInt16(samples[i])
    ensures r.Some? ==> |r.value| == 2 * |samples|
  {
    if samples == [] then Some([])
    else
      match (EncodeSample(samples[0]), EncodePcm(samples[1..]))
      case (Some(head), Some(tail)) => Some(head + tail)
      case _ => None
  }

  /** Splits a payload into pairs of bytes and decodes each; a trailing odd byte is dropped. */
  function DecodePcm(bytes: seq<byte>): (r: seq<int>)
    ensures |r| == |bytes| / 2
    ensures forall i :: 0 <= i < |r| ==> InInt16(r[i])
  {
    if |bytes| < 2 then [] else [DecodeSample(bytes[0], bytes[1])] + DecodePcm(bytes[2..])
  }

  /** Sample i occupies bytes 2i (low) and 2i+1 (high) of the payload. */
  lemma {:induction false} EncodePcmAt(samples: seq<int>, i: nat)
    requires EncodePcm(samples).Some?
    requires i < |samples|
    ensures EncodeSample(samples[i]) == Some(EncodePcm(samples).value[2 * i .. 2 * i + 2])
  {
    var head := EncodeSample(samples[0]).value;
    var tail := EncodePcm(samples[1..]).value;
    assert EncodePcm(samples).value == head + tail;
    if i > 0 {
      EncodePcmAt(samples[1..], i - 1);
      assert samples[1..][i - 1] == samples[i];
      assert (head + tail)[2 * i .. 2 * i + 2] == tail[2 * (i - 1) .. 2 * (i - 1) + 2];
    }
  }

  /** Decoding the payload recovers every sample. */
  lemma {:induction false} PcmRoundTrip(samples: seq<int>)
    requires forall i :: 0 <= i < |samples| ==> InInt16(samples[i])
    ensures EncodePcm(samples).Some?
    ensures DecodePcm(EncodePcm(samples).value) == samples
  {
    if samples != [] {
      var bytes := EncodePcm(samples).value;
      var head := EncodeSample(samples[0]).value;
      var tail := EncodePcm(samples[1..]).value;
      assert bytes == head + tail;
      SampleRoundTrip(samples[0]);
      PcmRoundTrip(samples[1..]);
      assert bytes[2..] == tail;
    }
  }

  /** Every even-length payload is the encoding of the samples it decodes to. */
  lemma {:induction false} PcmBytesRoundTrip(bytes: seq<byte>)
    requires |bytes| % 2 == 0
    ensures EncodePcm(DecodePcm(bytes)) == Some(bytes)
  {
    if |bytes| >= 2 {
      var samples := DecodePcm(bytes);
      BytesRoundTrip(bytes[0], bytes[1]);
      PcmBytesRoundTrip(bytes[2..]);
      assert samples[0] == DecodeSample(bytes[0], bytes[1]);
      assert samples[1..] == DecodePcm(bytes[2..]);
      assert bytes == [bytes[0], bytes[1]] + bytes[2..];
    }
  }
}
