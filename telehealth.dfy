/** The telehealth screen's integer audio path and its intake routing. Audio arrives as
    interleaved 16-bit little-endian PCM; `DecodeAudioData` splits it into one sample
    array per channel with nested loops over the frames, as the component does, and is
    proved equal to the reference `Decoded`. */
module Telehealth {
  import opened Wrappers

  type byte = x: int | 0 <= x < 256

  const BytesPerSample := 2

  /** `DataView.getInt16(offset, true)` on the bytes `lo`, `hi`. */
  function Int16LE(lo: byte, hi: byte): (r: int)
    ensures -32768 <= r <= 32767
  {
    var v := lo + 256 * hi;
    if v >= 32768 then v - 65536 else v
  }

  /** The two bytes a 16-bit sample is stored as, low byte first. */
  function LowByte(s: int): byte
    requires -32768 <= s <= 32767
  {
    (if s < 0 then s + 65536 else s) % 256
  }

  function HighByte(s: int): byte
    requires -32768 <= s <= 32767
  {
    (if s < 0 then s + 65536 else s) / 256
  }

  /** Reading back a stored sample gives the sample. */
  lemma Int16RoundTrip(s: int)
    requires -32768 <= s <= 32767
    ensures Int16LE(LowByte(s), HighByte(s)) == s
  {
    var u := if s < 0 then s + 65536 else s;
    assert LowByte(s) + 256 * HighByte(s) == u;
  }

  /** `Math.floor(byteLength / (numChannels * 2))` for a positive channel count. */
  function FrameCount(byteLength: nat, numChannels: int): (r: nat)
    requires numChannels > 0
    ensures r * (numChannels * BytesPerSample) <= byteLength
    ensures byteLength < (r + 1) * (numChannels * BytesPerSample)
  {
    byteLength / (numChannels * BytesPerSample)
  }

  /** The byte offset of frame `i` of channel `c`. */
  function Offset(numChannels: int, c: int, i: int): int {
    (i * numChannels + c) * BytesPerSample
  }

  /** Every read of the decoder stays inside the data: the bounds check always passes. */
  lemma ReadInBounds(byteLength: nat, numChannels: int, c: int, i: int)
    requires numChannels > 0 && 0 <= c < numChannels && 0 <= i < FrameCount(byteLength, numChannels)
    ensures 0 <= Offset(numChannels, c, i) && Offset(numChannels, c, i) + BytesPerSample <= byteLength
  {
    var fc := FrameCount(byteLength, numChannels);
    assert i * numChannels + c < (i + 1) * numChannels;
    assert (i + 1) * numChannels <= fc * numChannels by {
      MulLe(i + 1, fc, numChannels);
    }
  }

  lemma MulLe(a: int, b: int, n: nat)
    requires a <= b
    ensures a * n <= b * n
  {
  }

  /** Sample `i` of channel `c`. */
  function SampleAt(bytes: seq<byte>, numChannels: int, c: int, i: int): int
    requires numChannels > 0 && 0 <= c < numChannels && 0 <= i < FrameCount(|bytes|, numChannels)
  {
    ReadInBounds(|bytes|, numChannels, c, i);
    var off := Offset(numChannels, c, i);
    Int16LE(bytes[off], bytes[off + 1])
  }

  /** Channel `c`: its samples for every whole frame. */
  function ChannelOf(bytes: seq<byte>, numChannels: int, c: int): (r: seq<int>)
    requires numChannels > 0 && 0 <= c < numChannels
    ensures |r| == FrameCount(|bytes|, numChannels)
    ensures forall i :: 0 <= i < |r| ==> r[i] == SampleAt(bytes, numChannels, c, i)
  {
    seq(FrameCount(|bytes|, numChannels), i requires 0 <= i < FrameCount(|bytes|, numChannels) => SampleAt(bytes, numChannels, c, i))
  }

  /** The reference decoder: nothing for empty data, a non-positive channel count or less
      than one whole frame; otherwise one sample list per channel. */
  function Decoded(bytes: seq<byte>, numChannels: int): (r: Option<seq<seq<int>>>)
    ensures r.None? <==> |bytes| == 0 || numChannels <= 0 || FrameCount(|bytes|, numChannels) == 0
    ensures r.Some? ==> |r.value| == numChannels
    ensures r.Some? ==> forall c :: 0 <= c < numChannels ==> r.value[c] == ChannelOf(bytes, numChannels, c)
  {
    if |bytes| == 0 || numChannels <= 0 || FrameCount(|bytes|, numChannels) == 0 then None
    else Some(seq(numChannels, c requires 0 <= c < numChannels => ChannelOf(bytes, numChannels, c)))
  }

  /** `decodeAudioData` on the integer samples. */
  method DecodeAudioData(data: array<byte>, numChannels: int) returns (r: Option<seq<seq<int>>>)
    ensures r == Decoded(data[..], numChannels)
  {
    if data.Length == 0 || numChannels <= 0 {
      return None;
    }
    var frameCount := data.Length / (numChannels * BytesPerSample);
    if frameCount <= 0 {
      return None;
    }
    var channels: seq<seq<int>> := [];
    var channel := 0;
    while channel < numChannels
      invariant 0 <= channel <= numChannels
      invariant |channels| == channel
      invariant forall c :: 0 <= c < channel ==> channels[c] == ChannelOf(data[..], numChannels, c)
    {
      var channelData := new int[frameCount];
      var i := 0;
      while i < frameCount
        invariant 0 <= i <= frameCount
        invariant forall j :: 0 <= j < i ==> channelData[j] == SampleAt(data[..], numChannels, channel, j)
      {
        var offset := (i * numChannels + channel) * BytesPerSample;
        ReadInBounds(data.Length, numChannels, channel, i);
        if offset + BytesPerSample <= data.Length {
          channelData[i] := Int16LE(data[offset], data[offset + 1]);
        }
        i := i + 1;
      }
      channels := channels + [channelData[..]];
      channel := channel + 1;
    }
    assert frameCount == FrameCount(data.Length, numChannels);
    assert channels == Decoded(data[..], numChannels).value;
    r := Some(channels);
  }

  /** The interleaved encoding of equally long channels: frame by frame, channel by
      channel, each sample low byte first. */
  function Encoded(channels: seq<seq<int>>, frames: nat): (r: seq<byte>)
    requires |channels| > 0
    requires forall c :: 0 <= c < |channels| ==> |channels[c]| == frames
    requires forall c, i :: 0 <= c < |channels| && 0 <= i < frames ==> -32768 <= channels[c][i] <= 32767
    ensures |r| == frames * |channels| * BytesPerSample
  {
    var n := |channels|;
    seq(frames * n * BytesPerSample, k requires 0 <= k < frames * n * BytesPerSample =>
      DivBelow(k / 2, frames, n);
      var s := channels[(k / 2) % n][(k / 2) / n];
      if k % 2 == 0 then LowByte(s) else HighByte(s))
  }

  lemma DivBelow(m: int, frames: nat, n: int)
    requires n > 0 && 0 <= m < frames * n
    ensures 0 <= m / n < frames && 0 <= m % n < n
  {
    if m / n >= frames {
      MulLe(frames, m / n, n);
    }
  }

  lemma DivModOfFrame(i: int, c: int, n: int)
    requires n > 0 && 0 <= c < n && 0 <= i
    ensures (i * n + c) / n == i && (i * n + c) % n == c
  {
    var m := i * n + c;
    var q, r := m / n, m % n;
    assert (q - i) * n == c - r;
    if q > i {
      MulLe(1, q - i, n);
    } else if q < i {
      MulLe(1, i - q, n);
    }
  }

  /** The bytes of sample `i` of channel `c` in the encoding. */
  lemma EncodedSample(channels: seq<seq<int>>, frames: nat, c: int, i: int)
    requires |channels| > 0
    requires forall c :: 0 <= c < |channels| ==> |channels[c]| == frames
    requires forall c, i :: 0 <= c < |channels| && 0 <= i < frames ==> -32768 <= channels[c][i] <= 32767
    requires 0 <= c < |channels| && 0 <= i < frames
    ensures 0 <= Offset(|channels|, c, i) && Offset(|channels|, c, i) + 1 < |Encoded(channels, frames)|
    ensures Encoded(channels, frames)[Offset(|channels|, c, i)] == LowByte(channels[c][i])
    ensures Encoded(channels, frames)[Offset(|channels|, c, i) + 1] == HighByte(channels[c][i])
  {
    var n := |channels|;
    var m := i * n + c;
    DivModOfFrame(i, c, n);
    assert m < frames * n by {
      assert m < (i + 1) * n;
      MulLe(i + 1, frames, n);
    }
    var off := Offset(n, c, i);
    assert off == 2 * m;
    assert off / 2 == m && off % 2 == 0 && (off + 1) / 2 == m && (off + 1) % 2 == 1;
  }

  /** The encoding holds exactly `frames` whole frames. */
  lemma EncodedFrameCount(channels: seq<seq<int>>, frames: nat)
    requires |channels| > 0
    requires forall c :: 0 <= c < |channels| ==> |channels[c]| == frames
    requires forall c, i :: 0 <= c < |channels| && 0 <= i < frames ==> -32768 <= channels[c][i] <= 32767
    ensures FrameCount(|Encoded(channels, frames)|, |channels|) == frames
  {
    var n := |channels|;
    assert |Encoded(channels, frames)| == frames * (n * BytesPerSample);
  }

  /** Channel `c` of the decoded encoding is channel `c` itself. */
  lemma ChannelRoundTrip(channels: seq<seq<int>>, frames: nat, c: int)
    requires |channels| > 0
    requires forall c :: 0 <= c < |channels| ==> |channels[c]| == frames
    requires forall c, i :: 0 <= c < |channels| && 0 <= i < frames ==> -32768 <= channels[c][i] <= 32767
    requires 0 <= c < |channels|
    ensures ChannelOf(Encoded(channels, frames), |channels|, c) == channels[c]
  {
    var n := |channels|;
    var bytes := Encoded(channels, frames);
    EncodedFrameCount(channels, frames);
    var ch := ChannelOf(bytes, n, c);
    forall i | 0 <= i < frames ensures ch[i] == channels[c][i] {
      EncodedSample(channels, frames, c, i);
      Int16RoundTrip(channels[c][i]);
    }
  }

  /** Decoding the interleaved encoding of whole frames gives back the channels. */
  lemma DecodeEncode(channels: seq<seq<int>>, frames: nat)
    requires |channels| > 0 && frames > 0
    requires forall c :: 0 <= c < |channels| ==> |channels[c]| == frames
    requires forall c, i :: 0 <= c < |channels| && 0 <= i < frames ==> -32768 <= channels[c][i] <= 32767
    ensures Decoded(Encoded(channels, frames), |channels|) == Some(channels)
  {
    var n := |channels|;
    var bytes := Encoded(channels, frames);
    EncodedFrameCount(channels, frames);
    var d := Decoded(bytes, n);
    forall c | 0 <= c < n ensures d.value[c] == channels[c] {
      ChannelRoundTrip(channels, frames, c);
    }
    assert d.value == channels;
  }

  // ---------------------------------------------------------------------------------
  // Intake

  datatype Billing = MedicalAid | Cash

  class IntakeView {
    var showIntake: bool
    var showPayment: bool
    var showConsent: bool
    var billingMethod: Billing

    constructor ()
      ensures showIntake && !showPayment && !showConsent && billingMethod == MedicalAid
    {
      showIntake := true;
      showPayment := false;
      showConsent := false;
      billingMethod := MedicalAid;
    }

    method ChooseBilling(b: Billing)
      modifies this
      ensures billingMethod == b && showIntake == old(showIntake)
      ensures showPayment == old(showPayment) && showConsent == old(showConsent)
    {
      billingMethod := b;
    }

    /** `handleIntakeSubmit`: the intake closes; cash goes to payment, medical aid to consent. */
    method SubmitIntake()
      modifies this
      ensures !showIntake && billingMethod == old(billingMethod)
      ensures billingMethod == Cash ==> showPayment && showConsent == old(showConsent)
      ensures billingMethod == MedicalAid ==> showConsent && showPayment == old(showPayment)
    {
      showIntake := false;
      if billingMethod == Cash {
        showPayment := true;
      } else {
        showConsent := true;
      }
    }
  }
}
