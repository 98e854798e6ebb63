/**
  The audio worklet's sample converter: every float sample of channel 0 is
  clamped to [-1, 1], scaled by 0x8000 when negative and by 0x7FFF otherwise,
  and stored into an Int16Array, whose store applies ToInt16 (section 7.1.8 of
  ECMA-262): truncate toward zero, reduce modulo 2^16, shift into [-2^15, 2^15).

  Samples are modelled as reals. The source's samples are 32-bit floats held in
  doubles; multiplying one by 0x8000 or 0x7FFF is exact in a double, so real
  arithmetic gives the same product.
*/
module PcmConverter {
  import opened Common

  const Int16Min: int := -0x8000
  const Int16Max: int := 0x7FFF
  const NegativeScale: real := 32768.0  // 0x8000
  const PositiveScale: real := 32767.0  // 0x7FFF

  function Min(a: real, b: real): real { if a <= b then a else b }
  function Max(a: real, b: real): real { if a >= b then a else b }

  /** `Math.max(-1, Math.min(1, x))`. */
  function Clamp(x: real): (c: real)
    ensures -1.0 <= c <= 1.0
    ensures -1.0 <= x <= 1.0 ==> c == x
    ensures 1.0 < x ==> c == 1.0
    ensures x < -1.0 ==> c == -1.0
  {
    Max(-1.0, Min(1.0, x))
  }

  /** Truncation toward zero: the integer part of `x`, keeping its sign. */
  function Truncate(x: real): (n: int)
    ensures 0.0 <= x ==> n as real <= x < n as real + 1.0
    ensures x < 0.0 ==> n as real - 1.0 < x <= n as real
  {
    if x < 0.0 then -((-x).Floor) else x.Floor
  }

  /** ToInt16 of a finite number: truncate, then wrap into the signed 16-bit range. */
  function ToInt16(x: real): (r: int)
    ensures Int16Min <= r <= Int16Max
    ensures (r - Truncate(x)) % 0x1_0000 == 0
    ensures Int16Min <= Truncate(x) <= Int16Max ==> r == Truncate(x)
  {
    var int16bit := Truncate(x) % 0x1_0000;
    if int16bit >= 0x8000 then int16bit - 0x1_0000 else int16bit
  }

  /**
    The asymmetric scaling of a clamped sample: `s < 0 ? s * 0x8000 : s * 0x7FFF`.
    It keeps the sign and maps [-1, 1] onto the Int16 range, full scale onto its ends.
  */
  function Scale(s: real): (scaled: real)
    ensures scaled < 0.0 <==> s < 0.0
    ensures scaled == 0.0 <==> s == 0.0
    ensures -1.0 <= s <= 1.0 ==> Int16Min as real <= scaled <= Int16Max as real
    ensures s == -1.0 ==> scaled == Int16Min as real
    ensures s == 1.0 ==> scaled == Int16Max as real
  {
    if s < 0.0 then s * NegativeScale else s * PositiveScale
  }

  /** One sample as it lands in the Int16Array. */
  function ConvertSample(x: real): (r: int)
    ensures Int16Min <= r <= Int16Max
    ensures x < 0.0 ==> r <= 0
    ensures 0.0 <= x ==> 0 <= r
  {
    ToInt16(Scale(Clamp(x)))
  }

  /** The scaled sample always fits, so the Int16Array store only truncates: it never wraps. */
  lemma ConvertNeverWraps(x: real)
    ensures Int16Min as real <= Scale(Clamp(x)) <= Int16Max as real
    ensures ConvertSample(x) == Truncate(Scale(Clamp(x)))
  {
  }

  /** Reference definition: in range, the output is the scaled sample rounded toward zero. */
  lemma ConvertRoundsTowardZero(x: real)
    requires -1.0 <= x <= 1.0
    ensures 0.0 <= x ==> ConvertSample(x) as real <= x * PositiveScale < ConvertSample(x) as real + 1.0
    ensures x < 0.0 ==> ConvertSample(x) as real - 1.0 < x * NegativeScale <= ConvertSample(x) as real
  {
  }

  /** Full-scale inputs, and everything beyond them, saturate at the Int16 bounds. */
  lemma ConvertSaturates(x: real)
    ensures 1.0 <= x ==> ConvertSample(x) == Int16Max
    ensures x <= -1.0 ==> ConvertSample(x) == Int16Min
  {
  }

  /** Silence stays silence. */
  lemma ConvertZero()
    ensures ConvertSample(0.0) == 0
  {
  }

  /** Negative samples smaller in magnitude than one step of 1/0x8000 truncate to 0. */
  lemma TinyNegativesVanish(x: real)
    requires -1.0 / NegativeScale < x < 0.0
    ensures ConvertSample(x) == 0
  {
  }

  /** The conversion is monotone non-decreasing. */
  lemma ConvertMonotone(x: real, y: real)
    requires x <= y
    ensures ConvertSample(x) <= ConvertSample(y)
  {
  }

  /**
    `AudioDataProcessor.process`: reads channel 0 of the first input, converts
    every sample into a fresh Int16Array and posts its buffer; posts nothing
    when the first input has no channels; always keeps the processor alive.
    `posted` is the posted buffer viewed as Int16 samples. The `outputs` and
    `parameters` arguments are never read and are not modelled.
  */
  method Process(inputs: seq<seq<seq<real>>>) returns (posted: Option<seq<int>>, keepAlive: bool)
    requires |inputs| > 0
    ensures keepAlive
    ensures posted.None? <==> |inputs[0]| == 0
    ensures posted.Some? ==> |posted.value| == |inputs[0][0]|
    ensures posted.Some? ==>
      forall i :: 0 <= i < |posted.value| ==> posted.value[i] == ConvertSample(inputs[0][0][i])
  {
    var input := inputs[0];
    posted := None;
    if |input| > 0 {
      var inputChannelData := input[0];
      var outputChannelData := new int[|inputChannelData|];
      for i := 0 to |inputChannelData|
        invariant forall k :: 0 <= k < i ==> outputChannelData[k] == ConvertSample(inputChannelData[k])
      {
        outputChannelData[i] := ConvertSample(inputChannelData[i]);
      }
      posted := Some(outputChannelData[..]);
    }
    keepAlive := true;
  }
}
