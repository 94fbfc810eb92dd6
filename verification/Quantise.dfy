/** Turning normalised samples into integers. Reals stand for the floats of the
    program; only the clamping and the rounding direction are modelled. */
module Quantise {

  function Clamp(v: real, lo: real, hi: real): real
    requires lo <= hi
  {
    if v > hi then hi else if v < lo then lo else v
  }

  /** To the nearest integer, halves to even. */
  function Round(x: real): int {
    var f := x.Floor;
    var part := x - f as real;
    if part < 0.5 || (part == 0.5 && f % 2 == 0) then f else f + 1
  }

  /** Toward zero, as an integer cast does. */
  function Truncate(x: real): int {
    if x >= 0.0 then x.Floor else -(-x).Floor
  }

  /** Signed 24-bit, full scale 2^23 - 1 so that +1.0 does not wrap. */
  function Int24Clamp(v: real): int {
    Round(Clamp(v, -1.0, 1.0) * 8388607.0)
  }

  /** 16-bit transmit sample. */
  function ToS16(v: real): int {
    Round(Clamp(v, -1.0, 1.0) * 32767.0)
  }

  /** 16-bit codec sample: clamped the same way, but cast instead of rounded. */
  function ToCodecS16(v: real): int {
    Truncate(Clamp(v, -1.0, 1.0) * 32767.0)
  }

  lemma RoundMonotone(x: real, y: real)
    requires x <= y
    ensures Round(x) <= Round(y)
  {
    assert x.Floor <= y.Floor;
  }

  lemma RoundOdd(x: real)
    ensures Round(-x) == -Round(x)
  {
    var f := x.Floor;
    if x == f as real {
      assert (-x).Floor == -f;
    } else {
      assert (-x).Floor == -f - 1;
    }
  }

  /** The nearest integer, the even one of two that are equally near. */
  predicate Nearest(x: real, n: int) {
    -0.5 <= n as real - x <= 0.5 && ((n as real - x == 0.5 || n as real - x == -0.5) ==> n % 2 == 0)
  }

  lemma RoundNearest(x: real)
    ensures Nearest(x, Round(x))
  {
  }

  /** At or below full scale the result is the nearest multiple of the step; beyond, it is
      full scale. */
  lemma Int24ClampNearest(v: real)
    ensures -1.0 <= v <= 1.0 ==> Nearest(v * 8388607.0, Int24Clamp(v))
    ensures v >= 1.0 ==> Int24Clamp(v) == 8388607
    ensures v <= -1.0 ==> Int24Clamp(v) == -8388607
  {
    RoundNearest(Clamp(v, -1.0, 1.0) * 8388607.0);
  }

  /** The same for the 16-bit transmit sample; the codec sample is the nearest integer on
      the side of zero. */
  lemma S16Nearest(v: real)
    ensures -1.0 <= v <= 1.0 ==> Nearest(v * 32767.0, ToS16(v))
    ensures v >= 1.0 ==> ToS16(v) == ToCodecS16(v) == 32767
    ensures v <= -1.0 ==> ToS16(v) == ToCodecS16(v) == -32767
    ensures 0.0 <= v <= 1.0 ==> 0.0 <= v * 32767.0 - ToCodecS16(v) as real < 1.0
    ensures -1.0 <= v <= 0.0 ==> -1.0 < v * 32767.0 - ToCodecS16(v) as real <= 0.0
  {
    RoundNearest(Clamp(v, -1.0, 1.0) * 32767.0);
  }

  /** Saturating, symmetric and order-preserving: no sample wraps, and +1.0 maps to
      the largest value whose negative is also representable. */
  lemma Int24ClampMeaning(v: real, w: real)
    ensures -8388607 <= Int24Clamp(v) <= 8388607
    ensures v >= 1.0 ==> Int24Clamp(v) == 8388607
    ensures -1.0 <= v <= 1.0 ==> Nearest(v * 8388607.0, Int24Clamp(v))
    ensures Int24Clamp(-v) == -Int24Clamp(v)
    ensures v <= w ==> Int24Clamp(v) <= Int24Clamp(w)
  {
    Int24ClampNearest(v);
    var a, b := Clamp(v, -1.0, 1.0), Clamp(w, -1.0, 1.0);
    RoundMonotone(a * 8388607.0, 8388607.0);
    RoundMonotone(-8388607.0, a * 8388607.0);
    RoundOdd(a * 8388607.0);
    assert Clamp(-v, -1.0, 1.0) == -a;
    if v <= w {
      RoundMonotone(a * 8388607.0, b * 8388607.0);
    }
  }

  lemma S16Range(v: real)
    ensures -32767 <= ToS16(v) <= 32767
    ensures -32767 <= ToCodecS16(v) <= 32767
    ensures ToCodecS16(v) == ToS16(v) || ToCodecS16(v) == ToS16(v) - 1 || ToCodecS16(v) == ToS16(v) + 1
  {
    var a := Clamp(v, -1.0, 1.0) * 32767.0;
    RoundMonotone(a, 32767.0);
    RoundMonotone(-32767.0, a);
  }
}
