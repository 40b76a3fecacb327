/**
 * The floodlight brightness handlers (src/accessory/CameraAccessory.ts lines
 * 48-65): a device value and a HomeKit percentage are converted into each other
 * by `remap`, `Math.round` and `limit`.
 *
 * src/util/util.ts is not part of this model: `remap` is taken as the linear
 * rescale and `limit` as `Math.max(min, Math.min(max, value))`. Arithmetic is
 * exact (reals) instead of IEEE doubles, and `Math.round` is round half up.
 */
module Brightness {

  /** `remap`: the point of `[outMin, outMax]` that sits where `value` sits in `[inMin, inMax]`. */
  function Remap(value: real, inMin: real, inMax: real, outMin: real, outMax: real): (r: real)
    requires inMax != inMin
    ensures value == inMin ==> r == outMin
    ensures value == inMax ==> r == outMax
    ensures (r - outMin) * (inMax - inMin) == (value - inMin) * (outMax - outMin)
  {
    outMin + (value - inMin) * (outMax - outMin) / (inMax - inMin)
  }

  /** `Math.round`: the nearest integer, halves rounded up. */
  function RoundHalfUp(x: real): (r: int)
    ensures r as real - 0.5 <= x < r as real + 0.5
  {
    (x + 0.5).Floor
  }

  /** `limit`: `value` clamped into `[lo, hi]`. */
  function Limit(value: int, lo: int, hi: int): (r: int)
    ensures lo <= hi ==> lo <= r <= hi
    ensures lo <= value <= hi ==> r == value
    ensures value < lo ==> r == lo
    ensures lo <= hi < value ==> r == hi
  {
    var capped := if hi < value then hi else value;
    if lo < capped then capped else lo
  }

  /**
   * The `onGet` handler as written: the device value rescaled from `[0, max]`
   * to `[0, 100]`, rounded, and then clamped into the DEVICE range `[min, max]`.
   */
  function PercentFromDevice(value: int, min: int, max: int): (r: int)
    requires max != 0
    ensures min <= max ==> min <= r <= max
    ensures value == 0 && min <= 0 <= max ==> r == 0
  {
    Limit(RoundHalfUp(Remap(value as real, 0.0, max as real, 0.0, 100.0)), min, max)
  }

  /**
   * The `onSet` handler: the percentage rescaled from `[0, 100]` to `[0, max]`,
   * rounded and clamped into `[min, max]`; this is the value of the command sent.
   */
  function DeviceFromPercent(percent: int, min: int, max: int): (r: int)
    ensures min <= max ==> min <= r <= max
    ensures percent == 100 && min <= max ==> r == max
  {
    Limit(RoundHalfUp(Remap(percent as real, 0.0, 100.0, 0.0, max as real)), min, max)
  }

  /**
   * The `onGet` handler with the clamp into HomeKit's range `[0, 100]` that a
   * percentage calls for.
   */
  function PercentFromDeviceCorrected(value: int, max: int): (r: int)
    requires max != 0
    ensures 0 <= r <= 100
    ensures value == max ==> r == 100
  {
    Limit(RoundHalfUp(Remap(value as real, 0.0, max as real, 0.0, 100.0)), 0, 100)
  }

  /**
   * As written, full brightness on a device whose maximum is below 100 reads
   * back as that maximum rather than 100 percent.
   */
  lemma FullBrightnessReadsAsDeviceMax(min: int, max: int)
    requires 0 < max < 100 && min <= max
    ensures DeviceFromPercent(100, min, max) == max
    ensures PercentFromDevice(max, min, max) == max
    ensures PercentFromDeviceCorrected(max, max) == 100
  {
    assert Remap(max as real, 0.0, max as real, 0.0, 100.0) == 100.0;
    assert RoundHalfUp(100.0) == 100;
  }

  /**
   * As written, the clamp also raises low readings on a device whose minimum
   * is above zero: on a device with range [25, 255] the minimum, about 10
   * percent of the range, reads back as 25 percent.
   */
  lemma LowestReadsAsDeviceMin()
    ensures PercentFromDevice(25, 25, 255) == 25
    ensures PercentFromDeviceCorrected(25, 255) == 10
  {
    var x := Remap(25.0, 0.0, 255.0, 0.0, 100.0);
    assert x * 255.0 == 2500.0;
    assert RoundHalfUp(x) == 10;
  }

  lemma ProductNonNegative(a: real, b: real)
    requires 0.0 <= a && 0.0 <= b
    ensures 0.0 <= a * b
  {
  }

  lemma FactorPositive(a: real, b: real)
    requires 0.0 < b && 0.0 < a * b
    ensures 0.0 < a
  {
  }

  lemma FactorNonNegative(a: real, b: real)
    requires 0.0 < b && 0.0 <= a * b
    ensures 0.0 <= a
  {
  }

  /**
   * A reading error `e` with `e * m` in (-50, 50] lies in (-1, 1] once
   * `m >= 50`, and in (-1/2, 1/2) once `m > 100`.
   */
  lemma ScaledErrorBound(e: real, m: real)
    requires 50.0 <= m && -50.0 < e * m <= 50.0
    ensures -1.0 < e <= 1.0
    ensures 100.0 < m ==> -0.5 < e < 0.5
  {
    assert (e + 1.0) * m == e * m + m;
    FactorPositive(e + 1.0, m);
    assert (1.0 - e) * m == m - e * m;
    FactorNonNegative(1.0 - e, m);
    if 100.0 < m {
      assert (e + 0.5) * m == e * m + 0.5 * m;
      FactorPositive(e + 0.5, m);
      assert (0.5 - e) * m == 0.5 * m - e * m;
      FactorPositive(0.5 - e, m);
    }
  }

  /** Rescaling a percentage in [0, 100] to [0, max] stays within [0, max] and keeps the proportion. */
  lemma ToDeviceScale(p: real, m: real)
    requires 0.0 <= p <= 100.0 && 0.0 < m
    ensures var x := Remap(p, 0.0, 100.0, 0.0, m); x * 100.0 == p * m && 0.0 <= x <= m
  {
    var x := Remap(p, 0.0, 100.0, 0.0, m);
    ProductNonNegative(p, m);
    ProductNonNegative(100.0 - p, m);
    assert (m - x) * 100.0 == (100.0 - p) * m;
  }

  /**
   * Reading back a rounded device value `d` of the exact value `x = p * m / 100`
   * lands within one of `p`, and within one half when `m > 100`.
   */
  lemma ReadBackError(p: real, m: real, x: real, d: int)
    requires 50.0 <= m && x * 100.0 == p * m && -0.5 < d as real - x <= 0.5
    ensures var y := Remap(d as real, 0.0, m, 0.0, 100.0);
            p - 1.0 < y <= p + 1.0 && (100.0 < m ==> p - 0.5 < y < p + 0.5)
  {
    var y := Remap(d as real, 0.0, m, 0.0, 100.0);
    // The reading is off by (d - x) * 100 / m.
    assert (y - p) * m == (d as real - x) * 100.0 by {
      assert y * m == (d as real) * 100.0;
    }
    var err := (d as real - x) * 100.0;
    assert -50.0 < err <= 50.0;
    var e := y - p;
    assert e * m == err;
    ScaledErrorBound(e, m);
  }

  /**
   * Setting a percentage and reading it back with the corrected handler gives it
   * back to within one when the device maximum is at least 50, and exactly when
   * it is at least 100, provided the command was not raised to the device minimum.
   */
  lemma RoundTripCorrected(percent: int, min: int, max: int)
    requires 0 <= percent <= 100 && 50 <= max && min <= max
    requires min <= RoundHalfUp(Remap(percent as real, 0.0, 100.0, 0.0, max as real))
    ensures var back := PercentFromDeviceCorrected(DeviceFromPercent(percent, min, max), max);
            percent - 1 <= back <= percent + 1 && (100 <= max ==> back == percent)
  {
    var p, m := percent as real, max as real;
    var x := Remap(p, 0.0, 100.0, 0.0, m);
    ToDeviceScale(p, m);
    var d := RoundHalfUp(x);
    assert DeviceFromPercent(percent, min, max) == d;
    if max == 100 {
      assert x == p;
    }
    ReadBackError(p, m, x, d);
  }

  /**
   * As written, the round trip is not within one: on a device with range
   * [0, 50], 100 percent is sent as 50 and read back as 50 percent.
   */
  lemma RoundTripAsWrittenFails()
    ensures DeviceFromPercent(100, 0, 50) == 50
    ensures PercentFromDevice(DeviceFromPercent(100, 0, 50), 0, 50) == 50
  {
    FullBrightnessReadsAsDeviceMax(0, 50);
  }
}
