/**
 * The peak reduction of the level meter: one pass over a window of unsigned
 * 8-bit time-domain samples, where 128 is silence. Dividing by 128 is exact,
 * so `real` gives the same numbers as the source's doubles.
 */
module Meter {

  newtype byte = x: int | 0 <= x < 256

  /** The magnitude of one sample, normalised so that full scale is 1. */
  function Deviation(b: byte): (d: real)
    ensures 0.0 <= d <= 1.0
    ensures d == 0.0 <==> b == 128
  {
    var v := (b as int - 128) as real / 128.0;
    if v < 0.0 then -v else v
  }

  /** The peak over a window, folded from the left as the loop does, starting at 0. */
  function PeakOf(s: seq<byte>): (p: real)
    ensures 0.0 <= p <= 1.0
  {
    if s == [] then 0.0
    else
      var prev := PeakOf(s[..|s| - 1]);
      var v := Deviation(s[|s| - 1]);
      if v > prev then v else prev
  }

  /** The peak is the largest deviation in the window (0 for an empty window). */
  lemma {:induction false} PeakIsMaximum(s: seq<byte>)
    ensures forall i :: 0 <= i < |s| ==> Deviation(s[i]) <= PeakOf(s)
    ensures s == [] ==> PeakOf(s) == 0.0
    ensures s != [] ==> exists i :: 0 <= i < |s| && Deviation(s[i]) == PeakOf(s)
  {
    if s != [] {
      var init := s[..|s| - 1];
      PeakIsMaximum(init);
      forall i | 0 <= i < |s| - 1 ensures Deviation(s[i]) <= PeakOf(s) {
        assert s[i] == init[i];
      }
      if init != [] {
        var j :| 0 <= j < |init| && Deviation(init[j]) == PeakOf(init);
        assert s[j] == init[j];
      }
    }
  }

  /** A silent window (every sample 128) reads a peak of 0. */
  lemma {:induction false} SilentPeakIsZero(s: seq<byte>)
    requires forall i :: 0 <= i < |s| ==> s[i] == 128
    ensures PeakOf(s) == 0.0
  {
    if s != [] {
      SilentPeakIsZero(s[..|s| - 1]);
    }
  }

  /** The loop of `tick`: scans the window and keeps the largest magnitude seen. */
  method ComputePeak(window: array<byte>) returns (peak: real)
    ensures peak == PeakOf(window[..])
    ensures 0.0 <= peak <= 1.0
  {
    peak := 0.0;
    for i := 0 to window.Length
      invariant peak == PeakOf(window[..i])
    {
      var absV := Deviation(window[i]);
      if absV > peak {
        peak := absV;
      }
      assert window[..i + 1][..i] == window[..i];
    }
    assert window[..window.Length] == window[..];
  }

  /** The meter bar width in percent, clamped to [0, 100]. */
  function MeterPercent(peak: real): (percent: real)
    ensures 0.0 <= percent <= 100.0
    ensures 0.0 <= peak <= 1.0 ==> percent == peak * 100.0
  {
    var scaled := if peak * 100.0 < 0.0 then 0.0 else peak * 100.0;
    if scaled < 100.0 then scaled else 100.0
  }
}
