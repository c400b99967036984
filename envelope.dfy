/**
 * The gain automation a note's gain node is asked to perform: the ADSR
 * constants, the control points requested at note-on, and the re-anchored
 * release ramp. How the audio engine realises an exponential ramp is not
 * modelled; only the requested (value, time) points are.
 */
module Envelope {

  const AttackSeconds: real := 0.010
  const DecaySeconds: real := 0.060
  const SustainLevel: real := 0.55
  const ReleaseSeconds: real := 0.140

  /** Per-note gain before scaling by the polyphony limit. */
  const BaseNoteGain: real := 0.65
  /** Exponential ramps cannot reach zero; this is the floor used instead. */
  const GainFloor: real := 0.0001
  /** Safety margin after the release ramp before the hard stop, in seconds. */
  const StopMarginSeconds: real := 0.02
  /** `Math.ceil((releaseSeconds + 0.02) * 1000)`: the cleanup timer's delay. */
  const StopDelayMs: nat := 160

  /** One request made of an `AudioParam`. */
  datatype GainEvent =
    | SetValueAt(value: real, time: real)
    | ExpRampTo(value: real, time: real)

  function Max(a: real, b: real): real { if a < b then b else a }

  /** The peak gain of one note: the base gain divided by the voice limit (at least one). */
  function ScaledNoteGain(limit: int): real {
    BaseNoteGain / Max(1.0, limit as real)
  }

  /** The three points `playNote` schedules: floor now, peak after attack, sustain after decay. */
  function NoteOnEvents(now: real, limit: int): (r: seq<GainEvent>)
    ensures |r| == 3
    ensures r[0] == SetValueAt(GainFloor, now)
    ensures r[1].ExpRampTo? && r[2].ExpRampTo?
    ensures forall n :: 0 <= n < |r| ==> r[n].value >= GainFloor
    ensures r[1].time == now + AttackSeconds && r[2].time == r[1].time + DecaySeconds
    ensures r[0].time < r[1].time < r[2].time
    ensures r[2].value <= r[1].value <= BaseNoteGain
  {
    var scaled := ScaledNoteGain(limit);
    var attackEnd := now + AttackSeconds;
    var decayEnd := attackEnd + DecaySeconds;
    [SetValueAt(GainFloor, now),
     ExpRampTo(Max(GainFloor, scaled), attackEnd),
     ExpRampTo(Max(GainFloor, scaled * SustainLevel), decayEnd)]
  }

  /**
   * The peak and sustain targets scale inversely with the limit: a single
   * voice peaks at the base gain, and while a target stays above the floor
   * a limit of `n` divides it by `n`. Past 3575 voices the sustain target,
   * and past 6500 voices the peak too, is the floor.
   */
  lemma TargetsScaleWithLimit(now: real, limit: int)
    ensures limit <= 1 ==> NoteOnEvents(now, limit)[1].value == BaseNoteGain
    ensures limit <= 1 ==> NoteOnEvents(now, limit)[2].value == BaseNoteGain * SustainLevel
    ensures 1 <= limit <= 3575 ==>
      NoteOnEvents(now, limit)[1].value == BaseNoteGain / limit as real &&
      NoteOnEvents(now, limit)[2].value == BaseNoteGain / limit as real * SustainLevel
    ensures 3575 < limit <= 6500 ==> NoteOnEvents(now, limit)[1].value == BaseNoteGain / limit as real
    ensures limit > 3575 ==> NoteOnEvents(now, limit)[2].value == GainFloor
    ensures limit > 6500 ==> NoteOnEvents(now, limit)[1].value == GainFloor
  {
    var x := limit as real;
    if 1 <= limit <= 3575 {
      assert BaseNoteGain / x * SustainLevel >= BaseNoteGain / 3575.0 * SustainLevel;
    }
    if limit > 3575 {
      assert BaseNoteGain / x < BaseNoteGain / 3575.0;
    }
    if 3575 < limit <= 6500 {
      assert BaseNoteGain / x >= BaseNoteGain / 6500.0;
    }
    if limit > 6500 {
      assert BaseNoteGain / x < BaseNoteGain / 6500.0;
    }
  }

  /** A larger limit never raises the targets. */
  lemma TargetsMonotone(now: real, limit1: int, limit2: int)
    requires limit1 <= limit2
    ensures NoteOnEvents(now, limit2)[1].value <= NoteOnEvents(now, limit1)[1].value
    ensures NoteOnEvents(now, limit2)[2].value <= NoteOnEvents(now, limit1)[2].value
  {
    var a, b := Max(1.0, limit1 as real), Max(1.0, limit2 as real);
    assert BaseNoteGain / b <= BaseNoteGain / a;
  }

  /** `cancelScheduledValues(t)`: drops every request at or after time `t`. */
  function CancelFrom(events: seq<GainEvent>, t: real): (r: seq<GainEvent>)
    ensures |r| <= |events|
    ensures forall e :: e in r <==> e in events && e.time < t
  {
    if events == [] then []
    else (if events[0].time < t then [events[0]] else []) + CancelFrom(events[1..], t)
  }

  /**
   * The requests `releaseNote` adds: cancel what is still to come, hold the
   * current value (at least the floor) now, and ramp to the floor over the
   * release time.
   */
  function ReleaseEvents(events: seq<GainEvent>, now: real, current: real): (r: seq<GainEvent>)
    ensures |r| >= 2
    ensures r[..|r| - 2] == CancelFrom(events, now)
    ensures r[|r| - 2] == SetValueAt(Max(GainFloor, current), now)
    ensures r[|r| - 1] == ExpRampTo(GainFloor, now + ReleaseSeconds)
    ensures forall n :: 0 <= n < |r| - 2 ==> r[n].time < now
  {
    CancelFrom(events, now) +
      [SetValueAt(Max(GainFloor, current), now), ExpRampTo(GainFloor, now + ReleaseSeconds)]
  }

  /** A second release cancels the first one's pending ramp when it comes before that ramp ends. */
  lemma ReReleaseCancelsRamp(events: seq<GainEvent>, t1: real, g1: real, t2: real, g2: real)
    requires t1 < t2 <= t1 + ReleaseSeconds
    ensures ExpRampTo(GainFloor, t1 + ReleaseSeconds) !in ReleaseEvents(ReleaseEvents(events, t1, g1), t2, g2)
    ensures SetValueAt(Max(GainFloor, g1), t1) in ReleaseEvents(ReleaseEvents(events, t1, g1), t2, g2)
  {
    var hold1, ramp1 := SetValueAt(Max(GainFloor, g1), t1), ExpRampTo(GainFloor, t1 + ReleaseSeconds);
    var r1 := ReleaseEvents(events, t1, g1);
    assert r1[|r1| - 2] == hold1;
    var kept := CancelFrom(r1, t2);
    assert hold1 in kept && ramp1 !in kept;
    var tail2 := [SetValueAt(Max(GainFloor, g2), t2), ExpRampTo(GainFloor, t2 + ReleaseSeconds)];
    assert ramp1 !in tail2;
    assert ReleaseEvents(r1, t2, g2) == kept + tail2;
  }

  /**
   * The cleanup delay is at least the release time plus the margin. This is
   * about one release only: a timer left by an earlier release of the same
   * entry still fires at its own time and can cut a later ramp short.
   */
  lemma StopDelayCoversRelease()
    ensures StopDelayMs as real / 1000.0 >= ReleaseSeconds + StopMarginSeconds
  {
  }
}
