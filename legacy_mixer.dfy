/** The earlier gain stage (`AudioNodes/Mixer.swift`, outside the package
    target). It follows the same fade rule as `Mixer.VolumeControl`, but
    takes its crossfade length from the node's format instead of
    `min(512, frameCount)`, counts a request's frames as 0 while the node
    has no format, and reports no volume. The `Filter` base class it
    derives from is not part of this model: its per-cycle work is left to
    the caller, and this class keeps only the gain fields. */
module LegacyMixer {
  import opened Buffers
  import Utilities
  import Mixer

  /** The gain fields of the earlier volume control. */
  datatype GainState = GainState(pending: Option<Mixer.Fade>, active: Mixer.Fade, previous: real)

  /** The frames a request of `duration` seconds fades over: none while the
      node's format is unknown. */
  function RequestFrames(sampleRate: Option<real>, duration: real): (n: int)
    ensures sampleRate.None? ==> n == 0
    ensures sampleRate.Some? && sampleRate.value >= 0.0 && duration >= 0.0 ==>
      0 <= n && n as real <= sampleRate.value * duration < n as real + 1.0
  {
    if sampleRate.Some? then Utilities.TruncToInt(sampleRate.value * duration) else 0
  }

  class VolumeControl {
    const busNumber: Option<nat>
    var pending: Option<Mixer.Fade>
    var active: Mixer.Fade
    var previous: real

    function Gain(): GainState
      reads this
    {
      GainState(pending, active, previous)
    }

    /** Starts at gain 1 with no fade and no request pending. */
    constructor (busNumber: Option<nat>)
      ensures this.busNumber == busNumber
      ensures Gain() == GainState(None, Mixer.Fade(1.0, 0), 1.0)
    {
      this.busNumber := busNumber;
      pending := None;
      active := Mixer.Fade(1.0, 0);
      previous := 1.0;
    }

    /** `setVolume`: replaces any pending request. */
    method SetVolume(volume: real, duration: real, sampleRate: Option<real>)
      modifies this
      ensures Gain() == old(Gain()).(pending := Some(Mixer.Fade(volume, RequestFrames(sampleRate, duration))))
    {
      var frames := if sampleRate.Some? then Utilities.TruncToInt(sampleRate.value * duration) else 0;
      pending := Some(Mixer.Fade(volume, frames));
    }

    /** `_willRender$` (after the base class's snapshot): a pending request
        becomes the active fade and is consumed. */
    method WillRender()
      modifies this
      ensures Gain() == if old(pending).Some? then old(Gain()).(pending := None, active := old(pending).value) else old(Gain())
    {
      if pending.Some? {
        active := pending.value;
        pending := None;
      }
    }

    /** `_reset` (after the base class's reset): the gain snaps to the target. */
    method Reset()
      modifies this
      ensures Gain() == old(Gain()).(previous := old(active).fadeEnd, active := old(active).(fadeFrames := 0))
    {
      previous := active.fadeEnd;
      active := active.(fadeFrames := 0);
    }

    /** `_filter`: one cycle, crossfading over the node's `transitionFrames`;
        a transition longer than the cycle makes the scaling count negative,
        which the source traps on. */
    method Filter(frameCount: nat, buffers: BufferList, transitionFrames: nat, pow10: real -> real) returns (status: int)
      requires frameCount <= buffers.Capacity() && transitionFrames <= frameCount
      modifies this, buffers.samples
      ensures status == NO_ERR
      ensures var next := Mixer.NextGain(old(previous), old(active), frameCount);
        Gain() == old(Gain()).(active := next.1, previous := next.0)
      ensures buffers.Frames() == Mixer.Applied(old(buffers.Frames()), frameCount, transitionFrames,
                                                Mixer.Effect(old(previous), old(active), frameCount), pow10)
    {
      var current := previous;
      if current != active.fadeEnd {
        if active.fadeFrames <= frameCount {
          current := active.fadeEnd;
        } else {
          var ratio := (frameCount as real) / (active.fadeFrames as real);
          var delta := (active.fadeEnd - current) * ratio;
          current := current + delta;
          active := active.(fadeFrames := active.fadeFrames - frameCount);
        }
        var prevFactor := Utilities.FactorFromGain(previous, pow10);
        var factor := Utilities.FactorFromGain(current, pow10);
        previous := current;
        Mixer.Ramp(buffers, frameCount, transitionFrames, prevFactor, factor);
      } else if current == 0.0 {
        status := Utilities.FillSilence(frameCount, buffers, 0);
        return;
      } else if current != 1.0 {
        var factor := Utilities.FactorFromGain(current, pow10);
        Mixer.Scale(buffers, frameCount, factor);
      }
      status := NO_ERR;
    }
  }

  /** With no format a request takes effect within one cycle. */
  lemma UnknownFormatIsImmediate(previous: real, volume: real, duration: real, frameCount: nat)
    ensures Mixer.NextGain(previous, Mixer.Fade(volume, RequestFrames(None, duration)), frameCount).0 == volume
  {
  }
}
