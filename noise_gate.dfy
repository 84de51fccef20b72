/** The noise gate (`NoiseGate` in `AudioNodes/Sources/NoiseGate.swift`): a
    source node whose `_render` silences the cycle when the loudest channel
    is below a threshold, with a fade on the cycle where the gate closes or
    opens. The per-channel RMS level in dB is computed by the caller (vDSP)
    and passed in. */
module Gate {
  import opened Buffers
  import Utilities
  import SourceNode

  /** `STD_NOISE_GATE`, the default threshold in dB. */
  const STD_NOISE_GATE: real := -40.0

  /** The level the gate compares: the loudest channel, or `MIN_LEVEL_DB`
      when there are no channels. */
  function Level(levels: seq<real>): (l: real)
    ensures |levels| == 0 ==> l == MIN_LEVEL_DB
    ensures forall c :: 0 <= c < |levels| ==> levels[c] <= l
    ensures |levels| > 0 ==> exists c :: 0 <= c < |levels| && levels[c] == l
  {
    if |levels| == 0 then MIN_LEVEL_DB
    else if |levels| == 1 then levels[0]
    else
      var rest := Level(levels[1..]);
      assert forall c :: 1 <= c < |levels| ==> levels[c] == levels[1..][c - 1];
      if levels[0] >= rest then levels[0] else rest
  }

  /** What one cycle does to the buffer: below the threshold, a fade-out
      over the whole cycle if the gate was open and silence otherwise; at or
      above it, a fade-in over the whole cycle if the gate was closed and
      nothing otherwise. An unknown state counts as closed below the
      threshold and as open above it. */
  function Gated(b: Buf, prevOpen: Option<bool>, open: bool, frameCount: nat): (r: Buf)
    ensures SameShape(b, r)
    ensures forall c, i :: 0 <= c < |b| && frameCount <= i < |b[c]| ==> r[c][i] == b[c][i]
  {
    if !open then
      if prevOpen == Some(true) then Smoothed(b, true, frameCount, frameCount) else Silenced(b, frameCount, 0)
    else
      if prevOpen == Some(false) then Smoothed(b, false, frameCount, frameCount) else b
  }

  /** A gate that stays closed, or starts closed, outputs silence. */
  lemma ClosedIsSilent(b: Buf, prevOpen: Option<bool>, frameCount: nat, c: nat, i: nat)
    requires prevOpen != Some(true) && c < |b| && i < |b[c]| && i < frameCount
    ensures Gated(b, prevOpen, false, frameCount)[c][i] == 0.0
  {
  }

  /** A gate that stays open, or starts open, passes the buffer through. */
  lemma OpenIsTransparent(b: Buf, prevOpen: Option<bool>, frameCount: nat)
    requires prevOpen != Some(false)
    ensures Gated(b, prevOpen, true, frameCount) == b
  {
  }

  /** Closing fades the whole cycle out from full level, opening fades it in
      from silence: the first frame is kept on closing and silenced on
      opening, and every later frame is scaled by a factor in `[0, 1]`. */
  lemma EdgesFade(b: Buf, frameCount: nat, c: nat, i: nat)
    requires c < |b| && i < |b[c]| && i < frameCount
    ensures (i == 0 ==> Gated(b, Some(true), false, frameCount)[c][i] == b[c][i])
    ensures (i == 0 ==> Gated(b, Some(false), true, frameCount)[c][i] == 0.0)
    ensures Gated(b, Some(true), false, frameCount)[c][i] == b[c][i] * RampFactor(true, i, frameCount)
    ensures Gated(b, Some(false), true, frameCount)[c][i] == b[c][i] * RampFactor(false, i, frameCount)
  {
  }

  class NoiseGate {
    /** The source node the gate is. */
    const node: SourceNode.Source
    const thresholdDb: real
    var prevOpen: Option<bool>

    /** A gate of unknown state, enabled. */
    constructor (thresholdDb: real)
      ensures this.thresholdDb == thresholdDb && prevOpen == None
      ensures fresh(node) && node.State() == SourceNode.SourceState(SourceNode.InitialConfig(true), SourceNode.InitialConfig(true), true)
    {
      this.thresholdDb := thresholdDb;
      node := new SourceNode.Source(true);
      prevOpen := None;
    }

    /** `_render`, given each channel's RMS level in dB. The new state is
        whether the level reached the threshold; the status is `noErr`. */
    method Render(frameCount: nat, buffers: BufferList, levels: seq<real>) returns (status: int)
      requires frameCount <= buffers.Capacity() && |levels| == buffers.Channels()
      modifies this, buffers.samples
      ensures status == NO_ERR
      ensures prevOpen == Some(Level(levels) >= thresholdDb)
      ensures buffers.Frames() == Gated(old(buffers.Frames()), old(prevOpen), Level(levels) >= thresholdDb, frameCount)
    {
      var level := Level(levels);
      var ramp := frameCount;
      if level < thresholdDb {
        var wasOpen := if prevOpen.Some? then prevOpen.value else false;
        if wasOpen {
          var _ := Utilities.Smooth(true, frameCount, ramp, buffers);
        } else {
          var _ := Utilities.FillSilence(frameCount, buffers, 0);
        }
        prevOpen := Some(false);
      } else {
        var wasOpen := if prevOpen.Some? then prevOpen.value else true;
        if !wasOpen {
          var _ := Utilities.Smooth(false, frameCount, ramp, buffers);
        }
        prevOpen := Some(true);
      }
      status := NO_ERR;
    }

    /** `_reset`: the source node's reset, then the gate state is unknown again. */
    method Reset() returns (calls: seq<SourceNode.Call>)
      modifies this, node
      ensures prevOpen == None
      ensures node.State() == old(node.State()).(prevEnabled := old(node.active).enabled)
      ensures calls == SourceNode.ResetCalls(old(node.active))
    {
      calls := node.Reset();
      prevOpen := None;
    }
  }
}
