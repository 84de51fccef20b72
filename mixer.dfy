/** The gain stage of the package target (`VolumeControl`) and the bus
    mixer built from it (`Mixer`).

    A volume control holds a gain `previous` and a fade towards `fadeEnd`
    that has `fadeFrames` frames left. Each cycle moves the gain a
    `frameCount / fadeFrames` share of the way to the target (or onto the
    target once the fade fits in the cycle), crossfades the first
    `min(512, frameCount)` frames from the old factor to the new one, and
    scales the rest by the new factor. Gain factors come from
    `FactorFromGain`, whose `pow(10, x)` is the parameter `pow10`. */
module Mixer {
  import opened Buffers
  import Utilities
  import GraphNode

  /** A fade request: the target gain and the frames left to reach it. */
  datatype Fade = Fade(fadeEnd: real, fadeFrames: int)

  /** The gain at the end of a cycle of `frameCount` frames, and the fade
      with the frames that are then left. */
  function NextGain(previous: real, fade: Fade, frameCount: nat): (r: (real, Fade))
    ensures r.1.fadeEnd == fade.fadeEnd
    ensures previous == fade.fadeEnd ==> r == (previous, fade)
    ensures previous != fade.fadeEnd && fade.fadeFrames <= frameCount ==> r == (fade.fadeEnd, fade)
    ensures previous != fade.fadeEnd && fade.fadeFrames > frameCount ==>
      r.1.fadeFrames == fade.fadeFrames - frameCount && r.0 != fade.fadeEnd &&
      Min2(previous, fade.fadeEnd) <= r.0 <= Max2(previous, fade.fadeEnd)
  {
    if previous == fade.fadeEnd then (previous, fade)
    else if fade.fadeFrames <= frameCount then (fade.fadeEnd, fade)
    else
      var ratio := (frameCount as real) / (fade.fadeFrames as real);
      StepBetween(previous, fade.fadeEnd - previous, ratio);
      (previous + (fade.fadeEnd - previous) * ratio, fade.(fadeFrames := fade.fadeFrames - frameCount))
  }

  function Min2(a: real, b: real): real { if a <= b then a else b }

  function Max2(a: real, b: real): real { if a >= b then a else b }

  /** A step of a share `ratio` in `[0, 1)` of a nonzero distance `d`
      stays between the start and `from + d` and does not reach it. */
  lemma StepBetween(from: real, d: real, ratio: real)
    requires 0.0 <= ratio < 1.0 && d != 0.0
    ensures from + d * ratio != from + d
    ensures Min2(from, from + d) <= from + d * ratio <= Max2(from, from + d)
  {
    if d > 0.0 {
      PartOfPositive(d, ratio);
    } else {
      PartOfNegative(d, ratio);
    }
  }

  lemma PartOfPositive(d: real, ratio: real)
    requires d > 0.0 && 0.0 <= ratio < 1.0
    ensures 0.0 <= d * ratio < d
  {
    assert d - d * ratio == d * (1.0 - ratio);
  }

  lemma PartOfNegative(d: real, ratio: real)
    requires d < 0.0 && 0.0 <= ratio < 1.0
    ensures d < d * ratio <= 0.0
  {
    assert d * ratio - d == d * (ratio - 1.0);
  }

  /** The gain after `n` cycles of `frameCount` frames each. */
  function GainAfter(previous: real, fade: Fade, frameCount: nat, n: nat): (real, Fade)
    decreases n
  {
    if n == 0 then (previous, fade)
    else
      var r := NextGain(previous, fade, frameCount);
      GainAfter(r.0, r.1, frameCount, n - 1)
  }

  /** The cycles a fade of `fadeFrames` frames needs at `frameCount` frames
      per cycle: one for a fade that fits, one more per whole cycle. */
  function CyclesToTarget(fadeFrames: int, frameCount: nat): (n: nat)
    requires frameCount > 0
    ensures n >= 1
    decreases Max(fadeFrames, 0)
  {
    if fadeFrames <= frameCount then 1 else 1 + CyclesToTarget(fadeFrames - frameCount, frameCount)
  }

  /** The number of cycles is the fade length divided by the cycle length,
      rounded up: the smallest `n` with `n * frameCount >= fadeFrames`. */
  lemma {:induction false} CyclesToTargetIsCeiling(fadeFrames: int, frameCount: nat)
    requires frameCount > 0 && fadeFrames >= 1
    ensures var n := CyclesToTarget(fadeFrames, frameCount);
      (n - 1) * frameCount < fadeFrames <= n * frameCount
    decreases fadeFrames
  {
    if fadeFrames > frameCount {
      CyclesToTargetIsCeiling(fadeFrames - frameCount, frameCount);
      var n := CyclesToTarget(fadeFrames - frameCount, frameCount);
      assert (n + 1) * frameCount == n * frameCount + frameCount;
      assert n * frameCount == (n - 1) * frameCount + frameCount;
    }
  }

  /** A one-second fade at 48 kHz with 512-frame cycles takes 94 cycles. */
  lemma OneSecondAt48k()
    ensures CyclesToTarget(48000, 512) == 94
  {
    CyclesToTargetIsCeiling(48000, 512);
  }

  /** Convergence: from a gain different from the target, the gain equals
      the target after `n` cycles exactly when `n` is at least
      `CyclesToTarget`, and it stays there. */
  lemma {:induction false} ReachesTarget(previous: real, fade: Fade, frameCount: nat, n: nat)
    requires frameCount > 0 && previous != fade.fadeEnd
    ensures GainAfter(previous, fade, frameCount, n).0 == fade.fadeEnd <==> n >= CyclesToTarget(fade.fadeFrames, frameCount)
    decreases n
  {
    if n > 0 {
      var r := NextGain(previous, fade, frameCount);
      if fade.fadeFrames <= frameCount {
        AtTargetStays(r.0, r.1, frameCount, n - 1);
      } else {
        ReachesTarget(r.0, r.1, frameCount, n - 1);
      }
    }
  }

  /** Once at the target the gain does not move. */
  lemma {:induction false} AtTargetStays(previous: real, fade: Fade, frameCount: nat, n: nat)
    requires previous == fade.fadeEnd
    ensures GainAfter(previous, fade, frameCount, n) == (previous, fade)
    decreases n
  {
    if n > 0 {
      AtTargetStays(previous, fade, frameCount, n - 1);
    }
  }

  /** What a cycle does to the buffer, in gains. */
  datatype GainEffect = Crossfade(from: real, to: real) | Silence | Scaling(gain: real) | Keep

  /** During a fade the buffer is ramped from the old gain to the new; at
      the target, gain 0 is silence, gain 1 leaves the buffer alone, and any
      other gain scales it. */
  function Effect(previous: real, fade: Fade, frameCount: nat): GainEffect {
    if previous != fade.fadeEnd then Crossfade(previous, NextGain(previous, fade, frameCount).0)
    else if previous == 0.0 then Silence
    else if previous != 1.0 then Scaling(previous)
    else Keep
  }

  /** The crossfade factor at frame `i` of a `transition`-frame window. */
  function CrossFactor(from: real, to: real, i: nat, transition: nat): (f: real)
    requires i < transition
    ensures i == 0 ==> f == from
  {
    from + (to - from) * ((i as real) / (transition as real))
  }

  /** `b` with the first `transition` frames crossfaded from factor `from`
      to factor `to`, and frames `[transition, frameCount)` scaled by `to`. */
  function Ramped(b: Buf, frameCount: nat, transition: nat, from: real, to: real): (r: Buf)
    ensures SameShape(b, r)
  {
    seq(|b|, c requires 0 <= c < |b| =>
      seq(|b[c]|, i requires 0 <= i < |b[c]| =>
        if i < transition && i < frameCount then b[c][i] * CrossFactor(from, to, i, transition)
        else if i < frameCount then b[c][i] * to
        else b[c][i]))
  }

  /** `b` with frames `[0, frameCount)` multiplied by `factor`. */
  function Scaled(b: Buf, frameCount: nat, factor: real): (r: Buf)
    ensures SameShape(b, r)
  {
    seq(|b|, c requires 0 <= c < |b| =>
      seq(|b[c]|, i requires 0 <= i < |b[c]| => if i < frameCount then b[c][i] * factor else b[c][i]))
  }

  /** Gain 1 is the identity when scaling. */
  lemma ScaleByOne(b: Buf, frameCount: nat, pow10: real -> real)
    requires pow10(0.0) == 1.0
    ensures Scaled(b, frameCount, Utilities.FactorFromGain(1.0, pow10)) == b
  {
    BufEq(Scaled(b, frameCount, Utilities.FactorFromGain(1.0, pow10)), b);
  }

  /** The buffer a cycle leaves behind for an effect. */
  function Applied(b: Buf, frameCount: nat, transition: nat, e: GainEffect, pow10: real -> real): (r: Buf)
    ensures SameShape(b, r)
    ensures forall c, i :: 0 <= c < |b| && frameCount <= i < |b[c]| ==> r[c][i] == b[c][i]
    ensures e == Keep ==> r == b
  {
    match e
    case Crossfade(from, to) => Ramped(b, frameCount, transition, Utilities.FactorFromGain(from, pow10), Utilities.FactorFromGain(to, pow10))
    case Silence => Silenced(b, frameCount, 0)
    case Scaling(g) => Scaled(b, frameCount, Utilities.FactorFromGain(g, pow10))
    case Keep => b
  }

  /** At the target the cycle multiplies every frame by the target's
      factor: gain 0 is silence, gain 1 leaves the whole buffer as it was
      (with `pow(10, 0) == 1` also frame by frame), any other gain scales. */
  lemma AtTargetEffect(b: Buf, previous: real, fade: Fade, frameCount: nat, transition: nat, pow10: real -> real)
    requires previous == fade.fadeEnd
    ensures var r := Applied(b, frameCount, transition, Effect(previous, fade, frameCount), pow10);
      (previous == 0.0 ==> forall c, i :: 0 <= c < |b| && 0 <= i < |b[c]| && i < frameCount ==> r[c][i] == 0.0) &&
      (previous == 1.0 ==> r == b) &&
      (pow10(0.0) == 1.0 ==> forall c, i :: 0 <= c < |b| && 0 <= i < |b[c]| && i < frameCount ==>
        r[c][i] == b[c][i] * Utilities.FactorFromGain(previous, pow10))
  {
    var r := Applied(b, frameCount, transition, Effect(previous, fade, frameCount), pow10);
    if previous == 0.0 {
      forall c, i | 0 <= c < |b| && 0 <= i < |b[c]| && i < frameCount ensures r[c][i] == 0.0 {
        assert r == Silenced(b, frameCount, 0);
      }
    } else if previous == 1.0 && pow10(0.0) == 1.0 {
      assert Utilities.FactorFromGain(previous, pow10) == 1.0;
    }
  }

  /** During a fade the cycle starts at the old gain's factor, ends at the
      new gain's factor past the crossfade window, and in between stays
      between the two factors. */
  lemma FadeEffect(b: Buf, previous: real, fade: Fade, frameCount: nat, transition: nat, pow10: real -> real)
    requires previous != fade.fadeEnd
    ensures var from, to := Utilities.FactorFromGain(previous, pow10), Utilities.FactorFromGain(NextGain(previous, fade, frameCount).0, pow10);
      var r := Applied(b, frameCount, transition, Effect(previous, fade, frameCount), pow10);
      (forall c :: 0 <= c < |b| && 0 < transition && 0 < frameCount && 0 < |b[c]| ==> r[c][0] == b[c][0] * from) &&
      (forall c, i :: 0 <= c < |b| && transition <= i < frameCount && i < |b[c]| ==> r[c][i] == b[c][i] * to) &&
      (forall c, i :: 0 <= c < |b| && 0 <= i < transition && i < frameCount && i < |b[c]| ==>
        r[c][i] == b[c][i] * CrossFactor(from, to, i, transition) &&
        Min2(from, to) <= CrossFactor(from, to, i, transition) <= Max2(from, to))
  {
    var from, to := Utilities.FactorFromGain(previous, pow10), Utilities.FactorFromGain(NextGain(previous, fade, frameCount).0, pow10);
    var r := Applied(b, frameCount, transition, Effect(previous, fade, frameCount), pow10);
    assert r == Ramped(b, frameCount, transition, from, to);
    forall i | 0 <= i < transition ensures Min2(from, to) <= CrossFactor(from, to, i, transition) <= Max2(from, to) {
      CrossFactorBetween(from, to, i, transition);
    }
  }

  /** The crossfade factor lies between its two ends. */
  lemma CrossFactorBetween(from: real, to: real, i: nat, transition: nat)
    requires i < transition
    ensures Min2(from, to) <= CrossFactor(from, to, i, transition) <= Max2(from, to)
  {
    var ratio := (i as real) / (transition as real);
    assert 0.0 <= ratio < 1.0;
    if to != from {
      StepBetween(from, to - from, ratio);
    }
  }

  /** Crossfades the first `transition` frames of every channel and scales
      the rest of the cycle by `to`. */
  method Ramp(buffers: BufferList, frameCount: nat, transition: nat, from: real, to: real)
    requires frameCount <= buffers.Capacity()
    modifies buffers.samples
    ensures buffers.Frames() == Ramped(old(buffers.Frames()), frameCount, transition, from, to)
  {
    var a := buffers.samples;
    ghost var before := Rows(a);
    ghost var want := Ramped(before, frameCount, transition, from, to);
    var c := 0;
    while c < a.Length0
      invariant 0 <= c <= a.Length0
      invariant forall k, j :: 0 <= k < a.Length0 && 0 <= j < a.Length1 ==>
        a[k, j] == if k < c then want[k][j] else before[k][j]
    {
      var i := 0;
      while i < frameCount
        invariant 0 <= i <= frameCount
        invariant forall k, j :: 0 <= k < a.Length0 && 0 <= j < a.Length1 ==>
          a[k, j] == if k < c || (k == c && j < i) then want[k][j] else before[k][j]
      {
        if i < transition {
          a[c, i] := a[c, i] * CrossFactor(from, to, i, transition);
        } else {
          a[c, i] := a[c, i] * to;
        }
        i := i + 1;
      }
      c := c + 1;
    }
    RowsAre(a, want);
  }

  /** Multiplies frames `[0, frameCount)` of every channel by `factor`. */
  method Scale(buffers: BufferList, frameCount: nat, factor: real)
    requires frameCount <= buffers.Capacity()
    modifies buffers.samples
    ensures buffers.Frames() == Scaled(old(buffers.Frames()), frameCount, factor)
  {
    var a := buffers.samples;
    ghost var before := Rows(a);
    ghost var want := Scaled(before, frameCount, factor);
    var c := 0;
    while c < a.Length0
      invariant 0 <= c <= a.Length0
      invariant forall k, j :: 0 <= k < a.Length0 && 0 <= j < a.Length1 ==>
        a[k, j] == if k < c then want[k][j] else before[k][j]
    {
      var i := 0;
      while i < frameCount
        invariant 0 <= i <= frameCount
        invariant forall k, j :: 0 <= k < a.Length0 && 0 <= j < a.Length1 ==>
          a[k, j] == if k < c || (k == c && j < i) then want[k][j] else before[k][j]
      {
        a[c, i] := a[c, i] * factor;
        i := i + 1;
      }
      c := c + 1;
    }
    RowsAre(a, want);
  }

  /** The gain fields of a volume control. */
  datatype GainState = GainState(pending: Option<Fade>, active: Fade, previous: real, lastKnownVolume: real)

  /** The gain fields after `_render`: the gain moves by `NextGain`; the
      reported volume follows it except on the silent at-target path, which
      returns before reporting. */
  function GainCycle(s: GainState, frameCount: nat): (r: GainState)
    ensures r.pending == s.pending && r.active.fadeEnd == s.active.fadeEnd
    ensures s.previous == s.active.fadeEnd ==> r.previous == s.previous && r.active == s.active
    ensures Min2(s.previous, s.active.fadeEnd) <= r.previous <= Max2(s.previous, s.active.fadeEnd)
    ensures r.lastKnownVolume == r.previous || (r.lastKnownVolume == s.lastKnownVolume && r.previous == 0.0)
  {
    var next := NextGain(s.previous, s.active, frameCount);
    var silent := Effect(s.previous, s.active, frameCount).Silence?;
    s.(active := next.1, previous := next.0, lastKnownVolume := if silent then s.lastKnownVolume else next.0)
  }

  class VolumeControl {
    /** The node machinery `VolumeControl` inherits. */
    const node: GraphNode.Node
    const format: GraphNode.StreamFormat
    const busNumber: Option<nat>
    var pending: Option<Fade>
    var lastKnownVolume: real
    var active: Fade
    var previous: real

    function Gain(): GainState
      reads this
    {
      GainState(pending, active, previous, lastKnownVolume)
    }

    /** Starts at gain 1 with no fade and no request pending. */
    constructor (format: GraphNode.StreamFormat, busNumber: Option<nat>)
      ensures this.format == format && this.busNumber == busNumber && fresh(node)
      ensures Gain() == GainState(None, Fade(1.0, 0), 1.0, 1.0)
      ensures node.State() == GraphNode.NodeState(GraphNode.InitialConfig(true), GraphNode.InitialConfig(true), true, false)
    {
      this.format := format;
      this.busNumber := busNumber;
      node := new GraphNode.Node(true);
      pending := None;
      lastKnownVolume := 1.0;
      active := Fade(1.0, 0);
      previous := 1.0;
    }

    /** `setVolume`: replaces any pending request with a fade to `volume`
        over `duration` seconds, counted in whole frames. */
    method SetVolume(volume: real, duration: real)
      modifies this
      ensures Gain() == old(Gain()).(pending := Some(Fade(volume, Utilities.TruncToInt(format.sampleRate * duration))))
    {
      var frames := Utilities.TruncToInt(format.sampleRate * duration);
      pending := Some(Fade(volume, frames));
    }

    /** `_willRender$`: the node snapshot, then a pending request, if any,
        becomes the active fade and is consumed. */
    method WillRender()
      modifies this, node
      ensures node.State() == old(node.State()).(active := old(node.pending))
      ensures Gain() == if old(pending).Some? then old(Gain()).(pending := None, active := old(pending).value) else old(Gain())
    {
      node.WillRender();
      if pending.Some? {
        active := pending.value;
        pending := None;
      }
    }

    /** `_reset`: the node reset, then the gain snaps to the target. */
    method Reset() returns (calls: seq<GraphNode.Call>)
      modifies this, node
      ensures node.State() == old(node.State()).(prevEnabled := old(node.active).enabled, prevMuted := old(node.active).muted)
      ensures calls == GraphNode.ResetCalls(old(node.active))
      ensures Gain() == old(Gain()).(previous := old(active).fadeEnd, active := old(active).(fadeFrames := 0))
    {
      calls := node.Reset();
      previous := active.fadeEnd;
      active := active.(fadeFrames := 0);
    }

    /** `_render`: one cycle of the gain stage. */
    method Render(frameCount: nat, buffers: BufferList, pow10: real -> real) returns (status: int)
      requires frameCount <= buffers.Capacity()
      modifies this, buffers.samples
      ensures status == NO_ERR
      ensures Gain() == GainCycle(old(Gain()), frameCount)
      ensures buffers.Frames() == Applied(old(buffers.Frames()), frameCount, Utilities.TransitionFrames(frameCount),
                                          Effect(old(previous), old(active), frameCount), pow10)
    {
      var current := previous;
      if current != active.fadeEnd {
        if active.fadeFrames <= frameCount {
          current := active.fadeEnd;
        } else {
          var ratio := (frameCount as real) / (active.fadeFrames as real);
          var delta := (active.fadeEnd - current) * ratio;
          current := current + delta;
          active := active.(fadeFrames := active.fadeFrames - frameCount);
        }
        var prevFactor := Utilities.FactorFromGain(previous, pow10);
        var factor := Utilities.FactorFromGain(current, pow10);
        previous := current;
        Ramp(buffers, frameCount, Utilities.TransitionFrames(frameCount), prevFactor, factor);
      } else if current == 0.0 {
        status := Utilities.FillSilence(frameCount, buffers, 0);
        return;
      } else if current != 1.0 {
        var factor := Utilities.FactorFromGain(current, pow10);
        Scale(buffers, frameCount, factor);
      }
      lastKnownVolume := previous;
      status := NO_ERR;
    }
  }

  /** A request of duration 0 reaches its target at the end of the next
      cycle. */
  lemma ZeroDurationIsImmediate(previous: real, volume: real, sampleRate: GraphNode.SampleRate, frameCount: nat)
    ensures NextGain(previous, Fade(volume, Utilities.TruncToInt(sampleRate * 0.0)), frameCount).0 == volume
  {
  }

  /** What the buses leave in the output and scratch buffers, and the status. */
  datatype Mixing = Mixing(out: Buf, scratch: Buf, status: int)

  /** `dst` with `src` added frame by frame over `[0, frameCount)`. */
  function Added(dst: Buf, src: Buf, frameCount: nat): (r: Buf)
    ensures SameShape(dst, r)
  {
    seq(|dst|, c requires 0 <= c < |dst| =>
      seq(|dst[c]|, i requires 0 <= i < |dst[c]| =>
        if i < frameCount && c < |src| && i < |src[c]| then dst[c][i] + src[c][i] else dst[c][i]))
  }

  /** Buses `0 .. n - 1` rendered in order: bus 0 straight into the output,
      later buses into the scratch buffer and added to the output; the
      first failing bus stops the loop (after its data has been added). */
  function MixBuses(n: nat, frameCount: nat, b: Buf, scratch: Buf, pull: (nat, Buf) -> GraphNode.Rendered): (m: Mixing)
    decreases n
    ensures BusKeepsShape(pull) ==> SameShape(b, m.out) && SameShape(scratch, m.scratch)
  {
    if n == 0 then Mixing(b, scratch, NO_ERR)
    else
      var m := MixBuses(n - 1, frameCount, b, scratch, pull);
      if m.status != NO_ERR then m
      else if n == 1 then Mixing(pull(0, b).samples, scratch, pull(0, b).status)
      else
        var r := pull(n - 1, m.scratch);
        Mixing(Added(m.out, r.samples, frameCount), r.samples, r.status)
  }

  /** `Mixer._render`: the buses mixed, or silence when there are none. */
  function MixRender(busCount: nat, frameCount: nat, b: Buf, scratch: Buf, pull: (nat, Buf) -> GraphNode.Rendered): (m: Mixing)
    ensures BusKeepsShape(pull) ==> SameShape(b, m.out) && SameShape(scratch, m.scratch)
    ensures busCount == 0 ==> m.status == NO_ERR
  {
    if busCount == 0 then Mixing(Silenced(b, frameCount, 0), scratch, NO_ERR)
    else MixBuses(busCount, frameCount, b, scratch, pull)
  }

  /** `bus` writes only into the buffer it is given. */
  ghost predicate BusKeepsShape(pull: (nat, Buf) -> GraphNode.Rendered) {
    forall k, b :: SameShape(b, pull(k, b).samples)
  }

  class Mixer {
    const node: GraphNode.Node
    const buses: seq<VolumeControl>
    const scratch: BufferList

    /** Creates `busCount` buses (at most 128) and a 4096-frame scratch
        buffer with the format's channel count. */
    constructor (format: GraphNode.StreamFormat, busCount: int)
      requires 0 < busCount <= 128
      ensures |buses| == busCount && fresh(node) && fresh(scratch) && fresh(scratch.samples)
      ensures forall k :: 0 <= k < |buses| ==> fresh(buses[k]) && buses[k].format == format && buses[k].busNumber == Some(k)
      ensures scratch.Valid() && scratch.Capacity() == 4096 && scratch.Channels() == (if format.isStereo then 2 else 1)
    {
      node := new GraphNode.Node(true);
      var bs: seq<VolumeControl> := [];
      var k := 0;
      while k < busCount
        invariant 0 <= k <= busCount && |bs| == k
        invariant forall j :: 0 <= j < k ==> fresh(bs[j]) && bs[j].format == format && bs[j].busNumber == Some(j)
      {
        var bus := new VolumeControl(format, Some(k));
        bs := bs + [bus];
        k := k + 1;
      }
      buses := bs;
      scratch := new BufferList(format.isStereo, 4096);
    }

    /** `_renderAndMix`: renders a bus into the scratch buffer and adds the
        first `frameCount` frames of every output channel from it. */
    method RenderAndMix(k: nat, frameCount: nat, buffers: BufferList, pull: (nat, Buf) -> GraphNode.Rendered) returns (status: int)
      requires frameCount <= buffers.Capacity() && frameCount <= scratch.Capacity()
      requires buffers.Channels() <= scratch.Channels() && buffers.samples != scratch.samples
      requires BusKeepsShape(pull)
      modifies buffers.samples, scratch.samples
      ensures var r := pull(k, old(scratch.Frames()));
        status == r.status && scratch.Frames() == r.samples &&
        buffers.Frames() == Added(old(buffers.Frames()), r.samples, frameCount)
    {
      var r := pull(k, scratch.Frames());
      scratch.Assign(r.samples);
      status := r.status;
      var a := buffers.samples;
      var s := scratch.samples;
      var c := 0;
      while c < a.Length0
        invariant 0 <= c <= a.Length0
        invariant scratch.Frames() == r.samples
        invariant forall p, j :: 0 <= p < a.Length0 && 0 <= j < a.Length1 ==>
          a[p, j] == if p < c && j < frameCount then old(a[p, j]) + s[p, j] else old(a[p, j])
      {
        var i := 0;
        while i < frameCount
          invariant 0 <= i <= frameCount
          invariant scratch.Frames() == r.samples
          invariant forall p, j :: 0 <= p < a.Length0 && 0 <= j < a.Length1 ==>
            a[p, j] == if (p < c || (p == c && j < i)) && j < frameCount then old(a[p, j]) + s[p, j] else old(a[p, j])
        {
          a[c, i] := a[c, i] + s[c, i];
          i := i + 1;
        }
        c := c + 1;
      }
      BufEq(buffers.Frames(), Added(old(buffers.Frames()), r.samples, frameCount));
    }

    /** `Mixer._render`. */
    method Render(frameCount: nat, buffers: BufferList, pull: (nat, Buf) -> GraphNode.Rendered) returns (status: int)
      requires frameCount <= buffers.Capacity() && frameCount <= scratch.Capacity()
      requires buffers.Channels() <= scratch.Channels() && buffers.samples != scratch.samples
      requires BusKeepsShape(pull)
      modifies buffers.samples, scratch.samples
      ensures var m := MixRender(|buses|, frameCount, old(buffers.Frames()), old(scratch.Frames()), pull);
        status == m.status && buffers.Frames() == m.out && scratch.Frames() == m.scratch
    {
      var first := true;
      var k := 0;
      while k < |buses|
        invariant 0 <= k <= |buses| && first == (k == 0)
        invariant var m := MixBuses(k, frameCount, old(buffers.Frames()), old(scratch.Frames()), pull);
          m.status == NO_ERR && buffers.Frames() == m.out && scratch.Frames() == m.scratch
      {
        var st;
        if first {
          var r := pull(0, buffers.Frames());
          buffers.Assign(r.samples);
          st := r.status;
        } else {
          st := RenderAndMix(k, frameCount, buffers, pull);
        }
        first := false;
        k := k + 1;
        if st != NO_ERR {
          status := st;
          FailureStops(k, |buses|, frameCount, old(buffers.Frames()), old(scratch.Frames()), pull);
          return;
        }
      }
      if first {
        status := Utilities.FillSilence(frameCount, buffers, 0);
        return;
      }
      status := NO_ERR;
    }
  }

  /** Once a bus fails, later buses are neither pulled nor mixed. */
  lemma {:induction false} FailureStops(k: nat, n: nat, frameCount: nat, b: Buf, scratch: Buf, pull: (nat, Buf) -> GraphNode.Rendered)
    requires k <= n && MixBuses(k, frameCount, b, scratch, pull).status != NO_ERR
    ensures MixBuses(n, frameCount, b, scratch, pull) == MixBuses(k, frameCount, b, scratch, pull)
    decreases n - k
  {
    if k < n {
      FailureStops(k, n - 1, frameCount, b, scratch, pull);
    }
  }

  /** Sample `[c][i]` summed over the first `n` of `outs`. */
  function SumAt(outs: seq<Buf>, n: nat, c: nat, i: nat): real
    requires n <= |outs|
    requires forall k :: 0 <= k < n ==> c < |outs[k]| && i < |outs[k][c]|
  {
    if n == 0 then 0.0 else SumAt(outs, n - 1, c, i) + outs[n - 1][c][i]
  }

  /** With buses that succeed and produce `outs` whatever buffer they are
      given, the mixer output over the cycle is the sum of the buses. */
  lemma {:induction false} MixSumsBuses(n: nat, frameCount: nat, b: Buf, scratch: Buf, pull: (nat, Buf) -> GraphNode.Rendered, outs: seq<Buf>)
    requires n <= |outs| && n >= 1
    requires forall k, x :: 0 <= k < n ==> pull(k, x) == GraphNode.Rendered(NO_ERR, outs[k])
    requires forall k :: 0 <= k < n ==> |outs[k]| == |b|
    requires forall k, c :: 0 <= k < n && 0 <= c < |b| ==> |outs[k][c]| == |b[c]|
    ensures var m := MixBuses(n, frameCount, b, scratch, pull);
      m.status == NO_ERR && SameShape(b, m.out) &&
      forall c, i :: 0 <= c < |b| && 0 <= i < |b[c]| && i < frameCount ==> m.out[c][i] == SumAt(outs, n, c, i)
    decreases n
  {
    var m := MixBuses(n, frameCount, b, scratch, pull);
    if n == 1 {
      assert pull(0, b) == GraphNode.Rendered(NO_ERR, outs[0]);
    } else {
      MixSumsBuses(n - 1, frameCount, b, scratch, pull, outs);
      var prev := MixBuses(n - 1, frameCount, b, scratch, pull);
      assert pull(n - 1, prev.scratch) == GraphNode.Rendered(NO_ERR, outs[n - 1]);
      assert m.out == Added(prev.out, outs[n - 1], frameCount);
    }
  }
}
