/** The generic audio node of the package target: a pending configuration
    that the user edits, a render configuration copied from it once per
    cycle, and the per-cycle rules for enable and disable ramps, bypass,
    input pull, the mute overlay and monitor notification.

    Neighbouring nodes are named by `NodeId`; what the node asks of them
    (pull, reset, monitor, format update) is returned as a list of `Call`s
    in the order it is made, and what an input or the node's own `_render`
    does to the buffer is a function parameter. */
module GraphNode {
  import opened Buffers
  import Utilities

  type NodeId = nat

  /** A non-negative sample rate. */
  type SampleRate = r: real | 0.0 <= r

  /** The stream format shared by a chain of nodes. */
  datatype StreamFormat = StreamFormat(sampleRate: SampleRate, bufferFrameSize: nat, isStereo: bool)
  {
    /** About 10 ms of audio, but never more than one buffer. */
    function TransitionFrames(): (n: nat)
      ensures n <= bufferFrameSize && n <= sampleRate.Floor / 100
      ensures n == bufferFrameSize || n == sampleRate.Floor / 100
    {
      Min(bufferFrameSize, sampleRate.Floor / 100)
    }
  }

  /** The default format: 48 kHz stereo with 512-frame buffers. */
  const DEFAULT_FORMAT := StreamFormat(48000.0, 512, true)

  /** At the default format a transition lasts 480 frames (10 ms). */
  lemma DefaultTransitionFrames()
    ensures DEFAULT_FORMAT.TransitionFrames() == 480
  {
    assert (48000.0 as real).Floor == 48000;
  }

  /** The node configuration; `input` and `monitor` name the neighbours. */
  datatype Config = Config(
    format: Option<StreamFormat>,
    monitor: Option<NodeId>,
    input: Option<NodeId>,
    enabled: bool,
    muted: bool,
    bypass: bool)

  /** A configuration with nothing connected, not muted and not bypassing. */
  function InitialConfig(enabled: bool): Config {
    Config(None, None, None, enabled, false, false)
  }

  /** The fade length of a cycle: the format's transition, or 0 while the
      format is unknown. */
  function FadeFrames(format: Option<StreamFormat>): nat {
    match format
    case None => 0
    case Some(f) => f.TransitionFrames()
  }

  /** What the node asks of a neighbour, or of its own `_render`. */
  datatype Call =
    | PullInput(node: NodeId)
    | RenderSelf
    | ResetInput(node: NodeId)
    | MonitorRender(node: NodeId, samples: Buf)
    | PushFormat(node: NodeId, format: StreamFormat)

  /** The status and buffer contents a renderer leaves behind. */
  datatype Rendered = Rendered(status: int, samples: Buf)

  /** A renderer only writes into the buffer it is given. */
  ghost predicate KeepsShape(f: Buf -> Rendered) {
    forall b :: SameShape(b, f(b).samples)
  }

  /** The status, buffer and calls of (part of) a cycle, and the resulting
      mute flag. */
  datatype Pass = Pass(status: int, samples: Buf, calls: seq<Call>, prevMuted: bool)

  /** The monitor is called iff some call in `calls` is a monitor call. */
  predicate MonitorCalled(calls: seq<Call>) {
    exists i :: 0 <= i < |calls| && calls[i].MonitorRender?
  }

  /** Steps 5 and 6: pull the input if there is one and, if that succeeded,
      run `_render` unless bypassing; bypassing without input is silence. */
  function Generated(cfg: Config, frameCount: nat, b: Buf, input: Buf -> Rendered, render: Buf -> Rendered): Pass
  {
    var pulled := match cfg.input
      case Some(n) => Pass(input(b).status, input(b).samples, [PullInput(n)], false)
      case None => Pass(NO_ERR, b, [], false);
    if pulled.status != NO_ERR then pulled
    else if !cfg.bypass then
      Pass(render(pulled.samples).status, render(pulled.samples).samples, pulled.calls + [RenderSelf], false)
    else if cfg.input.None? then
      pulled.(samples := Silenced(pulled.samples, frameCount, 0))
    else pulled
  }

  /** Steps 7 and 8: the mute overlay on top of the generated buffer `g`.
      The first muted cycle fades out (unless the enable ramp is running),
      later muted cycles are silent; the first unmuted cycle fades in
      (unless ramping). */
  function MuteOverlay(cfg: Config, prevMuted: bool, ramping: bool, frameCount: nat, g: Buf): (r: Pass)
    ensures r.status == NO_ERR && r.calls == [] && r.prevMuted == cfg.muted && SameShape(g, r.samples)
    ensures !cfg.muted && (!prevMuted || ramping) ==> r.samples == g
  {
    var fade := FadeFrames(cfg.format);
    if cfg.muted then
      if !prevMuted && !ramping then Pass(NO_ERR, Smoothed(g, true, frameCount, fade), [], true)
      else Pass(NO_ERR, Silenced(g, frameCount, 0), [], true)
    else if prevMuted && !ramping then Pass(NO_ERR, Smoothed(g, false, frameCount, fade), [], false)
    else Pass(NO_ERR, g, [], false)
  }

  /** The monitor call made for a status: only on success and only with a
      monitor attached. */
  function MonitorCalls(cfg: Config, status: int, samples: Buf): (calls: seq<Call>)
    ensures MonitorCalled(calls) <==> status == NO_ERR && cfg.monitor.Some?
  {
    if status == NO_ERR && cfg.monitor.Some? then
      var calls := [MonitorRender(cfg.monitor.value, samples)];
      assert calls[0].MonitorRender?;
      calls
    else []
  }

  /** `_internalRender2`: generate, apply the mute overlay, notify the monitor. */
  function Render2(cfg: Config, prevMuted: bool, ramping: bool, frameCount: nat, b: Buf,
                   input: Buf -> Rendered, render: Buf -> Rendered): (r: Pass)
    ensures r.prevMuted == cfg.muted
    ensures MonitorCalled(r.calls) <==> r.status == NO_ERR && cfg.monitor.Some?
  {
    var g := Generated(cfg, frameCount, b, input, render);
    var m := MuteOverlay(cfg, prevMuted, ramping, frameCount, g.samples);
    var monitorCalls := MonitorCalls(cfg, g.status, m.samples);
    assert forall i :: 0 <= i < |g.calls| ==> !g.calls[i].MonitorRender?;
    MonitorCalledAfter(g.calls, monitorCalls);
    Pass(g.status, m.samples, g.calls + monitorCalls, m.prevMuted)
  }

  /** All the fields of a node. */
  datatype NodeState = NodeState(pending: Config, active: Config, prevEnabled: bool, prevMuted: bool)

  /** The outcome of one render cycle. */
  datatype Cycle = Cycle(status: int, samples: Buf, calls: seq<Call>, state: NodeState)

  /** The reset request sent up the chain when a node resets. */
  function ResetCalls(cfg: Config): seq<Call> {
    if cfg.input.Some? then [ResetInput(cfg.input.value)] else []
  }

  /** `_internalRender`: snapshot the pending configuration, then ramp out on
      the disable edge, stay silent while disabled, ramp in on the enable
      edge, or render normally. */
  function RenderCycle(s: NodeState, frameCount: nat, b: Buf, input: Buf -> Rendered, render: Buf -> Rendered): (c: Cycle)
    ensures c.state.pending == s.pending && c.state.active == s.pending && c.state.prevEnabled == s.pending.enabled
    ensures !s.pending.enabled && !s.prevEnabled ==> c.status == NO_ERR && c.calls == []
  {
    var cfg := s.pending;
    var fade := FadeFrames(cfg.format);
    if !cfg.enabled then
      if s.prevEnabled then
        var p := Render2(cfg, cfg.muted, true, frameCount, b, input, render);
        Cycle(p.status, if p.status == NO_ERR then Smoothed(p.samples, true, frameCount, fade) else p.samples,
              ResetCalls(cfg) + p.calls, NodeState(s.pending, cfg, false, p.prevMuted))
      else
        Cycle(NO_ERR, Silenced(b, frameCount, 0), [], s.(active := cfg))
    else if !s.prevEnabled then
      var p := Render2(cfg, s.prevMuted, true, frameCount, b, input, render);
      Cycle(p.status, if p.status == NO_ERR then Smoothed(p.samples, false, frameCount, fade) else p.samples,
            p.calls, NodeState(s.pending, cfg, true, p.prevMuted))
    else
      var p := Render2(cfg, s.prevMuted, false, frameCount, b, input, render);
      Cycle(p.status, p.samples, p.calls, NodeState(s.pending, cfg, true, p.prevMuted))
  }

  /** `updateFormat$`: a different format is passed on to the input and the
      monitor and then stored; the same format changes nothing. */
  function FormatUpdate(pending: Config, format: StreamFormat): (r: (Config, seq<Call>))
    ensures r.0.format == Some(format)
    ensures r.0 == pending.(format := Some(format))
    ensures pending.format == Some(format) ==> r.1 == []
  {
    if Some(format) != pending.format then
      (pending.(format := Some(format)),
       (if pending.input.Some? then [PushFormat(pending.input.value, format)] else []) +
       (if pending.monitor.Some? then [PushFormat(pending.monitor.value, format)] else []))
    else (pending, [])
  }

  class Node {
    var pending: Config
    var active: Config
    var prevEnabled: bool
    var prevMuted: bool

    function State(): NodeState
      reads this
    {
      NodeState(pending, active, prevEnabled, prevMuted)
    }

    /** Both configurations start with the given enabled flag and the
        previous flag agrees with it, so the first cycle has no edge. */
    constructor (isEnabled: bool)
      ensures State() == NodeState(InitialConfig(isEnabled), InitialConfig(isEnabled), isEnabled, false)
    {
      pending := InitialConfig(isEnabled);
      active := InitialConfig(isEnabled);
      prevEnabled := isEnabled;
      prevMuted := false;
    }

    method SetEnabled(value: bool)
      modifies this
      ensures State() == old(State()).(pending := old(pending).(enabled := value))
    {
      pending := pending.(enabled := value);
    }

    method SetMuted(value: bool)
      modifies this
      ensures State() == old(State()).(pending := old(pending).(muted := value))
    {
      pending := pending.(muted := value);
    }

    method SetBypassing(value: bool)
      modifies this
      ensures State() == old(State()).(pending := old(pending).(bypass := value))
    {
      pending := pending.(bypass := value);
    }

    /** `connect`: a known format is passed to the new input first. */
    method Connect(input: NodeId) returns (calls: seq<Call>)
      modifies this
      ensures State() == old(State()).(pending := old(pending).(input := Some(input)))
      ensures calls == if old(pending).format.Some? then [PushFormat(input, old(pending).format.value)] else []
    {
      calls := [];
      if pending.format.Some? {
        calls := [PushFormat(input, pending.format.value)];
      }
      pending := pending.(input := Some(input));
    }

    method Disconnect()
      modifies this
      ensures State() == old(State()).(pending := old(pending).(input := None))
    {
      pending := pending.(input := None);
    }

    /** `connectMonitor`: a known format is passed to the monitor first. */
    method ConnectMonitor(monitor: NodeId) returns (calls: seq<Call>)
      modifies this
      ensures State() == old(State()).(pending := old(pending).(monitor := Some(monitor)))
      ensures calls == if old(pending).format.Some? then [PushFormat(monitor, old(pending).format.value)] else []
    {
      calls := [];
      if pending.format.Some? {
        calls := [PushFormat(monitor, pending.format.value)];
      }
      pending := pending.(monitor := Some(monitor));
    }

    method DisconnectMonitor()
      modifies this
      ensures State() == old(State()).(pending := old(pending).(monitor := None))
    {
      pending := pending.(monitor := None);
    }

    /** `updateFormat$`. */
    method UpdateFormat(format: StreamFormat) returns (calls: seq<Call>)
      modifies this
      ensures (pending, calls) == FormatUpdate(old(pending), format)
      ensures active == old(active) && prevEnabled == old(prevEnabled) && prevMuted == old(prevMuted)
    {
      calls := [];
      if Some(format) != pending.format {
        var toInput := if pending.input.Some? then [PushFormat(pending.input.value, format)] else [];
        var toMonitor := if pending.monitor.Some? then [PushFormat(pending.monitor.value, format)] else [];
        calls := toInput + toMonitor;
        pending := pending.(format := Some(format));
      }
    }

    /** `_willRender$`: the render configuration becomes the pending one. */
    method WillRender()
      modifies this
      ensures State() == old(State()).(active := old(pending))
    {
      active := pending;
    }

    /** `_reset`: the previous flags take the render configuration's values,
        so no edge is seen next cycle, and the input is reset too. */
    method Reset() returns (calls: seq<Call>)
      modifies this
      ensures State() == old(State()).(prevEnabled := old(active).enabled, prevMuted := old(active).muted)
      ensures calls == ResetCalls(active)
    {
      prevEnabled := active.enabled;
      prevMuted := active.muted;
      calls := if active.input.Some? then [ResetInput(active.input.value)] else [];
    }

    /** `_internalMonitor`. */
    method InternalMonitor(status: int, buffers: BufferList) returns (result: int, calls: seq<Call>)
      ensures result == status && calls == MonitorCalls(active, status, buffers.Frames())
    {
      result := status;
      calls := [];
      if status == NO_ERR && active.monitor.Some? {
        calls := [MonitorRender(active.monitor.value, buffers.Frames())];
      }
    }

    /** Steps 5 and 6 of `_internalRender2`. */
    method Generate(frameCount: nat, buffers: BufferList, input: Buf -> Rendered, render: Buf -> Rendered)
      returns (status: int, calls: seq<Call>)
      requires frameCount <= buffers.Capacity() && KeepsShape(input) && KeepsShape(render)
      modifies buffers.samples
      ensures var g := Generated(active, frameCount, old(buffers.Frames()), input, render);
        status == g.status && calls == g.calls && buffers.Frames() == g.samples
    {
      status := NO_ERR;
      calls := [];
      if active.input.Some? {
        var r := input(buffers.Frames());
        buffers.Assign(r.samples);
        status := r.status;
        calls := [PullInput(active.input.value)];
      }
      if status == NO_ERR {
        if !active.bypass {
          var r := render(buffers.Frames());
          buffers.Assign(r.samples);
          status := r.status;
          calls := calls + [RenderSelf];
        } else if active.input.None? {
          var _ := Utilities.FillSilence(frameCount, buffers, 0);
        }
      }
    }

    /** `_internalRender2`. */
    method InternalRender2(ramping: bool, frameCount: nat, buffers: BufferList, input: Buf -> Rendered, render: Buf -> Rendered)
      returns (status: int, calls: seq<Call>)
      requires frameCount <= buffers.Capacity() && KeepsShape(input) && KeepsShape(render)
      modifies this, buffers.samples
      ensures var p := Render2(old(active), old(prevMuted), ramping, frameCount, old(buffers.Frames()), input, render);
        status == p.status && calls == p.calls && buffers.Frames() == p.samples &&
        State() == old(State()).(prevMuted := p.prevMuted)
    {
      ghost var g := Generated(active, frameCount, buffers.Frames(), input, render);
      var generated;
      status, generated := Generate(frameCount, buffers, input, render);
      ghost var m := MuteOverlay(active, prevMuted, ramping, frameCount, g.samples);
      var fade := FadeFrames(active.format);
      var monitorCalls;
      if active.muted {
        if !prevMuted {
          prevMuted := true;
          if !ramping {
            var _ := Utilities.Smooth(true, frameCount, fade, buffers);
            status, monitorCalls := InternalMonitor(status, buffers);
            calls := generated + monitorCalls;
            return;
          }
        }
        var _ := Utilities.FillSilence(frameCount, buffers, 0);
        status, monitorCalls := InternalMonitor(status, buffers);
        calls := generated + monitorCalls;
        return;
      }
      if prevMuted {
        prevMuted := false;
        if !ramping {
          var _ := Utilities.Smooth(false, frameCount, fade, buffers);
        }
      }
      status, monitorCalls := InternalMonitor(status, buffers);
      calls := generated + monitorCalls;
    }

    /** `_internalRender`: one render cycle. */
    method InternalRender(frameCount: nat, buffers: BufferList, input: Buf -> Rendered, render: Buf -> Rendered)
      returns (status: int, calls: seq<Call>)
      requires frameCount <= buffers.Capacity() && KeepsShape(input) && KeepsShape(render)
      modifies this, buffers.samples
      ensures var r := RenderCycle(old(State()), frameCount, old(buffers.Frames()), input, render);
        status == r.status && calls == r.calls && buffers.Frames() == r.samples && State() == r.state
    {
      WillRender();
      var fade := FadeFrames(active.format);
      if !active.enabled {
        if prevEnabled {
          prevEnabled := false;
          var resetCalls := Reset();
          var renderCalls;
          status, renderCalls := InternalRender2(true, frameCount, buffers, input, render);
          if status == NO_ERR {
            var _ := Utilities.Smooth(true, frameCount, fade, buffers);
          }
          calls := resetCalls + renderCalls;
          return;
        }
        status := Utilities.FillSilence(frameCount, buffers, 0);
        calls := [];
        return;
      }
      if !prevEnabled {
        prevEnabled := true;
        status, calls := InternalRender2(true, frameCount, buffers, input, render);
        if status == NO_ERR {
          var _ := Utilities.Smooth(false, frameCount, fade, buffers);
        }
        return;
      }
      status, calls := InternalRender2(false, frameCount, buffers, input, render);
    }
  }

  /** What the environment supplies for one cycle. */
  datatype CycleInput = CycleInput(frameCount: nat, samples: Buf, input: Buf -> Rendered, render: Buf -> Rendered)

  /** Consecutive render cycles with no configuration change in between. */
  function Run(s: NodeState, cs: seq<CycleInput>): (rs: seq<Cycle>)
    ensures |rs| == |cs|
    decreases |cs|
  {
    if cs == [] then []
    else
      var r := RenderCycle(s, cs[0].frameCount, cs[0].samples, cs[0].input, cs[0].render);
      [r] + Run(r.state, cs[1..])
  }

  /** Each cycle copies the pending configuration into the render one, and
      nothing it does depends on the render configuration it found. */
  lemma CycleSnapshotsPending(s: NodeState, a: Config, frameCount: nat, b: Buf, input: Buf -> Rendered, render: Buf -> Rendered)
    ensures var r := RenderCycle(s, frameCount, b, input, render);
      r.state.active == s.pending && r.state.pending == s.pending &&
      r == RenderCycle(s.(active := a), frameCount, b, input, render)
  {
  }

  /** A fresh node's first cycle has no edge: disabled it is silent and
      calls nothing, enabled it renders without any fade. */
  lemma FirstCycleHasNoEdge(isEnabled: bool, frameCount: nat, b: Buf, input: Buf -> Rendered, render: Buf -> Rendered)
    ensures var s := NodeState(InitialConfig(isEnabled), InitialConfig(isEnabled), isEnabled, false);
      var r := RenderCycle(s, frameCount, b, input, render);
      r.state.prevEnabled == isEnabled && !r.state.prevMuted &&
      (!isEnabled ==> r.status == NO_ERR && r.calls == [] && r.samples == Silenced(b, frameCount, 0)) &&
      (isEnabled ==> r.status == render(b).status && r.samples == render(b).samples && r.calls == [RenderSelf])
  {
  }

  /** The disable edge: the previous flags are reset from the render
      configuration (so no mute edge is taken), the input is reset before it
      is pulled, and on success the generated buffer is faded out. */
  lemma DisableEdgeRampsOut(s: NodeState, frameCount: nat, b: Buf, input: Buf -> Rendered, render: Buf -> Rendered)
    requires !s.pending.enabled && s.prevEnabled
    ensures var r := RenderCycle(s, frameCount, b, input, render);
      var g := Generated(s.pending, frameCount, b, input, render);
      var fade := FadeFrames(s.pending.format);
      !r.state.prevEnabled && r.state.prevMuted == s.pending.muted &&
      r.status == g.status &&
      r.calls[..|ResetCalls(s.pending)|] == ResetCalls(s.pending) &&
      (s.pending.input.Some? ==> r.calls[0] == ResetInput(s.pending.input.value)) &&
      (g.status == NO_ERR && !s.pending.muted ==> r.samples == Smoothed(g.samples, true, frameCount, fade)) &&
      (g.status == NO_ERR && s.pending.muted ==>
        r.samples == Smoothed(Silenced(g.samples, frameCount, 0), true, frameCount, fade))
  {
  }

  /** A disabled node whose ramp-out is done renders silence and asks
      nothing of its neighbours. */
  lemma DisabledIsSilent(s: NodeState, frameCount: nat, b: Buf, input: Buf -> Rendered, render: Buf -> Rendered)
    requires !s.pending.enabled && !s.prevEnabled
    ensures var r := RenderCycle(s, frameCount, b, input, render);
      r.status == NO_ERR && r.calls == [] && r.samples == Silenced(b, frameCount, 0) &&
      r.state == s.(active := s.pending)
  {
  }

  /** Disabling takes effect as exactly one ramp-out cycle (when the node
      was enabled) followed by silent cycles that pull nothing. */
  lemma {:induction false} DisabledRun(s: NodeState, cs: seq<CycleInput>)
    requires !s.pending.enabled
    ensures var rs := Run(s, cs);
      forall k :: 0 <= k < |cs| ==> !rs[k].state.prevEnabled && rs[k].state.pending == s.pending
    ensures var rs := Run(s, cs);
      forall k :: 0 <= k < |cs| && (k > 0 || !s.prevEnabled) ==>
        rs[k].calls == [] && rs[k].samples == Silenced(cs[k].samples, cs[k].frameCount, 0)
    decreases |cs|
  {
    if cs != [] {
      var r := RenderCycle(s, cs[0].frameCount, cs[0].samples, cs[0].input, cs[0].render);
      DisabledRun(r.state, cs[1..]);
      var rs := Run(s, cs);
      assert rs == [r] + Run(r.state, cs[1..]);
      forall k | 0 < k < |cs|
        ensures !rs[k].state.prevEnabled && rs[k].state.pending == s.pending
        ensures rs[k].calls == [] && rs[k].samples == Silenced(cs[k].samples, cs[k].frameCount, 0)
      {
        assert rs[k] == Run(r.state, cs[1..])[k - 1];
        assert cs[k] == cs[1..][k - 1];
      }
    }
  }

  /** The enable edge: the node renders with `ramping` set and, on success,
      fades the result in. */
  lemma EnableEdgeRampsIn(s: NodeState, frameCount: nat, b: Buf, input: Buf -> Rendered, render: Buf -> Rendered)
    requires s.pending.enabled && !s.prevEnabled
    ensures var r := RenderCycle(s, frameCount, b, input, render);
      var p := Render2(s.pending, s.prevMuted, true, frameCount, b, input, render);
      r.state.prevEnabled && r.status == p.status && r.calls == p.calls &&
      (p.status == NO_ERR ==> r.samples == Smoothed(p.samples, false, frameCount, FadeFrames(s.pending.format))) &&
      (p.status != NO_ERR ==> r.samples == p.samples)
  {
  }

  /** `_render` runs iff the node is not bypassing and the input, if any,
      succeeded; a bypassing node without input produces silence, and one
      with input passes the input through. */
  lemma RenderIffNotBypassing(cfg: Config, frameCount: nat, b: Buf, input: Buf -> Rendered, render: Buf -> Rendered)
    ensures var g := Generated(cfg, frameCount, b, input, render);
      (RenderSelf in g.calls <==> !cfg.bypass && (cfg.input.None? || input(b).status == NO_ERR)) &&
      (cfg.bypass && cfg.input.None? ==> g.status == NO_ERR && g.calls == [] && g.samples == Silenced(b, frameCount, 0)) &&
      (cfg.bypass && cfg.input.Some? ==> g.status == input(b).status && g.samples == input(b).samples)
  {
    var g := Generated(cfg, frameCount, b, input, render);
    if cfg.input.Some? && input(b).status != NO_ERR {
      assert g.calls == [PullInput(cfg.input.value)];
    }
  }

  /** One cycle of a muted enabled node: fade out on the mute edge, silence
      after it, with the flags recorded. */
  lemma MutedCycle(s: NodeState, c: CycleInput)
    requires s.pending.enabled && s.prevEnabled && s.pending.muted
    ensures var r := RenderCycle(s, c.frameCount, c.samples, c.input, c.render);
      var g := Generated(s.pending, c.frameCount, c.samples, c.input, c.render);
      r.state.prevEnabled && r.state.prevMuted && r.state.pending == s.pending &&
      r.samples == if !s.prevMuted then Smoothed(g.samples, true, c.frameCount, FadeFrames(s.pending.format))
        else Silenced(g.samples, c.frameCount, 0)
  {
  }

  /** Muting an enabled node (outside any enable ramp) fades out once and
      then keeps the output silent while the node keeps running. */
  lemma {:induction false} MutedRun(s: NodeState, cs: seq<CycleInput>)
    requires s.pending.enabled && s.prevEnabled && s.pending.muted
    ensures var rs := Run(s, cs);
      forall k :: 0 <= k < |cs| ==> rs[k].state.prevEnabled && rs[k].state.prevMuted && rs[k].state.pending == s.pending
    ensures var rs := Run(s, cs);
      forall k :: 0 <= k < |cs| ==>
        var g := Generated(s.pending, cs[k].frameCount, cs[k].samples, cs[k].input, cs[k].render);
        rs[k].samples == if k == 0 && !s.prevMuted
          then Smoothed(g.samples, true, cs[k].frameCount, FadeFrames(s.pending.format))
          else Silenced(g.samples, cs[k].frameCount, 0)
    decreases |cs|
  {
    if cs != [] {
      var r := RenderCycle(s, cs[0].frameCount, cs[0].samples, cs[0].input, cs[0].render);
      MutedCycle(s, cs[0]);
      MutedRun(r.state, cs[1..]);
      var rs := Run(s, cs);
      assert rs == [r] + Run(r.state, cs[1..]);
      forall k | 0 < k < |cs|
        ensures rs[k].state.prevEnabled && rs[k].state.prevMuted && rs[k].state.pending == s.pending
        ensures var g := Generated(s.pending, cs[k].frameCount, cs[k].samples, cs[k].input, cs[k].render);
          rs[k].samples == Silenced(g.samples, cs[k].frameCount, 0)
      {
        assert rs[k] == Run(r.state, cs[1..])[k - 1];
        assert cs[k] == cs[1..][k - 1];
      }
    }
  }

  /** The first unmuted cycle of a running node fades in, unless the enable
      ramp is already fading in that cycle. */
  lemma UnmuteEdgeRampsIn(cfg: Config, ramping: bool, frameCount: nat, g: Buf)
    requires !cfg.muted
    ensures var m := MuteOverlay(cfg, true, ramping, frameCount, g);
      !m.prevMuted && m.samples == if ramping then g else Smoothed(g, false, frameCount, FadeFrames(cfg.format))
  {
  }

  /** The monitor is notified iff the cycle rendered successfully with a
      monitor attached, and it sees the buffer before any enable or disable
      fade is applied. */
  lemma MonitorOnlyOnSuccess(s: NodeState, frameCount: nat, b: Buf, input: Buf -> Rendered, render: Buf -> Rendered)
    ensures var r := RenderCycle(s, frameCount, b, input, render);
      MonitorCalled(r.calls) <==>
        (s.pending.enabled || s.prevEnabled) && r.status == NO_ERR && s.pending.monitor.Some?
  {
    var r := RenderCycle(s, frameCount, b, input, render);
    var cfg := s.pending;
    if cfg.enabled || s.prevEnabled {
      var prevMuted := if !cfg.enabled then cfg.muted else s.prevMuted;
      var ramping := !cfg.enabled || !s.prevEnabled;
      var g := Generated(cfg, frameCount, b, input, render);
      var p := Render2(cfg, prevMuted, ramping, frameCount, b, input, render);
      var m := MonitorCalls(cfg, g.status, p.samples);
      var pre := if !cfg.enabled then ResetCalls(cfg) + g.calls else g.calls;
      assert r.calls == pre + m && r.status == g.status;
      assert forall i :: 0 <= i < |pre| ==> !pre[i].MonitorRender?;
      MonitorCalledAfter(pre, m);
    }
  }

  /** Calls that hold no monitor call do not change whether one is made. */
  lemma MonitorCalledAfter(pre: seq<Call>, m: seq<Call>)
    requires forall i :: 0 <= i < |pre| ==> !pre[i].MonitorRender?
    ensures MonitorCalled(pre + m) <==> MonitorCalled(m)
  {
    if MonitorCalled(pre + m) {
      var i :| 0 <= i < |pre + m| && (pre + m)[i].MonitorRender?;
      assert m[i - |pre|] == (pre + m)[i];
    }
    if MonitorCalled(m) {
      var i :| 0 <= i < |m| && m[i].MonitorRender?;
      assert (pre + m)[|pre| + i] == m[i];
    }
  }

  /** Passing the same format twice is the same as passing it once. */
  lemma UpdateFormatIdempotent(pending: Config, format: StreamFormat)
    ensures var once := FormatUpdate(pending, format);
      FormatUpdate(once.0, format) == (once.0, [])
  {
  }

  /** A format that differs from the pending one is pushed to the input,
      first, and to the monitor, and to nothing else. */
  lemma FormatPushedWhenChanged(pending: Config, format: StreamFormat)
    requires Some(format) != pending.format
    ensures var r := FormatUpdate(pending, format);
      (forall c :: c in r.1 <==>
        (pending.input.Some? && c == PushFormat(pending.input.value, format)) ||
        (pending.monitor.Some? && c == PushFormat(pending.monitor.value, format))) &&
      (pending.input.Some? ==> r.1[0] == PushFormat(pending.input.value, format)) &&
      (pending.monitor.Some? ==> r.1[|r.1| - 1] == PushFormat(pending.monitor.value, format))
  {
  }
}
