/** The node of the earlier iteration (the root-level `Node.swift`). It has
    the same enable, disable and mute rules as the newer node but no input
    pull (`_render` always runs), resets its monitor as well as its input,
    and keeps an `isConnected` flag: a node accepts one incoming connection
    at a time, and the stream format is forgotten once a node has neither
    input nor monitor.

    `connect` and `disconnect` act on the neighbour object itself; what a
    node in turn asks of its own neighbours is returned as `Call`s. */
module LegacyNode {
  import opened Buffers
  import Utilities

  type SampleRate = r: real | 0.0 <= r

  datatype StreamFormat = StreamFormat(sampleRate: SampleRate, bufferFrameSize: nat, isStereo: bool)
  {
    /** About 10 ms of audio, but never more than one buffer. */
    function TransitionSamples(): (n: nat)
      ensures n <= bufferFrameSize && n <= sampleRate.Floor / 100
      ensures n == bufferFrameSize || n == sampleRate.Floor / 100
    {
      Min(bufferFrameSize, sampleRate.Floor / 100)
    }
  }

  datatype Config = Config(format: Option<StreamFormat>, monitor: Option<Node>, input: Option<Node>, enabled: bool, muted: bool)

  /** The default configuration: nothing connected, enabled, not muted. */
  const INITIAL_CONFIG: Config := Config(None, None, None, true, false)

  /** The fade length of a cycle: the format's transition, or 0 while the
      format is unknown. */
  function FadeSamples(format: Option<StreamFormat>): nat {
    if format.Some? then format.value.TransitionSamples() else 0
  }

  /** What a node asks of a neighbour, or of its own `_render`. */
  datatype Call =
    | RenderSelf
    | ResetNode(node: Node)
    | MonitorRender(node: Node, samples: Buf)
    | PushFormat(node: Node, format: StreamFormat)

  datatype Rendered = Rendered(status: int, samples: Buf)

  ghost predicate KeepsShape(f: Buf -> Rendered) {
    forall b :: SameShape(b, f(b).samples)
  }

  datatype Pass = Pass(status: int, samples: Buf, calls: seq<Call>, prevMuted: bool)

  /** `_internalRender2`: `_render`, then the mute overlay (a fade-out on the
      mute edge and a fade-in on the unmute edge unless ramping, silence
      while muted), then the monitor on success. */
  function Render2(cfg: Config, prevMuted: bool, ramping: bool, frameCount: nat, b: Buf, render: Buf -> Rendered): (p: Pass)
    ensures p.status == render(b).status && p.prevMuted == cfg.muted && |p.calls| > 0 && p.calls[0] == RenderSelf
    ensures |p.calls| == if p.status == NO_ERR && cfg.monitor.Some? then 2 else 1
  {
    var status := render(b).status;
    var g := render(b).samples;
    var fade := FadeSamples(cfg.format);
    var out :=
      if cfg.muted && !prevMuted && !ramping then Smoothed(g, true, frameCount, fade)
      else if cfg.muted then Silenced(g, frameCount, 0)
      else if prevMuted && !ramping then Smoothed(g, false, frameCount, fade)
      else g;
    var monitorCalls := if status == NO_ERR && cfg.monitor.Some? then [MonitorRender(cfg.monitor.value, out)] else [];
    Pass(status, out, [RenderSelf] + monitorCalls, cfg.muted)
  }

  datatype NodeState = NodeState(pending: Config, active: Config, prevEnabled: bool, prevMuted: bool, isConnected: bool)

  datatype Cycle = Cycle(status: int, samples: Buf, calls: seq<Call>, state: NodeState)

  /** `_reset` asks both the input and the monitor to reset. */
  function ResetCalls(cfg: Config): seq<Call> {
    (if cfg.input.Some? then [ResetNode(cfg.input.value)] else []) +
    (if cfg.monitor.Some? then [ResetNode(cfg.monitor.value)] else [])
  }

  /** `_internalRender`. */
  function RenderCycle(s: NodeState, frameCount: nat, b: Buf, render: Buf -> Rendered): (c: Cycle)
    ensures c.state.pending == s.pending && c.state.active == s.pending && c.state.isConnected == s.isConnected
    ensures c.state.prevEnabled == s.pending.enabled
    ensures !s.pending.enabled && !s.prevEnabled ==> c.status == NO_ERR && c.calls == []
  {
    var cfg := s.pending;
    var fade := FadeSamples(cfg.format);
    if !cfg.enabled then
      if s.prevEnabled then
        var p := Render2(cfg, cfg.muted, true, frameCount, b, render);
        Cycle(p.status, if p.status == NO_ERR then Smoothed(p.samples, true, frameCount, fade) else p.samples,
              ResetCalls(cfg) + p.calls, s.(active := cfg, prevEnabled := false, prevMuted := p.prevMuted))
      else
        Cycle(NO_ERR, Silenced(b, frameCount, 0), [], s.(active := cfg))
    else
      var p := Render2(cfg, s.prevMuted, !s.prevEnabled, frameCount, b, render);
      Cycle(p.status, if !s.prevEnabled && p.status == NO_ERR then Smoothed(p.samples, false, frameCount, fade) else p.samples,
            p.calls, s.(active := cfg, prevEnabled := true, prevMuted := p.prevMuted))
  }

  /** The format step of `willConnectSafe`: a known format different from
      the stored one is pushed to the input and the monitor and stored; an
      unknown or equal format changes nothing. */
  function FormatOnConnect(pending: Config, format: Option<StreamFormat>): (r: (Config, seq<Call>))
    ensures format.None? || format == pending.format ==> r == (pending, [])
    ensures format.Some? ==> r.0 == pending.(format := format)
  {
    if format.Some? && format != pending.format then
      (pending.(format := format),
       (if pending.input.Some? then [PushFormat(pending.input.value, format.value)] else []) +
       (if pending.monitor.Some? then [PushFormat(pending.monitor.value, format.value)] else []))
    else (pending, [])
  }

  /** The format step of `didDisconnectSafe`: a node with neither input nor
      monitor forgets the format. */
  function FormatOnDisconnect(pending: Config): (c: Config)
    ensures c.format.None? <==> pending.format.None? || (pending.monitor.None? && pending.input.None?)
    ensures c == pending.(format := c.format)
  {
    if pending.monitor.None? && pending.input.None? then pending.(format := None) else pending
  }

  class Node {
    var pending: Config
    var active: Config
    var prevEnabled: bool
    var prevMuted: bool
    var isConnected: bool

    function State(): NodeState
      reads this
    {
      NodeState(pending, active, prevEnabled, prevMuted, isConnected)
    }

    constructor ()
      ensures State() == NodeState(INITIAL_CONFIG, INITIAL_CONFIG, true, false, false)
    {
      pending := INITIAL_CONFIG;
      active := INITIAL_CONFIG;
      prevEnabled := true;
      prevMuted := false;
      isConnected := false;
    }

    method SetEnabled(value: bool)
      modifies this
      ensures State() == old(State()).(pending := old(pending).(enabled := value))
    {
      pending := pending.(enabled := value);
    }

    method SetMuted(value: bool)
      modifies this
      ensures State() == old(State()).(pending := old(pending).(muted := value))
    {
      pending := pending.(muted := value);
    }

    /** `willConnectSafe`: a node may take only one incoming connection; it
        adopts a known new format and is then connected. */
    method WillConnect(format: Option<StreamFormat>) returns (calls: seq<Call>)
      requires !isConnected
      modifies this
      ensures isConnected
      ensures (pending, calls) == FormatOnConnect(old(pending), format)
      ensures active == old(active) && prevEnabled == old(prevEnabled) && prevMuted == old(prevMuted)
    {
      calls := [];
      if format.Some? && format != pending.format {
        var toInput := if pending.input.Some? then [PushFormat(pending.input.value, format.value)] else [];
        var toMonitor := if pending.monitor.Some? then [PushFormat(pending.monitor.value, format.value)] else [];
        calls := toInput + toMonitor;
        pending := pending.(format := format);
      }
      isConnected := true;
    }

    /** `didDisconnectSafe`: only a connected node can be disconnected. */
    method DidDisconnect()
      requires isConnected
      modifies this
      ensures !isConnected
      ensures pending == FormatOnDisconnect(old(pending))
      ensures active == old(active) && prevEnabled == old(prevEnabled) && prevMuted == old(prevMuted)
    {
      isConnected := false;
      if pending.monitor.None? && pending.input.None? {
        pending := pending.(format := None);
      }
    }

    /** `updateFormatSafe`: a format pushed down the chain is taken as a
        disconnection followed by a reconnection with the new format. */
    method UpdateFormat(format: StreamFormat) returns (calls: seq<Call>)
      requires isConnected
      modifies this
      ensures isConnected && pending.format == Some(format)
      ensures (pending, calls) == FormatOnConnect(FormatOnDisconnect(old(pending)), Some(format))
      ensures active == old(active) && prevEnabled == old(prevEnabled) && prevMuted == old(prevMuted)
    {
      DidDisconnect();
      calls := WillConnect(Some(format));
    }

    /** `connect`: the input is marked connected (adopting this node's
        format) before it is stored. */
    method Connect(input: Node) returns (calls: seq<Call>)
      requires input != this && !input.isConnected
      modifies this, input
      ensures input.isConnected
      ensures (input.pending, calls) == FormatOnConnect(old(input.pending), old(pending).format)
      ensures input.State() == old(input.State()).(pending := input.pending, isConnected := true)
      ensures State() == old(State()).(pending := old(pending).(input := Some(input)))
    {
      calls := input.WillConnect(pending.format);
      pending := pending.(input := Some(input));
    }

    /** `disconnect`: the input is cleared, and the old input, if there was
        one, is marked disconnected. */
    method Disconnect()
      requires pending.input.Some? ==> pending.input.value != this && pending.input.value.isConnected
      modifies this, if pending.input.Some? then {pending.input.value} else {}
      ensures State() == old(State()).(pending := old(pending).(input := None))
      ensures old(pending).input.Some? ==>
        var old' := old(pending).input.value;
        !old'.isConnected && old'.pending == FormatOnDisconnect(old(old'.pending)) &&
        old'.State() == old(old'.State()).(pending := old'.pending, isConnected := false)
    {
      var input := pending.input;
      pending := pending.(input := None);
      if input.Some? {
        input.value.DidDisconnect();
      }
    }

    /** `connectMonitor`, the same protocol as `connect`. */
    method ConnectMonitor(monitor: Node) returns (calls: seq<Call>)
      requires monitor != this && !monitor.isConnected
      modifies this, monitor
      ensures monitor.isConnected
      ensures (monitor.pending, calls) == FormatOnConnect(old(monitor.pending), old(pending).format)
      ensures monitor.State() == old(monitor.State()).(pending := monitor.pending, isConnected := true)
      ensures State() == old(State()).(pending := old(pending).(monitor := Some(monitor)))
    {
      calls := monitor.WillConnect(pending.format);
      pending := pending.(monitor := Some(monitor));
    }

    /** `disconnectMonitor`, the same protocol as `disconnect`. */
    method DisconnectMonitor()
      requires pending.monitor.Some? ==> pending.monitor.value != this && pending.monitor.value.isConnected
      modifies this, if pending.monitor.Some? then {pending.monitor.value} else {}
      ensures State() == old(State()).(pending := old(pending).(monitor := None))
      ensures old(pending).monitor.Some? ==>
        var old' := old(pending).monitor.value;
        !old'.isConnected && old'.pending == FormatOnDisconnect(old(old'.pending)) &&
        old'.State() == old(old'.State()).(pending := old'.pending, isConnected := false)
    {
      var monitor := pending.monitor;
      pending := pending.(monitor := None);
      if monitor.Some? {
        monitor.value.DidDisconnect();
      }
    }

    /** `_willRenderSafe`. */
    method WillRender()
      modifies this
      ensures State() == old(State()).(active := old(pending))
    {
      active := pending;
    }

    /** `_reset`: previous flags from the render configuration; input and
        monitor are reset too. */
    method Reset() returns (calls: seq<Call>)
      modifies this
      ensures State() == old(State()).(prevEnabled := old(active).enabled, prevMuted := old(active).muted)
      ensures calls == ResetCalls(active)
    {
      prevEnabled := active.enabled;
      prevMuted := active.muted;
      var toInput := if active.input.Some? then [ResetNode(active.input.value)] else [];
      var toMonitor := if active.monitor.Some? then [ResetNode(active.monitor.value)] else [];
      calls := toInput + toMonitor;
    }

    /** `_internalRender2`. */
    method InternalRender2(ramping: bool, frameCount: nat, buffers: BufferList, render: Buf -> Rendered)
      returns (status: int, calls: seq<Call>)
      requires frameCount <= buffers.Capacity() && KeepsShape(render)
      modifies this, buffers.samples
      ensures var p := Render2(old(active), old(prevMuted), ramping, frameCount, old(buffers.Frames()), render);
        status == p.status && calls == p.calls && buffers.Frames() == p.samples &&
        State() == old(State()).(prevMuted := p.prevMuted)
    {
      var r := render(buffers.Frames());
      buffers.Assign(r.samples);
      status := r.status;
      var fade := FadeSamples(active.format);
      if active.muted {
        if !prevMuted {
          prevMuted := true;
          if !ramping {
            var _ := Utilities.Smooth(true, frameCount, fade, buffers);
          } else {
            var _ := Utilities.FillSilence(frameCount, buffers, 0);
          }
        } else {
          var _ := Utilities.FillSilence(frameCount, buffers, 0);
        }
      } else if prevMuted {
        prevMuted := false;
        if !ramping {
          var _ := Utilities.Smooth(false, frameCount, fade, buffers);
        }
      }
      calls := [RenderSelf];
      if status == NO_ERR && active.monitor.Some? {
        calls := calls + [MonitorRender(active.monitor.value, buffers.Frames())];
      }
    }

    /** `_internalRender`: one render cycle. */
    method InternalRender(frameCount: nat, buffers: BufferList, render: Buf -> Rendered)
      returns (status: int, calls: seq<Call>)
      requires frameCount <= buffers.Capacity() && KeepsShape(render)
      modifies this, buffers.samples
      ensures var r := RenderCycle(old(State()), frameCount, old(buffers.Frames()), render);
        status == r.status && calls == r.calls && buffers.Frames() == r.samples && State() == r.state
    {
      WillRender();
      var fade := FadeSamples(active.format);
      if !active.enabled {
        if prevEnabled {
          prevEnabled := false;
          var resetCalls := Reset();
          var renderCalls;
          status, renderCalls := InternalRender2(true, frameCount, buffers, render);
          if status == NO_ERR {
            var _ := Utilities.Smooth(true, frameCount, fade, buffers);
          }
          calls := resetCalls + renderCalls;
          return;
        }
        status := Utilities.FillSilence(frameCount, buffers, 0);
        calls := [];
        return;
      }
      if !prevEnabled {
        prevEnabled := true;
        status, calls := InternalRender2(true, frameCount, buffers, render);
        if status == NO_ERR {
          var _ := Utilities.Smooth(false, frameCount, fade, buffers);
        }
        return;
      }
      status, calls := InternalRender2(false, frameCount, buffers, render);
    }
  }

  /** A format pushed by `updateFormatSafe` is always stored, and pushed
      further up the chain only when it differs from the one kept. */
  lemma UpdateFormatStores(pending: Config, format: StreamFormat)
    ensures var r := FormatOnConnect(FormatOnDisconnect(pending), Some(format));
      r.0.format == Some(format) &&
      (pending.format == Some(format) ==> r.1 == []) &&
      (pending.format != Some(format) && pending.input.Some? ==> r.1[0] == PushFormat(pending.input.value, format)) &&
      (pending.format != Some(format) && pending.monitor.Some? ==> r.1[|r.1| - 1] == PushFormat(pending.monitor.value, format))
  {
  }

  /** A known format that differs from the stored one is pushed to the
      input, first, and to the monitor, and to nothing else. */
  lemma ConnectPushesFormat(pending: Config, format: StreamFormat)
    requires Some(format) != pending.format
    ensures var r := FormatOnConnect(pending, Some(format));
      (forall c :: c in r.1 <==>
        (pending.input.Some? && c == PushFormat(pending.input.value, format)) ||
        (pending.monitor.Some? && c == PushFormat(pending.monitor.value, format))) &&
      (pending.input.Some? ==> r.1[0] == PushFormat(pending.input.value, format)) &&
      (pending.monitor.Some? ==> r.1[|r.1| - 1] == PushFormat(pending.monitor.value, format))
  {
  }

  /** `_render` runs every cycle the node is not silent, with no input
      pull, and the monitor is notified only on success. */
  lemma RenderAlwaysCalled(s: NodeState, frameCount: nat, b: Buf, render: Buf -> Rendered)
    ensures var r := RenderCycle(s, frameCount, b, render);
      (s.pending.enabled || s.prevEnabled <==> RenderSelf in r.calls) &&
      (forall i :: 0 <= i < |r.calls| && r.calls[i].MonitorRender? ==> r.status == NO_ERR)
  {
    var r := RenderCycle(s, frameCount, b, render);
    var cfg := s.pending;
    if cfg.enabled || s.prevEnabled {
      var p := Render2(cfg, if cfg.enabled then s.prevMuted else cfg.muted, !cfg.enabled || !s.prevEnabled, frameCount, b, render);
      var pre := if cfg.enabled then [] else ResetCalls(cfg);
      assert r.calls == pre + p.calls;
      assert r.calls[|pre|] == RenderSelf;
    }
  }

  /** The mute overlay: the first muted cycle of a running node fades out,
      the next ones are silent, and the first unmuted one fades in. */
  lemma MuteEdges(cfg: Config, frameCount: nat, b: Buf, render: Buf -> Rendered)
    ensures var fade := FadeSamples(cfg.format);
      var g := render(b).samples;
      (cfg.muted ==> Render2(cfg, false, false, frameCount, b, render).samples == Smoothed(g, true, frameCount, fade)) &&
      (cfg.muted ==> Render2(cfg, true, false, frameCount, b, render).samples == Silenced(g, frameCount, 0)) &&
      (!cfg.muted ==> Render2(cfg, true, false, frameCount, b, render).samples == Smoothed(g, false, frameCount, fade)) &&
      (!cfg.muted ==> Render2(cfg, false, false, frameCount, b, render).samples == g)
  {
  }

  /** The disable edge fades out once and resets input and monitor first;
      a disabled node with its ramp done is silent and calls nothing. */
  lemma DisableEdges(s: NodeState, frameCount: nat, b: Buf, render: Buf -> Rendered)
    requires !s.pending.enabled
    ensures var r := RenderCycle(s, frameCount, b, render);
      !r.state.prevEnabled && r.state.isConnected == s.isConnected &&
      (s.prevEnabled ==> r.calls[..|ResetCalls(s.pending)|] == ResetCalls(s.pending)) &&
      (!s.prevEnabled ==> r.calls == [] && r.samples == Silenced(b, frameCount, 0) && r.status == NO_ERR) &&
      (s.prevEnabled && render(b).status == NO_ERR && !s.pending.muted ==>
        r.samples == Smoothed(render(b).samples, true, frameCount, FadeSamples(s.pending.format)))
  {
  }
}
