/** The pull-model source node of the package target (`Source`): each
    cycle it snapshots its pending configuration, ramps out on the disable
    edge, stays silent while disabled (completing a pending smooth
    disconnection there), ramps in on the enable edge, pulls its own source
    and runs `_render`, and finally hands the buffer to its monitor.

    The `filled` flag travels with the buffer: it tells later stages that
    the buffer already holds data, so they need not clear it. */
module SourceNode {
  import opened Buffers
  import Utilities

  type NodeId = nat

  /** Names the continuation a `disconnectSource` call waits on. */
  type CallbackId = nat

  datatype Config = Config(
    monitor: Option<NodeId>,
    source: Option<NodeId>,
    enabled: bool,
    bypass: bool,
    disconnectSource: Option<CallbackId>)

  /** A configuration with nothing connected, no bypass and no pending
      disconnect. */
  function InitialConfig(enabled: bool): Config {
    Config(None, None, enabled, false, None)
  }

  /** What a source node asks of its neighbours, or of its own `_render`. */
  datatype Call =
    | PullSource(node: NodeId)
    | RenderSelf
    | ResetSource(node: NodeId)
    | MonitorRender(node: NodeId, samples: Buf)
    | InvokeCallback(callback: CallbackId)

  /** A buffer together with its `filled` flag. */
  datatype Filled = Filled(samples: Buf, filled: bool)

  /** A renderer only writes into the buffer it is given. */
  ghost predicate KeepsShape(f: (Buf, bool) -> Filled) {
    forall b, filled :: SameShape(b, f(b, filled).samples)
  }

  /** The buffer, flag and calls of (part of) a cycle. */
  datatype Pass = Pass(samples: Buf, filled: bool, calls: seq<Call>)

  /** `_internalRender2`: pull the source if there is one, otherwise clear
      the buffer unless it is already filled; then `_render` unless
      bypassing. */
  function Render2(cfg: Config, frameCount: nat, b: Buf, filled: bool,
                   source: (Buf, bool) -> Filled, render: (Buf, bool) -> Filled): (p: Pass)
    ensures RenderSelf in p.calls <==> !cfg.bypass
    ensures cfg.source.Some? ==> |p.calls| > 0 && p.calls[0] == PullSource(cfg.source.value)
    ensures cfg.source.None? ==> forall i :: 0 <= i < |p.calls| ==> !p.calls[i].PullSource?
    ensures cfg.bypass && cfg.source.None? ==> p.filled && p.samples == if filled then b else Silenced(b, frameCount, 0)
  {
    var pulled := match cfg.source
      case Some(n) => Pass(source(b, filled).samples, source(b, filled).filled, [PullSource(n)])
      case None => if !filled then Pass(Silenced(b, frameCount, 0), true, []) else Pass(b, filled, []);
    if !cfg.bypass then
      var r := render(pulled.samples, pulled.filled);
      Pass(r.samples, r.filled, pulled.calls + [RenderSelf])
    else pulled
  }

  datatype SourceState = SourceState(pending: Config, active: Config, prevEnabled: bool)

  datatype Cycle = Cycle(samples: Buf, filled: bool, calls: seq<Call>, state: SourceState)

  function ResetCalls(cfg: Config): seq<Call> {
    if cfg.source.Some? then [ResetSource(cfg.source.value)] else []
  }

  /** Steps 1 to 4 of `_internalPull`, before the monitor is notified. */
  function PullBody(s: SourceState, frameCount: nat, b: Buf, filled: bool,
                    source: (Buf, bool) -> Filled, render: (Buf, bool) -> Filled): Cycle
  {
    var cfg := s.pending;
    var fade := Utilities.TransitionFrames(frameCount);
    if !cfg.enabled then
      if s.prevEnabled then
        var p := Render2(cfg, frameCount, b, filled, source, render);
        Cycle(Smoothed(p.samples, true, frameCount, fade), p.filled, ResetCalls(cfg) + p.calls,
              SourceState(s.pending, cfg, false))
      else
        match cfg.disconnectSource
        case Some(callback) =>
          Cycle(Silenced(b, frameCount, 0), true, [InvokeCallback(callback)],
                SourceState(s.pending.(source := None, disconnectSource := None),
                            cfg.(source := None, disconnectSource := None), false))
        case None =>
          Cycle(Silenced(b, frameCount, 0), true, [], SourceState(s.pending, cfg, false))
    else if !s.prevEnabled then
      var p := Render2(cfg, frameCount, b, filled, source, render);
      Cycle(Smoothed(p.samples, false, frameCount, fade), p.filled, p.calls, SourceState(s.pending, cfg, true))
    else
      var p := Render2(cfg, frameCount, b, filled, source, render);
      Cycle(p.samples, p.filled, p.calls, SourceState(s.pending, cfg, true))
  }

  /** `_internalPull`: one pull cycle, ending with the monitor call. */
  function PullCycle(s: SourceState, frameCount: nat, b: Buf, filled: bool,
                     source: (Buf, bool) -> Filled, render: (Buf, bool) -> Filled): (r: Cycle)
    ensures r.state.prevEnabled == s.pending.enabled
    ensures r.state.active.enabled == s.pending.enabled && r.state.active.monitor == s.pending.monitor
  {
    var r := PullBody(s, frameCount, b, filled, source, render);
    match r.state.active.monitor
    case Some(m) => r.(calls := r.calls + [MonitorRender(m, r.samples)])
    case None => r
  }

  class Source {
    var pending: Config
    var active: Config
    var prevEnabled: bool

    function State(): SourceState
      reads this
    {
      SourceState(pending, active, prevEnabled)
    }

    /** Both configurations carry the given flag, and so does the previous
        flag: the first cycle has no edge. */
    constructor (isEnabled: bool)
      ensures State() == SourceState(InitialConfig(isEnabled), InitialConfig(isEnabled), isEnabled)
    {
      pending := InitialConfig(isEnabled);
      active := InitialConfig(isEnabled);
      prevEnabled := isEnabled;
    }

    method SetEnabled(value: bool)
      modifies this
      ensures State() == old(State()).(pending := old(pending).(enabled := value))
    {
      pending := pending.(enabled := value);
    }

    method SetBypassing(value: bool)
      modifies this
      ensures State() == old(State()).(pending := old(pending).(bypass := value))
    {
      pending := pending.(bypass := value);
    }

    method ConnectSource(source: NodeId) returns (connected: NodeId)
      modifies this
      ensures connected == source
      ensures State() == old(State()).(pending := old(pending).(source := Some(source)))
    {
      pending := pending.(source := Some(source));
      connected := source;
    }

    method ConnectMonitor(monitor: NodeId) returns (connected: NodeId)
      modifies this
      ensures connected == monitor
      ensures State() == old(State()).(pending := old(pending).(monitor := Some(monitor)))
    {
      pending := pending.(monitor := Some(monitor));
      connected := monitor;
    }

    method DisconnectMonitor()
      modifies this
      ensures State() == old(State()).(pending := old(pending).(monitor := None))
    {
      pending := pending.(monitor := None);
    }

    /** The first half of `disconnectSource`, up to the wait: with no source
        nothing happens; otherwise the node is disabled and the callback
        `callback` is posted, and `wasEnabled` is the flag to restore. */
    method BeginDisconnectSource(callback: CallbackId) returns (posted: bool, wasEnabled: bool)
      modifies this
      ensures posted <==> old(pending).source.Some?
      ensures !posted ==> State() == old(State())
      ensures posted ==> wasEnabled == old(pending).enabled
      ensures posted ==>
        State() == old(State()).(pending := old(pending).(enabled := false, disconnectSource := Some(callback)))
    {
      posted := pending.source.Some?;
      wasEnabled := pending.enabled;
      if posted {
        pending := pending.(enabled := false);
        pending := pending.(disconnectSource := Some(callback));
      }
    }

    /** The second half of `disconnectSource`, once the callback has run:
        the enabled flag gets its earlier value back. */
    method FinishDisconnectSource(wasEnabled: bool)
      modifies this
      ensures State() == old(State()).(pending := old(pending).(enabled := wasEnabled))
    {
      pending := pending.(enabled := wasEnabled);
    }

    /** `_willRender$`. */
    method WillRender()
      modifies this
      ensures State() == old(State()).(active := old(pending))
    {
      active := pending;
    }

    /** `_reset`: the previous flag takes the render configuration's value
        and the source chain is reset. */
    method Reset() returns (calls: seq<Call>)
      modifies this
      ensures State() == old(State()).(prevEnabled := old(active).enabled)
      ensures calls == ResetCalls(active)
    {
      prevEnabled := active.enabled;
      calls := if active.source.Some? then [ResetSource(active.source.value)] else [];
    }

    /** `_internalRender2`. */
    method InternalRender2(frameCount: nat, buffers: BufferList, filled: bool,
                           source: (Buf, bool) -> Filled, render: (Buf, bool) -> Filled)
      returns (nowFilled: bool, calls: seq<Call>)
      requires frameCount <= buffers.Capacity() && KeepsShape(source) && KeepsShape(render)
      modifies buffers.samples
      ensures var p := Render2(active, frameCount, old(buffers.Frames()), filled, source, render);
        buffers.Frames() == p.samples && nowFilled == p.filled && calls == p.calls
    {
      nowFilled := filled;
      calls := [];
      if active.source.Some? {
        var r := source(buffers.Frames(), nowFilled);
        buffers.Assign(r.samples);
        nowFilled := r.filled;
        calls := [PullSource(active.source.value)];
      } else if !nowFilled {
        var _ := Utilities.FillSilence(frameCount, buffers, 0);
        nowFilled := true;
      }
      if !active.bypass {
        var r := render(buffers.Frames(), nowFilled);
        buffers.Assign(r.samples);
        nowFilled := r.filled;
        calls := calls + [RenderSelf];
      }
    }

    /** `_internalPull`: one cycle of the source node. */
    method InternalPull(frameCount: nat, buffers: BufferList, filled: bool,
                        source: (Buf, bool) -> Filled, render: (Buf, bool) -> Filled)
      returns (nowFilled: bool, calls: seq<Call>)
      requires frameCount <= buffers.Capacity() && KeepsShape(source) && KeepsShape(render)
      modifies this, buffers.samples
      ensures var r := PullCycle(old(State()), frameCount, old(buffers.Frames()), filled, source, render);
        buffers.Frames() == r.samples && nowFilled == r.filled && calls == r.calls && State() == r.state
    {
      WillRender();
      var fade := Utilities.TransitionFrames(frameCount);
      if !active.enabled {
        if prevEnabled {
          var resetCalls := Reset();
          var renderCalls;
          nowFilled, renderCalls := InternalRender2(frameCount, buffers, filled, source, render);
          var _ := Utilities.Smooth(true, frameCount, fade, buffers);
          calls := resetCalls + renderCalls;
        } else {
          var _ := Utilities.FillSilence(frameCount, buffers, 0);
          nowFilled := true;
          calls := [];
          if active.disconnectSource.Some? {
            var callback := active.disconnectSource.value;
            active := active.(source := None, disconnectSource := None);
            pending := pending.(source := None, disconnectSource := None);
            calls := [InvokeCallback(callback)];
          }
        }
      } else if !prevEnabled {
        prevEnabled := true;
        nowFilled, calls := InternalRender2(frameCount, buffers, filled, source, render);
        var _ := Utilities.Smooth(false, frameCount, fade, buffers);
      } else {
        nowFilled, calls := InternalRender2(frameCount, buffers, filled, source, render);
      }
      if active.monitor.Some? {
        calls := calls + [MonitorRender(active.monitor.value, buffers.Frames())];
      }
    }
  }

  /** What the environment supplies for one pull. */
  datatype PullInput = PullInput(frameCount: nat, samples: Buf, filled: bool,
                                 source: (Buf, bool) -> Filled, render: (Buf, bool) -> Filled)

  /** Consecutive pulls with no configuration change in between. */
  function Run(s: SourceState, ps: seq<PullInput>): (rs: seq<Cycle>)
    ensures |rs| == |ps|
    decreases |ps|
  {
    if ps == [] then []
    else
      var r := PullCycle(s, ps[0].frameCount, ps[0].samples, ps[0].filled, ps[0].source, ps[0].render);
      [r] + Run(r.state, ps[1..])
  }

  /** No callback is invoked outside the disabled, already silent branch. */
  predicate NoCallback(calls: seq<Call>) {
    forall i :: 0 <= i < |calls| ==> !calls[i].InvokeCallback?
  }

  /** A fresh source's first pull has no edge: disabled it is silence with
      no pull, enabled it renders without a fade. */
  lemma FirstPullHasNoEdge(isEnabled: bool, frameCount: nat, b: Buf, filled: bool,
                           source: (Buf, bool) -> Filled, render: (Buf, bool) -> Filled)
    ensures var s := SourceState(InitialConfig(isEnabled), InitialConfig(isEnabled), isEnabled);
      var r := PullCycle(s, frameCount, b, filled, source, render);
      r.state.prevEnabled == isEnabled &&
      (!isEnabled ==> r.calls == [] && r.samples == Silenced(b, frameCount, 0) && r.filled) &&
      (isEnabled ==> (r.calls == [RenderSelf] &&
        r.samples == render(if filled then b else Silenced(b, frameCount, 0), true).samples))
  {
  }

  /** The disable edge renders once more and fades that out; the reset
      leaves the previous flag false for every later cycle. */
  lemma DisableEdgeRampsOut(s: SourceState, frameCount: nat, b: Buf, filled: bool,
                            source: (Buf, bool) -> Filled, render: (Buf, bool) -> Filled)
    requires !s.pending.enabled && s.prevEnabled
    ensures var r := PullBody(s, frameCount, b, filled, source, render);
      var p := Render2(s.pending, frameCount, b, filled, source, render);
      !r.state.prevEnabled && r.samples == Smoothed(p.samples, true, frameCount, Utilities.TransitionFrames(frameCount)) &&
      r.calls == ResetCalls(s.pending) + p.calls
  {
  }

  /** The enable edge sets the previous flag, renders and fades in. */
  lemma EnableEdgeRampsIn(s: SourceState, frameCount: nat, b: Buf, filled: bool,
                          source: (Buf, bool) -> Filled, render: (Buf, bool) -> Filled)
    requires s.pending.enabled && !s.prevEnabled
    ensures var r := PullBody(s, frameCount, b, filled, source, render);
      var p := Render2(s.pending, frameCount, b, filled, source, render);
      r.state.prevEnabled && r.calls == p.calls &&
      r.samples == Smoothed(p.samples, false, frameCount, Utilities.TransitionFrames(frameCount))
  {
  }

  /** After every pull an attached monitor gets the final buffer, last. */
  lemma MonitorSeesFinalBuffer(s: SourceState, frameCount: nat, b: Buf, filled: bool,
                               source: (Buf, bool) -> Filled, render: (Buf, bool) -> Filled)
    requires s.pending.monitor.Some?
    ensures var r := PullCycle(s, frameCount, b, filled, source, render);
      |r.calls| > 0 && r.calls[|r.calls| - 1] == MonitorRender(s.pending.monitor.value, r.samples)
  {
  }

  /** While disabled with a callback posted, the callback runs in the first
      silent cycle (right after the ramp-out, if there is one) and never
      again; from then on the source and the callback are gone from both
      configurations. */
  lemma DisconnectCompletes(s: SourceState, callback: CallbackId, ps: seq<PullInput>)
    requires !s.pending.enabled && s.pending.disconnectSource == Some(callback)
    ensures var rs := Run(s, ps);
      var fire := if s.prevEnabled then 1 else 0;
      (forall k :: 0 <= k < |ps| && k != fire ==> NoCallback(rs[k].calls)) &&
      (fire < |ps| ==> InvokeCallback(callback) in rs[fire].calls) &&
      (forall k :: fire <= k < |ps| ==>
        rs[k].state.pending == s.pending.(source := None, disconnectSource := None) &&
        rs[k].state.active.source.None? && rs[k].state.active.disconnectSource.None?) &&
      (forall k :: 0 <= k < |ps| ==> !rs[k].state.pending.enabled && !rs[k].state.prevEnabled)
  {
    if !s.prevEnabled {
      DisconnectFires(s, callback, ps);
    } else if ps != [] {
      var p := ps[0];
      var r := PullCycle(s, p.frameCount, p.samples, p.filled, p.source, p.render);
      var rs := Run(s, ps);
      assert rs == [r] + Run(r.state, ps[1..]);
      RampOutCycle(s, callback, p);
      DisconnectFires(r.state, callback, ps[1..]);
      forall k | 1 <= k < |ps|
        ensures rs[k] == Run(r.state, ps[1..])[k - 1]
      {
      }
    }
  }

  /** The ramp-out cycle of a disabled source calls no callback and keeps
      the pending configuration. */
  lemma RampOutCycle(s: SourceState, callback: CallbackId, p: PullInput)
    requires !s.pending.enabled && s.prevEnabled && s.pending.disconnectSource == Some(callback)
    ensures var r := PullCycle(s, p.frameCount, p.samples, p.filled, p.source, p.render);
      NoCallback(r.calls) && r.state.pending == s.pending && !r.state.prevEnabled
  {
    var q := Render2(s.pending, p.frameCount, p.samples, p.filled, p.source, p.render);
    assert NoCallback(q.calls) by {
      assert q.calls == match s.pending.source
        case Some(n) => (if !s.pending.bypass then [PullSource(n), RenderSelf] else [PullSource(n)])
        case None => (if !s.pending.bypass then [RenderSelf] else []);
    }
    var body := PullBody(s, p.frameCount, p.samples, p.filled, p.source, p.render);
    assert body.calls == ResetCalls(s.pending) + q.calls;
    assert body.state == SourceState(s.pending, s.pending, false);
    NoCallbackAppend(ResetCalls(s.pending), q.calls);
    if body.state.active.monitor.Some? {
      NoCallbackAppend(body.calls, [MonitorRender(body.state.active.monitor.value, body.samples)]);
    }
  }

  lemma NoCallbackAppend(a: seq<Call>, b: seq<Call>)
    requires NoCallback(a) && NoCallback(b)
    ensures NoCallback(a + b)
  {
    assert forall i :: 0 <= i < |a + b| ==> (a + b)[i] == if i < |a| then a[i] else b[i - |a|];
  }

  /** Once ramped out, the callback runs in the first cycle and the
      source and the callback are gone from then on. */
  lemma DisconnectFires(s: SourceState, callback: CallbackId, ps: seq<PullInput>)
    requires !s.pending.enabled && !s.prevEnabled && s.pending.disconnectSource == Some(callback)
    ensures var rs := Run(s, ps);
      (forall k :: 1 <= k < |ps| ==> NoCallback(rs[k].calls)) &&
      (0 < |ps| ==> InvokeCallback(callback) in rs[0].calls) &&
      (forall k :: 0 <= k < |ps| ==>
        rs[k].state.pending == s.pending.(source := None, disconnectSource := None) &&
        rs[k].state.active.source.None? && rs[k].state.active.disconnectSource.None?) &&
      (forall k :: 0 <= k < |ps| ==> !rs[k].state.pending.enabled && !rs[k].state.prevEnabled)
  {
    if ps != [] {
      var p := ps[0];
      var r := PullCycle(s, p.frameCount, p.samples, p.filled, p.source, p.render);
      var rs := Run(s, ps);
      assert rs == [r] + Run(r.state, ps[1..]);
      DisabledAfterDisconnect(r.state, ps[1..]);
      assert r.calls[0] == InvokeCallback(callback);
      forall k | 1 <= k < |ps|
        ensures rs[k] == Run(r.state, ps[1..])[k - 1]
      {
      }
    }
  }

  /** A disabled, ramped-out source with no callback posted stays silent,
      calls no callback and keeps its configuration. */
  lemma {:induction false} DisabledAfterDisconnect(s: SourceState, ps: seq<PullInput>)
    requires !s.pending.enabled && !s.prevEnabled && s.pending.disconnectSource.None?
    ensures var rs := Run(s, ps);
      forall k :: 0 <= k < |ps| ==>
        NoCallback(rs[k].calls) && rs[k].state == SourceState(s.pending, s.pending, false) &&
        rs[k].samples == Silenced(ps[k].samples, ps[k].frameCount, 0)
    decreases |ps|
  {
    if ps != [] {
      var p := ps[0];
      var r := PullCycle(s, p.frameCount, p.samples, p.filled, p.source, p.render);
      DisabledAfterDisconnect(r.state, ps[1..]);
      var rs := Run(s, ps);
      assert rs == [r] + Run(r.state, ps[1..]);
      forall k | 1 <= k < |ps|
        ensures rs[k] == Run(r.state, ps[1..])[k - 1] && ps[k] == ps[1..][k - 1]
      {
      }
    }
  }
}
