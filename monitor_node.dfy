/** A passive node attached to another node's output (`Monitor` in
    `AudioNodes/Sources/Monitor.swift`). Like the other nodes it keeps a
    pending configuration that is copied into the render configuration at
    the start of every cycle; it then hands the buffer to its `_monitor`
    hook only if that snapshot is enabled. The hook belongs to subclasses
    (the base one is fatal), so a cycle here reports whether it is called. */
module MonitorNode {
  import opened Buffers
  import GraphNode

  datatype Config = Config(format: Option<GraphNode.StreamFormat>, enabled: bool)

  class Monitor {
    var pending: Config
    var active: Config

    /** Both configurations start with the given `enabled` flag and no format. */
    constructor (isEnabled: bool)
      ensures pending == Config(None, isEnabled) && active == pending
    {
      pending := Config(None, isEnabled);
      active := Config(None, isEnabled);
    }

    /** The `isEnabled` setter the recorders use. `Monitor.swift` declares
        none; it is taken to set the pending `enabled` flag, as the other
        nodes' setters do. */
    method SetEnabled(value: bool)
      modifies this
      ensures pending == old(pending).(enabled := value) && active == old(active)
    {
      pending := pending.(enabled := value);
    }

    /** `_willRender$`: the render configuration becomes the pending one. */
    method WillRender()
      modifies this
      ensures active == old(pending) && pending == old(pending)
    {
      active := pending;
    }

    /** `_internalRender`: snapshots the configuration and reports whether
        the `_monitor` hook is invoked, which is exactly when the snapshot
        is enabled. */
    method InternalRender() returns (monitored: bool)
      modifies this
      ensures active == old(pending) && pending == old(pending)
      ensures monitored == old(pending).enabled
    {
      WillRender();
      if !active.enabled {
        return false;
      }
      monitored := true;
    }

    /** `updateFormat$`: stores the format when it differs from the pending one. */
    method UpdateFormat(format: GraphNode.StreamFormat)
      modifies this
      ensures pending == FormatUpdate(old(pending), format) && active == old(active)
    {
      if Some(format) != pending.format {
        pending := pending.(format := Some(format));
      }
    }
  }

  /** The pending configuration after `updateFormat$`. */
  function FormatUpdate(c: Config, format: GraphNode.StreamFormat): (r: Config)
    ensures r.format == Some(format) && r.enabled == c.enabled
  {
    if Some(format) != c.format then c.(format := Some(format)) else c
  }

  /** Repeating a format update changes nothing. */
  lemma FormatUpdateIdempotent(c: Config, format: GraphNode.StreamFormat)
    ensures FormatUpdate(FormatUpdate(c, format), format) == FormatUpdate(c, format)
  {
  }
}
