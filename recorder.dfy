/** The recorders (`AudioNodes/Sources/Recorder.swift`): monitors that store
    what passes through them, to a file (`FileRecorder`) or to an
    `AudioData` (`MemoryRecorder`), and disable themselves once nothing more
    can be stored. The file writer is I/O: the status of each write is given
    by the caller. */
module Recorders {
  import opened Buffers
  import Utilities
  import MonitorNode
  import Memory

  /** What a `_monitor` call tells the delegate: that frames were recorded,
      or that the recording has ended. */
  datatype Outcome = Recorded(frames: nat) | Ended

  /** The frames a file recorder writes in one cycle: the cycle, but never
      past `frameCapacity`. Not positive once the recorder is full. */
  function ToWrite(frameCount: nat, frameCapacity: int, playhead: nat): (n: int)
    ensures n <= frameCount && playhead + n <= frameCapacity
    ensures n > 0 <==> frameCount > 0 && playhead < frameCapacity
  {
    Min(frameCount, frameCapacity - playhead)
  }

  /** One `_monitor` cycle of a file recorder at `playhead`: the new
      playhead when something was written and the write succeeded, `None`
      when the recording ends instead. */
  function Step(playhead: nat, frameCapacity: int, frameCount: nat, writeStatus: int): (r: Option<nat>)
    ensures r.Some? <==> frameCount > 0 && playhead < frameCapacity && writeStatus == NO_ERR
    ensures r.Some? ==> playhead < r.value <= frameCapacity && r.value - playhead <= frameCount
  {
    var n := ToWrite(frameCount, frameCapacity, playhead);
    if n > 0 && writeStatus == NO_ERR then Some(playhead + n) else None
  }

  /** A monitor cycle's input: its length and the status of the file write. */
  datatype CycleInput = CycleInput(frameCount: nat, writeStatus: int)

  /** The playhead and whether the recorder is still enabled. */
  datatype Recording = Recording(playhead: nat, enabled: bool)

  /** A recording from a fresh, enabled file recorder over `cycles`: while
      it is enabled each cycle is a `Step`; once it has disabled itself the
      monitor no longer calls it. */
  function Session(frameCapacity: int, cycles: seq<CycleInput>): (r: Recording)
    ensures r.playhead <= Max(frameCapacity, 0)
  {
    if |cycles| == 0 then Recording(0, true)
    else
      var r := Session(frameCapacity, cycles[..|cycles| - 1]);
      var c := cycles[|cycles| - 1];
      if !r.enabled then r
      else
        match Step(r.playhead, frameCapacity, c.frameCount, c.writeStatus)
        case Some(p) => Recording(p, true)
        case None => Recording(r.playhead, false)
  }

  /** The frames offered to the recorder over `cycles`. */
  function Offered(cycles: seq<CycleInput>): nat {
    if |cycles| == 0 then 0 else Offered(cycles[..|cycles| - 1]) + cycles[|cycles| - 1].frameCount
  }

  /** When every write succeeds and no cycle is empty, the recorder stores
      everything it is offered up to its capacity, and it disables itself
      only once it is full. */
  lemma {:induction false} SessionComplete(frameCapacity: int, cycles: seq<CycleInput>)
    requires forall k :: 0 <= k < |cycles| ==> cycles[k].frameCount > 0 && cycles[k].writeStatus == NO_ERR
    ensures var r := Session(frameCapacity, cycles);
      r.playhead == Min(Offered(cycles), Max(frameCapacity, 0)) &&
      (!r.enabled ==> r.playhead >= frameCapacity)
  {
    if |cycles| > 0 {
      var init := cycles[..|cycles| - 1];
      assert forall k :: 0 <= k < |init| ==> init[k] == cycles[k];
      SessionComplete(frameCapacity, init);
    }
  }

  /** A recorder that writes to a file (`FileRecorder`). */
  class FileRecorder {
    /** The monitor node the recorder is. */
    const node: MonitorNode.Monitor
    /** `Int(capacity * sampleRate)`. */
    const frameCapacity: int
    /** The sample rate of the file format. */
    const sampleRate: real
    var playhead: nat
    var lastKnownPlayhead: nat

    /** The playhead is within the capacity and published. */
    ghost predicate Valid()
      reads this
    {
      playhead <= Max(frameCapacity, 0) && lastKnownPlayhead == playhead
    }

    /** An empty recording of at most `capacity` seconds; disabled by default
        in the source. */
    constructor (capacity: real, sampleRate: real, isEnabled: bool)
      ensures Valid() && playhead == 0 && lastKnownPlayhead == 0
      ensures frameCapacity == Utilities.TruncToInt(capacity * sampleRate) && this.sampleRate == sampleRate
      ensures fresh(node) && node.pending == MonitorNode.Config(None, isEnabled) && node.active == node.pending
    {
      node := new MonitorNode.Monitor(isEnabled);
      frameCapacity := Utilities.TruncToInt(capacity * sampleRate);
      this.sampleRate := sampleRate;
      playhead := 0;
      lastKnownPlayhead := 0;
    }

    /** `_monitor`: writes `ToWrite` frames and advances the playhead, or,
        when there is nothing to write or the write fails, disables the
        recorder and ends the recording. The write is made only when there
        is something to write. */
    method Monitor(frameCount: nat, writeStatus: int) returns (outcome: Outcome)
      requires Valid()
      modifies this, node
      ensures Valid() && node.active == old(node.active)
      ensures match Step(old(playhead), frameCapacity, frameCount, writeStatus)
        case Some(p) =>
          outcome == Recorded(p - old(playhead)) && playhead == p && node.pending == old(node.pending)
        case None =>
          outcome == Ended && playhead == old(playhead) && node.pending == old(node.pending).(enabled := false)
    {
      var toWrite := Min(frameCount, frameCapacity - playhead);
      if toWrite > 0 && writeStatus == NO_ERR {
        playhead := playhead + toWrite;
        lastKnownPlayhead := playhead;
        outcome := Recorded(toWrite);
      } else {
        node.SetEnabled(false);
        outcome := Ended;
      }
    }

    /** `stop`: the recorder is disabled. */
    method Stop()
      modifies node
      ensures node.pending == old(node.pending).(enabled := false) && node.active == old(node.active)
    {
      node.SetEnabled(false);
    }

    /** `isFull`: the published playhead reached the capacity. */
    predicate IsFull()
      reads this
    {
      lastKnownPlayhead >= frameCapacity
    }

    /** `duration`: the published playhead, in seconds. */
    function Duration(): (d: real)
      reads this
      requires sampleRate > 0.0
      ensures d * sampleRate == lastKnownPlayhead as real
    {
      lastKnownPlayhead as real / sampleRate
    }
  }

  /** With a whole cycle to store (`frameCount` frames in the buffer), a
      memory recorder's write comes up short exactly when the data cannot
      take the whole cycle. */
  lemma ShortWriteIffFull(framesWritten: nat, frameCount: nat, chunkCapacity: nat, chunkCount: nat)
    requires chunkCapacity > 0 && framesWritten <= chunkCapacity * chunkCount
    ensures var t := Memory.Transfer(framesWritten, 0, frameCount, frameCount, chunkCapacity, chunkCapacity * chunkCount, false);
      t.framesCopied < frameCount <==> framesWritten + frameCount > chunkCapacity * chunkCount
  {
    Memory.WriteAmount(framesWritten, 0, frameCount, frameCount, chunkCapacity, chunkCount);
  }

  /** A recorder into an `AudioData` (`MemoryRecorder`). */
  class MemoryRecorder {
    /** The monitor node the recorder is. */
    const node: MonitorNode.Monitor
    const data: Memory.AudioData

    /** A recorder into `data`; disabled by default in the source. */
    constructor (data: Memory.AudioData, isEnabled: bool)
      ensures this.data == data
      ensures fresh(node) && node.pending == MonitorNode.Config(None, isEnabled) && node.active == node.pending
    {
      this.data := data;
      node := new MonitorNode.Monitor(isEnabled);
    }

    /** `_monitor`: writes the cycle to the data at offset 0; on a short
        write the recorder disables itself and ends the recording. */
    method Monitor(frameCount: nat, buffers: BufferList) returns (outcome: Outcome)
      requires data.Valid() && buffers.Valid() && data.Apart(buffers)
      requires frameCount <= buffers.FrameCount()
      modifies data, data.ChunkSamples(), node
      ensures data.Valid() && data.framesRead == old(data.framesRead) && node.active == old(node.active)
      ensures var t := Memory.Transfer(old(data.framesWritten), 0, frameCount, buffers.FrameCount(),
                                       data.chunkCapacity, data.FrameCapacity(), false);
        data.framesWritten == t.position &&
        (t.framesCopied < frameCount ==> outcome == Ended && node.pending == old(node.pending).(enabled := false)) &&
        (t.framesCopied >= frameCount ==> outcome == Recorded(t.framesCopied) && node.pending == old(node.pending)) &&
        data.Stored() == CopiedFrom(old(data.Stored()), buffers.Frames(), 0, old(data.framesWritten), t.framesCopied)
    {
      var result := data.Write(frameCount, buffers, 0);
      if result < frameCount {
        node.SetEnabled(false);
        outcome := Ended;
      } else {
        outcome := Recorded(result);
      }
    }

    /** `isFull`: the data holds as much as it can. */
    predicate IsFull()
      reads data
    {
      data.framesWritten >= data.FrameCapacity()
    }
  }

  /** A file recorder that is full ends the recording on its next cycle;
      one that is not goes on recording a non-empty cycle that writes. */
  lemma FileRecorderFull(r: FileRecorder, frameCount: nat, writeStatus: int)
    requires r.Valid() && frameCount > 0 && writeStatus == NO_ERR
    ensures r.IsFull() <==> Step(r.playhead, r.frameCapacity, frameCount, writeStatus).None?
  {
  }

  /** A memory recorder is full exactly when its next write of a non-empty
      cycle stores nothing. */
  lemma MemoryRecorderFull(r: MemoryRecorder, frameCount: nat)
    requires r.data.Valid() && frameCount > 0
    ensures r.IsFull() <==>
      Memory.Transfer(r.data.framesWritten, 0, frameCount, frameCount, r.data.chunkCapacity, r.data.FrameCapacity(), false).framesCopied == 0
  {
    Memory.WriteAmount(r.data.framesWritten, 0, frameCount, frameCount, r.data.chunkCapacity, |r.data.chunks|);
  }
}
