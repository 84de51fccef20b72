/** The offline driver (`OfflineProcessor` in
    `AudioNodes/Sources/OfflineProcessor.swift`): a node at the far end of a
    chain whose `_render` reads from a static data source; `process` pulls
    the chain one scratch buffer at a time and hands each buffer to a
    static data sink, until the source runs short.

    The source is a stream of `sourceFrames` frames read from
    `sourcePosition` on; the sink counts the frames it was given. The
    statuses of the pulls and of the writes are given per iteration. The
    nodes between the entry and the processor are not modelled: a pull of
    `n` frames reaches the processor's `_render(n)` directly and returns the
    chain's status. */
module Offline {
  import opened Buffers
  import GraphNode
  import Memory
  import Utilities

  /** Where a `process` loop stopped: its status, the source position and
      the frames given to the sink. */
  datatype Outcome = Outcome(status: int, position: nat, written: nat)

  /** The frames the source delivers when `n` are asked for at `position`. */
  function Delivered(n: nat, sourceFrames: nat, position: nat): (r: nat)
    ensures r <= n && (position <= sourceFrames ==> position + r <= sourceFrames)
    ensures position + n <= sourceFrames ==> r == n
  {
    if position >= sourceFrames then 0 else Min(n, sourceFrames - position)
  }

  /** The `process` loop from iteration `k` on: each iteration pulls
      `requested` frames, stops on a failing pull, writes the frames read,
      stops on a failing write, and stops with `noErr` once fewer than
      `frameCount` frames were read. */
  function Processed(requested: nat, frameCount: nat, sourceFrames: nat, position: nat, written: nat, k: nat,
                     pullStatus: nat -> int, writeStatus: nat -> int): Outcome
    requires 0 < frameCount && requested <= frameCount
    decreases sourceFrames - position
  {
    var n := Delivered(requested, sourceFrames, position);
    if pullStatus(k) != NO_ERR then Outcome(pullStatus(k), position + n, written)
    else if writeStatus(k) != NO_ERR then Outcome(writeStatus(k), position + n, written)
    else if n < frameCount then Outcome(NO_ERR, position + n, written + n)
    else Processed(requested, frameCount, sourceFrames, position + n, written + n, k + 1, pullStatus, writeStatus)
  }

  /** Whatever the statuses, the loop never moves back, writes no more than
      it pulls and never pulls past the end of the source. */
  lemma {:induction false} ProcessedMoves(requested: nat, frameCount: nat, sourceFrames: nat, position: nat, written: nat, k: nat,
                                          pullStatus: nat -> int, writeStatus: nat -> int)
    requires 0 < frameCount && requested <= frameCount
    decreases sourceFrames - position
    ensures var r := Processed(requested, frameCount, sourceFrames, position, written, k, pullStatus, writeStatus);
      position <= r.position && written <= r.written && r.written - written <= r.position - position &&
      (position <= sourceFrames ==> r.position <= sourceFrames)
  {
    var n := Delivered(requested, sourceFrames, position);
    if pullStatus(k) == NO_ERR && writeStatus(k) == NO_ERR && n >= frameCount {
      ProcessedMoves(requested, frameCount, sourceFrames, position + n, written + n, k + 1, pullStatus, writeStatus);
    }
  }

  /** With every pull and write succeeding, the corrected loop hands the
      whole rest of the source to the sink and returns `noErr`. */
  lemma {:induction false} ProcessedAll(frameCount: nat, sourceFrames: nat, position: nat, written: nat, k: nat,
                                        pullStatus: nat -> int, writeStatus: nat -> int)
    requires 0 < frameCount && position <= sourceFrames
    requires forall j :: k <= j ==> pullStatus(j) == NO_ERR && writeStatus(j) == NO_ERR
    decreases sourceFrames - position
    ensures Processed(frameCount, frameCount, sourceFrames, position, written, k, pullStatus, writeStatus) ==
            Outcome(NO_ERR, sourceFrames, written + (sourceFrames - position))
  {
    var n := Delivered(frameCount, sourceFrames, position);
    if n >= frameCount {
      ProcessedAll(frameCount, sourceFrames, position + n, written + n, k + 1, pullStatus, writeStatus);
    }
  }

  /** Whatever the statuses, a corrected loop that returns `noErr` has
      handed the whole rest of the source to the sink. */
  lemma {:induction false} ProcessedNoErr(frameCount: nat, sourceFrames: nat, position: nat, written: nat, k: nat,
                                          pullStatus: nat -> int, writeStatus: nat -> int)
    requires 0 < frameCount && position <= sourceFrames
    decreases sourceFrames - position
    ensures var r := Processed(frameCount, frameCount, sourceFrames, position, written, k, pullStatus, writeStatus);
      r.status == NO_ERR ==> r.position == sourceFrames && r.written == written + (sourceFrames - position)
  {
    var n := Delivered(frameCount, sourceFrames, position);
    if pullStatus(k) == NO_ERR && writeStatus(k) == NO_ERR && n >= frameCount {
      ProcessedNoErr(frameCount, sourceFrames, position + n, written + n, k + 1, pullStatus, writeStatus);
    }
  }

  /** As written, every pull asks for `numRead` frames just after setting it
      to 0: the first iteration writes nothing and returns, however much
      the source holds. */
  lemma AsWrittenProcessesNothing(frameCount: nat, sourceFrames: nat, position: nat, written: nat, k: nat,
                                  pullStatus: nat -> int, writeStatus: nat -> int)
    requires 0 < frameCount
    ensures var r := Processed(0, frameCount, sourceFrames, position, written, k, pullStatus, writeStatus);
      r.position == position && r.written == written &&
      r.status == (if pullStatus(k) != NO_ERR then pullStatus(k) else writeStatus(k))
  {
    assert Delivered(0, sourceFrames, position) == 0;
  }

  /** A source of 1000 frames and a scratch buffer of 441: the corrected
      loop writes all 1000 frames, the loop as written none. */
  lemma AsWrittenExample(pullStatus: nat -> int, writeStatus: nat -> int)
    requires forall j :: 0 <= j ==> pullStatus(j) == NO_ERR && writeStatus(j) == NO_ERR
    ensures Processed(0, 441, 1000, 0, 0, 0, pullStatus, writeStatus) == Outcome(NO_ERR, 0, 0)
    ensures Processed(441, 441, 1000, 0, 0, 0, pullStatus, writeStatus) == Outcome(NO_ERR, 1000, 1000)
  {
    AsWrittenProcessesNothing(441, 1000, 0, 0, 0, pullStatus, writeStatus);
    ProcessedAll(441, 1000, 0, 0, 0, pullStatus, writeStatus);
  }

  class OfflineProcessor {
    /** The node the processor is. */
    const node: GraphNode.Node
    const scratch: BufferList
    const sourceFrames: nat
    var sourcePosition: nat
    var sunk: nat
    var numRead: nat

    ghost predicate Valid()
      reads this, scratch
    {
      scratch.Valid() && scratch.Capacity() > 0 && sourcePosition <= sourceFrames
    }

    /** A processor between a source of `sourceFrames` frames and a sink of
        the same format; the scratch buffer holds `Int(ceil(sampleRate)) /
        divisor` frames. */
    constructor (format: GraphNode.StreamFormat, sinkFormat: GraphNode.StreamFormat, divisor: int, sourceFrames: nat)
      requires format == sinkFormat
      requires 0 < divisor <= Memory.Ceil(format.sampleRate)
      ensures Valid() && fresh(node) && fresh(scratch) && fresh(scratch.samples)
      ensures scratch.Capacity() == Memory.Ceil(format.sampleRate) / divisor
      ensures scratch.Channels() == (if format.isStereo then 2 else 1)
      ensures this.sourceFrames == sourceFrames && sourcePosition == 0 && sunk == 0 && numRead == 0
      ensures node.State() == GraphNode.NodeState(GraphNode.InitialConfig(true), GraphNode.InitialConfig(true), true, false)
    {
      node := new GraphNode.Node(true);
      scratch := new BufferList(format.isStereo, Memory.Ceil(format.sampleRate) / divisor);
      this.sourceFrames := sourceFrames;
      sourcePosition := 0;
      sunk := 0;
      numRead := 0;
    }

    /** `_render`: reads up to `frameCount` frames from the source into
        `buffers` and pads the rest of the cycle with silence. The status is
        the read's. */
    method Render(frameCount: nat, buffers: BufferList, readStatus: int) returns (status: int)
      requires sourcePosition <= sourceFrames && frameCount <= buffers.Capacity()
      modifies this, buffers.samples
      ensures numRead == Delivered(frameCount, sourceFrames, old(sourcePosition))
      ensures sourcePosition == old(sourcePosition) + numRead <= sourceFrames
      ensures sunk == old(sunk) && status == readStatus
      ensures forall c, i :: 0 <= c < buffers.Channels() && numRead <= i < frameCount ==> buffers.Frames()[c][i] == 0.0
    {
      numRead := Delivered(frameCount, sourceFrames, sourcePosition);
      sourcePosition := sourcePosition + numRead;
      if numRead < frameCount {
        var _ := Utilities.FillSilence(frameCount, buffers, numRead);
      }
      status := readStatus;
    }

    /** `process`, corrected: each pull asks for a whole scratch buffer. */
    method Process(pullStatus: nat -> int, writeStatus: nat -> int) returns (status: int)
      requires Valid()
      modifies this, scratch.samples
      ensures Valid()
      ensures var r := Processed(scratch.Capacity(), scratch.Capacity(), sourceFrames, old(sourcePosition), old(sunk), 0, pullStatus, writeStatus);
        status == r.status && sourcePosition == r.position && sunk == r.written
    {
      var frameCount := scratch.Capacity();
      ghost var target := Processed(frameCount, frameCount, sourceFrames, sourcePosition, sunk, 0, pullStatus, writeStatus);
      var k := 0;
      var running := true;
      status := NO_ERR;
      while running
        invariant Valid() && scratch.Capacity() == frameCount
        invariant running ==> Processed(frameCount, frameCount, sourceFrames, sourcePosition, sunk, k, pullStatus, writeStatus) == target
        invariant !running ==> Outcome(status, sourcePosition, sunk) == target
        decreases running, sourceFrames - sourcePosition
      {
        numRead := 0;
        var result := Render(frameCount, scratch, pullStatus(k));
        if result != NO_ERR {
          status, running := result, false;
        } else {
          result := writeStatus(k);
          if result != NO_ERR {
            status, running := result, false;
          } else {
            sunk := sunk + numRead;
            if numRead < frameCount {
              status, running := NO_ERR, false;
            } else {
              k := k + 1;
            }
          }
        }
      }
    }

    /** `process` as written: each pull asks for `numRead` frames right
        after `numRead` was set to 0 (`AsWrittenProcessesNothing`). */
    method ProcessAsWritten(pullStatus: nat -> int, writeStatus: nat -> int) returns (status: int)
      requires Valid()
      modifies this, scratch.samples
      ensures Valid()
      ensures var r := Processed(0, scratch.Capacity(), sourceFrames, old(sourcePosition), old(sunk), 0, pullStatus, writeStatus);
        status == r.status && sourcePosition == r.position && sunk == r.written
    {
      var frameCount := scratch.Capacity();
      ghost var target := Processed(0, frameCount, sourceFrames, sourcePosition, sunk, 0, pullStatus, writeStatus);
      var k := 0;
      var running := true;
      status := NO_ERR;
      while running
        invariant Valid() && scratch.Capacity() == frameCount
        invariant running ==> Processed(0, frameCount, sourceFrames, sourcePosition, sunk, k, pullStatus, writeStatus) == target
        invariant !running ==> Outcome(status, sourcePosition, sunk) == target
        decreases running, sourceFrames - sourcePosition
      {
        numRead := 0;
        var result := Render(numRead, scratch, pullStatus(k));
        if result != NO_ERR {
          status, running := result, false;
        } else {
          result := writeStatus(k);
          if result != NO_ERR {
            status, running := result, false;
          } else {
            sunk := sunk + numRead;
            if numRead < frameCount {
              status, running := NO_ERR, false;
            } else {
              k := k + 1;
            }
          }
        }
      }
    }
  }
}
