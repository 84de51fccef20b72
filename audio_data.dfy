/** In-memory audio (`AudioNodes/Sources/AudioData.swift`): `AudioData` holds
    up to a minute of audio in chunks of one second each and keeps two
    counters, the frames written so far and the frames read so far; the
    memory player plays it back. The copies are done by `Utilities.Copy`
    into and out of the chunk buffers; what is specified here is where each
    copy goes and how the counters move. */
module Memory {
  import opened Buffers
  import Arith
  import Utilities
  import GraphNode

  /** `Int.max`, the frame limit of a `Copy` that has none. */
  const INT_MAX: int := 0x7FFF_FFFF_FFFF_FFFF

  /** `Int(ceil(x))`. */
  function Ceil(x: real): (n: int)
    ensures x <= n as real < x + 1.0
  {
    -((-x).Floor)
  }

  /** A counter of the data (`framesWritten` or `framesRead`) and the
      buffer position (`framesCopied`) where a copy loop stopped. */
  datatype Counters = Counters(position: nat, framesCopied: nat)

  /** The frames one turn of the loop copies: what is left in the buffer,
      what is left in the current chunk, and at most `framesMax`. */
  function StepCount(position: nat, framesCopied: nat, bufferFrames: nat, chunkCapacity: nat, framesMax: int): (n: int)
    requires chunkCapacity > 0
    ensures n <= bufferFrames - framesCopied && n + position % chunkCapacity <= chunkCapacity && n <= framesMax
    ensures n == bufferFrames - framesCopied || n + position % chunkCapacity == chunkCapacity || n == framesMax
  {
    Min(Min(bufferFrames - framesCopied, chunkCapacity - position % chunkCapacity), framesMax)
  }

  /** The loop of `write` and of `read`: copy between the buffer at
      `framesCopied` and the data at `position` until the buffer reaches
      `frameCount` or the data reaches `limit`. With `capped`, no copy goes
      past `limit`; without it a copy is bounded by the chunk only. */
  function Transfer(position: nat, framesCopied: nat, frameCount: nat, bufferFrames: nat,
                    chunkCapacity: nat, limit: nat, capped: bool): (t: Counters)
    requires chunkCapacity > 0 && framesCopied <= bufferFrames && frameCount <= bufferFrames
    decreases frameCount - framesCopied
    ensures framesCopied <= t.framesCopied <= bufferFrames
  {
    if framesCopied < frameCount && position < limit then
      var n := StepCount(position, framesCopied, bufferFrames, chunkCapacity, if capped then limit - position else INT_MAX);
      Transfer(position + n, framesCopied + n, frameCount, bufferFrames, chunkCapacity, limit, capped)
    else Counters(position, framesCopied)
  }

  /** One turn of the loop. */
  lemma TransferStep(position: nat, framesCopied: nat, frameCount: nat, bufferFrames: nat,
                     chunkCapacity: nat, limit: nat, capped: bool, n: int, position': nat, framesCopied': nat)
    requires chunkCapacity > 0 && framesCopied <= bufferFrames && frameCount <= bufferFrames
    requires framesCopied < frameCount && position < limit
    requires n == StepCount(position, framesCopied, bufferFrames, chunkCapacity, if capped then limit - position else INT_MAX)
    requires position' == position + n && framesCopied' == framesCopied + n
    ensures framesCopied' <= bufferFrames
    ensures Transfer(position, framesCopied, frameCount, bufferFrames, chunkCapacity, limit, capped) ==
            Transfer(position', framesCopied', frameCount, bufferFrames, chunkCapacity, limit, capped)
  {
  }

  /** Both counters move by the same amount, the buffer is never overrun,
      and the loop stops only when the buffer is full or the data is at its
      limit. */
  lemma {:induction false} TransferAdvances(position: nat, framesCopied: nat, frameCount: nat, bufferFrames: nat,
                                            chunkCapacity: nat, limit: nat, capped: bool)
    requires chunkCapacity > 0 && framesCopied <= bufferFrames && frameCount <= bufferFrames
    decreases frameCount - framesCopied
    ensures var t := Transfer(position, framesCopied, frameCount, bufferFrames, chunkCapacity, limit, capped);
      framesCopied <= t.framesCopied <= bufferFrames && t.position - position == t.framesCopied - framesCopied &&
      (t.framesCopied >= frameCount || t.position >= limit)
  {
    if framesCopied < frameCount && position < limit {
      var n := StepCount(position, framesCopied, bufferFrames, chunkCapacity, if capped then limit - position else INT_MAX);
      TransferAdvances(position + n, framesCopied + n, frameCount, bufferFrames, chunkCapacity, limit, capped);
    }
  }

  /** A capped loop never takes the counter past the limit. */
  lemma {:induction false} CappedWithinLimit(position: nat, framesCopied: nat, frameCount: nat, bufferFrames: nat,
                                             chunkCapacity: nat, limit: nat)
    requires chunkCapacity > 0 && framesCopied <= bufferFrames && frameCount <= bufferFrames && position <= limit
    decreases frameCount - framesCopied
    ensures Transfer(position, framesCopied, frameCount, bufferFrames, chunkCapacity, limit, true).position <= limit
  {
    if framesCopied < frameCount && position < limit {
      var n := StepCount(position, framesCopied, bufferFrames, chunkCapacity, limit - position);
      CappedWithinLimit(position + n, framesCopied + n, frameCount, bufferFrames, chunkCapacity, limit);
    }
  }

  /** An uncapped loop stays within the chunks: no copy crosses a chunk end. */
  lemma {:induction false} UncappedWithinChunks(position: nat, framesCopied: nat, frameCount: nat, bufferFrames: nat,
                                                chunkCapacity: nat, chunkCount: nat, limit: nat)
    requires chunkCapacity > 0 && framesCopied <= bufferFrames && frameCount <= bufferFrames
    requires position <= chunkCapacity * chunkCount && limit <= chunkCapacity * chunkCount
    decreases frameCount - framesCopied
    ensures Transfer(position, framesCopied, frameCount, bufferFrames, chunkCapacity, limit, false).position <= chunkCapacity * chunkCount
  {
    if framesCopied < frameCount && position < limit {
      var n := StepCount(position, framesCopied, bufferFrames, chunkCapacity, INT_MAX);
      Arith.ChunkEnd(position, chunkCapacity, chunkCount);
      UncappedWithinChunks(position + n, framesCopied + n, frameCount, bufferFrames, chunkCapacity, chunkCount, limit);
    }
  }

  /** `write` stores all of the cycle that fits: at least
      `min(frameCount - offset, frameCapacity - framesWritten)` frames, and
      at most what the buffer and the data hold past those points; on a
      buffer of exactly `frameCount` frames, exactly that minimum. */
  lemma WriteAmount(framesWritten: nat, offset: nat, frameCount: nat, bufferFrames: nat, chunkCapacity: nat, chunkCount: nat)
    requires chunkCapacity > 0 && offset <= frameCount <= bufferFrames && framesWritten <= chunkCapacity * chunkCount
    ensures var cap := chunkCapacity * chunkCount;
      var t := Transfer(framesWritten, offset, frameCount, bufferFrames, chunkCapacity, cap, false);
      t.position <= cap &&
      Min(frameCount - offset, cap - framesWritten) <= t.framesCopied - offset <= Min(bufferFrames - offset, cap - framesWritten) &&
      (bufferFrames == frameCount ==> t.framesCopied - offset == Min(frameCount - offset, cap - framesWritten))
  {
    var cap := chunkCapacity * chunkCount;
    TransferAdvances(framesWritten, offset, frameCount, bufferFrames, chunkCapacity, cap, false);
    UncappedWithinChunks(framesWritten, offset, frameCount, bufferFrames, chunkCapacity, chunkCount, cap);
  }

  /** The corrected `read` delivers what was written and not yet read, as
      much as fits: at least `min(frameCount - offset, framesWritten -
      framesRead)` frames, at most what the buffer holds past `offset`, and
      never past what was written; on a buffer of exactly `frameCount`
      frames, exactly that minimum. */
  lemma ReadAmount(framesRead: nat, framesWritten: nat, offset: nat, frameCount: nat, bufferFrames: nat, chunkCapacity: nat)
    requires chunkCapacity > 0 && offset <= frameCount <= bufferFrames && framesRead <= framesWritten
    ensures var t := Transfer(framesRead, offset, frameCount, bufferFrames, chunkCapacity, framesWritten, true);
      t.position <= framesWritten &&
      Min(frameCount - offset, framesWritten - framesRead) <= t.framesCopied - offset <= Min(bufferFrames - offset, framesWritten - framesRead) &&
      (bufferFrames == frameCount ==> t.framesCopied - offset == Min(frameCount - offset, framesWritten - framesRead))
  {
    TransferAdvances(framesRead, offset, frameCount, bufferFrames, chunkCapacity, framesWritten, true);
    CappedWithinLimit(framesRead, offset, frameCount, bufferFrames, chunkCapacity, framesWritten);
  }

  /** `read` as written bounds each copy by the chunk, not by what was
      written: with one-second chunks of 4 frames, 1 frame written and none
      read, a read of 4 frames takes the read counter to 4. */
  lemma ReadPastWritten()
    ensures Transfer(0, 0, 4, 4, 4, 1, false).position == 4
  {
    assert StepCount(0, 0, 4, 4, INT_MAX) == 4;
    assert Transfer(4, 4, 4, 4, 4, 1, false) == Counters(4, 4);
  }

  /** A copy of `n` frames to position `t` of the data that stays in one
      chunk covers position `p` exactly when `p` lies in chunk
      `t / chunkCapacity` at an offset the copy covers; there `p` is `p - t`
      frames into the copy. */
  lemma ChunkPosition(t: nat, n: nat, chunkCapacity: nat, p: nat)
    requires chunkCapacity > 0 && t % chunkCapacity + n <= chunkCapacity
    ensures (t <= p < t + n) <==>
      (p / chunkCapacity == t / chunkCapacity && t % chunkCapacity <= p % chunkCapacity < t % chunkCapacity + n)
    ensures t <= p < t + n ==> p % chunkCapacity == t % chunkCapacity + (p - t)
  {
    var start := t / chunkCapacity * chunkCapacity;
    assert t == start + t % chunkCapacity;
    if t <= p < t + n {
      Arith.DivUnique(p, chunkCapacity, t / chunkCapacity, t % chunkCapacity + (p - t));
    } else if p / chunkCapacity == t / chunkCapacity {
      assert p == start + p % chunkCapacity;
    }
  }

  class AudioData {
    const sampleRate: real
    /** `Int(ceil(sampleRate))`: frames per chunk. */
    const chunkCapacity: nat
    const chunks: seq<BufferList>
    /** The channels of every chunk. */
    ghost const channels: nat
    var framesRead: nat
    var framesWritten: nat

    /** `frameCapacity`. */
    function FrameCapacity(): nat {
      chunkCapacity * |chunks|
    }

    /** Chunks of `chunkCapacity` frames and of the same channels, each with
        its own storage. */
    ghost predicate Layout() {
      chunkCapacity > 0 && channels > 0 &&
      (forall k :: 0 <= k < |chunks| ==> chunks[k].Channels() == channels && chunks[k].Capacity() == chunkCapacity) &&
      forall j, k :: 0 <= j < k < |chunks| ==> chunks[j].samples != chunks[k].samples
    }

    /** The layout, each chunk at its full sample count, and both counters
        within the capacity. */
    ghost predicate Valid()
      reads this, chunks
    {
      Layout() && |chunks| > 0 && sampleRate > 0.0 &&
      (forall k :: 0 <= k < |chunks| ==> chunks[k].Valid() && chunks[k].FrameCount() == chunkCapacity) &&
      framesWritten <= FrameCapacity() && framesRead <= FrameCapacity()
    }

    /** Nothing has been read that was not written. */
    predicate Consistent()
      reads this
    {
      framesRead <= framesWritten
    }

    /** A buffer the data does not share storage with. */
    ghost predicate Apart(buffers: BufferList) {
      forall k :: 0 <= k < |chunks| ==> chunks[k].samples != buffers.samples
    }

    ghost function ChunkSamples(): set<array2<real>> {
      set k | 0 <= k < |chunks| :: chunks[k].samples
    }

    /** The chunk that holds position `p`. */
    function ChunkIndex(p: nat): (k: nat)
      requires chunkCapacity > 0 && p < FrameCapacity()
      ensures k < |chunks| && k == p / chunkCapacity
    {
      Arith.ChunkEnd(p, chunkCapacity, |chunks|);
      p / chunkCapacity
    }

    /** Frame `p` of channel `c` of the data: frame `p % chunkCapacity` of
        chunk `p / chunkCapacity`. */
    ghost function At(c: nat, p: nat): real
      requires Layout() && c < channels && p < FrameCapacity()
      reads chunks[ChunkIndex(p)].samples
    {
      chunks[ChunkIndex(p)].samples[c, p % chunkCapacity]
    }

    /** The data as one buffer of `frameCapacity` frames. */
    ghost function Stored(): (b: Buf)
      requires Layout()
      reads ChunkSamples()
      ensures Shaped(b, channels, FrameCapacity())
      ensures forall c, p :: 0 <= c < channels && 0 <= p < FrameCapacity() ==> b[c][p] == At(c, p)
    {
      seq(channels, c requires 0 <= c < channels reads ChunkSamples() =>
        seq(FrameCapacity(), p requires 0 <= p < FrameCapacity() reads ChunkSamples() => At(c, p)))
    }

    /** `durationSeconds` chunks of one second each, empty. */
    constructor (durationSeconds: int, sampleRate: real, isStereo: bool)
      requires 0 < durationSeconds <= 60 && sampleRate > 0.0
      ensures Valid() && Consistent() && this.sampleRate == sampleRate
      ensures chunkCapacity == Ceil(sampleRate) && |chunks| == durationSeconds
      ensures channels == (if isStereo then 2 else 1)
      ensures framesRead == 0 && framesWritten == 0
    {
      var capacity := Ceil(sampleRate);
      var cs: seq<BufferList> := [];
      while |cs| < durationSeconds
        invariant |cs| <= durationSeconds
        invariant forall k :: 0 <= k < |cs| ==>
          cs[k].Valid() && cs[k].Channels() == (if isStereo then 2 else 1) &&
          cs[k].Capacity() == capacity && cs[k].FrameCount() == capacity
        invariant forall j, k :: 0 <= j < k < |cs| ==> cs[j].samples != cs[k].samples
      {
        var chunk := new BufferList(isStereo, capacity);
        cs := cs + [chunk];
      }
      this.sampleRate := sampleRate;
      channels := if isStereo then 2 else 1;
      chunkCapacity := capacity;
      chunks := cs;
      framesRead := 0;
      framesWritten := 0;
    }

    /** `write`: appends frames `[offset, frameCount)` of `buffers` to the
        data, chunk `framesWritten / chunkCapacity` at offset
        `framesWritten % chunkCapacity` each turn, until the buffer is
        done or the data is full. Returns the frames stored; those are the
        data's frames from the old write counter on, and nothing else of
        the data changes. */
    method Write(frameCount: nat, buffers: BufferList, offset: nat) returns (result: int)
      requires Valid() && buffers.Valid() && Apart(buffers)
      requires offset <= frameCount <= buffers.FrameCount()
      modifies this, ChunkSamples()
      ensures Valid() && framesRead == old(framesRead) && framesWritten == old(framesWritten) + result
      ensures var t := Transfer(old(framesWritten), offset, frameCount, buffers.FrameCount(), chunkCapacity, FrameCapacity(), false);
        framesWritten == t.position && result == t.framesCopied - offset
      ensures 0 <= result && offset + result <= buffers.FrameCount()
      ensures forall c, p :: 0 <= c < channels && 0 <= p < FrameCapacity() ==>
        At(c, p) == if old(framesWritten) <= p < framesWritten
          then buffers.samples[SourceChannel(c, buffers.Channels()), offset + (p - old(framesWritten))]
          else old(At(c, p))
      ensures Stored() == CopiedFrom(old(Stored()), buffers.Frames(), offset, old(framesWritten), result)
    {
      var bufferFrames := buffers.FrameCount();
      ghost var start := framesWritten;
      ghost var before := Stored();
      ghost var target := Transfer(framesWritten, offset, frameCount, bufferFrames, chunkCapacity, FrameCapacity(), false);
      TransferAdvances(framesWritten, offset, frameCount, bufferFrames, chunkCapacity, FrameCapacity(), false);
      var framesCopied := offset;
      while framesCopied < frameCount && framesWritten < FrameCapacity()
        invariant Valid() && framesRead == old(framesRead) && start <= framesWritten
        invariant offset <= framesCopied <= bufferFrames && buffers.FrameCount() == bufferFrames
        invariant framesWritten - start == framesCopied - offset
        invariant forall c, p :: 0 <= c < channels && 0 <= p < FrameCapacity() ==>
          At(c, p) == if start <= p < framesWritten
            then buffers.samples[SourceChannel(c, buffers.Channels()), offset + (p - start)]
            else before[c][p]
        invariant Transfer(framesWritten, framesCopied, frameCount, bufferFrames, chunkCapacity, FrameCapacity(), false) == target
        decreases frameCount - framesCopied
      {
        ghost var fc, fw := framesCopied, framesWritten;
        var copied := WriteChunk(buffers, framesCopied, before, start, offset);
        TransferStep(fw, fc, frameCount, bufferFrames, chunkCapacity, FrameCapacity(), false,
                     copied, framesWritten, fc + copied);
        framesCopied := framesCopied + copied;
      }
      result := framesCopied - offset;
      CopiedPointwise(Stored(), before, buffers.Frames(), offset, start, result);
    }

    /** One turn of `write`: a copy from the buffer at `framesCopied` into
        chunk `framesWritten / chunkCapacity` at `framesWritten % chunkCapacity`,
        which is the data at `framesWritten`; the write counter moves past it.
        Data holding the buffer from `offset` at `[start, framesWritten)`,
        and `before` elsewhere, then holds it up to the new write counter. */
    method WriteChunk(buffers: BufferList, framesCopied: nat,
                      ghost before: Buf, ghost start: nat, ghost offset: nat) returns (copied: nat)
      requires Valid() && buffers.Valid() && Apart(buffers)
      requires framesCopied < buffers.FrameCount() && framesWritten < FrameCapacity()
      requires start <= framesWritten && offset <= framesCopied && framesWritten - start == framesCopied - offset
      requires Shaped(before, channels, FrameCapacity())
      requires forall c, p :: 0 <= c < channels && 0 <= p < FrameCapacity() ==>
        At(c, p) == if start <= p < framesWritten
          then buffers.samples[SourceChannel(c, buffers.Channels()), offset + (p - start)]
          else before[c][p]
      modifies this, ChunkSamples()
      ensures Valid() && framesRead == old(framesRead) && framesWritten == old(framesWritten) + copied
      ensures copied == StepCount(old(framesWritten), framesCopied, buffers.FrameCount(), chunkCapacity, INT_MAX)
      ensures 0 < copied && framesWritten <= FrameCapacity() && framesCopied + copied <= buffers.FrameCount()
      ensures forall c, p :: 0 <= c < channels && 0 <= p < FrameCapacity() ==>
        At(c, p) == if start <= p < framesWritten
          then buffers.samples[SourceChannel(c, buffers.Channels()), offset + (p - start)]
          else before[c][p]
    {
      copied := CopyIn(buffers, framesCopied);
      framesWritten := framesWritten + copied;
    }

    /** The copy of a turn of `write`, the write counter left as it is. */
    method CopyIn(buffers: BufferList, framesCopied: nat) returns (copied: nat)
      requires Valid() && buffers.Valid() && Apart(buffers)
      requires framesCopied < buffers.FrameCount() && framesWritten < FrameCapacity()
      modifies ChunkSamples()
      ensures Valid()
      ensures copied == StepCount(framesWritten, framesCopied, buffers.FrameCount(), chunkCapacity, INT_MAX)
      ensures 0 < copied && framesWritten + copied <= FrameCapacity() && framesCopied + copied <= buffers.FrameCount()
      ensures forall c, p :: 0 <= c < channels && 0 <= p < FrameCapacity() ==>
        At(c, p) == if framesWritten <= p < framesWritten + copied
          then buffers.samples[SourceChannel(c, buffers.Channels()), framesCopied + (p - framesWritten)]
          else old(At(c, p))
    {
      Arith.ChunkEnd(framesWritten, chunkCapacity, |chunks|);
      var k := framesWritten / chunkCapacity;
      var chunk := chunks[k];
      copied := Utilities.Copy(buffers, chunk, framesCopied, framesWritten % chunkCapacity, INT_MAX);
      forall c, p | 0 <= c < channels && 0 <= p < FrameCapacity()
        ensures At(c, p) == if framesWritten <= p < framesWritten + copied
          then buffers.samples[SourceChannel(c, buffers.Channels()), framesCopied + (p - framesWritten)]
          else old(At(c, p))
      {
        ChunkPosition(framesWritten, copied, chunkCapacity, p);
        if ChunkIndex(p) != k {
          assert chunks[ChunkIndex(p)].samples != chunk.samples;
        }
      }
    }

    /** One turn of `read`: a copy from chunk `framesRead / chunkCapacity`
        at `framesRead % chunkCapacity`, which is the data at `framesRead`,
        into the buffer at `framesCopied`, of at most `framesMax` frames;
        the read counter moves past it. A buffer holding the data from
        `start` at `[offset, framesCopied)`, and `before` elsewhere, then
        holds it at `[offset, framesCopied + copied)`. */
    method ReadChunk(buffers: BufferList, framesCopied: nat, framesMax: int,
                     ghost before: Buf, ghost start: nat, ghost offset: nat) returns (copied: nat)
      requires Valid() && buffers.Valid() && Apart(buffers)
      requires framesCopied < buffers.FrameCount() && framesRead < framesWritten && framesMax > 0
      requires start <= framesRead && offset <= framesCopied && framesRead - start == framesCopied - offset
      requires Shaped(before, buffers.Channels(), buffers.Capacity())
      requires forall c, i :: 0 <= c < buffers.Channels() && 0 <= i < buffers.Capacity() ==>
        buffers.samples[c, i] == if offset <= i < framesCopied
          then At(SourceChannel(c, channels), start + (i - offset))
          else before[c][i]
      modifies this, buffers.samples
      ensures Valid() && framesWritten == old(framesWritten) && framesRead == old(framesRead) + copied
      ensures copied == StepCount(old(framesRead), framesCopied, buffers.FrameCount(), chunkCapacity, framesMax)
      ensures 0 < copied && framesRead <= FrameCapacity() && framesCopied + copied <= buffers.FrameCount()
      ensures buffers.Valid() && buffers.FrameCount() == old(buffers.FrameCount())
      ensures forall c, i :: 0 <= c < buffers.Channels() && 0 <= i < buffers.Capacity() ==>
        buffers.samples[c, i] == if offset <= i < framesCopied + copied
          then At(SourceChannel(c, channels), start + (i - offset))
          else before[c][i]
    {
      copied := CopyOut(buffers, framesCopied, framesMax);
      framesRead := framesRead + copied;
    }

    /** The copy of a turn of `read`, the read counter left as it is. */
    method CopyOut(buffers: BufferList, framesCopied: nat, framesMax: int) returns (copied: nat)
      requires Valid() && buffers.Valid() && Apart(buffers)
      requires framesCopied < buffers.FrameCount() && framesRead < FrameCapacity() && framesMax > 0
      modifies buffers.samples
      ensures copied == StepCount(framesRead, framesCopied, buffers.FrameCount(), chunkCapacity, framesMax)
      ensures 0 < copied && framesRead + copied <= FrameCapacity() && framesCopied + copied <= buffers.FrameCount()
      ensures buffers.Valid() && buffers.FrameCount() == old(buffers.FrameCount())
      ensures forall c, i :: 0 <= c < buffers.Channels() && 0 <= i < buffers.Capacity() ==>
        buffers.samples[c, i] == if framesCopied <= i < framesCopied + copied
          then At(SourceChannel(c, channels), framesRead + (i - framesCopied))
          else old(buffers.samples[c, i])
    {
      Arith.ChunkEnd(framesRead, chunkCapacity, |chunks|);
      var k := framesRead / chunkCapacity;
      var chunk := chunks[k];
      copied := Utilities.Copy(chunk, buffers, framesRead % chunkCapacity, framesCopied, framesMax);
      CopiedOut(buffers, k, framesRead, framesCopied, copied);
    }

    /** A copy from chunk `at / chunkCapacity` at `at % chunkCapacity` is a
        copy from the data at `at`. */
    lemma CopiedOut(buffers: BufferList, k: nat, at: nat, framesCopied: nat, n: nat)
      requires Layout() && at < FrameCapacity() && k == at / chunkCapacity && k < |chunks|
      requires at % chunkCapacity + n <= chunkCapacity && at + n <= FrameCapacity()
      requires forall c, i :: 0 <= c < buffers.samples.Length0 && framesCopied <= i < framesCopied + n && i < buffers.samples.Length1 ==>
        buffers.samples[c, i] ==
          chunks[k].samples[SourceChannel(c, chunks[k].samples.Length0), at % chunkCapacity + (i - framesCopied)]
      ensures forall c, i :: 0 <= c < buffers.Channels() && framesCopied <= i < framesCopied + n && i < buffers.Capacity() ==>
        buffers.samples[c, i] == At(SourceChannel(c, channels), at + (i - framesCopied))
    {
      forall c, i | 0 <= c < buffers.Channels() && framesCopied <= i < framesCopied + n && i < buffers.Capacity()
        ensures buffers.samples[c, i] == At(SourceChannel(c, channels), at + (i - framesCopied))
      {
        ChunkPosition(at, n, chunkCapacity, at + (i - framesCopied));
      }
    }

    /** `read`, corrected: copies the data from `framesRead` into frames
        `[offset, frameCount)` of `buffers`, from chunk
        `framesRead / chunkCapacity` at offset `framesRead % chunkCapacity`
        each turn and never past `framesWritten`. Returns the frames read;
        the buffer receives the data's frames from the old read counter on,
        and nothing else of it changes. */
    method Read(frameCount: nat, buffers: BufferList, offset: nat) returns (result: int)
      requires Valid() && buffers.Valid() && Apart(buffers)
      requires offset <= frameCount <= buffers.FrameCount()
      modifies this, buffers.samples
      ensures Valid() && framesWritten == old(framesWritten) && framesRead == old(framesRead) + result
      ensures old(Consistent()) ==> Consistent()
      ensures var t := Transfer(old(framesRead), offset, frameCount, buffers.FrameCount(), chunkCapacity, framesWritten, true);
        framesRead == t.position && result == t.framesCopied - offset
      ensures 0 <= result && offset + result <= buffers.FrameCount()
      ensures forall c, i :: 0 <= c < buffers.Channels() && 0 <= i < buffers.Capacity() ==>
        buffers.samples[c, i] == if offset <= i < offset + result
          then At(SourceChannel(c, channels), old(framesRead) + (i - offset))
          else old(buffers.samples[c, i])
      ensures buffers.Frames() == CopiedFrom(old(buffers.Frames()), Stored(), old(framesRead), offset, result)
    {
      var bufferFrames := buffers.FrameCount();
      ghost var start := framesRead;
      ghost var before := buffers.Frames();
      ghost var target := Transfer(framesRead, offset, frameCount, bufferFrames, chunkCapacity, framesWritten, true);
      TransferAdvances(start, offset, frameCount, bufferFrames, chunkCapacity, framesWritten, true);
      var framesCopied := offset;
      while framesCopied < frameCount && framesRead < framesWritten
        invariant Valid() && framesWritten == old(framesWritten) && start <= framesRead
        invariant offset <= framesCopied <= bufferFrames && buffers.FrameCount() == bufferFrames && buffers.Valid()
        invariant framesRead - start == framesCopied - offset
        invariant forall c, i :: 0 <= c < buffers.Channels() && 0 <= i < buffers.Capacity() ==>
          buffers.samples[c, i] == if offset <= i < framesCopied
            then At(SourceChannel(c, channels), start + (i - offset))
            else before[c][i]
        invariant Transfer(framesRead, framesCopied, frameCount, bufferFrames, chunkCapacity, framesWritten, true) == target
        decreases frameCount - framesCopied
      {
        ghost var fc, fr := framesCopied, framesRead;
        var copied := ReadChunk(buffers, framesCopied, framesWritten - framesRead, before, start, offset);
        TransferStep(fr, fc, frameCount, bufferFrames, chunkCapacity, framesWritten, true,
                     copied, framesRead, fc + copied);
        framesCopied := framesCopied + copied;
      }
      if start <= framesWritten {
        CappedWithinLimit(start, offset, frameCount, bufferFrames, chunkCapacity, framesWritten);
      }
      result := framesCopied - offset;
      CopiedPointwise(buffers.Frames(), before, Stored(), start, offset, result);
    }

    /** `read` as written: each copy is bounded by the chunk and the buffer
        only, so the read counter can pass the write counter
        (`ReadPastWritten`). The buffer still receives the data's frames from
        the old read counter on. */
    method ReadAsWritten(frameCount: nat, buffers: BufferList, offset: nat) returns (result: int)
      requires Valid() && buffers.Valid() && Apart(buffers)
      requires offset <= frameCount <= buffers.FrameCount()
      modifies this, buffers.samples
      ensures Valid() && framesWritten == old(framesWritten) && framesRead == old(framesRead) + result
      ensures var t := Transfer(old(framesRead), offset, frameCount, buffers.FrameCount(), chunkCapacity, framesWritten, false);
        framesRead == t.position && result == t.framesCopied - offset
      ensures 0 <= result && offset + result <= buffers.FrameCount()
      ensures forall c, i :: 0 <= c < buffers.Channels() && 0 <= i < buffers.Capacity() ==>
        buffers.samples[c, i] == if offset <= i < offset + result
          then At(SourceChannel(c, channels), old(framesRead) + (i - offset))
          else old(buffers.samples[c, i])
      ensures buffers.Frames() == CopiedFrom(old(buffers.Frames()), Stored(), old(framesRead), offset, result)
    {
      var bufferFrames := buffers.FrameCount();
      ghost var start := framesRead;
      ghost var before := buffers.Frames();
      ghost var target := Transfer(framesRead, offset, frameCount, bufferFrames, chunkCapacity, framesWritten, false);
      TransferAdvances(start, offset, frameCount, bufferFrames, chunkCapacity, framesWritten, false);
      var framesCopied := offset;
      while framesCopied < frameCount && framesRead < framesWritten
        invariant Valid() && framesWritten == old(framesWritten) && start <= framesRead
        invariant offset <= framesCopied <= bufferFrames && buffers.FrameCount() == bufferFrames && buffers.Valid()
        invariant framesRead - start == framesCopied - offset
        invariant forall c, i :: 0 <= c < buffers.Channels() && 0 <= i < buffers.Capacity() ==>
          buffers.samples[c, i] == if offset <= i < framesCopied
            then At(SourceChannel(c, channels), start + (i - offset))
            else before[c][i]
        invariant Transfer(framesRead, framesCopied, frameCount, bufferFrames, chunkCapacity, framesWritten, false) == target
        decreases frameCount - framesCopied
      {
        ghost var fc, fr := framesCopied, framesRead;
        var copied := ReadChunk(buffers, framesCopied, INT_MAX, before, start, offset);
        TransferStep(fr, fc, frameCount, bufferFrames, chunkCapacity, framesWritten, false,
                     copied, framesRead, fc + copied);
        framesCopied := framesCopied + copied;
      }
      result := framesCopied - offset;
      CopiedPointwise(buffers.Frames(), before, Stored(), start, offset, result);
    }

    /** `resetRead`: reading starts over; the data stays. */
    method ResetRead()
      modifies this
      ensures framesRead == 0 && framesWritten == old(framesWritten)
    {
      framesRead := 0;
    }

    /** `reset`: the data is emptied. */
    method Reset()
      modifies this
      ensures framesRead == 0 && framesWritten == 0
    {
      ResetRead();
      framesWritten := 0;
    }

    /** `isAtEnd`: everything written has been read. */
    predicate IsAtEnd()
      reads this
    {
      framesRead == framesWritten
    }

    /** `capacity`, in seconds. */
    function Capacity(): (c: real)
      requires sampleRate > 0.0
      ensures c * sampleRate == FrameCapacity() as real
    {
      FrameCapacity() as real / sampleRate
    }

    /** `duration`: the frames written, in seconds. */
    function Duration(): (d: real)
      reads this
      requires sampleRate > 0.0
      ensures d * sampleRate == framesWritten as real
    {
      framesWritten as real / sampleRate
    }

    /** `time`: the frames read, in seconds. */
    function Time(): (t: real)
      reads this
      requires sampleRate > 0.0
      ensures t * sampleRate == framesRead as real
    {
      framesRead as real / sampleRate
    }
  }

  /** A node that plays an `AudioData` (`MemoryPlayer`). */
  class MemoryPlayer {
    const node: GraphNode.Node
    const data: AudioData

    constructor (data: AudioData, isEnabled: bool)
      ensures this.data == data && fresh(node)
      ensures node.State() == GraphNode.NodeState(GraphNode.InitialConfig(isEnabled), GraphNode.InitialConfig(isEnabled), isEnabled, false)
    {
      this.data := data;
      node := new GraphNode.Node(isEnabled);
    }

    /** `read`: reads from the data; when fewer than `frameCount` frames
        come back the buffer is padded with silence from `result` on and the
        player disables itself. */
    method Read(frameCount: nat, buffers: BufferList, offset: nat) returns (result: int)
      requires data.Valid() && buffers.Valid() && data.Apart(buffers)
      requires offset <= frameCount <= buffers.FrameCount()
      modifies data, buffers.samples, node
      ensures data.Valid() && data.framesWritten == old(data.framesWritten)
      ensures data.framesRead == old(data.framesRead) + result && 0 <= result && offset + result <= buffers.FrameCount()
      ensures old(data.Consistent()) ==> data.Consistent()
      ensures var t := Transfer(old(data.framesRead), offset, frameCount, buffers.FrameCount(), data.chunkCapacity, data.framesWritten, true);
        data.framesRead == t.position && result == t.framesCopied - offset
      ensures result < frameCount ==>
        node.State() == old(node.State()).(pending := old(node.pending).(enabled := false)) &&
        forall c, i :: 0 <= c < buffers.Channels() && 0 <= result <= i < frameCount ==> buffers.Frames()[c][i] == 0.0
      ensures result >= frameCount ==> node.State() == old(node.State())
      ensures var copied := CopiedFrom(old(buffers.Frames()), data.Stored(), old(data.framesRead), offset, result);
        buffers.Frames() == if result < frameCount then Silenced(copied, frameCount, result) else copied
    {
      result := data.Read(frameCount, buffers, offset);
      ghost var stored := data.Stored();
      TransferAdvances(old(data.framesRead), offset, frameCount, buffers.FrameCount(), data.chunkCapacity, data.framesWritten, true);
      if result < frameCount {
        assert buffers.samples !in data.ChunkSamples();
        var _ := Utilities.FillSilence(frameCount, buffers, result);
        node.SetEnabled(false);
      }
      assert data.Stored() == stored;
    }

    /** `_render`: a read at offset 0; the status is `noErr`. */
    method Render(frameCount: nat, buffers: BufferList) returns (status: int)
      requires data.Valid() && buffers.Valid() && data.Apart(buffers)
      requires frameCount <= buffers.FrameCount()
      modifies data, buffers.samples, node
      ensures status == NO_ERR && data.Valid() && data.framesWritten == old(data.framesWritten)
      ensures old(data.Consistent()) ==> data.Consistent()
      ensures var t := Transfer(old(data.framesRead), 0, frameCount, buffers.FrameCount(), data.chunkCapacity, data.framesWritten, true);
        data.framesRead == t.position && data.framesRead == old(data.framesRead) + t.framesCopied &&
        (t.framesCopied < frameCount ==>
          node.State() == old(node.State()).(pending := old(node.pending).(enabled := false)) &&
          forall c, i :: 0 <= c < buffers.Channels() && t.framesCopied <= i < frameCount ==> buffers.Frames()[c][i] == 0.0) &&
        (t.framesCopied >= frameCount ==> node.State() == old(node.State())) &&
        var copied := CopiedFrom(old(buffers.Frames()), data.Stored(), old(data.framesRead), 0, t.framesCopied);
        buffers.Frames() == if t.framesCopied < frameCount then Silenced(copied, frameCount, t.framesCopied) else copied
    {
      var _ := Read(frameCount, buffers, 0);
      status := NO_ERR;
    }

    /** `isAtEnd`, `time` and `duration` are the data's. */
    predicate IsAtEnd()
      reads data
    {
      data.IsAtEnd()
    }
  }

  /** With room in the buffer, the corrected `read` delivers nothing exactly
      when the data is at its end, and then its time is its duration. */
  lemma AtEndReadsNothing(d: AudioData, offset: nat, frameCount: nat)
    requires d.Valid() && d.Consistent() && offset < frameCount
    ensures d.IsAtEnd() <==>
      Transfer(d.framesRead, offset, frameCount, frameCount, d.chunkCapacity, d.framesWritten, true).framesCopied == offset
    ensures d.IsAtEnd() ==> d.Time() == d.Duration()
  {
    ReadAmount(d.framesRead, d.framesWritten, offset, frameCount, frameCount, d.chunkCapacity);
  }

  /** A memory player at the end of its data plays a whole cycle of silence:
      its read delivers no frame. */
  lemma PlayerAtEndReadsNothing(p: MemoryPlayer, frameCount: nat)
    requires p.data.Valid() && p.data.Consistent() && 0 < frameCount
    ensures p.IsAtEnd() <==>
      Transfer(p.data.framesRead, 0, frameCount, frameCount, p.data.chunkCapacity, p.data.framesWritten, true).framesCopied == 0
  {
    AtEndReadsNothing(p.data, 0, frameCount);
  }
}
