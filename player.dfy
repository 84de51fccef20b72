/** The file player (`FilePlayer` in `AudioNodes/Sources/Player.swift`).

    A player keeps a playhead in stream frames and copies frames out of the
    blocks its reader has cached, block after block, until the request is
    filled, the block under the playhead is not cached (a miss, played as
    silence until the cache catches up) or a copy yields nothing (the end
    of the file). The asynchronous `prepopulate` requests the source issues
    are returned as the list of positions asked for, and the delegate
    notifications are left out.

    The meaning of one `read` is the function `ReadLoop` over the cache as a
    map from block offsets to their contents, so the buffer a render
    produces is stated frame by frame in terms of the stream. */
module Player {
  import opened Buffers
  import Utilities
  import GraphNode
  import opened FileReader

  /** Stream frame `p` is cached: its block is in the cache and holds it. */
  predicate Available(m: map<int, Cached>, blockSize: nat, p: nat)
    requires blockSize > 0
  {
    var k := BlockKey(p, blockSize);
    k in m && p - k < m[k].count
  }

  /** A playhead is never past the data of its block, should that block be
      cached; otherwise the copy in `read` would be asked for a negative
      number of frames, which the source traps on. */
  predicate InData(m: map<int, Cached>, blockSize: nat, p: nat)
    requires blockSize > 0
  {
    var k := BlockKey(p, blockSize);
    k in m ==> p - k <= m[k].count
  }

  /** The cache holds the frames of a file of `total` frames: every cached
      block as many as the file has from its offset on, up to a block. */
  predicate HoldsFile(m: map<int, Cached>, blockSize: nat, total: nat) {
    forall k :: k in m ==> m[k].count == Min(blockSize, Max(total - k, 0))
  }

  /** A playhead no further than the end of the file is within the data of
      its block, so every seek clamped to a file length that the decoder
      delivers in full can be read without the copy trapping. */
  lemma SeekWithinFileIsInData(m: map<int, Cached>, blockSize: nat, total: nat, p: nat)
    requires blockSize > 0 && HoldsFile(m, blockSize, total) && p <= total
    ensures InData(m, blockSize, p)
  {
    var k := BlockKey(p, blockSize);
    if k in m {
      assert m[k].count == Min(blockSize, total - k);
    }
  }

  /** A file that decodes one frame short of its estimate: blocks of 4
      frames, 5 frames delivered, 6 estimated. A seek to the estimated end
      (`setAtEnd`) puts the playhead 2 frames into the block at 4, which
      holds 1 frame, so the copy would be asked for -1 frames. */
  lemma ShortFileSeekBreaksInData()
    ensures var m := map[4 := Cached(4, 1, [[0.0, 0.0, 0.0, 0.0]])];
      HoldsFile(m, 4, 5) && !InData(m, 4, 6) &&
      BlockKey(6, 4) == 4 && m[4].count - (6 - 4) == -1
  {
    var m := map[4 := Cached(4, 1, [[0.0, 0.0, 0.0, 0.0]])];
    assert BlockKey(6, 4) == 4;
  }

  /** The sample of stream frame `p` that lands in output channel `c`: a
      mono file fills every output channel from its one channel. A frame
      that is not cached reads as silence; `ReadLoopAdvances` shows that
      the `read` loop only passes cached frames. */
  function StreamSample(m: map<int, Cached>, blockSize: nat, p: nat, c: nat): real
    requires blockSize > 0
  {
    var k := BlockKey(p, blockSize);
    if k in m && |m[k].samples| > 0 then
      var s := m[k].samples[SourceChannel(c, |m[k].samples|)];
      if p - k < |s| then s[p - k] else 0.0
    else 0.0
  }

  /** Where one `read` loop stops: the playhead, the write position, and
      why it stopped short, if it did. */
  datatype Stop = Stop(playhead: nat, framesCopied: nat, missed: bool, reachedEnd: bool)

  /** The `read` loop from stream frame `playhead` and output frame
      `copied`, writing up to `frameCount`; `toFrames` is the output's own
      frame count, which bounds every copy too. The playhead advances by
      exactly the frames written, every frame it passes is cached, and it
      stays within the data of its block. */
  function ReadLoop(m: map<int, Cached>, blockSize: nat, playhead: nat, copied: nat,
                    frameCount: nat, toFrames: nat): (r: Stop)
    requires blockSize > 0 && CacheWellFormed(m, blockSize) && InData(m, blockSize, playhead)
    requires copied <= toFrames
    decreases frameCount - copied
    ensures r.playhead - playhead == r.framesCopied - copied
    ensures copied <= r.framesCopied <= toFrames
    ensures copied <= frameCount ==> r.framesCopied <= frameCount
  {
    if copied >= frameCount then Stop(playhead, copied, false, false)
    else
      var k := BlockKey(playhead, blockSize);
      if k !in m then Stop(playhead, copied, true, false)
      else
        var n := Min(Min(m[k].count - (playhead - k), toFrames - copied), frameCount - copied);
        if n == 0 then Stop(playhead, copied, false, true)
        else
          StepInData(m, blockSize, playhead, n);
          ReadLoop(m, blockSize, playhead + n, copied + n, frameCount, toFrames)
  }

  /** Copying within the data of the block under the playhead passes only
      cached frames and keeps the playhead within the data of its (possibly
      next) block. */
  lemma StepInData(m: map<int, Cached>, blockSize: nat, playhead: nat, n: nat)
    requires blockSize > 0 && CacheWellFormed(m, blockSize)
    requires BlockKey(playhead, blockSize) in m
    requires playhead - BlockKey(playhead, blockSize) + n <= m[BlockKey(playhead, blockSize)].count
    ensures InData(m, blockSize, playhead + n)
    ensures forall q :: playhead <= q < playhead + n ==> Available(m, blockSize, q)
  {
    var k := BlockKey(playhead, blockSize);
    if playhead + n < k + blockSize {
      SameBlockKey(playhead, playhead + n, blockSize);
    } else {
      NextBlockKey(playhead, blockSize);
    }
    forall q | playhead <= q < playhead + n ensures Available(m, blockSize, q) {
      SameBlockKey(playhead, q, blockSize);
    }
  }

  /** A frame within the data of the block under `p` is read from that
      block. */
  lemma StreamSampleInBlock(m: map<int, Cached>, blockSize: nat, p: nat, q: nat, c: nat)
    requires blockSize > 0 && CacheWellFormed(m, blockSize)
    requires var k := BlockKey(p, blockSize); k in m && p <= q < k + m[k].count
    ensures var k := BlockKey(p, blockSize); var s := m[k].samples;
      StreamSample(m, blockSize, q, c) == s[SourceChannel(c, |s|)][q - k]
  {
    SameBlockKey(p, q, blockSize);
  }

  /** One block's worth of the `read` loop. */
  lemma ReadLoopStep(m: map<int, Cached>, blockSize: nat, playhead: nat, copied: nat,
                     frameCount: nat, toFrames: nat, n: int)
    requires blockSize > 0 && CacheWellFormed(m, blockSize) && InData(m, blockSize, playhead)
    requires copied <= toFrames && copied < frameCount && BlockKey(playhead, blockSize) in m
    requires var k := BlockKey(playhead, blockSize);
      n == Min(Min(m[k].count - (playhead - k), toFrames - copied), frameCount - copied)
    ensures n >= 0
    ensures n == 0 ==> ReadLoop(m, blockSize, playhead, copied, frameCount, toFrames) == Stop(playhead, copied, false, true)
    ensures n > 0 ==> (InData(m, blockSize, playhead + n) &&
      ReadLoop(m, blockSize, playhead, copied, frameCount, toFrames) ==
      ReadLoop(m, blockSize, playhead + n, copied + n, frameCount, toFrames))
  {
    if n > 0 {
      StepInData(m, blockSize, playhead, n);
    }
  }

  /** Why `read` stops: it filled the request, or it stopped short at a
      block that is not cached (a miss), or at one whose data it has used
      up (the end, also reported when the output itself is full). */
  lemma {:induction false} ReadLoopStops(m: map<int, Cached>, blockSize: nat, playhead: nat, copied: nat,
                                         frameCount: nat, toFrames: nat)
    requires blockSize > 0 && CacheWellFormed(m, blockSize) && InData(m, blockSize, playhead)
    requires copied <= toFrames
    decreases frameCount - copied
    ensures var r := ReadLoop(m, blockSize, playhead, copied, frameCount, toFrames);
      var k := BlockKey(r.playhead, blockSize);
      !(r.missed && r.reachedEnd) &&
      (r.missed ==> r.framesCopied < frameCount && k !in m) &&
      (r.reachedEnd ==> r.framesCopied < frameCount && k in m &&
                        (r.playhead - k == m[k].count || r.framesCopied == toFrames)) &&
      (!r.missed && !r.reachedEnd ==> r.framesCopied >= frameCount)
  {
    if copied < frameCount {
      var k := BlockKey(playhead, blockSize);
      if k in m {
        var n := Min(Min(m[k].count - (playhead - k), toFrames - copied), frameCount - copied);
        if n != 0 {
          StepInData(m, blockSize, playhead, n);
          ReadLoopStops(m, blockSize, playhead + n, copied + n, frameCount, toFrames);
        }
      }
    }
  }

  /** The `read` loop passes only cached frames and leaves the playhead
      within the data of its block. */
  lemma {:induction false} ReadLoopAdvances(m: map<int, Cached>, blockSize: nat, playhead: nat, copied: nat,
                                            frameCount: nat, toFrames: nat)
    requires blockSize > 0 && CacheWellFormed(m, blockSize) && InData(m, blockSize, playhead)
    requires copied <= toFrames
    decreases frameCount - copied
    ensures var r := ReadLoop(m, blockSize, playhead, copied, frameCount, toFrames);
      InData(m, blockSize, r.playhead) && forall q :: playhead <= q < r.playhead ==> Available(m, blockSize, q)
  {
    if copied < frameCount {
      var k := BlockKey(playhead, blockSize);
      if k in m {
        var n := Min(Min(m[k].count - (playhead - k), toFrames - copied), frameCount - copied);
        if n != 0 {
          StepInData(m, blockSize, playhead, n);
          ReadLoopAdvances(m, blockSize, playhead + n, copied + n, frameCount, toFrames);
        }
      }
    }
  }

  /** `out` with frames `[from, to)` replaced by the stream from frame
      `playhead` on. */
  function Streamed(out: Buf, m: map<int, Cached>, blockSize: nat, playhead: nat, from: nat, to: nat): (r: Buf)
    requires blockSize > 0
    ensures SameShape(out, r)
    ensures forall c, i :: 0 <= c < |out| && 0 <= i < |out[c]| && !(from <= i < to) ==> r[c][i] == out[c][i]
  {
    seq(|out|, c requires 0 <= c < |out| =>
      seq(|out[c]|, i requires 0 <= i < |out[c]| =>
        if from <= i < to then StreamSample(m, blockSize, playhead + (i - from), c) else out[c][i]))
  }

  /** Copying the next `n` cached frames of the block under the playhead
      `p` extends the streamed window by `n` frames. */
  lemma {:induction false} StreamedStep(out: Buf, m: map<int, Cached>, blockSize: nat, playhead: nat, from: nat, to: nat, p: nat, n: nat)
    requires blockSize > 0 && CacheWellFormed(m, blockSize) && from <= to && p == playhead + (to - from)
    requires var k := BlockKey(p, blockSize); k in m && p - k + n <= m[k].count
    ensures var k := BlockKey(p, blockSize);
      CopiedFrom(Streamed(out, m, blockSize, playhead, from, to), m[k].samples, p - k, to, n) ==
      Streamed(out, m, blockSize, playhead, from, to + n)
  {
    var k := BlockKey(p, blockSize);
    var before := Streamed(out, m, blockSize, playhead, from, to);
    var after := Streamed(out, m, blockSize, playhead, from, to + n);
    var copied := CopiedFrom(before, m[k].samples, p - k, to, n);
    forall c, i | 0 <= c < |after| && 0 <= i < |after[c]| ensures copied[c][i] == after[c][i] {
      if to <= i < to + n {
        StreamSampleInBlock(m, blockSize, p, playhead + (i - from), c);
      }
    }
    BufEq(copied, after);
  }

  /** The buffer a `read` leaves: the copied frames, then silence up to
      `frameCount` when the loop stopped short. */
  function Padded(out: Buf, framesCopied: nat, frameCount: nat): (b: Buf)
    requires framesCopied <= frameCount
    ensures SameShape(out, b)
    ensures forall c, i :: 0 <= c < |b| && 0 <= i < |b[c]| ==>
      b[c][i] == if framesCopied <= i < frameCount then 0.0 else out[c][i]
  {
    if framesCopied < frameCount then Silenced(out, frameCount, framesCopied) else out
  }

  /** The buffer one `read` leaves, given where its loop stopped. */
  function Rendered(out: Buf, m: map<int, Cached>, blockSize: nat, playhead: nat, offset: nat, frameCount: nat, r: Stop): (b: Buf)
    requires blockSize > 0 && offset <= r.framesCopied <= frameCount
    ensures SameShape(out, b)
    ensures forall c, i :: 0 <= c < |out| && 0 <= i < |out[c]| && (i < offset || frameCount <= i) ==> b[c][i] == out[c][i]
    ensures forall c, i :: 0 <= c < |out| && r.framesCopied <= i < frameCount && i < |out[c]| ==> b[c][i] == 0.0
  {
    Padded(Streamed(out, m, blockSize, playhead, offset, r.framesCopied), r.framesCopied, frameCount)
  }

  /** The asynchronous prefetches one `read` asks for: one at the playhead
      on a miss, and another after the loop unless the end was reached. */
  function Prefetches(r: Stop): (ps: seq<nat>)
    ensures |ps| == (if r.missed then 1 else 0) + (if r.reachedEnd then 0 else 1)
    ensures forall j :: 0 <= j < |ps| ==> ps[j] == r.playhead
  {
    (if r.missed then [r.playhead] else []) + (if r.reachedEnd then [] else [r.playhead])
  }

  /** Swift's `Int(t * sampleRate).clamped(to: 0...total)`: the frame a seek
      to `t` seconds asks for. */
  function SeekFrame(t: real, sampleRate: real, total: nat): (p: nat)
    ensures p <= total
  {
    Utilities.Clamped(Utilities.TruncToInt(t * sampleRate), 0, total)
  }

  /** Seeking to the time of a frame within the file asks for that frame. */
  lemma SeekFrameOfTime(p: nat, sampleRate: real, total: nat)
    requires sampleRate > 0.0 && p <= total
    ensures SeekFrame(p as real / sampleRate, sampleRate, total) == p
  {
    assert (p as real / sampleRate) * sampleRate == p as real;
  }

  /** The output buffer is none of the cached blocks of `file`. */
  ghost predicate Apart(file: Reader, buffers: BufferList)
    reads file, file.cache, file.cache.list, set b | b in file.cache.list :: b.buffers
  {
    forall b :: b in file.cache.list ==> b.buffers.samples != buffers.samples
  }

  /** What the copy loop of `read` relies on: a ready cache that `m`
      mirrors, and an output apart from every cached block. */
  ghost predicate Feeds(file: Reader, m: map<int, Cached>, buffers: BufferList)
    reads file, file.cache, file.cache.list, set b | b in file.cache.list :: b.buffers
    reads set b | b in file.cache.list :: b.buffers.samples
    reads buffers
  {
    file.Ready() && buffers.Valid() && Apart(file, buffers) && file.Mirrors(m) && CacheWellFormed(m, file.blockSize)
  }

  /** The lookup and copy of one pass of the copy loop of `read`: the
      block under the playhead `ph`, when cached, is copied from `ph` on
      into the output at `framesCopied`, as much of it as fits both the
      request and the output. */
  method CopyCached(file: Reader, ghost m: map<int, Cached>, ph: nat, framesCopied: nat, frameCount: nat, buffers: BufferList)
    returns (found: bool, copied: nat)
    requires Feeds(file, m, buffers) && InData(m, file.blockSize, ph)
    requires framesCopied <= buffers.FrameCount() && framesCopied < frameCount
    modifies buffers.samples
    ensures var k := BlockKey(ph, file.blockSize);
      found == (k in m) && (!found ==> copied == 0) &&
      (found ==> copied == Min(Min(m[k].count - (ph - k), buffers.FrameCount() - framesCopied), frameCount - framesCopied))
    ensures Feeds(file, m, buffers) && buffers.FrameCount() == old(buffers.FrameCount())
    ensures var k := BlockKey(ph, file.blockSize);
      buffers.Frames() == if found then CopiedFrom(old(buffers.Frames()), m[k].samples, ph - k, framesCopied, copied) else old(buffers.Frames())
  {
    var block := file.BlockAt(m, ph);
    if block.None? {
      return false, 0;
    }
    var b := block.value;
    ghost var src := b.buffers.Frames();
    assert src == m[BlockKey(ph, file.blockSize)].samples;
    var n := Utilities.Copy(b.buffers, buffers, ph - b.offset, framesCopied, frameCount - framesCopied);
    found, copied := true, n;
    assert b.buffers.Frames() == src;
  }

  /** The state of the `read` loop that started at stream frame `playhead`
      and output frame `offset` on the output `out0`, as values: the
      playhead `ph` is as far into the stream as the loop has written, and
      the output `frames` holds `out0` with the stream in
      `[offset, framesCopied)`. */
  ghost predicate Progress(frames: Buf, out0: Buf, m: map<int, Cached>, blockSize: nat, playhead: nat, offset: nat,
                           ph: nat, framesCopied: nat, toFrames: nat)
  {
    blockSize > 0 && CacheWellFormed(m, blockSize) && InData(m, blockSize, ph) &&
    offset <= framesCopied <= toFrames && ph == playhead + (framesCopied - offset) &&
    frames == Streamed(out0, m, blockSize, playhead, offset, framesCopied)
  }

  /** What one pass of the copy loop of `read` does to the loop state:
      `frames` is the output after the pass, `before` the output before it. */
  lemma PassStep(frames: Buf, before: Buf, out0: Buf, m: map<int, Cached>, blockSize: nat, playhead: nat, offset: nat,
                 target: Stop, ph: nat, framesCopied: nat, frameCount: nat, toFrames: nat, found: bool, copied: nat,
                 ph': nat, framesCopied': nat)
    requires Progress(before, out0, m, blockSize, playhead, offset, ph, framesCopied, toFrames) && framesCopied < frameCount
    requires ReadLoop(m, blockSize, ph, framesCopied, frameCount, toFrames) == target
    requires var k := BlockKey(ph, blockSize);
      found == (k in m) && (!found ==> copied == 0) &&
      (found ==> copied == Min(Min(m[k].count - (ph - k), toFrames - framesCopied), frameCount - framesCopied))
    requires var k := BlockKey(ph, blockSize);
      frames == if found then CopiedFrom(before, m[k].samples, ph - k, framesCopied, copied) else before
    requires ph' == ph + copied && framesCopied' == framesCopied + copied
    ensures Progress(frames, out0, m, blockSize, playhead, offset, ph', framesCopied', toFrames)
    ensures framesCopied' <= frameCount
    ensures (!found ==> Stop(ph, framesCopied, true, false) == target) &&
      (found && copied == 0 ==> Stop(ph, framesCopied, false, true) == target) &&
      (copied > 0 ==> ReadLoop(m, blockSize, ph', framesCopied', frameCount, toFrames) == target)
  {
    if found {
      ReadLoopStep(m, blockSize, ph, framesCopied, frameCount, toFrames, copied);
      StreamedStep(out0, m, blockSize, playhead, offset, framesCopied, ph, copied);
    }
  }

  /** One pass of the copy loop of `read`: looks up the block under the
      playhead `ph` and, when it is cached, copies as much of it as fits
      both the request and the output, so the stream from `playhead`
      reaches `copied` frames further into the output; the pass ends the
      loop where `ReadLoop` ends it, or leaves it where `ReadLoop` goes on. */
  method CopyBlock(file: Reader, ghost m: map<int, Cached>, ghost out0: Buf, ghost playhead: nat, ghost offset: nat, ghost target: Stop,
                   ph: nat, framesCopied: nat, frameCount: nat, buffers: BufferList)
    returns (found: bool, copied: nat, ph': nat, framesCopied': nat)
    requires Feeds(file, m, buffers) && framesCopied < frameCount
    requires Progress(buffers.Frames(), out0, m, file.blockSize, playhead, offset, ph, framesCopied, buffers.FrameCount())
    requires ReadLoop(m, file.blockSize, ph, framesCopied, frameCount, buffers.FrameCount()) == target
    modifies buffers.samples
    ensures Feeds(file, m, buffers) && buffers.FrameCount() == old(buffers.FrameCount())
    ensures ph' == ph + copied && framesCopied' == framesCopied + copied && framesCopied' <= frameCount
    ensures Progress(buffers.Frames(), out0, m, file.blockSize, playhead, offset, ph', framesCopied', buffers.FrameCount())
    ensures (!found ==> copied == 0 && Stop(ph, framesCopied, true, false) == target) &&
      (found && copied == 0 ==> Stop(ph, framesCopied, false, true) == target) &&
      (copied > 0 ==> ReadLoop(m, file.blockSize, ph', framesCopied', frameCount, buffers.FrameCount()) == target)
  {
    ghost var before := buffers.Frames();
    found, copied := CopyCached(file, m, ph, framesCopied, frameCount, buffers);
    ph', framesCopied' := ph + copied, framesCopied + copied;
    PassStep(buffers.Frames(), before, out0, m, file.blockSize, playhead, offset, target,
             ph, framesCopied, frameCount, buffers.FrameCount(), found, copied, ph', framesCopied');
  }

  /** The copy loop of `read`, from stream frame `playhead` into output
      frames `[offset, frameCount)`: it stops where `ReadLoop` says and
      leaves the stream in the frames it copied. */
  method CopyStream(file: Reader, ghost m: map<int, Cached>, playhead: nat, frameCount: nat, buffers: BufferList, offset: nat)
    returns (ph: nat, framesCopied: nat, missed: bool, reachedEnd: bool)
    requires Feeds(file, m, buffers) && InData(m, file.blockSize, playhead)
    requires offset <= frameCount && offset <= buffers.FrameCount()
    modifies buffers.samples
    ensures Feeds(file, m, buffers) && buffers.FrameCount() == old(buffers.FrameCount())
    ensures Stop(ph, framesCopied, missed, reachedEnd) ==
      ReadLoop(m, file.blockSize, playhead, offset, frameCount, buffers.FrameCount())
    ensures buffers.Frames() == Streamed(old(buffers.Frames()), m, file.blockSize, playhead, offset, framesCopied)
  {
    ghost var bs := file.blockSize;
    ghost var toFrames := buffers.FrameCount();
    ghost var out0 := buffers.Frames();
    ghost var target := ReadLoop(m, bs, playhead, offset, frameCount, toFrames);
    ph := playhead;
    framesCopied := offset;
    reachedEnd := false;
    missed := false;
    BufEq(out0, Streamed(out0, m, bs, playhead, offset, offset));
    while framesCopied < frameCount
      invariant Feeds(file, m, buffers) && buffers.FrameCount() == toFrames && framesCopied <= frameCount
      invariant Progress(buffers.Frames(), out0, m, bs, playhead, offset, ph, framesCopied, toFrames)
      invariant ReadLoop(m, bs, ph, framesCopied, frameCount, toFrames) == target
      decreases frameCount - framesCopied
    {
      var found, copied;
      found, copied, ph, framesCopied := CopyBlock(file, m, out0, playhead, offset, target, ph, framesCopied, frameCount, buffers);
      if !found {
        missed := true;
        break;
      }
      if copied == 0 {
        reachedEnd := true;
        break;
      }
    }
  }

  /** The copy loop of `read` followed by its padding: the output becomes
      the rendered buffer of the loop's stop. */
  method CopyAndPad(file: Reader, ghost m: map<int, Cached>, playhead: nat, frameCount: nat, buffers: BufferList, offset: nat)
    returns (r: Stop)
    requires Feeds(file, m, buffers) && InData(m, file.blockSize, playhead)
    requires offset <= frameCount <= buffers.Capacity() && offset <= buffers.FrameCount()
    modifies buffers.samples
    ensures Feeds(file, m, buffers) && buffers.FrameCount() == old(buffers.FrameCount())
    ensures r == ReadLoop(m, file.blockSize, playhead, offset, frameCount, buffers.FrameCount())
    ensures buffers.Frames() == Rendered(old(buffers.Frames()), m, file.blockSize, playhead, offset, frameCount, r)
  {
    var ph, framesCopied, missed, reachedEnd := CopyStream(file, m, playhead, frameCount, buffers, offset);
    r := Stop(ph, framesCopied, missed, reachedEnd);
    if framesCopied < frameCount {
      var _ := Utilities.FillSilence(frameCount, buffers, framesCopied);
    }
  }

  class FilePlayer {
    /** The node the player is; its `enabled` flag starts and stops playback. */
    const node: GraphNode.Node
    const file: Reader
    const sampleRate: real
    const estimatedTotalFrames: nat
    var lastKnownPlayhead: nat
    var pendingPlayhead: Option<nat>
    var playhead: nat
    /** The prefetches the constructor asks for. */
    const initialPrefetches: seq<nat>

    /** What a player needs to be read: a ready cache whose contents are
        `m`, and a playhead (and any pending one) within the data of its
        block. */
    ghost predicate Playable(m: map<int, Cached>)
      reads this, file, file.cache, file.cache.list, set b | b in file.cache.list :: b.buffers
      reads set b | b in file.cache.list :: b.buffers.samples
    {
      file.Ready() && file.Mirrors(m) &&
      InData(m, file.blockSize, playhead) &&
      (pendingPlayhead.Some? ==> InData(m, file.blockSize, pendingPlayhead.value))
    }

    /** The player starts at frame 0 with no seek pending, and asks for the
        blocks from frame 0 to be prefetched. */
    constructor (file: Reader, sampleRate: real, estimatedTotalFrames: nat, isEnabled: bool)
      requires sampleRate > 0.0
      ensures this.file == file && this.sampleRate == sampleRate && this.estimatedTotalFrames == estimatedTotalFrames
      ensures fresh(node) && node.State() == GraphNode.NodeState(GraphNode.InitialConfig(isEnabled), GraphNode.InitialConfig(isEnabled), isEnabled, false)
      ensures lastKnownPlayhead == 0 && pendingPlayhead == None && playhead == 0
      ensures initialPrefetches == [0]
    {
      this.file := file;
      this.sampleRate := sampleRate;
      this.estimatedTotalFrames := estimatedTotalFrames;
      node := new GraphNode.Node(isEnabled);
      lastKnownPlayhead := 0;
      pendingPlayhead := None;
      playhead := 0;
      initialPrefetches := [0];
    }

    /** `read`: fills frames `[offset, frameCount)` of `buffers` from the
        stream, as the cache holds it (`m`), pads a short read with silence,
        and either stops the player at the end of the file or records where
        it got to. Returns the number of frames copied and the prefetches
        asked for. Every frame the playhead passes was cached. */
    method Read(frameCount: nat, buffers: BufferList, offset: nat, ghost m: map<int, Cached>) returns (result: int, prefetches: seq<nat>)
      requires Playable(m) && buffers.Valid() && Apart(file, buffers)
      requires offset <= frameCount <= buffers.Capacity() && offset <= buffers.FrameCount()
      modifies this, node, buffers.samples
      ensures CacheWellFormed(m, file.blockSize)
      ensures var r := ReadLoop(m, file.blockSize, old(playhead), offset, frameCount, buffers.FrameCount());
        buffers.Frames() == Rendered(old(buffers.Frames()), m, file.blockSize, old(playhead), offset, frameCount, r) &&
        playhead == r.playhead && result == r.framesCopied - offset &&
        prefetches == Prefetches(r) && pendingPlayhead == old(pendingPlayhead) &&
        (r.reachedEnd ==> lastKnownPlayhead == estimatedTotalFrames &&
                          node.State() == old(node.State()).(pending := old(node.pending).(enabled := false))) &&
        (!r.reachedEnd ==> lastKnownPlayhead == r.playhead && node.State() == old(node.State()))
      ensures InData(m, file.blockSize, playhead) && forall q :: old(playhead) <= q < playhead ==> Available(m, file.blockSize, q)
    {
      file.MirrorsWellFormed(m);
      ReadLoopAdvances(m, file.blockSize, playhead, offset, frameCount, buffers.FrameCount());
      var r := CopyAndPad(file, m, playhead, frameCount, buffers, offset);
      playhead := r.playhead;
      prefetches := if r.missed then [playhead] else [];
      if r.reachedEnd {
        node.SetEnabled(false);
        lastKnownPlayhead := estimatedTotalFrames;
      } else {
        prefetches := prefetches + [playhead];
        lastKnownPlayhead := playhead;
      }
      result := r.framesCopied - offset;
    }

    /** `_render`: a read at offset 0; the status is always `noErr`. */
    method Render(frameCount: nat, buffers: BufferList, ghost m: map<int, Cached>) returns (status: int, prefetches: seq<nat>)
      requires Playable(m) && buffers.Valid() && Apart(file, buffers)
      requires frameCount <= buffers.Capacity()
      modifies this, node, buffers.samples
      ensures status == NO_ERR && CacheWellFormed(m, file.blockSize)
      ensures var r := ReadLoop(m, file.blockSize, old(playhead), 0, frameCount, buffers.FrameCount());
        buffers.Frames() == Rendered(old(buffers.Frames()), m, file.blockSize, old(playhead), 0, frameCount, r) &&
        playhead == r.playhead && prefetches == Prefetches(r) &&
        node.State() == if r.reachedEnd then old(node.State()).(pending := old(node.pending).(enabled := false)) else old(node.State())
    {
      var _, p := Read(frameCount, buffers, 0, m);
      prefetches := p;
      status := NO_ERR;
    }

    /** `_willRender$`: the node's snapshot, then a pending seek is applied
        once and cleared, and a prefetch is asked for at the new playhead. */
    method WillRender() returns (prefetches: seq<nat>)
      modifies this, node
      ensures node.State() == old(node.State()).(active := old(node.pending))
      ensures old(pendingPlayhead).Some? ==> playhead == old(pendingPlayhead).value && prefetches == [playhead]
      ensures old(pendingPlayhead).None? ==> playhead == old(playhead) && prefetches == []
      ensures pendingPlayhead == None && lastKnownPlayhead == old(lastKnownPlayhead)
    {
      node.WillRender();
      prefetches := [];
      if pendingPlayhead.Some? {
        playhead := pendingPlayhead.value;
        pendingPlayhead := None;
        prefetches := [playhead];
      }
    }

    /** `time$` getter: where the last render left the playhead, in seconds. */
    function Time(): (t: real)
      reads this
      requires sampleRate > 0.0
      ensures t * sampleRate == lastKnownPlayhead as real
    {
      lastKnownPlayhead as real / sampleRate
    }

    /** `duration$`: the estimated length of the file, in seconds. */
    function Duration(): (d: real)
      requires sampleRate > 0.0
      ensures d >= 0.0 && d * sampleRate == estimatedTotalFrames as real
    {
      estimatedTotalFrames as real / sampleRate
    }

    /** `isAtEnd`: the last render reached the end of the file. */
    predicate IsAtEnd()
      reads this
    {
      lastKnownPlayhead == estimatedTotalFrames
    }

    /** `time$` setter: asks for the frame of `t`, within the file. */
    method SetTime(t: real)
      modifies this
      ensures pendingPlayhead == Some(SeekFrame(t, sampleRate, estimatedTotalFrames))
      ensures playhead == old(playhead) && lastKnownPlayhead == old(lastKnownPlayhead)
    {
      pendingPlayhead := Some(Utilities.Clamped(Utilities.TruncToInt(t * sampleRate), 0, estimatedTotalFrames));
    }

    /** `setAtEnd`: asks for the last frame. */
    method SetAtEnd()
      modifies this
      ensures pendingPlayhead == Some(estimatedTotalFrames)
      ensures playhead == old(playhead) && lastKnownPlayhead == old(lastKnownPlayhead)
    {
      pendingPlayhead := Some(estimatedTotalFrames);
    }
  }

  /** A player stopped at the end reports its whole duration as its time. */
  lemma AtEndTimeIsDuration(p: FilePlayer)
    requires p.sampleRate > 0.0 && p.IsAtEnd()
    ensures p.Time() == p.Duration()
  {
  }
}
