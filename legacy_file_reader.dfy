/** The cached reader of the earlier iteration (`AsyncAudioFileReader` in
    `AudioNodes/AudioFileReader.swift`). Its cache and blocks behave as in
    `FileReader` (the cache also has `evictTail`); what differs is how a
    missing block is obtained: the block evicted from the tail of a full
    cache is reused, a new one allocated otherwise, and a block whose read
    fails is dropped, so a failed read into a full cache shortens it. */
module LegacyFileReader {
  import opened Buffers
  import Utilities
  import opened FileReader

  /** The cache entries after the tail of a full cache is evicted. */
  function Evicted(es: seq<Entry>, capacity: nat): (r: seq<Entry>)
    ensures r <= es && |es| - 1 <= |r|
    ensures |es| >= capacity && |es| > 0 ==> |r| == |es| - 1
    ensures 0 < capacity && |es| <= capacity ==> |r| < capacity
    ensures |es| < capacity ==> r == es
  {
    if |es| >= capacity && |es| > 0 then es[..|es| - 1] else es
  }

  /** The cache entries and the known end of the file after `ensureCached`
      handles the block at `blockOffset`. */
  function Ensured(es: seq<Entry>, exact: Option<int>, blockOffset: int, blockSize: nat, capacity: nat,
                   lengthFactor: real, file: int -> FileRead): (r: (seq<Entry>, Option<int>))
    ensures blockOffset in Offsets(es) ==> r == (es, exact)
  {
    if blockOffset in Offsets(es) then (es, exact)
    else
      var kept := Evicted(es, capacity);
      match file(SeekPosition(blockOffset, lengthFactor))
      case Failed(_) => (kept, exact)
      case Decoded(n, _) =>
        (Put(kept, Offsets(kept), blockOffset, Entry(blockOffset, n), capacity), if n < blockSize then Some(blockOffset + n) else exact)
  }

  lemma EnsuredFailed(es: seq<Entry>, exact: Option<int>, blockOffset: int, blockSize: nat, capacity: nat,
                      lengthFactor: real, file: int -> FileRead)
    requires blockOffset !in Offsets(es) && file(SeekPosition(blockOffset, lengthFactor)).Failed?
    ensures Ensured(es, exact, blockOffset, blockSize, capacity, lengthFactor, file) == (Evicted(es, capacity), exact)
  {
  }

  lemma EnsuredDecoded(es: seq<Entry>, exact: Option<int>, blockOffset: int, blockSize: nat, capacity: nat,
                       lengthFactor: real, file: int -> FileRead, n: nat)
    requires blockOffset !in Offsets(es)
    requires file(SeekPosition(blockOffset, lengthFactor)).Decoded? && file(SeekPosition(blockOffset, lengthFactor)).numRead == n
    ensures var kept := Evicted(es, capacity);
      Ensured(es, exact, blockOffset, blockSize, capacity, lengthFactor, file) ==
      (Put(kept, Offsets(kept), blockOffset, Entry(blockOffset, n), capacity), if n < blockSize then Some(blockOffset + n) else exact)
  {
  }

  /** The cache entries and the known end of the file after the window of
      `ensureCached` from its `i`-th block onwards. */
  function EnsuredWindow(es: seq<Entry>, exact: Option<int>, position: nat, i: nat, blockSize: nat, capacity: nat,
                         lengthFactor: real, file: int -> FileRead): (r: (seq<Entry>, Option<int>))
    requires blockSize > 0
    decreases 3 - i
  {
    if i > 2 then (es, exact)
    else
      var blockOffset := BlockKey(position, blockSize) + i * blockSize;
      if exact.Some? && blockOffset >= exact.value then (es, exact)
      else
        var f := Ensured(es, exact, blockOffset, blockSize, capacity, lengthFactor, file);
        EnsuredWindow(f.0, f.1, position, i + 1, blockSize, capacity, lengthFactor, file)
  }

  /** The window of `ensureCached` never forgets an end of the file once it
      is known. */
  lemma {:induction false} EnsuredWindowKeepsEnd(es: seq<Entry>, exact: Option<int>, position: nat, i: nat, blockSize: nat,
                                                 capacity: nat, lengthFactor: real, file: int -> FileRead)
    requires blockSize > 0 && exact.Some?
    decreases 3 - i
    ensures EnsuredWindow(es, exact, position, i, blockSize, capacity, lengthFactor, file).1.Some?
  {
    var blockOffset := BlockKey(position, blockSize) + i * blockSize;
    if i <= 2 && !(blockOffset >= exact.value) {
      var f := Ensured(es, exact, blockOffset, blockSize, capacity, lengthFactor, file);
      EnsuredWindowStep(es, exact, position, i, blockOffset, blockSize, capacity, lengthFactor, file);
      EnsuredWindowKeepsEnd(f.0, f.1, position, i + 1, blockSize, capacity, lengthFactor, file);
    }
  }

  lemma EnsuredWindowStep(es: seq<Entry>, exact: Option<int>, position: nat, i: nat, blockOffset: int, blockSize: nat,
                          capacity: nat, lengthFactor: real, file: int -> FileRead)
    requires blockSize > 0 && i <= 2 && blockOffset == BlockKey(position, blockSize) + i * blockSize
    requires !(exact.Some? && blockOffset >= exact.value)
    ensures var f := Ensured(es, exact, blockOffset, blockSize, capacity, lengthFactor, file);
      EnsuredWindow(es, exact, position, i, blockSize, capacity, lengthFactor, file) ==
      EnsuredWindow(f.0, f.1, position, i + 1, blockSize, capacity, lengthFactor, file)
  {
  }

  /** A failed read into a full cache loses its tail: the cache is one entry
      shorter and nothing was stored for the block. */
  lemma {:induction false} FailedReadShrinksFullCache(es: seq<Entry>, exact: Option<int>, blockOffset: int, blockSize: nat,
                                                      capacity: nat, lengthFactor: real, file: int -> FileRead)
    requires 0 < capacity == |es| && blockOffset !in Offsets(es)
    requires file(SeekPosition(blockOffset, lengthFactor)).Failed?
    ensures var r := Ensured(es, exact, blockOffset, blockSize, capacity, lengthFactor, file);
      |r.0| == |es| - 1 && blockOffset !in Offsets(r.0) && r.1 == exact
  {
    EnsuredFailed(es, exact, blockOffset, blockSize, capacity, lengthFactor, file);
    var kept := Evicted(es, capacity);
    assert forall j :: 0 <= j < |kept| ==> Offsets(kept)[j] == Offsets(es)[j];
  }

  /** On a successful read the new reader stores exactly what the earlier
      reader stores: evicting first and then storing into a cache with room
      is the same as storing with eviction. */
  lemma {:induction false} SuccessfulReadAgrees(es: seq<Entry>, exact: Option<int>, blockOffset: int, blockSize: nat,
                                                capacity: nat, lengthFactor: real, file: int -> FileRead)
    requires 0 < capacity && |es| <= capacity && blockOffset !in Offsets(es)
    requires file(SeekPosition(blockOffset, lengthFactor)).Decoded?
    ensures Ensured(es, exact, blockOffset, blockSize, capacity, lengthFactor, file) ==
      Fetched(es, exact, blockOffset, blockSize, capacity, lengthFactor, file)
  {
    var n := file(SeekPosition(blockOffset, lengthFactor)).numRead;
    EnsuredDecoded(es, exact, blockOffset, blockSize, capacity, lengthFactor, file, n);
    FetchedDecoded(es, exact, blockOffset, blockSize, capacity, lengthFactor, file, n);
    var kept := Evicted(es, capacity);
    var e := Entry(blockOffset, n);
    assert IndexOf(Offsets(es), blockOffset).None?;
    assert blockOffset !in Offsets(kept) by {
      assert forall j :: 0 <= j < |kept| ==> Offsets(kept)[j] == Offsets(es)[j];
    }
    assert IndexOf(Offsets(kept), blockOffset).None?;
    assert Put(kept, Offsets(kept), blockOffset, e, capacity) == [e] + kept;
  }

  /** The earlier reader of one file. */
  class Reader {
    const blockSize: nat
    const isStereo: bool
    const lengthFactor: real
    const cache: Cache
    var exactTotalFrames: Option<int>

    /** Every cached block has buffers of one block in the reader's layout,
        so an evicted block can be read into again. */
    ghost predicate Valid()
      reads this, cache, cache.list, set b | b in cache.list :: b.buffers
    {
      blockSize > 0 && cache.Valid() &&
      forall b :: b in cache.list ==>
        b.buffers.Valid() && b.Capacity() == blockSize && b.buffers.Channels() == (if isStereo then 2 else 1)
    }

    /** The objects a read into a cached block may change. */
    ghost function Footprint(): set<object>
      reads this, cache
    {
      (set b | b in cache.list :: b as object) + (set b | b in cache.list :: b.buffers as object) +
      (set b | b in cache.list :: b.buffers.samples as object)
    }

    constructor (sampleRate: real, isStereo: bool, lengthFactor: real)
      requires sampleRate >= 1.0
      ensures blockSize == Utilities.TruncToInt(sampleRate) && this.isStereo == isStereo && this.lengthFactor == lengthFactor
      ensures exactTotalFrames == None && Valid() && fresh(cache) && cache.list == [] && cache.capacity == 8
    {
      blockSize := Utilities.TruncToInt(sampleRate);
      this.isStereo := isStereo;
      this.lengthFactor := lengthFactor;
      cache := new Cache(8);
      exactTotalFrames := None;
    }

    /** `_blockAt`: the cached block holding stream frame `position`. */
    function BlockAt(position: nat): (r: Option<Block>)
      reads this, cache, cache.list, set b | b in cache.list :: b.buffers
      requires Valid()
      ensures r.Some? ==> r.value in cache.list && r.value.offset <= position < r.value.offset + blockSize
      ensures r.None? <==> BlockKey(position, blockSize) !in Offsets(Entries(cache.list))
    {
      cache.BlockFor(BlockKey(position, blockSize))
    }

    /** Stores a block just read at `blockOffset` into a cache with room;
        a short block fixes the end of the file. */
    method Store(blockOffset: int, block: Block)
      requires Valid() && block.offset == blockOffset && blockOffset !in Offsets(Entries(cache.list))
      requires block.buffers.Valid() && block.Capacity() == blockSize && block.buffers.Channels() == (if isStereo then 2 else 1)
      modifies this, cache
      ensures Valid()
      ensures Entries(cache.list) ==
        Put(old(Entries(cache.list)), Offsets(old(Entries(cache.list))), blockOffset, Entry(block.offset, block.count), cache.capacity)
      ensures exactTotalFrames == if block.count < blockSize then Some(block.offset + block.count) else old(exactTotalFrames)
      ensures forall b :: b in cache.list ==> b == block || b in old(cache.list)
    {
      cache.SetBlockFor(blockOffset, block);
      if block.count < blockSize {
        exactTotalFrames := Some(blockOffset + block.count);
      }
    }

    /** Evicts the tail of a full cache and hands it out for reuse, or
        allocates a new block. */
    method Obtain(blockOffset: int) returns (block: Block)
      requires Valid() && blockOffset !in Offsets(Entries(cache.list))
      modifies cache
      ensures Valid() && Entries(cache.list) == Evicted(old(Entries(cache.list)), cache.capacity)
      ensures blockOffset !in Offsets(Entries(cache.list))
      ensures block !in cache.list
      ensures |old(cache.list)| >= cache.capacity ==> block == old(cache.list)[|old(cache.list)| - 1]
      ensures |old(cache.list)| < cache.capacity ==> fresh(block) && fresh(block.buffers) && fresh(block.buffers.samples)
      ensures block in old(cache.list) || (fresh(block) && fresh(block.buffers) && fresh(block.buffers.samples))
      ensures forall b :: b in cache.list ==> b in old(cache.list)
      ensures block.buffers.Valid() && block.Capacity() == blockSize && block.buffers.Channels() == (if isStereo then 2 else 1)
    {
      ghost var es := Entries(cache.list);
      var tail := cache.EvictTail();
      assert forall j :: 0 <= j < |cache.list| ==> Entries(cache.list)[j] == es[j];
      assert Entries(cache.list) == Evicted(es, cache.capacity);
      assert forall j :: 0 <= j < |cache.list| ==> Offsets(Entries(cache.list))[j] == Offsets(es)[j];
      if tail.Some? {
        block := tail.value;
        TailNotKept(old(cache.list));
      } else {
        block := new Block(isStereo, blockOffset, blockSize);
      }
    }

    /** One block of the window: read, into an evicted or a new block, and
        stored when it is not cached. */
    method Fetch(blockOffset: int, file: int -> FileRead)
      requires Valid() && DecoderFits(file, if isStereo then 2 else 1, blockSize)
      modifies this, cache, Footprint()
      ensures Valid()
      ensures (Entries(cache.list), exactTotalFrames) ==
        Ensured(old(Entries(cache.list)), old(exactTotalFrames), blockOffset, blockSize, cache.capacity, lengthFactor, file)
      ensures forall b :: b in cache.list ==> b in old(cache.list) || (fresh(b) && fresh(b.buffers) && fresh(b.buffers.samples))
    {
      ghost var es := Entries(cache.list);
      ghost var exact := exactTotalFrames;
      if cache.BlockFor(blockOffset).None? {
        var block, ok := ObtainRead(blockOffset, file);
        if ok {
          Store(blockOffset, block);
          EnsuredDecoded(es, exact, blockOffset, blockSize, cache.capacity, lengthFactor, file, block.count);
        } else {
          EnsuredFailed(es, exact, blockOffset, blockSize, cache.capacity, lengthFactor, file);
        }
      }
    }

    /** An evicted or a new block, read at `blockOffset`. */
    method ObtainRead(blockOffset: int, file: int -> FileRead) returns (block: Block, ok: bool)
      requires Valid() && DecoderFits(file, if isStereo then 2 else 1, blockSize)
      requires blockOffset !in Offsets(Entries(cache.list))
      modifies cache, Footprint()
      ensures Valid() && Entries(cache.list) == Evicted(old(Entries(cache.list)), cache.capacity)
      ensures blockOffset !in Offsets(Entries(cache.list)) && exactTotalFrames == old(exactTotalFrames)
      ensures block !in cache.list
      ensures |old(cache.list)| >= cache.capacity ==> block == old(cache.list)[|old(cache.list)| - 1]
      ensures |old(cache.list)| < cache.capacity ==> fresh(block) && fresh(block.buffers) && fresh(block.buffers.samples)
      ensures block in old(cache.list) || (fresh(block) && fresh(block.buffers) && fresh(block.buffers.samples))
      ensures forall b :: b in cache.list ==> b in old(cache.list)
      ensures block.buffers.Valid() && block.Capacity() == blockSize && block.buffers.Channels() == (if isStereo then 2 else 1)
      ensures block.offset == blockOffset
      ensures var r := file(SeekPosition(blockOffset, lengthFactor)); ok == r.Decoded? && (ok ==> block.count == r.numRead)
    {
      block := Obtain(blockOffset);
      assert block in old(cache.list) || (fresh(block) && fresh(block.buffers) && fresh(block.buffers.samples));
      ghost var kept := Entries(cache.list);
      ok := block.Read(blockOffset, lengthFactor, file);
      assert Entries(cache.list) == kept;
    }

    /** `ensureCached`: for the block holding `position` and the two after
        it, stopping at the first at or past the known end of the file,
        makes sure each is cached. */
    method EnsureCached(position: nat, file: int -> FileRead)
      requires Valid() && DecoderFits(file, if isStereo then 2 else 1, blockSize)
      modifies this, cache, Footprint()
      ensures Valid()
      ensures (Entries(cache.list), exactTotalFrames) ==
        EnsuredWindow(old(Entries(cache.list)), old(exactTotalFrames), position, 0, blockSize, cache.capacity, lengthFactor, file)
    {
      ghost var target := EnsuredWindow(Entries(cache.list), exactTotalFrames, position, 0, blockSize, cache.capacity, lengthFactor, file);
      var i := 0;
      while i <= 2
        invariant 0 <= i <= 3 && Valid()
        invariant target == EnsuredWindow(Entries(cache.list), exactTotalFrames, position, i, blockSize, cache.capacity, lengthFactor, file)
        invariant forall b :: b in cache.list ==> b in old(cache.list) || (fresh(b) && fresh(b.buffers) && fresh(b.buffers.samples))
      {
        var blockOffset := WindowOffset(position, i, blockSize);
        if exactTotalFrames.Some? && blockOffset >= exactTotalFrames.value {
          break;
        }
        ghost var es := Entries(cache.list);
        ghost var exact := exactTotalFrames;
        Fetch(blockOffset, file);
        ghost var f := Ensured(es, exact, blockOffset, blockSize, cache.capacity, lengthFactor, file);
        assert (Entries(cache.list), exactTotalFrames) == f;
        EnsuredWindowStep(es, exact, position, i, blockOffset, blockSize, cache.capacity, lengthFactor, file);
        assert target == EnsuredWindow(f.0, f.1, position, i + 1, blockSize, cache.capacity, lengthFactor, file);
        i := i + 1;
      }
    }
  }

  /** `readSync` of the earlier reader: as the newer one, but the read's
      status is returned instead of thrown. */
  method ReadSync(frameCount: nat, buffers: BufferList, r: FileRead) returns (numRead: nat, status: int)
    requires buffers.Valid() && frameCount <= buffers.Capacity()
    requires Fits(r, buffers.Channels(), buffers.Capacity()) && (r.Decoded? ==> r.numRead <= frameCount)
    modifies buffers, buffers.samples
    ensures buffers.Valid()
    ensures r.Failed? ==> numRead == 0 && status == r.status
    ensures r.Failed? ==> buffers.Frames() == Silenced(old(buffers.Frames()), frameCount, 0) && buffers.FrameCount() == frameCount
    ensures r.Decoded? ==> numRead == r.numRead && status == NO_ERR
    ensures r.Decoded? ==> buffers.Frames() == Silenced(r.samples, frameCount, r.numRead) && buffers.FrameCount() == r.numRead
  {
    var error;
    numRead, error := FileReader.ReadSync(frameCount, buffers, r);
    status := if error.Some? then error.value else NO_ERR;
  }

  /** Blocks with distinct offsets are distinct, so the evicted tail is not
      among the blocks kept. */
  lemma TailNotKept(list: seq<Block>)
    requires |list| > 0 && Unique(Offsets(Entries(list)))
    ensures list[|list| - 1] !in list[..|list| - 1]
  {
    var n := |list| - 1;
    forall j | 0 <= j < n ensures list[j] != list[n] {
      assert Offsets(Entries(list))[j] != Offsets(Entries(list))[n];
    }
  }
}
