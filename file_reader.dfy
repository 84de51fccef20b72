/** The cached file reader of the package target (`AudioFileReader` and
    `AsyncAudioFileReader` in `AudioNodes/Sources/AudioFileReader.swift`).

    The file is read in blocks of `blockSize` frames (one second) starting
    at multiples of `blockSize`. A small cache keeps the most recently
    stored blocks first, at most one per offset and at most `capacity` of
    them, evicting from the tail. A block shorter than `blockSize` marks
    the end of the file, which is then known exactly.

    The decoder (ExtAudioFile) is a parameter: `file(p)` is what a seek to
    file position `p` followed by a read of one block gives, and `FileRead`
    is the outcome of one sequential read. */
module FileReader {
  import opened Buffers
  import Utilities

  /** What one decoder read gives: a failure status, or the number of frames
      read together with the buffer contents it leaves. */
  datatype FileRead = Failed(status: int) | Decoded(numRead: nat, samples: Buf)

  /** A decoder fills at most the `capacity` frames it is asked for. */
  predicate Fits(r: FileRead, channels: nat, capacity: nat) {
    r.Decoded? ==> r.numRead <= capacity && Shaped(r.samples, channels, capacity)
  }

  /** Every block read of `file` fits a block of `capacity` frames. */
  ghost predicate DecoderFits(file: int -> FileRead, channels: nat, capacity: nat) {
    forall p :: Fits(file(p), channels, capacity)
  }

  /** The file position of frame `offset` of the output stream: Swift's
      `Int64(Double(offset) * lengthFactor)`. */
  function SeekPosition(offset: int, lengthFactor: real): int {
    Utilities.TruncToInt(offset as real * lengthFactor)
  }

  /** A block of decoded frames: a buffer list of `blockSize` frames, the
      stream offset of its first frame and the number of frames it holds. */
  class Block {
    const buffers: BufferList
    var offset: int
    var count: int

    function Capacity(): nat { buffers.Capacity() }

    /** What a cached block holds once read: its own frame count is the
        sample count of its buffers. */
    ghost predicate Loaded()
      reads this, buffers
    {
      buffers.Valid() && count == buffers.FrameCount()
    }

    /** What the block holds, as a value. */
    function View(): Cached
      reads this, buffers.samples
    {
      Cached(offset, count, buffers.Frames())
    }

    /** An empty block of `capacity` frames at `offset`. */
    constructor (isStereo: bool, offset: int, capacity: nat)
      requires capacity > 0
      ensures this.offset == offset && count == 0 && Capacity() == capacity
      ensures buffers.Valid() && buffers.Channels() == (if isStereo then 2 else 1) && fresh(buffers) && fresh(buffers.samples)
    {
      this.offset := offset;
      count := 0;
      buffers := new BufferList(isStereo, capacity);
    }

    /** `Block.read`: records the offset first, then seeks and reads a whole
        block. On failure the count is as it was; on success it is the
        number of frames read. */
    method Read(offset: int, lengthFactor: real, file: int -> FileRead) returns (ok: bool)
      requires buffers.Valid() && Fits(file(SeekPosition(offset, lengthFactor)), buffers.Channels(), Capacity())
      modifies this, buffers, buffers.samples
      ensures buffers.Valid() && this.offset == offset
      ensures var r := file(SeekPosition(offset, lengthFactor));
        ok == r.Decoded? &&
        (ok ==> count == r.numRead && buffers.Frames() == r.samples && Loaded()) &&
        (!ok ==> count == old(count) && buffers.sampleCounts == seq(buffers.Channels(), _ => Capacity()))
    {
      this.offset := offset;
      buffers.SetFrameCount(Capacity());
      var r := file(SeekPosition(offset, lengthFactor));
      if r.Failed? {
        return false;
      }
      buffers.Assign(r.samples);
      buffers.SetFrameCount(r.numRead);
      count := r.numRead;
      ok := true;
    }
  }

  /** A cached block as a value: its offset, its frame count and its
      samples over the whole block. */
  datatype Cached = Cached(offset: int, count: int, samples: Buf)

  /** Every cached block sits under its own offset, holds at most one block
      of frames and has at least one channel of `blockSize` samples. */
  ghost predicate CacheWellFormed(m: map<int, Cached>, blockSize: nat) {
    forall k :: k in m ==>
      m[k].offset == k && 0 <= m[k].count <= blockSize && |m[k].samples| > 0 &&
      forall c :: 0 <= c < |m[k].samples| ==> |m[k].samples[c]| == blockSize
  }

  /** The view of a cached block the cache's contracts are stated in. */
  datatype Entry = Entry(offset: int, count: int)

  function Entries(list: seq<Block>): seq<Entry>
    reads list
  {
    seq(|list|, i requires 0 <= i < |list| reads list => Entry(list[i].offset, list[i].count))
  }

  function Offsets(es: seq<Entry>): seq<int> {
    seq(|es|, i requires 0 <= i < |es| => es[i].offset)
  }

  /** No two entries share an offset. */
  predicate Unique(keys: seq<int>) {
    forall i, j :: 0 <= i < j < |keys| ==> keys[i] != keys[j]
  }

  /** The index of the first occurrence of `key` (`firstIndex(where:)`). */
  function IndexOf(keys: seq<int>, key: int): (r: Option<nat>)
    ensures r.Some? ==> r.value < |keys| && keys[r.value] == key && forall j :: 0 <= j < r.value ==> keys[j] != key
    ensures r.None? ==> forall j :: 0 <= j < |keys| ==> keys[j] != key
  {
    if |keys| == 0 then None
    else if keys[0] == key then Some(0)
    else match IndexOf(keys[1..], key)
      case None => None
      case Some(i) => Some(i + 1)
  }

  /** `s` without the element at `i`, if there is one: one element fewer,
      those before it in place and those after it moved down by one. */
  function Removed<T>(s: seq<T>, i: Option<nat>): (r: seq<T>)
    ensures i.Some? && i.value < |s| ==>
      |r| == |s| - 1 &&
      (forall k :: 0 <= k < i.value ==> r[k] == s[k]) &&
      (forall k :: i.value <= k < |r| ==> r[k] == s[k + 1])
    ensures !(i.Some? && i.value < |s|) ==> r == s
  {
    if i.Some? && i.value < |s| then s[..i.value] + s[i.value + 1..] else s
  }

  /** Removing at an index loses exactly the element there. */
  lemma RemovedElements<T>(s: seq<T>, i: Option<nat>)
    requires i.Some? && i.value < |s|
    ensures multiset(Removed(s, i)) + multiset{s[i.value]} == multiset(s)
  {
    assert s == s[..i.value] + [s[i.value]] + s[i.value + 1..];
  }

  /** `s` with its last element dropped when it holds `capacity` elements. */
  function Trimmed<T>(s: seq<T>, capacity: nat): (r: seq<T>)
    ensures r <= s && |s| - 1 <= |r|
    ensures 0 < capacity && |s| <= capacity ==> |r| < capacity
    ensures |s| != capacity ==> r == s
  {
    if |s| == capacity && capacity > 0 then s[..|s| - 1] else s
  }

  /** `setBlockFor`: the entry for `key` removed, the tail dropped if the
      list is full, and `x` put first. */
  function Put<T>(s: seq<T>, keys: seq<int>, key: int, x: T, capacity: nat): seq<T>
    requires |keys| == |s|
  {
    [x] + Trimmed(Removed(s, IndexOf(keys, key)), capacity)
  }

  /** The element stored goes to the front, and a cache within its capacity
      stays within it. */
  lemma PutFront<T>(s: seq<T>, keys: seq<int>, key: int, x: T, capacity: nat)
    requires |keys| == |s|
    ensures var r := Put(s, keys, key, x, capacity);
      |r| > 0 && r[0] == x && (0 < capacity && |s| <= capacity ==> |r| <= capacity)
  {
  }

  /** Dropping and removing commute with taking the offsets. */
  lemma OffsetsOfPut(es: seq<Entry>, key: int, e: Entry, capacity: nat)
    ensures Offsets(Put(es, Offsets(es), key, e, capacity)) == Put(Offsets(es), Offsets(es), key, e.offset, capacity)
  {
    var i := IndexOf(Offsets(es), key);
    OffsetsRemoved(es, i);
    OffsetsTrimmed(Removed(es, i), capacity);
    OffsetsConsed(e, Trimmed(Removed(es, i), capacity));
  }

  /** Storing brings in no element but the one stored. */
  lemma PutMembers<T>(s: seq<T>, keys: seq<int>, key: int, x: T, capacity: nat)
    requires |keys| == |s|
    ensures forall y :: y in Put(s, keys, key, x, capacity) ==> y == x || y in s
  {
    var removed := Removed(s, IndexOf(keys, key));
    assert forall y :: y in removed ==> y in s by {
      forall y | y in removed ensures y in s {
        var k :| 0 <= k < |removed| && removed[k] == y;
        RemovedAt(s, IndexOf(keys, key), k);
      }
    }
    var trimmed := Trimmed(removed, capacity);
    assert forall y :: y in trimmed ==> y in removed;
  }

  /** The element at `k` of `s` with the element at `i` removed. */
  lemma RemovedAt<T>(s: seq<T>, i: Option<nat>, k: nat)
    requires k < |Removed(s, i)|
    ensures Removed(s, i)[k] == if i.Some? && i.value < |s| && i.value <= k then s[k + 1] else s[k]
  {
  }

  lemma OffsetsRemoved(es: seq<Entry>, i: Option<nat>)
    ensures Offsets(Removed(es, i)) == Removed(Offsets(es), i)
  {
    var a, b := Offsets(Removed(es, i)), Removed(Offsets(es), i);
    forall k | 0 <= k < |a| ensures a[k] == b[k] {
      RemovedAt(es, i, k);
      RemovedAt(Offsets(es), i, k);
    }
  }

  lemma OffsetsTrimmed(es: seq<Entry>, capacity: nat)
    ensures Offsets(Trimmed(es, capacity)) == Trimmed(Offsets(es), capacity)
  {
    var a, b := Offsets(Trimmed(es, capacity)), Trimmed(Offsets(es), capacity);
    forall k | 0 <= k < |a| ensures a[k] == b[k] {
    }
  }

  lemma OffsetsConsed(e: Entry, es: seq<Entry>)
    ensures Offsets([e] + es) == [e.offset] + Offsets(es)
  {
    var a, b := Offsets([e] + es), [e.offset] + Offsets(es);
    forall k | 0 <= k < |a| ensures a[k] == b[k] {
    }
  }

  lemma EntriesRemoved(list: seq<Block>, i: Option<nat>)
    ensures Entries(Removed(list, i)) == Removed(Entries(list), i)
  {
    var a, b := Entries(Removed(list, i)), Removed(Entries(list), i);
    forall k | 0 <= k < |a| ensures a[k] == b[k] {
      RemovedAt(list, i, k);
      RemovedAt(Entries(list), i, k);
    }
  }

  lemma EntriesTrimmed(list: seq<Block>, capacity: nat)
    ensures Entries(Trimmed(list, capacity)) == Trimmed(Entries(list), capacity)
  {
    var a, b := Entries(Trimmed(list, capacity)), Trimmed(Entries(list), capacity);
    forall k | 0 <= k < |a| ensures a[k] == b[k] {
    }
  }

  lemma EntriesConsed(x: Block, list: seq<Block>)
    ensures Entries([x] + list) == [Entry(x.offset, x.count)] + Entries(list)
  {
    var a, b := Entries([x] + list), [Entry(x.offset, x.count)] + Entries(list);
    forall k | 0 <= k < |a| ensures a[k] == b[k] {
    }
  }

  /** Storing keeps the cache within capacity, puts the new entry first,
      finds it under its key afterwards and, when its own key is the one
      stored under, keeps keys unique. */
  lemma {:induction false} PutKeys(keys: seq<int>, key: int, capacity: nat)
    requires 0 < capacity && |keys| <= capacity && Unique(keys)
    ensures var r := Put(keys, keys, key, key, capacity);
      |r| <= capacity && r[0] == key && Unique(r) && IndexOf(r, key) == Some(0)
  {
    var i := IndexOf(keys, key);
    var removed := Removed(keys, i);
    assert forall j :: 0 <= j < |removed| ==> removed[j] != key by {
      forall j | 0 <= j < |removed| ensures removed[j] != key {
        if i.Some? {
          if j < i.value {
            assert removed[j] == keys[j];
          } else {
            assert removed[j] == keys[j + 1];
            assert keys[i.value] == key;
          }
        }
      }
    }
    assert Unique(removed) by {
      forall a, b | 0 <= a < b < |removed| ensures removed[a] != removed[b] {
        if i.Some? {
          var ia := if a < i.value then a else a + 1;
          var ib := if b < i.value then b else b + 1;
          assert removed[a] == keys[ia] && removed[b] == keys[ib];
        }
      }
    }
    var trimmed := Trimmed(removed, capacity);
    assert forall j :: 0 <= j < |trimmed| ==> trimmed[j] == removed[j];
    var r := [key] + trimmed;
    assert forall j :: 0 < j < |r| ==> r[j] == trimmed[j - 1];
  }

  /** Storing never loses an entry of another key except the tail of a full
      list. */
  lemma {:induction false} PutKeepsOthers(keys: seq<int>, key: int, capacity: nat, j: nat)
    requires 0 < capacity && |keys| <= capacity
    requires j < |keys| && keys[j] != key
    requires IndexOf(keys, key).Some? || j < |keys| - 1 || |keys| < capacity
    ensures keys[j] in Put(keys, keys, key, key, capacity)
  {
    var i := IndexOf(keys, key);
    var removed := Removed(keys, i);
    var jr := if i.Some? && i.value < j then j - 1 else j;
    assert removed[jr] == keys[j];
    var r := Put(keys, keys, key, key, capacity);
    assert r[jr + 1] == keys[j];
  }

  /** The block cache: at most `capacity` blocks, newest first. */
  class Cache {
    const capacity: nat
    var list: seq<Block>

    ghost predicate Valid()
      reads this, list
    {
      0 < capacity < 16 && |list| <= capacity && Unique(Offsets(Entries(list)))
    }

    /** `Cache.init`: an empty cache of `capacity` blocks. */
    constructor (capacity: int)
      requires 0 < capacity < 16
      ensures this.capacity == capacity && list == [] && Valid()
    {
      this.capacity := capacity;
      list := [];
    }

    /** `blockFor`: the first block stored under `offset`. */
    function BlockFor(offset: int): (r: Option<Block>)
      reads this, list
      ensures r.Some? <==> offset in Offsets(Entries(list))
      ensures r.Some? ==> r.value in list && r.value.offset == offset
    {
      match IndexOf(Offsets(Entries(list)), offset)
      case None => None
      case Some(i) => Some(list[i])
    }

    /** `setBlockFor`: removes the block stored under `offset`, drops the
        tail of a full list and puts `block` first. */
    method SetBlockFor(offset: int, block: Block)
      requires Valid()
      modifies this
      ensures list == Put(old(list), Offsets(Entries(old(list))), offset, block, capacity)
      ensures list[0] == block && |list| <= capacity
      ensures block.offset == offset ==> Valid() && BlockFor(offset) == Some(block)
      ensures Entries(list) == Put(old(Entries(list)), Offsets(old(Entries(list))), offset, Entry(block.offset, block.count), capacity)
      ensures forall b :: b in list ==> b == block || b in old(list)
    {
      var l := list;
      var keys := Offsets(Entries(l));
      var i := IndexOf(keys, offset);
      if i.Some? {
        l := l[..i.value] + l[i.value + 1..];
      }
      if |l| == capacity {
        l := l[..|l| - 1];
      }
      l := [block] + l;
      list := l;
      assert Entries(old(list)) == old(Entries(list));
      PutEntries(old(list), offset, block, capacity);
      PutEntriesFresh(old(list), offset, block, capacity);
      PutMembers(old(list), keys, offset, block, capacity);
      if block.offset == offset {
        PutKeys(keys, offset, capacity);
      }
    }

    /** `evictTail` (the earlier reader): removes and returns the last
        block exactly when the list is full. */
    method EvictTail() returns (r: Option<Block>)
      requires Valid()
      modifies this
      ensures Valid() && |list| <= |old(list)|
      ensures |old(list)| >= capacity ==> r == Some(old(list)[|old(list)| - 1]) && list == old(list)[..|old(list)| - 1]
      ensures |old(list)| < capacity ==> r == None && list == old(list)
    {
      if |list| >= capacity {
        r := Some(list[|list| - 1]);
        list := list[..|list| - 1];
        assert Offsets(Entries(list)) == Offsets(Entries(old(list)))[..|list|];
      } else {
        r := None;
      }
    }
  }

  /** The entries of a stored list are the entries stored. */
  lemma PutEntries(list: seq<Block>, key: int, b: Block, capacity: nat)
    ensures var keys := Offsets(Entries(list));
      Offsets(Entries(Put(list, keys, key, b, capacity))) == Put(keys, keys, key, b.offset, capacity)
  {
    PutEntriesFresh(list, key, b, capacity);
    OffsetsOfPut(Entries(list), key, Entry(b.offset, b.count), capacity);
  }

  /** The first frame of the block holding stream frame `position`. */
  function BlockKey(position: nat, blockSize: nat): (key: nat)
    requires blockSize > 0
    ensures key <= position < key + blockSize
  {
    var q := position / blockSize;
    assert position == q * blockSize + position % blockSize;
    q * blockSize
  }

  /** The offset of the `i`-th block of the prefetch window at `position`:
      `((position / blockSize) + i) * blockSize`. */
  function WindowOffset(position: nat, i: nat, blockSize: nat): (k: nat)
    requires blockSize > 0
    ensures k == BlockKey(position, blockSize) + i * blockSize
  {
    var q := position / blockSize;
    assert (q + i) * blockSize == q * blockSize + i * blockSize;
    (q + i) * blockSize
  }

  lemma MulStep(a: nat, b: nat, c: nat)
    requires a < b
    ensures a * c + c <= b * c
  {
    assert b * c == a * c + (b - a) * c;
    assert (b - a) * c == c + (b - a - 1) * c;
  }

  /** Every frame of the block starting at `q * blockSize` has that block's
      key. */
  lemma KeyOfMultiple(q: nat, blockSize: nat, p: nat)
    requires blockSize > 0 && q * blockSize <= p < q * blockSize + blockSize
    ensures BlockKey(p, blockSize) == q * blockSize
  {
    var q' := p / blockSize;
    assert q' * blockSize <= p < q' * blockSize + blockSize;
    if q' < q {
      MulStep(q', q, blockSize);
    } else if q' > q {
      MulStep(q, q', blockSize);
    }
  }

  /** Every frame of a block has that block's key. */
  lemma SameBlockKey(p: nat, p': nat, blockSize: nat)
    requires blockSize > 0 && BlockKey(p, blockSize) <= p' < BlockKey(p, blockSize) + blockSize
    ensures BlockKey(p', blockSize) == BlockKey(p, blockSize)
  {
    KeyOfMultiple(p / blockSize, blockSize, p');
  }

  /** The frame just past a block starts the next block. */
  lemma NextBlockKey(p: nat, blockSize: nat)
    requires blockSize > 0
    ensures BlockKey(BlockKey(p, blockSize) + blockSize, blockSize) == BlockKey(p, blockSize) + blockSize
  {
    var q := p / blockSize;
    assert (q + 1) * blockSize == q * blockSize + blockSize;
    KeyOfMultiple(q + 1, blockSize, q * blockSize + blockSize);
  }

  /** The cached reader of one file. */
  class Reader {
    /** `Int(sampleRate)`: one second of frames per block. */
    const blockSize: nat
    const isStereo: bool
    const lengthFactor: real
    const cache: Cache
    var exactTotalFrames: Option<int>

    ghost predicate Valid()
      reads this, cache, cache.list
    {
      blockSize > 0 && cache.Valid()
    }

    function Channels(): nat { if isStereo then 2 else 1 }

    /** Every cached block has been read: its count is the sample count of
        its buffers, which hold one block in the reader's layout. */
    ghost predicate Ready()
      reads this, cache, cache.list, set b | b in cache.list :: b.buffers
    {
      Valid() &&
      forall b :: b in cache.list ==>
        b.Loaded() && b.count <= blockSize && b.Capacity() == blockSize && b.buffers.Channels() == Channels()
    }

    /** The cache as a map from block offsets to what the blocks hold. */
    ghost function Snapshot(): map<int, Cached>
      reads this, cache, cache.list, set b | b in cache.list :: b.buffers.samples
      requires Valid()
    {
      map k | k in Offsets(Entries(cache.list)) :: cache.BlockFor(k).value.View()
    }

    /** `m` holds exactly the cached blocks, each under its offset. */
    ghost predicate Mirrors(m: map<int, Cached>)
      reads this, cache, cache.list, set b | b in cache.list :: b.buffers.samples
      requires Valid()
    {
      forall k {:trigger cache.BlockFor(k)} :: (k in m <==> cache.BlockFor(k).Some?) && (k in m ==> m[k] == cache.BlockFor(k).value.View())
    }

    /** The snapshot mirrors the cache. */
    lemma SnapshotMirrors()
      requires Valid()
      ensures Mirrors(Snapshot())
    {
    }

    /** A ready cache is well formed. */
    lemma ReadyIsWellFormed()
      requires Ready()
      ensures CacheWellFormed(Snapshot(), blockSize)
    {
    }

    /** Whatever mirrors a ready cache is well formed. */
    lemma MirrorsWellFormed(m: map<int, Cached>)
      requires Ready() && Mirrors(m)
      ensures CacheWellFormed(m, blockSize)
    {
      forall k | k in m ensures m[k].offset == k && 0 <= m[k].count <= blockSize && |m[k].samples| > 0 &&
        forall c :: 0 <= c < |m[k].samples| ==> |m[k].samples[c]| == blockSize
      {
        assert cache.BlockFor(k).Some?;
      }
    }

    constructor (sampleRate: real, isStereo: bool, lengthFactor: real)
      requires sampleRate >= 1.0
      ensures blockSize == Utilities.TruncToInt(sampleRate) && this.isStereo == isStereo && this.lengthFactor == lengthFactor
      ensures exactTotalFrames == None && Ready() && fresh(cache) && cache.list == [] && cache.capacity == 8
    {
      blockSize := Utilities.TruncToInt(sampleRate);
      this.isStereo := isStereo;
      this.lengthFactor := lengthFactor;
      cache := new Cache(8);
      exactTotalFrames := None;
    }

    /** `_blockAt`: the cached block holding stream frame `position`, if
        any: the block `m` holds under the key of `position`. */
    method BlockAt(ghost m: map<int, Cached>, position: nat) returns (r: Option<Block>)
      requires Ready() && Mirrors(m)
      ensures var k := BlockKey(position, blockSize);
        (r.Some? <==> k in m) &&
        (r.Some? ==> r.value in cache.list && r.value.offset == k && r.value.View() == m[k] && r.value.Loaded())
    {
      r := cache.BlockFor(BlockKey(position, blockSize));
    }

    /** Stores a block just read at `blockOffset`; a short block fixes the
        end of the file. */
    method Store(blockOffset: int, block: Block)
      requires Valid() && block.offset == blockOffset && blockOffset !in Offsets(Entries(cache.list))
      modifies this, cache
      ensures Valid()
      ensures Entries(cache.list) ==
        Put(old(Entries(cache.list)), Offsets(old(Entries(cache.list))), blockOffset, Entry(block.offset, block.count), cache.capacity)
      ensures exactTotalFrames == if block.count < blockSize then Some(block.offset + block.count) else old(exactTotalFrames)
      ensures forall b :: b in cache.list ==> b == block || b in old(cache.list)
    {
      ghost var es := Entries(cache.list);
      cache.SetBlockFor(blockOffset, block);
      ghost var stored := Entries(cache.list);
      assert stored == Put(es, Offsets(es), blockOffset, Entry(block.offset, block.count), cache.capacity);
      if block.count < blockSize {
        exactTotalFrames := Some(blockOffset + block.count);
      }
      assert Entries(cache.list) == stored;
    }

    /** One block of the prefetch window: read and stored when it is not
        cached. */
    method Fetch(blockOffset: int, file: int -> FileRead)
      requires Ready() && DecoderFits(file, Channels(), blockSize)
      modifies this, cache
      ensures Ready()
      ensures (Entries(cache.list), exactTotalFrames) ==
        Fetched(old(Entries(cache.list)), old(exactTotalFrames), blockOffset, blockSize, cache.capacity, lengthFactor, file)
      ensures forall b :: b in cache.list ==> (b in old(cache.list) ||
        (fresh(b) && fresh(b.buffers) && b.Loaded() && b.count <= blockSize && b.Capacity() == blockSize && b.buffers.Channels() == Channels()))
    {
      ghost var es := Entries(cache.list);
      ghost var exact := exactTotalFrames;
      if cache.BlockFor(blockOffset).None? {
        var block, ok := NewBlock(blockOffset, file);
        if ok {
          Store(blockOffset, block);
          FetchedDecoded(es, exact, blockOffset, blockSize, cache.capacity, lengthFactor, file, block.count);
        } else {
          FetchedUncached(es, exact, blockOffset, blockSize, cache.capacity, lengthFactor, file);
        }
      }
    }

    /** A new block of the reader's layout, read at `blockOffset`. */
    method NewBlock(blockOffset: int, file: int -> FileRead) returns (block: Block, ok: bool)
      requires blockSize > 0 && DecoderFits(file, Channels(), blockSize)
      ensures fresh(block) && fresh(block.buffers) && fresh(block.buffers.samples) && block.offset == blockOffset
      ensures var r := file(SeekPosition(blockOffset, lengthFactor));
        ok == r.Decoded? &&
        (ok ==> block.count == r.numRead && block.Loaded() && block.count <= blockSize &&
                block.Capacity() == blockSize && block.buffers.Channels() == Channels())
    {
      block := new Block(isStereo, blockOffset, blockSize);
      ok := block.Read(blockOffset, lengthFactor, file);
    }

    /** `prepopulate`: for the block holding `position` and the two after it,
        stopping at the first at or past the known end of the file, fetches
        each block. */
    method Prepopulate(position: nat, file: int -> FileRead)
      requires Ready() && DecoderFits(file, Channels(), blockSize)
      modifies this, cache
      ensures Ready()
      ensures (Entries(cache.list), exactTotalFrames) ==
        Prepopulated(old(Entries(cache.list)), old(exactTotalFrames), position, 0, blockSize, cache.capacity, lengthFactor, file)
    {
      ghost var target := Prepopulated(Entries(cache.list), exactTotalFrames, position, 0, blockSize, cache.capacity, lengthFactor, file);
      var i := 0;
      while i <= 2
        invariant 0 <= i <= 3 && Ready()
        invariant target == Prepopulated(Entries(cache.list), exactTotalFrames, position, i, blockSize, cache.capacity, lengthFactor, file)
      {
        var blockOffset := WindowOffset(position, i, blockSize);
        if exactTotalFrames.Some? && blockOffset >= exactTotalFrames.value {
          break;
        }
        ghost var es := Entries(cache.list);
        ghost var exact := exactTotalFrames;
        Fetch(blockOffset, file);
        ghost var f := Fetched(es, exact, blockOffset, blockSize, cache.capacity, lengthFactor, file);
        assert (Entries(cache.list), exactTotalFrames) == f;
        PrepopulatedStep(es, exact, position, i, blockOffset, blockSize, cache.capacity, lengthFactor, file);
        assert target == Prepopulated(f.0, f.1, position, i + 1, blockSize, cache.capacity, lengthFactor, file);
        i := i + 1;
      }
    }
  }

  /** The entries of a list with a new block stored. */
  lemma PutEntriesFresh(list: seq<Block>, key: int, b: Block, capacity: nat)
    ensures var es := Entries(list);
      Entries(Put(list, Offsets(es), key, b, capacity)) == Put(es, Offsets(es), key, Entry(b.offset, b.count), capacity)
  {
    var es := Entries(list);
    var i := IndexOf(Offsets(es), key);
    EntriesRemoved(list, i);
    EntriesTrimmed(Removed(list, i), capacity);
    EntriesConsed(b, Trimmed(Removed(list, i), capacity));
  }

  /** The cache entries and the known end of the file after fetching the
      block at `blockOffset`. */
  function Fetched(es: seq<Entry>, exact: Option<int>, blockOffset: int, blockSize: nat, capacity: nat,
                   lengthFactor: real, file: int -> FileRead): (r: (seq<Entry>, Option<int>))
    ensures blockOffset in Offsets(es) ==> r == (es, exact)
  {
    if blockOffset in Offsets(es) then (es, exact)
    else match file(SeekPosition(blockOffset, lengthFactor))
      case Failed(_) => (es, exact)
      case Decoded(n, _) =>
        (Put(es, Offsets(es), blockOffset, Entry(blockOffset, n), capacity), if n < blockSize then Some(blockOffset + n) else exact)
  }

  lemma FetchedUncached(es: seq<Entry>, exact: Option<int>, blockOffset: int, blockSize: nat, capacity: nat,
                        lengthFactor: real, file: int -> FileRead)
    requires blockOffset !in Offsets(es) && file(SeekPosition(blockOffset, lengthFactor)).Failed?
    ensures Fetched(es, exact, blockOffset, blockSize, capacity, lengthFactor, file) == (es, exact)
  {
  }

  lemma FetchedDecoded(es: seq<Entry>, exact: Option<int>, blockOffset: int, blockSize: nat, capacity: nat,
                       lengthFactor: real, file: int -> FileRead, n: nat)
    requires blockOffset !in Offsets(es)
    requires file(SeekPosition(blockOffset, lengthFactor)).Decoded? && file(SeekPosition(blockOffset, lengthFactor)).numRead == n
    ensures Fetched(es, exact, blockOffset, blockSize, capacity, lengthFactor, file).0 ==
      Put(es, Offsets(es), blockOffset, Entry(blockOffset, n), capacity)
    ensures Fetched(es, exact, blockOffset, blockSize, capacity, lengthFactor, file).1 ==
      if n < blockSize then Some(blockOffset + n) else exact
  {
  }

  /** The cache entries and the known end of the file after the prefetch
      window from its `i`-th block onwards. */
  function Prepopulated(es: seq<Entry>, exact: Option<int>, position: nat, i: nat, blockSize: nat, capacity: nat,
                        lengthFactor: real, file: int -> FileRead): (r: (seq<Entry>, Option<int>))
    requires blockSize > 0
    decreases 3 - i
  {
    if i > 2 then (es, exact)
    else
      var blockOffset := BlockKey(position, blockSize) + i * blockSize;
      if exact.Some? && blockOffset >= exact.value then (es, exact)
      else
        var f := Fetched(es, exact, blockOffset, blockSize, capacity, lengthFactor, file);
        Prepopulated(f.0, f.1, position, i + 1, blockSize, capacity, lengthFactor, file)
  }

  /** The prefetch window never forgets an end of the file once it is known. */
  lemma {:induction false} PrepopulatedKeepsEnd(es: seq<Entry>, exact: Option<int>, position: nat, i: nat, blockSize: nat,
                                                capacity: nat, lengthFactor: real, file: int -> FileRead)
    requires blockSize > 0 && exact.Some?
    decreases 3 - i
    ensures Prepopulated(es, exact, position, i, blockSize, capacity, lengthFactor, file).1.Some?
  {
    var blockOffset := BlockKey(position, blockSize) + i * blockSize;
    if i <= 2 && !(blockOffset >= exact.value) {
      var f := Fetched(es, exact, blockOffset, blockSize, capacity, lengthFactor, file);
      PrepopulatedStep(es, exact, position, i, blockOffset, blockSize, capacity, lengthFactor, file);
      PrepopulatedKeepsEnd(f.0, f.1, position, i + 1, blockSize, capacity, lengthFactor, file);
    }
  }

  lemma PrepopulatedStep(es: seq<Entry>, exact: Option<int>, position: nat, i: nat, blockOffset: int, blockSize: nat,
                         capacity: nat, lengthFactor: real, file: int -> FileRead)
    requires blockSize > 0 && i <= 2 && blockOffset == BlockKey(position, blockSize) + i * blockSize
    requires !(exact.Some? && blockOffset >= exact.value)
    ensures var f := Fetched(es, exact, blockOffset, blockSize, capacity, lengthFactor, file);
      Prepopulated(es, exact, position, i, blockSize, capacity, lengthFactor, file) ==
      Prepopulated(f.0, f.1, position, i + 1, blockSize, capacity, lengthFactor, file)
  {
  }

  /** Into an empty cache with the end of the file unknown, a short block
      holding `position` is stored alone, fixes the end of the file and
      ends the window. */
  lemma FirstBlockStoredWhenRead(position: nat, blockSize: nat, lengthFactor: real, file: int -> FileRead)
    requires blockSize > 0
    requires file(SeekPosition(BlockKey(position, blockSize), lengthFactor)).Decoded?
    requires file(SeekPosition(BlockKey(position, blockSize), lengthFactor)).numRead < blockSize
    ensures var r := Prepopulated([], None, position, 0, blockSize, 8, lengthFactor, file);
      var n := file(SeekPosition(BlockKey(position, blockSize), lengthFactor)).numRead;
      r.1 == Some(BlockKey(position, blockSize) + n) && r.0 == [Entry(BlockKey(position, blockSize), n)]
  {
    var key := BlockKey(position, blockSize);
    var n := file(SeekPosition(key, lengthFactor)).numRead;
    assert key == BlockKey(position, blockSize) + 0 * blockSize;
    FetchedDecoded([], None, key, blockSize, 8, lengthFactor, file, n);
    PrepopulatedStep([], None, position, 0, key, blockSize, 8, lengthFactor, file);
    var es := Put([], Offsets([]), key, Entry(key, n), 8);
    assert es == [Entry(key, n)];
    assert BlockKey(position, blockSize) + 1 * blockSize >= key + n;
  }

  /** `readSync`: sets every channel to `frameCount` samples, reads; on a
      failure reports no frames and silences the whole cycle, otherwise
      pads the frames after those read with silence. */
  method ReadSync(frameCount: nat, buffers: BufferList, r: FileRead) returns (numRead: nat, error: Option<int>)
    requires buffers.Valid() && frameCount <= buffers.Capacity()
    requires Fits(r, buffers.Channels(), buffers.Capacity()) && (r.Decoded? ==> r.numRead <= frameCount)
    modifies buffers, buffers.samples
    ensures buffers.Valid()
    ensures r.Failed? ==> numRead == 0 && error == Some(r.status)
    ensures r.Failed? ==> buffers.Frames() == Silenced(old(buffers.Frames()), frameCount, 0) && buffers.FrameCount() == frameCount
    ensures r.Decoded? ==> numRead == r.numRead && error == None
    ensures r.Decoded? ==> buffers.Frames() == Silenced(r.samples, frameCount, r.numRead) && buffers.FrameCount() == r.numRead
  {
    buffers.SetFrameCount(frameCount);
    if r.Failed? {
      numRead := 0;
      var _ := Utilities.FillSilence(frameCount, buffers, 0);
      return 0, Some(r.status);
    }
    buffers.Assign(r.samples);
    buffers.SetFrameCount(r.numRead);
    numRead := r.numRead;
    if numRead < frameCount {
      var _ := Utilities.FillSilence(frameCount, buffers, numRead);
    } else {
      BufEq(buffers.Frames(), Silenced(r.samples, frameCount, r.numRead));
    }
    error := None;
  }
}
