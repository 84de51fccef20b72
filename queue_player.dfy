/** The gapless queue (`QueuePlayer` in `AudioNodes/Sources/Player.swift`): a
    player node over a list of file players treated as one long recording.
    A render fills the buffer from the current item on, moving to the next
    item whenever one runs short; the time position is spread over the
    items by their durations.

    What an item's `read` puts into the buffer and returns is a function
    parameter here (`ReadLoop` in the file player's model specifies it):
    the queue only depends on how many frames each read delivered. */
module Queue {
  import opened Buffers
  import Utilities
  import GraphNode
  import FileReader
  import Player

  /** What a read of item `index` at offset `offset` returns, and the
      buffer it leaves. */
  datatype ItemRead = ItemRead(copied: nat, samples: Buf)

  /** An item read writes only into the buffer it is given. */
  ghost predicate InPlace(read: (nat, nat, Buf) -> ItemRead) {
    forall index, offset, b :: SameShape(b, read(index, offset, b).samples)
  }

  /** Where a render left the queue: the current index, the frames written
      and the buffer. */
  datatype Filled = Filled(index: nat, written: nat, samples: Buf)

  /** The loop of `_render` from item `index` on, with `written` frames of
      the cycle done: past the last of the `count` items the rest of the
      cycle is silence; otherwise the item is read at offset `written`, and
      the loop moves to the next item if the cycle is still not full. */
  function Fill(count: nat, index: nat, written: nat, frameCount: nat, b: Buf,
                read: (nat, nat, Buf) -> ItemRead): (f: Filled)
    requires written <= frameCount
    decreases count - index
    ensures index <= f.index <= Max(index, count) && written <= f.written
    ensures f.written < frameCount ==> f.index >= count
    ensures index < count ==> (f.index >= count <==> f.written < frameCount)
    ensures f.written < frameCount ==>
      forall c, i :: 0 <= c < |f.samples| && f.written <= i < frameCount && i < |f.samples[c]| ==> f.samples[c][i] == 0.0
  {
    if index >= count then Filled(index, written, Silenced(b, frameCount, written))
    else
      var r := read(index, written, b);
      if written + r.copied >= frameCount then Filled(index, written + r.copied, r.samples)
      else Fill(count, index + 1, written + r.copied, frameCount, r.samples, read)
  }

  /** One item of the render loop. */
  lemma FillStep(count: nat, index: nat, written: nat, frameCount: nat, b: Buf,
                 read: (nat, nat, Buf) -> ItemRead, r: ItemRead, written': nat)
    requires written <= frameCount && index < count
    requires r == read(index, written, b) && written' == written + r.copied
    ensures written' >= frameCount ==> Fill(count, index, written, frameCount, b, read) == Filled(index, written', r.samples)
    ensures written' < frameCount ==>
      Fill(count, index, written, frameCount, b, read) == Fill(count, index + 1, written', frameCount, r.samples, read)
  {
  }

  /** The sum of a list of durations. */
  function Sum(s: seq<real>): real {
    if |s| == 0 then 0.0 else Sum(s[..|s| - 1]) + s[|s| - 1]
  }

  /** The `time$` getter on the durations of the items: the items before
      `index` in full, plus the current item's time if `index` is an item. */
  function TimeAt(durs: seq<real>, index: nat, itemTime: real): (t: real)
    requires index <= |durs|
    ensures index == |durs| ==> t == Sum(durs)
  {
    assert durs[..|durs|] == durs;
    Sum(durs[..index]) + (if index < |durs| then itemTime else 0.0)
  }

  /** The state of the `time$` setter's walk over the items: the time still
      to place, the item chosen as current, and for each item visited the
      time it was given (`None`: left alone). */
  datatype Placed = Placed(time: real, current: Option<nat>, given: seq<Option<real>>)

  /** One item of the walk, of duration `d` at index `i`. As written, an
      item is reset to 0 once the time to place is exactly 0, skipped when
      the time covers it, and made current with the time otherwise. The
      corrected walk resets only the items after the current one, and skips
      an item only while some positive time is left to place. */
  function Step(p: Placed, d: real, i: nat, corrected: bool): (q: Placed)
    ensures |q.given| == |p.given| + 1 && forall k :: 0 <= k < |p.given| ==> q.given[k] == p.given[k]
    ensures q.current == p.current || q.current == Some(i)
  {
    if (if corrected then p.current.Some? else p.time == 0.0) then
      Placed(p.time, p.current, p.given + [Some(0.0)])
    else if (!corrected || p.time > 0.0) && p.time >= d then
      Placed(p.time - d, p.current, p.given + [None])
    else
      Placed(0.0, Some(i), p.given + [Some(p.time)])
  }

  /** The walk of the `time$` setter over items of durations `durs`. */
  function Placement(durs: seq<real>, t: real, corrected: bool): (p: Placed)
    ensures |p.given| == |durs|
    ensures p.current.Some? ==> p.current.value < |durs|
  {
    if |durs| == 0 then Placed(t, None, [])
    else Step(Placement(durs[..|durs| - 1], t, corrected), durs[|durs| - 1], |durs| - 1, corrected)
  }

  lemma PlacementStep(durs: seq<real>, t: real, corrected: bool, i: nat)
    requires i < |durs|
    ensures Placement(durs[..i + 1], t, corrected) == Step(Placement(durs[..i], t, corrected), durs[i], i, corrected)
  {
    assert durs[..i + 1][..i] == durs[..i];
  }

  /** The same walk from item `i` on, from the placement `p` of the items
      before it. */
  function Walk(durs: seq<real>, i: nat, p: Placed, corrected: bool): Placed
    requires i <= |durs|
    decreases |durs| - i
  {
    if i == |durs| then p else Walk(durs, i + 1, Step(p, durs[i], i, corrected), corrected)
  }

  /** Walking on from the placement of a prefix completes the placement. */
  lemma {:induction false} WalkPlacement(durs: seq<real>, t: real, corrected: bool, i: nat)
    requires i <= |durs|
    decreases |durs| - i
    ensures Walk(durs, i, Placement(durs[..i], t, corrected), corrected) == Placement(durs, t, corrected)
  {
    if i == |durs| {
      assert durs[..i] == durs;
    } else {
      PlacementStep(durs, t, corrected, i);
      WalkPlacement(durs, t, corrected, i + 1);
    }
  }

  /** What the corrected setter gives item `k`: nothing when the time is
      past it, the time into it when the time falls in it, 0 after. */
  function Expected(durs: seq<real>, t: real, k: nat): Option<real>
    requires k < |durs|
  {
    if t >= Sum(durs[..k + 1]) then None
    else if t >= Sum(durs[..k]) then Some(t - Sum(durs[..k]))
    else Some(0.0)
  }

  /** For positive durations and a time from 0 on, the corrected walk
      chooses an item exactly when the time is within the queue, and keeps
      what is left past its end. */
  lemma {:induction false} PlacementRemaining(durs: seq<real>, t: real)
    requires forall k :: 0 <= k < |durs| ==> durs[k] > 0.0
    requires t >= 0.0
    ensures var p := Placement(durs, t, true);
      p.time == (if t >= Sum(durs) then t - Sum(durs) else 0.0) && (p.current.Some? <==> t < Sum(durs))
  {
    if |durs| > 0 {
      PlacementRemaining(durs[..|durs| - 1], t);
    }
  }

  /** For positive durations and a time from 0 on, the corrected setter
      leaves the items before the time alone, gives the item that holds it
      the time into it, and rewinds the items after it. */
  lemma {:induction false} PlacementGiven(durs: seq<real>, t: real)
    requires forall k :: 0 <= k < |durs| ==> durs[k] > 0.0
    requires t >= 0.0
    ensures var p := Placement(durs, t, true);
      forall k :: 0 <= k < |durs| ==> p.given[k] == Expected(durs, t, k)
  {
    if |durs| > 0 {
      var i := |durs| - 1;
      PlacementGiven(durs[..i], t);
      PlacementRemaining(durs[..i], t);
      PrefixesAgree(durs, i, t);
      var q := Placement(durs[..i], t, true);
      var p := Placement(durs, t, true);
      assert durs[..i + 1] == durs;
      forall k | 0 <= k < |durs|
        ensures p.given[k] == Expected(durs, t, k)
      {
        if k < i {
          assert p.given[k] == q.given[k];
        }
      }
    }
  }

  /** For positive durations and a time from 0 on, the corrected setter
      makes current exactly the item whose span holds the time. */
  lemma {:induction false} PlacementCurrent(durs: seq<real>, t: real)
    requires forall k :: 0 <= k < |durs| ==> durs[k] > 0.0
    requires t >= 0.0
    ensures var p := Placement(durs, t, true);
      forall k :: 0 <= k < |durs| ==> (p.current == Some(k) <==> Sum(durs[..k]) <= t < Sum(durs[..k + 1]))
  {
    if |durs| > 0 {
      var i := |durs| - 1;
      PlacementCurrent(durs[..i], t);
      PlacementRemaining(durs[..i], t);
      PrefixesAgree(durs, i, t);
      assert durs[..i + 1] == durs;
    }
  }

  /** The prefix sums of a prefix are those of the whole list. */
  lemma PrefixesAgree(durs: seq<real>, i: nat, t: real)
    requires i < |durs|
    ensures forall k :: 0 <= k <= i ==> Sum(durs[..i][..k]) == Sum(durs[..k])
    ensures forall k :: 0 <= k < i ==> Expected(durs[..i], t, k) == Expected(durs, t, k)
  {
    forall k | 0 <= k <= i
      ensures Sum(durs[..i][..k]) == Sum(durs[..k])
    {
      assert durs[..i][..k] == durs[..k];
    }
  }

  /** The corrected setter and the getter agree: once the chosen item
      reports the time it was given, the queue's time is the time set. */
  lemma PlacementTime(durs: seq<real>, t: real)
    requires forall k :: 0 <= k < |durs| ==> durs[k] > 0.0
    requires 0.0 <= t < Sum(durs)
    ensures var p := Placement(durs, t, true);
      p.current.Some? && p.given[p.current.value].Some? &&
      TimeAt(durs, p.current.value, p.given[p.current.value].value) == t
  {
    PlacementRemaining(durs, t);
    PlacementGiven(durs, t);
    PlacementCurrent(durs, t);
  }

  /** As written, a time of exactly 0, or exactly the start of an item,
      makes no item current: with two items of one second each, the
      queue is not moved to the first item by a rewind to 0, nor to the
      second by a seek to 1 s. The corrected walk moves it. */
  lemma SetTimeAsWrittenMisses()
    ensures Placement([1.0, 1.0], 0.0, false).current == None
    ensures Placement([1.0, 1.0], 1.0, false).current == None
    ensures Placement([1.0, 1.0], 0.0, true).current == Some(0)
    ensures Placement([1.0, 1.0], 1.0, true).current == Some(1)
  {
    assert [1.0, 1.0][..1] == [1.0];
    assert [1.0][..0] == [];
  }

  /** The pending playhead of an item after the setter: unchanged when the
      item is left alone, otherwise the frame of the time it is given. */
  function Seek(a: Option<real>, sampleRate: real, total: nat, prev: Option<nat>): Option<nat> {
    match a
    case None => prev
    case Some(x) => Some(Player.SeekFrame(x, sampleRate, total))
  }

  /** The durations of `ps`, in order. */
  function DurationsOf(ps: seq<Player.FilePlayer>): (ds: seq<real>)
    requires forall i :: 0 <= i < |ps| ==> ps[i].sampleRate > 0.0
    ensures |ds| == |ps| && forall i {:trigger ds[i]} :: 0 <= i < |ps| ==> ds[i] == ps[i].Duration()
  {
    if |ps| == 0 then [] else DurationsOf(ps[..|ps| - 1]) + [ps[|ps| - 1].Duration()]
  }

  /** Each of `ps` was asked for the seek `given` to it (`Seek`), and its
      playheads are as they were. */
  twostate predicate Sought(ps: seq<Player.FilePlayer>, given: seq<Option<real>>)
    reads ps
  {
    forall k :: 0 <= k < |ps| && k < |given| ==>
      ps[k].pendingPlayhead == Seek(given[k], ps[k].sampleRate, ps[k].estimatedTotalFrames, old(ps[k].pendingPlayhead)) &&
      ps[k].playhead == old(ps[k].playhead) && ps[k].lastKnownPlayhead == old(ps[k].lastKnownPlayhead)
  }

  class QueuePlayer {
    /** The node the queue is. */
    const node: GraphNode.Node
    const format: GraphNode.StreamFormat
    /** `items$`, the queue as the public side sees it. */
    var items: seq<Player.FilePlayer>
    /** `_items`, the queue as the last render cycle saw it. */
    var renderItems: seq<Player.FilePlayer>
    var lastKnownIndex: nat
    var pendingIndex: Option<nat>
    var currentIndex: nat

    /** The items are distinct players, each with a sample rate and a node
        of its own; the render snapshot is an earlier state of the queue
        (items are only ever appended) and the indices stay within it. */
    ghost predicate Valid()
      reads this
    {
      (forall i :: 0 <= i < |items| ==> items[i].sampleRate > 0.0 && items[i].node != node) &&
      (forall i, j :: 0 <= i < j < |items| ==> items[i] != items[j]) &&
      renderItems <= items && currentIndex <= |renderItems| && lastKnownIndex <= |items| &&
      (pendingIndex.Some? ==> pendingIndex.value < |items|)
    }

    ghost function ItemSet(): set<object>
      reads this
    {
      set i | 0 <= i < |items| :: items[i]
    }

    ghost function RenderSet(): set<object>
      reads this
    {
      (set i | 0 <= i < |renderItems| :: renderItems[i]) + (set i | 0 <= i < |renderItems| :: renderItems[i].node)
    }

    /** An empty queue; disabled by default in the source. */
    constructor (format: GraphNode.StreamFormat, isEnabled: bool)
      ensures Valid() && this.format == format && items == [] && renderItems == []
      ensures lastKnownIndex == 0 && pendingIndex == None && currentIndex == 0
      ensures fresh(node) && node.State() == GraphNode.NodeState(GraphNode.InitialConfig(isEnabled), GraphNode.InitialConfig(isEnabled), isEnabled, false)
    {
      node := new GraphNode.Node(isEnabled);
      this.format := format;
      items := [];
      renderItems := [];
      lastKnownIndex := 0;
      pendingIndex := None;
      currentIndex := 0;
    }

    /** `addFile`: appends an enabled player of the file, or returns false
        when the file could not be opened (`canOpen` false); the new
        player's prefetch from frame 0 is returned. */
    method AddFile(file: FileReader.Reader, sampleRate: real, estimatedTotalFrames: nat, canOpen: bool)
      returns (added: bool, prefetches: seq<nat>)
      requires Valid() && sampleRate > 0.0
      modifies this
      ensures Valid() && added == canOpen && prefetches == if canOpen then [0] else []
      ensures renderItems == old(renderItems) && currentIndex == old(currentIndex)
      ensures lastKnownIndex == old(lastKnownIndex) && pendingIndex == old(pendingIndex)
      ensures !canOpen ==> items == old(items)
      ensures canOpen ==>
        (|items| == |old(items)| + 1 && items[..|old(items)|] == old(items) &&
         var p := items[|old(items)|];
         fresh(p) && p.file == file && p.sampleRate == sampleRate && p.estimatedTotalFrames == estimatedTotalFrames &&
         p.node.pending.enabled)
    {
      if !canOpen {
        return false, [];
      }
      var player := new Player.FilePlayer(file, sampleRate, estimatedTotalFrames, true);
      items := items + [player];
      added, prefetches := true, player.initialPrefetches;
    }

    /** `_willRender$`: the node's snapshot, then the render side takes the
        current queue, and a pending index is applied once and cleared. */
    method WillRender()
      requires Valid()
      modifies this, node
      ensures Valid() && node.State() == old(node.State()).(active := old(node.pending))
      ensures renderItems == items && items == old(items) && pendingIndex == None
      ensures currentIndex == (if old(pendingIndex).Some? then old(pendingIndex).value else old(currentIndex))
      ensures lastKnownIndex == old(lastKnownIndex)
    {
      node.WillRender();
      renderItems := items;
      if pendingIndex.Some? {
        currentIndex := pendingIndex.value;
        pendingIndex := None;
      }
    }

    /** `_render`: fills the cycle from the current item on at increasing
        offsets (`Fill`), each item's own snapshot taken first; disables the
        queue when the cycle could not be filled; publishes the index. */
    method Render(frameCount: nat, buffers: BufferList, read: (nat, nat, Buf) -> ItemRead) returns (status: int)
      requires Valid() && buffers.Valid() && frameCount <= buffers.Capacity() && InPlace(read)
      modifies this, node, buffers.samples, RenderSet()
      ensures Valid() && status == NO_ERR
      ensures items == old(items) && renderItems == old(renderItems) && pendingIndex == old(pendingIndex)
      ensures var f := Fill(|renderItems|, old(currentIndex), 0, frameCount, old(buffers.Frames()), read);
        currentIndex == f.index && lastKnownIndex == f.index && buffers.Frames() == f.samples &&
        (f.written < frameCount ==> node.State() == old(node.State()).(pending := old(node.pending).(enabled := false))) &&
        (f.written >= frameCount ==> node.State() == old(node.State()))
    {
      var index, written := FillItems(currentIndex, frameCount, buffers, read);
      if written < frameCount {
        node.SetEnabled(false);
      }
      currentIndex := index;
      lastKnownIndex := index;
      status := NO_ERR;
    }

    /** The loop of `_render` from item `index` on (`Fill`). */
    method FillItems(index: nat, frameCount: nat, buffers: BufferList, read: (nat, nat, Buf) -> ItemRead)
      returns (newIndex: nat, written: nat)
      requires buffers.Valid() && index <= |renderItems| && frameCount <= buffers.Capacity() && InPlace(read)
      modifies buffers.samples, RenderSet()
      ensures buffers.Valid() && newIndex <= |renderItems|
      ensures Fill(|renderItems|, index, 0, frameCount, old(buffers.Frames()), read) == Filled(newIndex, written, buffers.Frames())
    {
      var players := renderItems;
      ghost var target := Fill(|players|, index, 0, frameCount, buffers.Frames(), read);
      ghost var samples := buffers.Frames();
      newIndex, written := index, 0;
      var running := true;
      while running
        invariant buffers.Valid() && newIndex <= |players| && buffers.Frames() == samples
        invariant running ==> written <= frameCount
        invariant running ==> Fill(|players|, newIndex, written, frameCount, samples, read) == target
        invariant !running ==> target == Filled(newIndex, written, samples)
        decreases running, |players| - newIndex
      {
        if newIndex >= |players| {
          var _ := Utilities.FillSilence(frameCount, buffers, written);
          samples := Silenced(samples, frameCount, written);
          running := false;
        } else {
          ghost var r := read(newIndex, written, samples);
          var copied := ReadItem(players[newIndex], newIndex, buffers, read, written);
          FillStep(|players|, newIndex, written, frameCount, samples, read, r, written + copied);
          samples := r.samples;
          written := written + copied;
          if written >= frameCount {
            running := false;
          } else {
            newIndex := newIndex + 1;
          }
        }
      }
    }

    /** One item of `_render`: the item's snapshot, then its read at offset
        `framesWritten`. */
    method ReadItem(player: Player.FilePlayer, index: nat, buffers: BufferList, read: (nat, nat, Buf) -> ItemRead,
                    framesWritten: nat) returns (copied: nat)
      requires buffers.Valid() && InPlace(read)
      modifies player, player.node, buffers.samples
      ensures buffers.Valid()
      ensures copied == read(index, framesWritten, old(buffers.Frames())).copied
      ensures buffers.Frames() == read(index, framesWritten, old(buffers.Frames())).samples
    {
      var _ := player.WillRender();
      var r := read(index, framesWritten, buffers.Frames());
      buffers.Assign(r.samples);
      copied := r.copied;
    }

    /** The duration of each item. */
    function Durations(): (ds: seq<real>)
      reads this
      requires forall i :: 0 <= i < |items| ==> items[i].sampleRate > 0.0
      ensures |ds| == |items|
      ensures forall i :: 0 <= i < |items| ==> ds[i] == items[i].Duration()
    {
      DurationsOf(items)
    }

    /** `duration`: the durations of all items together. */
    function Duration(): real
      reads this
      requires Valid()
    {
      Sum(Durations())
    }

    /** `time$` getter: the durations of the items before the last index
        rendered, plus that item's own time. */
    function Time(): real
      reads this, ItemSet()
      requires Valid()
    {
      TimeAt(Durations(), lastKnownIndex, if lastKnownIndex < |items| then items[lastKnownIndex].Time() else 0.0)
    }

    /** `isAtEnd`: the last render ran past the last item. */
    predicate IsAtEnd()
      reads this
    {
      lastKnownIndex >= |items|
    }

    /** `time$` setter, corrected (`Placement`): the item whose span holds
        `t` becomes current with the time into it, the items after it are
        rewound, the items before it are left alone. */
    method SetTime(t: real)
      requires Valid()
      modifies this, ItemSet()
      ensures Valid() && items == old(items) && renderItems == old(renderItems)
      ensures currentIndex == old(currentIndex) && lastKnownIndex == old(lastKnownIndex)
      ensures var p := Placement(DurationsOf(items), t, true);
        pendingIndex == (if p.current.Some? then p.current else old(pendingIndex)) && Sought(items, p.given)
    {
      assert this !in ItemSet();
      var current := PlaceItems(t);
      label walked:
      if current.Some? {
        pendingIndex := current;
      }
      assert unchanged@walked(items);
    }

    /** The loop of the `time$` setter: each item is placed in turn
        (`PlaceItem`); the result is the index made current, if any. */
    method PlaceItems(t: real) returns (current: Option<nat>)
      requires Valid()
      modifies ItemSet()
      ensures var p := Placement(DurationsOf(items), t, true);
        current == p.current && Sought(items, p.given)
    {
      var ps := items;
      ghost var durs := DurationsOf(ps);
      ghost var placed := Placed(t, None, []);
      ghost var target := Walk(durs, 0, placed, true);
      var time := t;
      var found := false;
      current := None;
      var i := 0;
      while i < |ps|
        invariant 0 <= i <= |ps|
        invariant Walk(durs, i, placed, true) == target && |placed.given| == i
        invariant placed.time == time && (placed.current.Some? <==> found)
        invariant current == placed.current
        invariant forall k :: 0 <= k < |ps| ==>
          ps[k].playhead == old(ps[k].playhead) && ps[k].lastKnownPlayhead == old(ps[k].lastKnownPlayhead) &&
          ps[k].pendingPlayhead ==
            if k < i then Seek(placed.given[k], ps[k].sampleRate, ps[k].estimatedTotalFrames, old(ps[k].pendingPlayhead))
            else old(ps[k].pendingPlayhead)
      {
        var item := ps[i];
        ghost var prev := placed;
        placed := Step(placed, durs[i], i, true);
        var wasFound := found;
        time, found := PlaceItem(item, prev, i, time, found);
        if found && !wasFound {
          current := Some(i);
        }
        forall k | 0 <= k < |ps| && k != i
          ensures ps[k].pendingPlayhead ==
            if k <= i then Seek(placed.given[k], ps[k].sampleRate, ps[k].estimatedTotalFrames, old(ps[k].pendingPlayhead))
            else old(ps[k].pendingPlayhead)
        {
          assert ps[k] != item;
          if k < i {
            assert placed.given[k] == prev.given[k];
          }
        }
        i := i + 1;
      }
      WalkPlacement(durs, t, true, 0);
      assert durs[..0] == [];
    }

    /** One item of the setter's walk (`Step`): rewound once an earlier item
        was made current, skipped while the time left covers it, made
        current with the time left otherwise. */
    method PlaceItem(item: Player.FilePlayer, ghost p: Placed, i: nat, time: real, found: bool)
      returns (newTime: real, nowFound: bool)
      requires item.sampleRate > 0.0 && p.time == time && (p.current.Some? <==> found)
      modifies item
      ensures var q := Step(p, item.Duration(), i, true);
        newTime == q.time && (q.current.Some? <==> nowFound) &&
        item.pendingPlayhead == Seek(q.given[|p.given|], item.sampleRate, item.estimatedTotalFrames, old(item.pendingPlayhead))
      ensures item.playhead == old(item.playhead) && item.lastKnownPlayhead == old(item.lastKnownPlayhead)
    {
      var d := item.Duration();
      newTime, nowFound := time, found;
      if found {
        item.SetTime(0.0);
      } else if time > 0.0 && time >= d {
        newTime := time - d;
      } else {
        item.SetTime(time);
        newTime, nowFound := 0.0, true;
      }
    }
  }

  /** A queue whose last render ran past its last item reports the
      durations of all items together as its time. */
  lemma AtEndTimeIsDuration(q: QueuePlayer)
    requires q.Valid() && q.IsAtEnd()
    ensures q.Time() == q.Duration()
  {
    assert q.lastKnownIndex == |q.items|;
  }
}
