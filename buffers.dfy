/** Sample buffers as the audio graph sees them.

    `Buf` is the value view of a buffer list, channel by channel, used by the
    specifications; `BufferList` is the in-place storage (CoreAudio's
    `AudioBufferList` and the `SafeAudioBufferList` that owns one): a fixed
    number of channels of equal capacity, each channel with its own current
    sample count. */
module Buffers {

  /** The status value that means success (CoreAudio's `noErr`). */
  const NO_ERR: int := 0

  /** The lowest level any measurement reports, in decibels. */
  const MIN_LEVEL_DB: real := -90.0

  /** Samples channel by channel: `b[c][i]` is frame `i` of channel `c`. */
  type Buf = seq<seq<real>>

  /** An optional value. */
  datatype Option<T> = None | Some(value: T)

  function Min(a: int, b: int): int { if a <= b then a else b }

  function Max(a: int, b: int): int { if a >= b then a else b }

  /** Every channel of `b` has exactly `n` frames. */
  predicate Shaped(b: Buf, channels: nat, n: nat) {
    |b| == channels && forall c :: 0 <= c < |b| ==> |b[c]| == n
  }

  /** `b` and `r` have the same number of channels and of frames per channel. */
  predicate SameShape(b: Buf, r: Buf) {
    |r| == |b| && forall c :: 0 <= c < |b| ==> |r[c]| == |b[c]|
  }

  /** A buffer of `channels` channels of `n` zero samples. */
  function Zeros(channels: nat, n: nat): (r: Buf)
    ensures Shaped(r, channels, n)
    ensures forall c, i :: 0 <= c < channels && 0 <= i < n ==> r[c][i] == 0.0
  {
    seq(channels, _ => seq(n, _ => 0.0))
  }

  /** `b` with frames `[offset, frameCount)` of every channel replaced by silence. */
  function Silenced(b: Buf, frameCount: nat, offset: nat): (r: Buf)
    requires offset <= frameCount
    ensures SameShape(b, r)
    ensures forall c, i :: 0 <= c < |b| && 0 <= i < |b[c]| ==>
      r[c][i] == if offset <= i < frameCount then 0.0 else b[c][i]
  {
    seq(|b|, c requires 0 <= c < |b| =>
      seq(|b[c]|, i requires 0 <= i < |b[c]| =>
        if offset <= i < frameCount then 0.0 else b[c][i]))
  }

  /** The length of a fade window: never longer than the cycle. */
  function FadeLength(frameCount: nat, fadeFrameCount: nat): (n: nat)
    ensures n <= frameCount && n <= fadeFrameCount
    ensures n == frameCount || n == fadeFrameCount
  {
    Min(frameCount, fadeFrameCount)
  }

  /** The linear fade factor for frame `i` of a `fade`-frame window: from 1
      towards 0 for a fade-out, from 0 towards 1 for a fade-in. */
  function RampFactor(out: bool, i: nat, fade: nat): (f: real)
    requires i < fade
    ensures 0.0 <= f <= 1.0
    ensures i == 0 ==> f == (if out then 1.0 else 0.0)
  {
    var t := (i as real) / (fade as real);
    if out then 1.0 - t else t
  }

  /** `b` faded out (`out`) or in over the first `FadeLength(frameCount, fadeFrameCount)`
      frames; a fade-out also silences the rest of the cycle, a fade-in leaves it. */
  function Smoothed(b: Buf, out: bool, frameCount: nat, fadeFrameCount: nat): (r: Buf)
    ensures SameShape(b, r)
  {
    var fade := FadeLength(frameCount, fadeFrameCount);
    seq(|b|, c requires 0 <= c < |b| =>
      seq(|b[c]|, i requires 0 <= i < |b[c]| =>
        if i < fade then b[c][i] * RampFactor(out, i, fade)
        else if out && i < frameCount then 0.0
        else b[c][i]))
  }

  /** After a fade-out nothing is left past the fade window in the cycle. */
  lemma SmoothOutSilencesTail(b: Buf, frameCount: nat, fadeFrameCount: nat, c: nat, i: nat)
    requires c < |b| && i < |b[c]|
    requires FadeLength(frameCount, fadeFrameCount) <= i < frameCount
    ensures Smoothed(b, true, frameCount, fadeFrameCount)[c][i] == 0.0
  {
  }

  /** A fade-in leaves every sample past the fade window as it was. */
  lemma SmoothInKeepsTail(b: Buf, frameCount: nat, fadeFrameCount: nat, c: nat, i: nat)
    requires c < |b| && i < |b[c]|
    requires FadeLength(frameCount, fadeFrameCount) <= i
    ensures Smoothed(b, false, frameCount, fadeFrameCount)[c][i] == b[c][i]
  {
  }

  /** The channel of a `fromChannels`-channel source copied into destination
      channel `c`: the same channel where it exists, otherwise channel 0. */
  function SourceChannel(c: nat, fromChannels: nat): (s: nat)
    requires fromChannels > 0
    ensures s < fromChannels
    ensures c < fromChannels ==> s == c
  {
    if c < fromChannels then c else 0
  }

  /** `to` with frames `[toOffset, toOffset + n)` of every channel taken from
      `from` starting at `fromOffset`; extra destination channels receive
      channel 0 of the source. */
  function CopiedFrom(to: Buf, from: Buf, fromOffset: nat, toOffset: nat, n: nat): (r: Buf)
    requires |from| > 0
    requires forall c :: 0 <= c < |from| ==> fromOffset + n <= |from[c]|
    ensures SameShape(to, r)
    ensures forall c, i :: 0 <= c < |to| && 0 <= i < |to[c]| ==>
      r[c][i] == if toOffset <= i < toOffset + n
        then from[SourceChannel(c, |from|)][fromOffset + (i - toOffset)]
        else to[c][i]
  {
    seq(|to|, c requires 0 <= c < |to| =>
      seq(|to[c]|, i requires 0 <= i < |to[c]| =>
        if toOffset <= i < toOffset + n
        then from[SourceChannel(c, |from|)][fromOffset + (i - toOffset)]
        else to[c][i]))
  }

  /** The contents of a two-dimensional sample array, channel by channel. */
  function Rows(a: array2<real>): (r: Buf)
    reads a
    ensures Shaped(r, a.Length0, a.Length1)
    ensures forall c, i :: 0 <= c < a.Length0 && 0 <= i < a.Length1 ==> r[c][i] == a[c, i]
  {
    seq(a.Length0, c requires 0 <= c < a.Length0 reads a =>
      seq(a.Length1, i requires 0 <= i < a.Length1 reads a => a[c, i]))
  }

  /** Two buffers agree when they have the same shape and the same samples. */
  lemma {:induction false} BufEq(r: Buf, b: Buf)
    requires SameShape(b, r)
    requires forall c, i :: 0 <= c < |b| && 0 <= i < |b[c]| ==> r[c][i] == b[c][i]
    ensures r == b
  {
    forall c | 0 <= c < |b| ensures r[c] == b[c] {
      assert |r[c]| == |b[c]|;
    }
  }

  /** An array holds `want` when every sample agrees with it. */
  lemma RowsAre(a: array2<real>, want: Buf)
    requires Shaped(want, a.Length0, a.Length1)
    requires forall k, j :: 0 <= k < a.Length0 && 0 <= j < a.Length1 ==> a[k, j] == want[k][j]
    ensures Rows(a) == want
  {
    BufEq(Rows(a), want);
  }

  /** Copying no frames leaves the destination as it was. */
  lemma CopiedNothing(to: Buf, from: Buf, fromOffset: nat, toOffset: nat)
    requires |from| > 0 && forall c :: 0 <= c < |from| ==> fromOffset <= |from[c]|
    ensures CopiedFrom(to, from, fromOffset, toOffset, 0) == to
  {
    BufEq(CopiedFrom(to, from, fromOffset, toOffset, 0), to);
  }

  /** A buffer that holds, at `[toOffset, toOffset + n)`, frames of `from`
      from `fromOffset` on, and `to` elsewhere, is that copy. */
  lemma CopiedPointwise(after: Buf, to: Buf, from: Buf, fromOffset: nat, toOffset: nat, n: nat)
    requires |from| > 0 && forall c :: 0 <= c < |from| ==> fromOffset + n <= |from[c]|
    requires SameShape(to, after)
    requires forall c, i :: 0 <= c < |after| && 0 <= i < |after[c]| ==>
      after[c][i] == if toOffset <= i < toOffset + n
        then from[SourceChannel(c, |from|)][fromOffset + (i - toOffset)]
        else to[c][i]
    ensures after == CopiedFrom(to, from, fromOffset, toOffset, n)
  {
    BufEq(after, CopiedFrom(to, from, fromOffset, toOffset, n));
  }

  /** Copying out frames that were copied in gives back the original frames:
      reading `m` of the `n` frames written at `at` is a copy straight from
      the written buffer, when both have the same channels. */
  lemma CopiedBack(store: Buf, from: Buf, to: Buf, fromOffset: nat, at: nat, n: nat, toOffset: nat, m: nat)
    requires |from| > 0 && |store| == |from|
    requires forall c :: 0 <= c < |from| ==> fromOffset + n <= |from[c]| && at + n <= |store[c]|
    requires m <= n
    ensures CopiedFrom(to, CopiedFrom(store, from, fromOffset, at, n), at, toOffset, m) ==
            CopiedFrom(to, from, fromOffset, toOffset, m)
  {
    BufEq(CopiedFrom(to, CopiedFrom(store, from, fromOffset, at, n), at, toOffset, m),
          CopiedFrom(to, from, fromOffset, toOffset, m));
  }

  /** A list of channel buffers of equal capacity; `sampleCounts[c]` is the
      current sample count of channel `c` (its `mDataByteSize` in samples). */
  class BufferList {
    const samples: array2<real>
    var sampleCounts: seq<int>

    ghost predicate Valid()
      reads this
    {
      samples.Length0 > 0 && |sampleCounts| == samples.Length0 &&
      forall c :: 0 <= c < |sampleCounts| ==> 0 <= sampleCounts[c] <= samples.Length1
    }

    /** The number of channels (`buffers.count`). */
    function Channels(): nat { samples.Length0 }

    /** The number of frames each channel can hold. */
    function Capacity(): nat { samples.Length1 }

    /** The sample count of the first channel, which is what the buffer
        operations take as the buffer's length. */
    function FrameCount(): (n: int)
      reads this
      requires Valid()
      ensures 0 <= n <= Capacity()
    {
      sampleCounts[0]
    }

    /** The samples, channel by channel, over the whole capacity. */
    function Frames(): (b: Buf)
      reads samples
      ensures Shaped(b, Channels(), Capacity())
    {
      Rows(samples)
    }

    /** Allocates one channel (mono) or two (stereo), each of `capacity`
        frames and with its sample count at the full capacity. */
    constructor (isStereo: bool, capacity: nat)
      requires capacity > 0
      ensures Valid() && fresh(samples)
      ensures Channels() == (if isStereo then 2 else 1) && Capacity() == capacity
      ensures sampleCounts == seq(Channels(), _ => capacity)
    {
      var channels := if isStereo then 2 else 1;
      samples := new real[channels, capacity];
      sampleCounts := seq(channels, _ => capacity);
    }

    /** Overwrites the samples with `b` (what a neighbour node leaves in the
        list after rendering into it). */
    method Assign(b: Buf)
      requires Shaped(b, Channels(), Capacity())
      modifies samples
      ensures Frames() == b
    {
      var c := 0;
      while c < samples.Length0
        invariant 0 <= c <= samples.Length0
        invariant forall k, j :: 0 <= k < samples.Length0 && 0 <= j < samples.Length1 ==>
          samples[k, j] == if k < c then b[k][j] else old(samples[k, j])
      {
        var i := 0;
        while i < samples.Length1
          invariant 0 <= i <= samples.Length1
          invariant forall k, j :: 0 <= k < samples.Length0 && 0 <= j < samples.Length1 ==>
            samples[k, j] == if k < c || (k == c && j < i) then b[k][j] else old(samples[k, j])
        {
          samples[c, i] := b[c][i];
          i := i + 1;
        }
        c := c + 1;
      }
      BufEq(Frames(), b);
    }

    /** The `frameCount` setter: sets the sample count of every channel. */
    method SetFrameCount(n: int)
      requires Valid() && 0 <= n <= Capacity()
      modifies this
      ensures Valid() && FrameCount() == n
      ensures sampleCounts == seq(Channels(), _ => n)
    {
      var c := 0;
      while c < |sampleCounts|
        invariant |sampleCounts| == samples.Length0 && 0 <= c <= |sampleCounts|
        invariant Valid()
        invariant forall k :: 0 <= k < c ==> sampleCounts[k] == n
      {
        sampleCounts := sampleCounts[c := n];
        c := c + 1;
      }
    }
  }
}
