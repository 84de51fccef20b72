/** The buffer and gain helpers every node uses: clamping, the transition
    length, the gain-to-factor curve, and the in-place silence, copy and
    fade loops over a buffer list. */
module Utilities {
  import opened Buffers

  /** `x` limited to the closed range `[lo, hi]`, as `min(max(x, lo), hi)`. */
  function Clamped(x: int, lo: int, hi: int): (r: int)
    requires lo <= hi
    ensures lo <= r <= hi
    ensures lo <= x <= hi ==> r == x
    ensures x < lo ==> r == lo
    ensures hi < x ==> r == hi
  {
    Min(Max(x, lo), hi)
  }

  /** Swift's `Int(x)` for a `Double`: truncation toward zero. */
  function TruncToInt(x: real): (r: int)
    ensures x >= 0.0 ==> 0 <= r && r as real <= x < r as real + 1.0
    ensures x < 0.0 ==> r <= 0 && r as real - 1.0 < x <= r as real
  {
    if x >= 0.0 then x.Floor else -((-x).Floor)
  }

  /** The frames over which a gain change is crossfaded in one cycle. */
  function TransitionFrames(frameCount: int): (r: int)
    ensures r <= 512 && r <= frameCount
    ensures r == 512 || r == frameCount
    ensures frameCount >= 0 ==> r >= 0
  {
    Min(512, frameCount)
  }

  /** The multiplicative factor for a gain: 0 for 0, `pow10((gain - 1) * 2)`
      for a positive gain, and the negated factor of `-gain` for a negative
      one (which also inverts the signal). `pow10(x)` stands for `pow(10, x)`. */
  function FactorFromGain(gain: real, pow10: real -> real): (r: real)
    ensures gain == 0.0 ==> r == 0.0
    ensures gain > 0.0 ==> r == pow10((gain - 1.0) * 2.0)
  {
    if gain == 0.0 then 0.0
    else if gain < 0.0 then -pow10((-gain - 1.0) * 2.0)
    else pow10((gain - 1.0) * 2.0)
  }

  /** The gain curve is odd: negating the gain negates the factor. */
  lemma FactorFromGainOdd(gain: real, pow10: real -> real)
    ensures FactorFromGain(-gain, pow10) == -FactorFromGain(gain, pow10)
  {
  }

  /** Zeroes frames `[offset, frameCount)` of every channel and leaves every
      other sample as it was. */
  method FillSilence(frameCount: nat, buffers: BufferList, offset: nat) returns (status: int)
    requires offset <= frameCount <= buffers.Capacity()
    modifies buffers.samples
    ensures status == NO_ERR
    ensures buffers.Frames() == Silenced(old(buffers.Frames()), frameCount, offset)
  {
    status := NO_ERR;
    var a := buffers.samples;
    if offset < frameCount {
      var c := 0;
      while c < a.Length0
        invariant 0 <= c <= a.Length0
        invariant forall k, j :: 0 <= k < a.Length0 && 0 <= j < a.Length1 ==>
          a[k, j] == if k < c && offset <= j < frameCount then 0.0 else old(a[k, j])
      {
        var i := offset;
        while i < frameCount
          invariant offset <= i <= frameCount
          invariant forall k, j :: 0 <= k < a.Length0 && 0 <= j < a.Length1 ==>
            a[k, j] == if (k < c || (k == c && j < i)) && offset <= j < frameCount then 0.0 else old(a[k, j])
        {
          a[c, i] := 0.0;
          i := i + 1;
        }
        c := c + 1;
      }
    }
    BufEq(buffers.Frames(), Silenced(old(buffers.Frames()), frameCount, offset));
  }

  /** The number of frames `Copy` moves: what is left of the source after
      `fromOffset`, of the destination after `toOffset`, and `framesMax`,
      whichever is least (measured on the first channels). */
  function CopyCount(from: BufferList, to: BufferList, fromOffset: int, toOffset: int, framesMax: int): (n: int)
    reads from, to
    requires from.Valid() && to.Valid()
    ensures n <= from.FrameCount() - fromOffset && n <= to.FrameCount() - toOffset && n <= framesMax
    ensures n == from.FrameCount() - fromOffset || n == to.FrameCount() - toOffset || n == framesMax
  {
    Min(Min(from.FrameCount() - fromOffset, to.FrameCount() - toOffset), framesMax)
  }

  /** Copies `CopyCount(...)` frames from `from` at `fromOffset` into `to` at
      `toOffset`: channel for channel where both lists have it, and the first
      source channel into every extra destination channel. */
  method Copy(from: BufferList, to: BufferList, fromOffset: nat, toOffset: nat, framesMax: int) returns (toCopy: int)
    requires from.Valid() && to.Valid() && from.samples != to.samples
    requires CopyCount(from, to, fromOffset, toOffset, framesMax) >= 0
    modifies to.samples
    ensures toCopy == CopyCount(from, to, fromOffset, toOffset, framesMax)
    ensures to.Frames() == CopiedFrom(old(to.Frames()), from.Frames(), fromOffset, toOffset, toCopy)
    ensures forall c, i :: 0 <= c < to.samples.Length0 && 0 <= i < to.samples.Length1 ==>
      to.samples[c, i] == if toOffset <= i < toOffset + toCopy
        then from.samples[SourceChannel(c, from.samples.Length0), fromOffset + (i - toOffset)] else old(to.samples[c, i])
  {
    toCopy := Min(Min(from.sampleCounts[0] - fromOffset, to.sampleCounts[0] - toOffset), framesMax);
    var a := to.samples;
    var s := from.samples;
    var n: nat := toCopy;
    if toCopy > 0 {
      var c := 0;
      while c < a.Length0
        invariant 0 <= c <= a.Length0
        invariant forall k, j :: 0 <= k < a.Length0 && 0 <= j < a.Length1 ==>
          a[k, j] == if k < c && toOffset <= j < toOffset + n
            then s[SourceChannel(k, s.Length0), fromOffset + (j - toOffset)] else old(a[k, j])
      {
        var src := SourceChannel(c, s.Length0);
        var i := 0;
        while i < n
          invariant 0 <= i <= n
          invariant forall k, j :: 0 <= k < a.Length0 && 0 <= j < a.Length1 ==>
            a[k, j] == if (k < c || (k == c && j < toOffset + i)) && toOffset <= j < toOffset + n
              then s[SourceChannel(k, s.Length0), fromOffset + (j - toOffset)] else old(a[k, j])
        {
          a[c, toOffset + i] := s[src, fromOffset + i];
          i := i + 1;
        }
        c := c + 1;
      }
    }
    BufEq(to.Frames(), CopiedFrom(old(to.Frames()), from.Frames(), fromOffset, toOffset, n));
  }

  /** The first `fade` frames of every channel multiplied by the ramp; the
      rest unchanged. */
  function Faded(b: Buf, out: bool, fade: nat): (r: Buf)
    ensures SameShape(b, r)
  {
    seq(|b|, c requires 0 <= c < |b| =>
      seq(|b[c]|, i requires 0 <= i < |b[c]| =>
        if i < fade then b[c][i] * RampFactor(out, i, fade) else b[c][i]))
  }

  /** Multiplies the first `fade` frames of every channel by the ramp. */
  method Fade(out: bool, fade: nat, buffers: BufferList)
    requires fade <= buffers.Capacity()
    modifies buffers.samples
    ensures buffers.Frames() == Faded(old(buffers.Frames()), out, fade)
  {
    var a := buffers.samples;
    ghost var before := Rows(a);
    var c := 0;
    while c < a.Length0
      invariant 0 <= c <= a.Length0
      invariant forall k, j :: 0 <= k < a.Length0 && 0 <= j < a.Length1 ==>
        a[k, j] == if k < c && j < fade then before[k][j] * RampFactor(out, j, fade) else before[k][j]
    {
      var i := 0;
      while i < fade
        invariant 0 <= i <= fade
        invariant forall k, j :: 0 <= k < a.Length0 && 0 <= j < a.Length1 ==>
          a[k, j] == if (k < c || (k == c && j < i)) && j < fade then before[k][j] * RampFactor(out, j, fade) else before[k][j]
      {
        a[c, i] := a[c, i] * RampFactor(out, i, fade);
        i := i + 1;
      }
      c := c + 1;
    }
    FadedRows(a, before, out, fade);
  }

  /** An array whose first `fade` frames of every row are those of `before`
      times the ramp, and whose other frames are those of `before`, holds
      `Faded(before)`. */
  lemma FadedRows(a: array2<real>, before: Buf, out: bool, fade: nat)
    requires Shaped(before, a.Length0, a.Length1)
    requires forall k, j :: 0 <= k < a.Length0 && 0 <= j < a.Length1 ==>
      a[k, j] == if j < fade then before[k][j] * RampFactor(out, j, fade) else before[k][j]
    ensures Rows(a) == Faded(before, out, fade)
  {
    BufEq(Rows(a), Faded(before, out, fade));
  }

  /** A fade followed, for a fade-out, by silence up to the end of the cycle
      is exactly `Smoothed`. */
  lemma SmoothedIsFaded(b: Buf, out: bool, frameCount: nat, fadeFrameCount: nat)
    ensures var fade := FadeLength(frameCount, fadeFrameCount);
      Smoothed(b, out, frameCount, fadeFrameCount) ==
        if out then Silenced(Faded(b, out, fade), frameCount, fade) else Faded(b, out, fade)
  {
    var fade := FadeLength(frameCount, fadeFrameCount);
    if out {
      BufEq(Smoothed(b, out, frameCount, fadeFrameCount), Silenced(Faded(b, out, fade), frameCount, fade));
    } else {
      BufEq(Smoothed(b, out, frameCount, fadeFrameCount), Faded(b, out, fade));
    }
  }

  /** Fades every channel out or in over `min(frameCount, fadeFrameCount)`
      frames; after a fade-out the rest of the cycle is silence. */
  method Smooth(out: bool, frameCount: nat, fadeFrameCount: nat, buffers: BufferList) returns (status: int)
    requires frameCount <= buffers.Capacity()
    modifies buffers.samples
    ensures status == NO_ERR
    ensures buffers.Frames() == Smoothed(old(buffers.Frames()), out, frameCount, fadeFrameCount)
  {
    var fade := FadeLength(frameCount, fadeFrameCount);
    if fade > 0 {
      Fade(out, fade, buffers);
    } else {
      BufEq(buffers.Frames(), Faded(buffers.Frames(), out, fade));
    }
    SmoothedIsFaded(old(buffers.Frames()), out, frameCount, fadeFrameCount);
    if out {
      status := FillSilence(frameCount, buffers, fade);
    } else {
      status := NO_ERR;
    }
  }
}
