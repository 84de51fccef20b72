/** The buffer utilities of the earlier iteration (`AudioNodes/Utilities.swift`).
    `FactorFromGain`, `FillSilence`, `Smooth` and the `frameCount` setter are
    the same as in the package target and are modelled once, in `Utilities`
    and `Buffers`; only `Copy` differs: it demands equal channel counts and
    copies channel for channel. */
module LegacyUtilities {
  import opened Buffers
  import Utilities

  /** Swift's `Int.max`, the default `framesMax`. */
  const INT_MAX: int := 0x7FFF_FFFF_FFFF_FFFF

  /** `Copy`: copies `CopyCount(...)` frames of every channel from `from` at
      `fromOffset` into the same channel of `to` at `toOffset`. */
  method Copy(from: BufferList, to: BufferList, fromOffset: nat, toOffset: nat, framesMax: int) returns (result: int)
    requires from.Valid() && to.Valid() && from.samples != to.samples
    requires Utilities.CopyCount(from, to, fromOffset, toOffset, framesMax) >= 0
    requires from.Channels() == to.Channels()
    modifies to.samples
    ensures result == Utilities.CopyCount(from, to, fromOffset, toOffset, framesMax)
    ensures to.Frames() == CopiedFrom(old(to.Frames()), from.Frames(), fromOffset, toOffset, result)
  {
    result := Min(Min(from.sampleCounts[0] - fromOffset, to.sampleCounts[0] - toOffset), framesMax);
    var a := to.samples;
    var s := from.samples;
    var n: nat := result;
    if result > 0 {
      var c := 0;
      while c < s.Length0
        invariant 0 <= c <= s.Length0
        invariant forall k, j :: 0 <= k < a.Length0 && 0 <= j < a.Length1 ==>
          a[k, j] == if k < c && toOffset <= j < toOffset + n then s[k, fromOffset + (j - toOffset)] else old(a[k, j])
      {
        var i := 0;
        while i < n
          invariant 0 <= i <= n
          invariant forall k, j :: 0 <= k < a.Length0 && 0 <= j < a.Length1 ==>
            a[k, j] == if (k < c || (k == c && j < toOffset + i)) && toOffset <= j < toOffset + n
              then s[k, fromOffset + (j - toOffset)] else old(a[k, j])
        {
          a[c, toOffset + i] := s[c, fromOffset + i];
          i := i + 1;
        }
        c := c + 1;
      }
    }
    BufEq(to.Frames(), CopiedFrom(old(to.Frames()), from.Frames(), fromOffset, toOffset, n));
  }

  /** With equal channel counts every destination channel receives the
      source channel of the same index, and nothing outside the copied
      window changes. */
  lemma {:induction false} SameChannelsCopyChannelwise(to: Buf, from: Buf, fromOffset: nat, toOffset: nat, n: nat, c: nat, i: nat)
    requires |from| > 0 && |from| == |to|
    requires forall k :: 0 <= k < |from| ==> fromOffset + n <= |from[k]|
    requires c < |to| && i < |to[c]|
    ensures CopiedFrom(to, from, fromOffset, toOffset, n)[c][i] ==
      if toOffset <= i < toOffset + n then from[c][fromOffset + (i - toOffset)] else to[c][i]
  {
    assert SourceChannel(c, |from|) == c;
  }
}
