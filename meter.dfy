/** The level meter (`Meter` in `AudioNodes/Sources/Meter.swift`): a monitor
    that keeps the peak RMS level of the first two channels and reports the
    two peaks about 25 times a second. The RMS of a channel and `log10` are
    given by the caller. */
module Meters {
  import opened Buffers
  import Arith
  import Utilities
  import MonitorNode

  /** `BINS_PER_SEC`: reports per second. */
  const BINS_PER_SEC: real := 25.0

  /** A channel's level in dB: `MIN_LEVEL_DB` for an RMS of 0, otherwise
      `20 log10(rms)` but never below `MIN_LEVEL_DB`. */
  function ChannelLevel(rms: real, log10: real -> real): (l: real)
    ensures l >= MIN_LEVEL_DB
    ensures rms == 0.0 ==> l == MIN_LEVEL_DB
    ensures rms != 0.0 ==> l >= 20.0 * log10(rms) && (l == MIN_LEVEL_DB || l == 20.0 * log10(rms))
  {
    if rms == 0.0 then MIN_LEVEL_DB
    else if MIN_LEVEL_DB >= 20.0 * log10(rms) then MIN_LEVEL_DB
    else 20.0 * log10(rms)
  }

  function RealMax(a: real, b: real): real { if a >= b then a else b }

  /** The peaks after one cycle: each of the first `min(2, |rms|)` channels
      keeps the larger of its peak and its level. */
  function Peaks(peaks: seq<real>, rms: seq<real>, log10: real -> real): (r: seq<real>)
    requires |peaks| == 2
    ensures |r| == 2
    ensures forall i :: 0 <= i < 2 ==> r[i] >= peaks[i]
    ensures forall i :: 0 <= i < 2 && i < |rms| ==>
      r[i] >= ChannelLevel(rms[i], log10) && (r[i] == peaks[i] || r[i] == ChannelLevel(rms[i], log10))
    ensures forall i :: 0 <= i < 2 && |rms| <= i ==> r[i] == peaks[i]
  {
    seq(2, i requires 0 <= i < 2 => if i < |rms| then RealMax(peaks[i], ChannelLevel(rms[i], log10)) else peaks[i])
  }

  /** The bin of a cycle: `binFrames` rounded down to a multiple of the
      cycle length, but at least one cycle. */
  function EffectiveBin(binFrames: nat, frameCount: nat): (b: nat)
    requires frameCount > 0
    ensures b >= frameCount && b % frameCount == 0
    ensures binFrames >= frameCount ==> binFrames - frameCount < b <= binFrames
    ensures binFrames < frameCount ==> b == frameCount
  {
    var q := binFrames / frameCount;
    Arith.MultipleMod(q, frameCount);
    if q == 0 then frameCount
    else
      Arith.AtLeastOnce(q, frameCount);
      q * frameCount
  }

  /** The frame counter after `calls` cycles of `frameCount` frames from a
      fresh meter. */
  function Counter(binFrames: nat, frameCount: nat, calls: nat): nat
    requires frameCount > 0
  {
    if calls == 0 then 0
    else
      var before := Counter(binFrames, frameCount, calls - 1);
      if before + frameCount >= EffectiveBin(binFrames, frameCount) then 0 else before + frameCount
  }

  /** With a steady cycle length the meter reports on every `m`-th cycle,
      where `m` cycles make one bin: after `n` cycles the counter holds the
      frames of the `n % m` cycles since the last report. */
  lemma {:induction false} CounterPeriodic(binFrames: nat, frameCount: nat, calls: nat)
    requires frameCount > 0
    ensures var m := EffectiveBin(binFrames, frameCount) / frameCount;
      m > 0 && Counter(binFrames, frameCount, calls) == (calls % m) * frameCount
  {
    var bin := EffectiveBin(binFrames, frameCount);
    var m := bin / frameCount;
    assert bin == m * frameCount + bin % frameCount;
    if calls > 0 {
      var before := Counter(binFrames, frameCount, calls - 1);
      CounterPeriodic(binFrames, frameCount, calls - 1);
      PeriodicStep(before, calls - 1, m, frameCount, bin);
      assert Counter(binFrames, frameCount, calls) == if before + frameCount >= bin then 0 else before + frameCount;
    } else {
      assert calls % m == 0;
    }
  }

  lemma PeriodicStep(before: nat, n: nat, m: nat, f: nat, bin: nat)
    requires m > 0 && f > 0 && bin == m * f && before == (n % m) * f
    ensures (if before + f >= bin then 0 else before + f) == ((n + 1) % m) * f
  {
    Arith.ModSucc(n, m);
    BinStep(n % m, m, f);
  }

  /** One more cycle fills the bin exactly when it holds `m - 1` cycles. */
  lemma BinStep(r: nat, m: nat, f: nat)
    requires r < m && f > 0
    ensures r * f + f == (r + 1) * f
    ensures r * f + f >= m * f <==> r == m - 1
  {
    if r < m - 1 {
      assert m * f == (r + 1) * f + (m - (r + 1)) * f;
      Arith.AtLeastOnce(m - (r + 1), f);
    }
  }

  class Meter {
    /** The monitor node the meter is. */
    const node: MonitorNode.Monitor
    /** `Int(sampleRate / BINS_PER_SEC)`: frames per report. */
    const binFrames: nat
    var peakLevels: seq<real>
    var peakFrames: nat

    ghost predicate Valid()
      reads this
    {
      |peakLevels| == 2
    }

    /** A meter for `sampleRate`, with both peaks at `MIN_LEVEL_DB` and no
        frames counted. */
    constructor (sampleRate: real, isEnabled: bool)
      requires sampleRate >= 0.0
      ensures Valid() && binFrames == Utilities.TruncToInt(sampleRate / BINS_PER_SEC)
      ensures peakLevels == [MIN_LEVEL_DB, MIN_LEVEL_DB] && peakFrames == 0
      ensures fresh(node) && node.pending == MonitorNode.Config(None, isEnabled) && node.active == node.pending
    {
      node := new MonitorNode.Monitor(isEnabled);
      binFrames := Utilities.TruncToInt(sampleRate / BINS_PER_SEC);
      peakLevels := [MIN_LEVEL_DB, MIN_LEVEL_DB];
      peakFrames := 0;
    }

    /** `_monitor`, given each channel's RMS: raises the peaks, counts the
        frames and, once a bin is full, reports the two peaks and starts
        over. The counter is always below the bin afterwards. */
    method Monitor(frameCount: nat, rms: seq<real>, log10: real -> real) returns (report: Option<(real, real)>)
      requires Valid() && frameCount > 0
      modifies this
      ensures Valid() && peakFrames < EffectiveBin(binFrames, frameCount)
      ensures var peaks := Peaks(old(peakLevels), rms, log10);
        if old(peakFrames) + frameCount >= EffectiveBin(binFrames, frameCount) then
          report == Some((peaks[0], peaks[1])) && peakLevels == [MIN_LEVEL_DB, MIN_LEVEL_DB] && peakFrames == 0
        else
          report == None && peakLevels == peaks && peakFrames == old(peakFrames) + frameCount
    {
      ghost var target := Peaks(peakLevels, rms, log10);
      var n := if |rms| < 2 then |rms| else 2;
      var i := 0;
      while i < n
        invariant 0 <= i <= n && |peakLevels| == 2 && peakFrames == old(peakFrames)
        invariant forall j :: 0 <= j < 2 ==> peakLevels[j] == if j < i then target[j] else old(peakLevels)[j]
      {
        peakLevels := peakLevels[i := RealMax(peakLevels[i], ChannelLevel(rms[i], log10))];
        i := i + 1;
      }
      assert peakLevels == target;
      peakFrames := peakFrames + frameCount;
      var bin := EffectiveBin(binFrames, frameCount);
      report := None;
      if peakFrames >= bin {
        var left, right := peakLevels[0], peakLevels[1];
        assert left == target[0] && right == target[1];
        report := Some((left, right));
        peakLevels := [MIN_LEVEL_DB, MIN_LEVEL_DB];
        peakFrames := 0;
      }
    }
  }
}
