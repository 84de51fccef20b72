/** Waveforms (`Waveform` in `AudioNodes/Sources/Waveform.swift`): a list of
    signed 8-bit levels in dB with the quietest and loudest audible tick,
    downsampling by averaging, and a compact hex encoding of the ticks. */
module Waveforms {
  import opened Buffers
  import Arith

  /** Swift's `Int8`. */
  type Level = x: int | -128 <= x <= 127

  /** `Level(MIN_LEVEL_DB)`: ticks at or below it count as silence. */
  const MIN_LEVEL: Level := -90

  datatype Waveform = Waveform(ticks: seq<Level>, lower: Option<Level>, upper: Option<Level>)

  predicate Audible(t: Level) { t > MIN_LEVEL }

  /** `x` is the lowest audible tick of `ticks`. */
  predicate IsLowest(ticks: seq<Level>, x: Level) {
    x in ticks && Audible(x) && forall i :: 0 <= i < |ticks| && Audible(ticks[i]) ==> x <= ticks[i]
  }

  /** `x` is the highest audible tick of `ticks`. */
  predicate IsHighest(ticks: seq<Level>, x: Level) {
    x in ticks && Audible(x) && forall i :: 0 <= i < |ticks| && Audible(ticks[i]) ==> ticks[i] <= x
  }

  /** The `lower` that the loop of `init(ticks:)` ends with. */
  function Lowest(ticks: seq<Level>): Option<Level> {
    if |ticks| == 0 then None
    else
      var l := Lowest(ticks[..|ticks| - 1]);
      var t := ticks[|ticks| - 1];
      if !Audible(t) then l else Some(if l.Some? && l.value < t then l.value else t)
  }

  /** The `upper` that the loop of `init(ticks:)` ends with. */
  function Highest(ticks: seq<Level>): Option<Level> {
    if |ticks| == 0 then None
    else
      var u := Highest(ticks[..|ticks| - 1]);
      var t := ticks[|ticks| - 1];
      if !Audible(t) then u else Some(if u.Some? && u.value > t then u.value else t)
  }

  /** `lower` is the minimum over the audible ticks, or nil if none is. */
  lemma {:induction false} LowestIsMinimum(ticks: seq<Level>)
    ensures Lowest(ticks).None? <==> forall i :: 0 <= i < |ticks| ==> !Audible(ticks[i])
    ensures Lowest(ticks).Some? ==> IsLowest(ticks, Lowest(ticks).value)
  {
    if |ticks| > 0 {
      var front := ticks[..|ticks| - 1];
      LowestIsMinimum(front);
      assert forall i :: 0 <= i < |front| ==> front[i] == ticks[i];
      assert ticks == front + [ticks[|ticks| - 1]];
    }
  }

  /** `upper` is the maximum over the audible ticks, or nil if none is. */
  lemma {:induction false} HighestIsMaximum(ticks: seq<Level>)
    ensures Highest(ticks).None? <==> forall i :: 0 <= i < |ticks| ==> !Audible(ticks[i])
    ensures Highest(ticks).Some? ==> IsHighest(ticks, Highest(ticks).value)
  {
    if |ticks| > 0 {
      var front := ticks[..|ticks| - 1];
      HighestIsMaximum(front);
      assert forall i :: 0 <= i < |front| ==> front[i] == ticks[i];
      assert ticks == front + [ticks[|ticks| - 1]];
    }
  }

  /** The waveform `init(ticks:)` builds, as a value. */
  function Of(ticks: seq<Level>): (w: Waveform)
    ensures w.ticks == ticks
  {
    Waveform(ticks, Lowest(ticks), Highest(ticks))
  }

  /** `init(ticks:)`: one pass over the ticks keeping the lowest and the
      highest audible one. */
  method Make(ticks: seq<Level>) returns (w: Waveform)
    ensures w == Of(ticks)
  {
    var lower: Option<Level> := None;
    var upper: Option<Level> := None;
    var i := 0;
    while i < |ticks|
      invariant 0 <= i <= |ticks|
      invariant lower == Lowest(ticks[..i]) && upper == Highest(ticks[..i])
    {
      var tick := ticks[i];
      assert ticks[..i + 1][..i] == ticks[..i];
      if tick > MIN_LEVEL {
        lower := Some(if lower.Some? && lower.value < tick then lower.value else tick);
        upper := Some(if upper.Some? && upper.value > tick then upper.value else tick);
      }
      i := i + 1;
    }
    assert ticks[..i] == ticks;
    w := Waveform(ticks, lower, upper);
  }

  /** `range`: both bounds, when there are both and they are in order. */
  function Range(w: Waveform): (r: Option<(Level, Level)>)
    ensures r.Some? <==> (w.lower.Some? && w.upper.Some? && w.lower.value <= w.upper.value)
    ensures r.Some? ==> r.value == (w.lower.value, w.upper.value)
  {
    if w.lower.Some? && w.upper.Some? && w.lower.value <= w.upper.value then Some((w.lower.value, w.upper.value))
    else None
  }

  /** A waveform built from ticks has a range exactly when one of its ticks
      is audible, and the range runs from the quietest to the loudest. */
  lemma RangeOfTicks(ticks: seq<Level>)
    ensures Range(Of(ticks)).Some? <==> exists i :: 0 <= i < |ticks| && Audible(ticks[i])
    ensures Range(Of(ticks)).Some? ==>
      IsLowest(ticks, Range(Of(ticks)).value.0) && IsHighest(ticks, Range(Of(ticks)).value.1)
  {
    LowestIsMinimum(ticks);
    HighestIsMaximum(ticks);
    if Lowest(ticks).Some? {
      assert Highest(ticks).Some?;
      var l, u := Lowest(ticks).value, Highest(ticks).value;
      var j :| 0 <= j < |ticks| && ticks[j] == u;
      assert l <= u;
    }
  }

  /** Concatenation of a list of lists. */
  function Flatten<T>(parts: seq<seq<T>>): seq<T> {
    if |parts| == 0 then [] else parts[0] + Flatten(parts[1..])
  }

  /** `components(maxLength:)`: the consecutive slices of length `n` from
      offsets `0, n, 2n, ...`, the last one possibly shorter. */
  function Components<T>(s: seq<T>, n: nat): (parts: seq<seq<T>>)
    requires n > 0
    decreases |s|
    ensures |parts| == (|s| + n - 1) / n
    ensures forall j :: 0 <= j < |parts| ==> 0 < |parts[j]| <= n
    ensures forall j :: 0 <= j < |parts| - 1 ==> |parts[j]| == n
  {
    if |s| == 0 then []
    else if |s| <= n then Arith.DivUnique(|s| + n - 1, n, 1, |s| - 1); [s]
    else
      var rest := Components(s[n..], n);
      Arith.DivPlusOne(|s| - 1, n);
      assert forall j :: 1 <= j < |rest| + 1 ==> ([s[..n]] + rest)[j] == rest[j - 1];
      [s[..n]] + rest
  }

  /** The slices put back together are the input. */
  lemma {:induction false} ComponentsFlatten<T>(s: seq<T>, n: nat)
    requires n > 0
    decreases |s|
    ensures Flatten(Components(s, n)) == s
  {
    if |s| > n {
      ComponentsFlatten(s[n..], n);
      assert Components(s, n)[1..] == Components(s[n..], n);
      assert s == s[..n] + s[n..];
    } else if |s| > 0 {
      assert Flatten(Components(s, n)) == s + Flatten([]);
    }
  }

  /** Slices of length `n` concatenate to `n` times as many elements. */
  lemma {:induction false} FlattenLength<T>(parts: seq<seq<T>>, n: nat)
    requires forall j :: 0 <= j < |parts| ==> |parts[j]| == n
    ensures |Flatten(parts)| == n * |parts|
  {
    if |parts| > 0 {
      FlattenLength(parts[1..], n);
    }
  }

  /** Slicing a concatenation of slices of length `n` gives them back. */
  lemma {:induction false} ComponentsOfFlatten<T>(parts: seq<seq<T>>, n: nat)
    requires n > 0 && forall j :: 0 <= j < |parts| ==> |parts[j]| == n
    ensures Components(Flatten(parts), n) == parts
  {
    if |parts| > 0 {
      var s, rest := Flatten(parts), Flatten(parts[1..]);
      ComponentsOfFlatten(parts[1..], n);
      FlattenLength(parts[1..], n);
      assert s == parts[0] + rest;
      assert s[..n] == parts[0] && s[n..] == rest;
      if |parts| == 1 {
        assert parts[1..] == [] && parts == [parts[0]];
        assert rest == [] && s == parts[0];
      } else {
        assert |rest| >= n;
        assert parts == [parts[0]] + parts[1..];
      }
    }
  }

  function Sum(xs: seq<int>): int {
    if |xs| == 0 then 0 else Sum(xs[..|xs| - 1]) + xs[|xs| - 1]
  }

  /** Swift's `Int` division, which truncates toward zero. */
  function Quot(a: int, d: nat): int
    requires d > 0
  {
    if a >= 0 then a / d else -((-a) / d)
  }

  /** A sum of `k` ticks lies between `k` times the smallest and `k` times
      the largest level. */
  lemma {:induction false} SumBounds(xs: seq<Level>)
    ensures -128 * |xs| <= Sum(xs) <= 127 * |xs|
  {
    if |xs| > 0 {
      SumBounds(xs[..|xs| - 1]);
    }
  }

  /** The truncating integer mean of a slice of ticks, as a level. */
  function Mean(xs: seq<Level>): (m: Level)
    requires |xs| > 0
    ensures m == Quot(Sum(xs), |xs|)
  {
    var a, k := Sum(xs), |xs|;
    SumBounds(xs);
    if a >= 0 then
      Arith.DivAtMost(a, k, 127);
      a / k
    else
      Arith.DivAtMost(-a, k, 128);
      -((-a) / k)
  }

  /** The mean of each slice. */
  function Means(parts: seq<seq<Level>>): (ms: seq<Level>)
    requires forall j :: 0 <= j < |parts| ==> |parts[j]| > 0
    ensures |ms| == |parts| && forall j :: 0 <= j < |parts| ==> ms[j] == Mean(parts[j])
  {
    if |parts| == 0 then [] else [Mean(parts[0])] + Means(parts[1..])
  }

  /** `downsampled(by:)`: one tick per slice of `divisor` ticks, the
      truncating mean of the slice. A negative divisor makes the `stride`
      of `components(maxLength:)` empty, so the waveform is empty; a zero
      one traps in the source. */
  function Downsampled(w: Waveform, divisor: int): (r: Waveform)
    requires divisor != 0
    ensures divisor > 0 ==> |r.ticks| == (|w.ticks| + divisor - 1) / divisor
    ensures divisor > 0 ==> forall j :: 0 <= j < |r.ticks| ==>
      r.ticks[j] == Quot(Sum(Components(w.ticks, divisor)[j]), |Components(w.ticks, divisor)[j]|)
    ensures divisor < 0 ==> r.ticks == []
    ensures r == Of(r.ticks)
  {
    if divisor < 0 then Of([]) else Of(Means(Components(w.ticks, divisor)))
  }

  /** A lower-case hex digit. */
  predicate IsHexDigit(c: char) { '0' <= c <= '9' || 'a' <= c <= 'f' }

  function HexDigit(d: nat): (c: char)
    requires d < 16
    ensures IsHexDigit(c)
  {
    if d < 10 then ('0' as int + d) as char else ('a' as int + d - 10) as char
  }

  /** The byte of a level in two's complement. */
  function Byte(t: Level): (b: nat)
    ensures b < 256 && (if t >= 0 then b == t else b == t + 256)
  {
    if t >= 0 then t else t + 256
  }

  /** `String(format: "%02hhx", t)`: the two lower-case hex digits. */
  function HexByte(t: Level): (s: seq<char>)
    ensures |s| == 2 && IsHexDigit(s[0]) && IsHexDigit(s[1])
  {
    [HexDigit(Byte(t) / 16), HexDigit(Byte(t) % 16)]
  }

  function HexBytes(ticks: seq<Level>): (parts: seq<seq<char>>)
    ensures |parts| == |ticks| && forall j :: 0 <= j < |ticks| ==> parts[j] == HexByte(ticks[j])
  {
    if |ticks| == 0 then [] else [HexByte(ticks[0])] + HexBytes(ticks[1..])
  }

  /** `toHexString`: two lower-case hex digits per tick. */
  function ToHex(w: Waveform): (s: seq<char>)
    ensures |s| == 2 * |w.ticks|
    ensures forall i :: 0 <= i < |s| ==> IsHexDigit(s[i])
  {
    FlattenLength(HexBytes(w.ticks), 2);
    FlattenDigits(HexBytes(w.ticks));
    Flatten(HexBytes(w.ticks))
  }

  lemma {:induction false} FlattenDigits(parts: seq<seq<char>>)
    requires forall j :: 0 <= j < |parts| ==> forall i :: 0 <= i < |parts[j]| ==> IsHexDigit(parts[j][i])
    ensures forall i :: 0 <= i < |Flatten(parts)| ==> IsHexDigit(Flatten(parts)[i])
  {
    if |parts| > 0 {
      FlattenDigits(parts[1..]);
      assert forall j :: 0 <= j < |parts[1..]| ==> parts[1..][j] == parts[j + 1];
    }
  }

  /** The value of one hex digit, either case. */
  function DigitValue(c: char): Option<nat> {
    if '0' <= c <= '9' then Some(c as int - '0' as int)
    else if 'a' <= c <= 'f' then Some(c as int - 'a' as int + 10)
    else if 'A' <= c <= 'F' then Some(c as int - 'A' as int + 10)
    else None
  }

  /** Digits read as a number in base 16; none if a character is not a digit. */
  function HexValue(s: seq<char>): Option<nat> {
    if |s| == 0 then Some(0)
    else
      var front := HexValue(s[..|s| - 1]);
      var d := DigitValue(s[|s| - 1]);
      if front.None? || d.None? then None else Some(front.value * 16 + d.value)
  }

  /** Swift's `Int(s, radix: 16)`: an optional sign, then at least one digit. */
  function ParseHex(s: seq<char>): (r: Option<int>)
    ensures |s| == 0 ==> r.None?
  {
    if |s| == 0 then None
    else if s[0] == '+' || s[0] == '-' then
      if |s| == 1 then None
      else
        var v := HexValue(s[1..]);
        if v.None? then None
        else if s[0] == '-' then Some(0 - v.value)
        else Some(v.value as int)
    else
      var v := HexValue(s);
      if v.None? then None else Some(v.value as int)
  }

  /** `Int8(truncatingIfNeeded:)`: the low byte, read as signed. */
  function Truncated(v: int): (t: Level)
    ensures (t - v) % 256 == 0
  {
    var b := v % 256;
    if b >= 128 then b - 256 else b
  }

  /** The `compactMap` of `fromHexString`: the chunks that parse, in order. */
  function Parsed(chunks: seq<seq<char>>): (ts: seq<Level>)
    ensures |ts| <= |chunks|
  {
    if |chunks| == 0 then []
    else
      var v := ParseHex(chunks[0]);
      (if v.Some? then [Truncated(v.value)] else []) + Parsed(chunks[1..])
  }

  /** `fromHexString`: at most one tick per two characters, the bounds
      those of `init(ticks:)`. */
  function FromHex(s: seq<char>): (w: Waveform)
    ensures |w.ticks| <= (|s| + 1) / 2 && w == Of(w.ticks)
  {
    Of(Parsed(Components(s, 2)))
  }

  lemma DigitValueOfHexDigit(d: nat)
    requires d < 16
    ensures DigitValue(HexDigit(d)) == Some(d)
  {
  }

  /** Each tick's two digits read back as that tick. */
  lemma ParseHexByte(t: Level)
    ensures ParseHex(HexByte(t)) == Some(Byte(t) as int) && Truncated(Byte(t)) == t
  {
    var s := HexByte(t);
    var hi, lo := Byte(t) / 16, Byte(t) % 16;
    DigitValueOfHexDigit(hi);
    DigitValueOfHexDigit(lo);
    assert s[..1] == [s[0]] && [s[0]][..0] == [];
    assert HexValue(s[..1]) == Some(hi);
    assert HexValue(s) == Some(hi * 16 + lo);
  }

  lemma {:induction false} ParsedHexBytes(ticks: seq<Level>)
    ensures Parsed(HexBytes(ticks)) == ticks
  {
    if |ticks| > 0 {
      var first, rest := HexByte(ticks[0]), HexBytes(ticks[1..]);
      assert HexBytes(ticks) == [first] + rest;
      ParsedCons(first, rest);
      ParseHexByte(ticks[0]);
      ParsedHexBytes(ticks[1..]);
      assert ticks == [ticks[0]] + ticks[1..];
    }
  }

  lemma ParsedCons(part: seq<char>, rest: seq<seq<char>>)
    ensures var v := ParseHex(part);
      Parsed([part] + rest) == (if v.Some? then [Truncated(v.value)] else []) + Parsed(rest)
  {
    assert ([part] + rest)[1..] == rest;
  }

  /** Round trip: decoding the hex string of a waveform gives its ticks back,
      and the decoded waveform is the one `init(ticks:)` builds from them. */
  lemma HexRoundTrip(w: Waveform)
    ensures FromHex(ToHex(w)).ticks == w.ticks
    ensures FromHex(ToHex(w)) == Of(w.ticks)
  {
    ComponentsOfFlatten(HexBytes(w.ticks), 2);
    ParsedHexBytes(w.ticks);
  }
}
