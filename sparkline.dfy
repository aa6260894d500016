/** Per-metric bounded history and the sparkline drawn from it
    (internal/tui/sparkline.go). Samples are percentages, modelled as reals. */
module Sparkline {

  /** `maxHistory`: the most samples a series keeps. */
  const MaxHistory: nat := 60

  /** `sparkBlocks`: the eight glyph levels, lowest first (U+2581 to U+2588). */
  const Blocks: seq<char> := ['\U{2581}', '\U{2582}', '\U{2583}', '\U{2584}', '\U{2585}', '\U{2586}', '\U{2587}', '\U{2588}']

  function Min(a: int, b: int): int {
    if a <= b then a else b
  }

  /** The glyph level of one sample: the sample clamped to [0, 100], scaled
      to [0, 7] and truncated, at most 7. */
  function Level(v: real): (idx: nat)
    ensures idx <= 7
    ensures v <= 0.0 ==> idx == 0
    ensures v >= 100.0 ==> idx == 7
    ensures 0.0 <= v < 100.0 ==> idx as real * 100.0 <= 7.0 * v < (idx as real + 1.0) * 100.0
  {
    var c := if v < 0.0 then 0.0 else if v > 100.0 then 100.0 else v;
    var i := (c / 100.0 * 7.0).Floor;
    Min(i, 7)
  }

  /** The glyph drawn for one sample. */
  function Glyph(v: real): char {
    Blocks[Level(v)]
  }

  /** A higher sample never draws a lower glyph. */
  lemma LevelMonotone(v1: real, v2: real)
    requires v1 <= v2
    ensures Level(v1) <= Level(v2)
    ensures Glyph(v1) <= Glyph(v2)
  {
    var c1 := if v1 < 0.0 then 0.0 else if v1 > 100.0 then 100.0 else v1;
    var c2 := if v2 < 0.0 then 0.0 else if v2 > 100.0 then 100.0 else v2;
    assert c1 <= c2;
    assert c1 / 100.0 * 7.0 <= c2 / 100.0 * 7.0;
  }

  /** `sparkline`: one glyph for each of the last `width` samples, oldest
      first; nothing for an empty series or a width that is not positive. */
  method Render(data: seq<real>, width: int) returns (s: string)
    ensures |data| == 0 || width <= 0 ==> s == ""
    ensures width > 0 ==> |s| == Min(|data|, width)
    ensures forall k :: 0 <= k < |s| ==> s[k] == Glyph(data[|data| - |s| + k])
  {
    if |data| == 0 || width <= 0 {
      return "";
    }
    var start := 0;
    if |data| > width {
      start := |data| - width;
    }
    var visible := data[start..];
    s := "";
    for i := 0 to |visible|
      invariant |s| == i
      invariant forall k :: 0 <= k < i ==> s[k] == Glyph(visible[k])
    {
      var g := SampleGlyph(visible[i]);
      s := s + [g];
    }
  }

  /** The loop body of `sparkline` for one sample: clamp, scale, truncate
      and pick the block. */
  method SampleGlyph(sample: real) returns (g: char)
    ensures g == Glyph(sample)
  {
    var v := sample;
    if v < 0.0 {
      v := 0.0;
    }
    if v > 100.0 {
      v := 100.0;
    }
    var idx := (v / 100.0 * 7.0).Floor;
    if idx > 7 {
      idx := 7;
    }
    g := Blocks[idx];
  }

  /** The colour bucket of a sparkline, after its lipgloss style. */
  datatype Color = Green | Yellow | Red

  function Rank(c: Color): nat {
    match c
    case Green => 0
    case Yellow => 1
    case Red => 2
  }

  /** `sparklineColor`: chosen by the newest sample, red above 80, yellow from
      50 to 80, green below 50 and for an empty series. */
  function SparklineColor(data: seq<real>): (c: Color)
    ensures data == [] ==> c == Green
    ensures data != [] ==> (c == Red <==> data[|data| - 1] > 80.0)
    ensures data != [] ==> (c == Yellow <==> 50.0 <= data[|data| - 1] <= 80.0)
    ensures data != [] ==> (c == Green <==> data[|data| - 1] < 50.0)
  {
    if |data| == 0 then Green
    else
      var last := data[|data| - 1];
      if last > 80.0 then Red
      else if last >= 50.0 then Yellow
      else Green
  }

  /** The colour only depends on the newest sample, and a higher newest
      sample never gives a calmer colour. */
  lemma ColorMonotone(a: seq<real>, b: seq<real>)
    requires a != [] && b != []
    requires a[|a| - 1] <= b[|b| - 1]
    ensures Rank(SparklineColor(a)) <= Rank(SparklineColor(b))
  {
  }

  /** `appendHistory`: the series with `value` added, cut to the newest
      `MaxHistory` samples. */
  function AppendHistory(history: seq<real>, value: real): (r: seq<real>)
    ensures |r| == Min(|history| + 1, MaxHistory)
    ensures r == (history + [value])[|history| + 1 - |r|..]
    ensures r[|r| - 1] == value
  {
    var h := history + [value];
    if |h| > MaxHistory then h[|h| - MaxHistory..] else h
  }

  /** The series after appending `values` one at a time, as successive ticks do. */
  function AppendAll(history: seq<real>, values: seq<real>): seq<real>
    decreases |values|
  {
    if values == [] then history else AppendAll(AppendHistory(history, values[0]), values[1..])
  }

  /** The newest `MaxHistory` elements of a sequence (all of it when shorter). */
  function Newest(s: seq<real>): (r: seq<real>)
    ensures |r| == Min(|s|, MaxHistory)
  {
    s[|s| - Min(|s|, MaxHistory)..]
  }

  /** Any number of appends to a series within the cap keeps exactly the
      newest `MaxHistory` samples of everything seen, in order. */
  lemma {:induction false} AppendAllKeepsNewest(history: seq<real>, values: seq<real>)
    requires |history| <= MaxHistory
    ensures AppendAll(history, values) == Newest(history + values)
    decreases |values|
  {
    if values == [] {
      assert history + values == history;
    } else {
      var h1 := AppendHistory(history, values[0]);
      AppendAllKeepsNewest(h1, values[1..]);
      var all := history + values;
      SplitFirst(history, values);
      // h1 is a suffix of history + [values[0]] at least as long as the
      // cap allows, so h1 + values[1..] is such a suffix of all
      var d := |history| + 1 - |h1|;
      assert h1 + values[1..] == all[d..];
      NewestOfLongSuffix(all, d);
    }
  }

  /** Appending a non-empty sequence is appending its head, then its tail. */
  lemma SplitFirst(history: seq<real>, values: seq<real>)
    requires values != []
    ensures history + values == (history + [values[0]]) + values[1..]
  {
    assert values == [values[0]] + values[1..];
  }

  /** Dropping a prefix that leaves at least the newest samples does not
      change them. */
  lemma NewestOfLongSuffix(all: seq<real>, d: nat)
    requires d <= |all| && |all| - d >= Min(|all|, MaxHistory)
    ensures Newest(all[d..]) == Newest(all)
  {
    var rest := all[d..];
    assert Min(|rest|, MaxHistory) == Min(|all|, MaxHistory);
  }

  /** Seventy samples appended to an empty series leave the last sixty. */
  lemma AppendSeventyKeepsLastSixty(values: seq<real>)
    requires |values| == 70
    ensures AppendAll([], values) == values[10..]
  {
    AppendAllKeepsNewest([], values);
    assert [] + values == values;
  }
}
