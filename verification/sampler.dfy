/** The colour sampler: reads the host canvas at each active LED's cell,
    scales by brightness, and yields either one colour per LED or one averaged
    colour copied to every active LED. Rounding is Math.round (halves go up),
    computed exactly on rationals. */
module Sampler {
  import opened Protocol
  import opened Layout

  datatype Rgb = Rgb(r: int, g: int, b: int)

  /** A colour sample tagged with its protocol index. */
  datatype LedColor = LedColor(index: nat, r: int, g: int, b: int)

  /** device.color(x, y): a colour with at least three channels, or nothing. */
  type Canvas = Point -> Option<Rgb>

  /** Math.round(num / den) for den > 0: the nearest integer, halves upwards. */
  function RoundDiv(num: int, den: int): (q: int)
    requires den > 0
    ensures 2 * den * q <= 2 * num + den < 2 * den * q + 2 * den
  {
    (2 * num + den) / (2 * den)
  }

  /** d * e >= d for d > 0 and e >= 1. */
  lemma {:induction false} MulAtLeast(d: int, e: int)
    requires d > 0 && e >= 1
    ensures d * e >= d
    decreases e
  {
    if e > 1 {
      MulAtLeast(d, e - 1);
      assert d * e == d * (e - 1) + d;
    }
  }

  /** Integer division has one quotient. */
  lemma DivUnique(a: int, d: int, q: int)
    requires d > 0 && d * q <= a < d * q + d
    ensures a / d == q
  {
    var q' := a / d;
    var e := q - q';
    assert d * q' <= a < d * q' + d;
    assert d * e == d * q - d * q';
    if e >= 1 {
      MulAtLeast(d, e);
    } else if e <= -1 {
      MulAtLeast(d, -e);
    }
  }

  /** Math.round(c * (brightness / 100)). */
  function Scale(c: int, brightness: int): int {
    RoundDiv(c * brightness, 100)
  }

  /** Brightness 100 leaves a channel unchanged. */
  lemma ScaleFull(c: int)
    ensures Scale(c, 100) == c
  {
    DivUnique(2 * (c * 100) + 100, 200, c);
  }

  function ScaleColor(index: nat, c: Rgb, brightness: int): LedColor {
    LedColor(index, Scale(c.r, brightness), Scale(c.g, brightness), Scale(c.b, brightness))
  }

  /** The positions list has a cell for every index. */
  predicate Addresses(indices: seq<nat>, positions: seq<Point>) {
    forall k :: 0 <= k < |indices| ==> indices[k] < |positions|
  }

  /** The per-LED sample of one index: empty when the canvas gives nothing. */
  function SampleAt(positions: seq<Point>, canvas: Canvas, brightness: int, index: nat): seq<LedColor>
    requires index < |positions|
  {
    match canvas(positions[index])
    case None => []
    case Some(c) => [ScaleColor(index, c, brightness)]
  }

  /** Per-LED mode: the brightness-scaled colour of every index the canvas
      answers for, in index-list order. */
  function PerLedColors(indices: seq<nat>, positions: seq<Point>, canvas: Canvas, brightness: int): seq<LedColor>
    requires Addresses(indices, positions)
    decreases |indices|
  {
    if |indices| == 0 then []
    else PerLedColors(indices[..|indices| - 1], positions, canvas, brightness)
         + SampleAt(positions, canvas, brightness, indices[|indices| - 1])
  }

  /** Channel sums and the number of samples. */
  datatype Totals = Totals(r: int, g: int, b: int, count: nat)

  /** Sums of the raw colours the canvas gives over the index list. */
  function ValidTotals(indices: seq<nat>, positions: seq<Point>, canvas: Canvas): Totals
    requires Addresses(indices, positions)
    decreases |indices|
  {
    if |indices| == 0 then Totals(0, 0, 0, 0)
    else
      var t := ValidTotals(indices[..|indices| - 1], positions, canvas);
      match canvas(positions[indices[|indices| - 1]])
      case None => t
      case Some(c) => Totals(t.r + c.r, t.g + c.g, t.b + c.b, t.count + 1)
  }

  /** Math.round((sum / count) * (brightness / 100)) per channel. */
  function AverageColor(t: Totals, brightness: int): Rgb
    requires t.count > 0
  {
    Rgb(RoundDiv(t.r * brightness, 100 * t.count),
        RoundDiv(t.g * brightness, 100 * t.count),
        RoundDiv(t.b * brightness, 100 * t.count))
  }

  /** One colour copied to every index of the list. */
  function Replicate(indices: seq<nat>, c: Rgb): (r: seq<LedColor>)
    ensures |r| == |indices|
  {
    seq(|indices|, k requires 0 <= k < |indices| => LedColor(indices[k], c.r, c.g, c.b))
  }

  /** Averaged mode: the mean of the valid samples, scaled once, on every
      active index; nothing at all when no sample is valid. */
  function AveragedColors(indices: seq<nat>, positions: seq<Point>, canvas: Canvas, brightness: int): seq<LedColor>
    requires Addresses(indices, positions)
  {
    var t := ValidTotals(indices, positions, canvas);
    if t.count == 0 then [] else Replicate(indices, AverageColor(t, brightness))
  }

  /** Every active index of a well-formed layout has a position. */
  lemma ActiveAddresses(layout: LedLayout, mode: RingMode)
    requires WellFormed(layout)
    ensures Addresses(ActiveIndices(layout, mode), layout.positions)
  {
    ActiveIndicesSpec(layout, mode);
  }

  /** Both ring index lists of a well-formed layout address positions. */
  lemma RingAddresses(layout: LedLayout)
    requires WellFormed(layout)
    ensures Addresses(layout.outer, layout.positions)
    ensures Addresses(layout.inner, layout.positions)
  {
    ActiveIndicesSpec(layout, OuterRingOnly);
    ActiveIndicesSpec(layout, InnerRingOnly);
  }

  /** What processColors yields for a layout and the current settings. */
  function ProcessedColors(layout: LedLayout, mode: RingMode, perLedMode: bool, supportsPerLed: bool,
                           brightness: int, canvas: Canvas): seq<LedColor>
    requires WellFormed(layout)
  {
    ActiveAddresses(layout, mode);
    var active := ActiveIndices(layout, mode);
    if perLedMode && supportsPerLed then PerLedColors(active, layout.positions, canvas, brightness)
    else AveragedColors(active, layout.positions, canvas, brightness)
  }

  /** The per-LED loop of processColors, getOuterRingColors and
      getInnerRingColors. */
  method SamplePerLed(indices: seq<nat>, positions: seq<Point>, canvas: Canvas, brightness: int)
    returns (colors: seq<LedColor>)
    requires Addresses(indices, positions)
    ensures colors == PerLedColors(indices, positions, canvas, brightness)
  {
    colors := [];
    var i := 0;
    while i < |indices|
      invariant 0 <= i <= |indices|
      invariant colors == PerLedColors(indices[..i], positions, canvas, brightness)
    {
      assert indices[..i + 1][..i] == indices[..i];
      var index := indices[i];
      var color := canvas(positions[index]);
      if color.Some? {
        var c := color.value;
        colors := colors + [LedColor(index, Scale(c.r, brightness), Scale(c.g, brightness), Scale(c.b, brightness))];
      }
      i := i + 1;
    }
    assert indices[..i] == indices;
  }

  /** processColors: per-LED sampling when both the setting and the profile
      allow it, otherwise the averaged colour on every active index. */
  method ProcessColors(layout: LedLayout, mode: RingMode, perLedMode: bool, supportsPerLed: bool,
                       brightness: int, canvas: Canvas)
    returns (colors: seq<LedColor>)
    requires WellFormed(layout)
    ensures colors == ProcessedColors(layout, mode, perLedMode, supportsPerLed, brightness, canvas)
  {
    ActiveAddresses(layout, mode);
    var active := ActiveIndices(layout, mode);
    if perLedMode && supportsPerLed {
      colors := SamplePerLed(active, layout.positions, canvas, brightness);
    } else {
      var t := SumValid(active, layout.positions, canvas);
      colors := [];
      if t.count > 0 {
        colors := ReplicateColor(active, AverageColor(t, brightness));
      }
    }
  }

  /** The summing loop of processColors' averaged mode. */
  method SumValid(indices: seq<nat>, positions: seq<Point>, canvas: Canvas) returns (t: Totals)
    requires Addresses(indices, positions)
    ensures t == ValidTotals(indices, positions, canvas)
  {
    var r, g, b, count := 0, 0, 0, 0;
    var i := 0;
    while i < |indices|
      invariant 0 <= i <= |indices|
      invariant Totals(r, g, b, count) == ValidTotals(indices[..i], positions, canvas)
    {
      assert indices[..i + 1][..i] == indices[..i];
      var color := canvas(positions[indices[i]]);
      if color.Some? {
        r, g, b, count := r + color.value.r, g + color.value.g, b + color.value.b, count + 1;
      }
      i := i + 1;
    }
    assert indices[..i] == indices;
    t := Totals(r, g, b, count);
  }

  /** The loop of processColors' averaged mode that copies the average to
      every active index. */
  method ReplicateColor(indices: seq<nat>, avg: Rgb) returns (colors: seq<LedColor>)
    ensures colors == Replicate(indices, avg)
  {
    colors := [];
    var j := 0;
    while j < |indices|
      invariant 0 <= j <= |indices|
      invariant colors == Replicate(indices[..j], avg)
    {
      colors := colors + [LedColor(indices[j], avg.r, avg.g, avg.b)];
      j := j + 1;
    }
    assert indices[..j] == indices;
  }

  /** Per-LED sampling yields at most one colour per index, only for indices
      of the list, and each one is the brightness-scaled colour the canvas
      gives at that index's cell: an index the canvas answers for is never
      left without its own colour, and nothing is invented for the others. */
  lemma {:induction false} PerLedColorsMembers(indices: seq<nat>, positions: seq<Point>, canvas: Canvas, brightness: int)
    requires Addresses(indices, positions)
    ensures var out := PerLedColors(indices, positions, canvas, brightness);
            && |out| <= |indices|
            && forall k :: 0 <= k < |out| ==>
                 && out[k].index in indices
                 && out[k].index < |positions|
                 && canvas(positions[out[k].index]).Some?
                 && out[k] == ScaleColor(out[k].index, canvas(positions[out[k].index]).value, brightness)
    decreases |indices|
  {
    if |indices| > 0 {
      var init := indices[..|indices| - 1];
      PerLedColorsMembers(init, positions, canvas, brightness);
      var out := PerLedColors(indices, positions, canvas, brightness);
      var head := PerLedColors(init, positions, canvas, brightness);
      assert out == head + SampleAt(positions, canvas, brightness, indices[|indices| - 1]);
      forall k | 0 <= k < |out|
        ensures && out[k].index in indices
                && out[k].index < |positions|
                && canvas(positions[out[k].index]).Some?
                && out[k] == ScaleColor(out[k].index, canvas(positions[out[k].index]).value, brightness)
      {
        if k < |head| {
          assert out[k] == head[k];
          assert head[k].index in init;
        } else {
          assert out[k].index == indices[|indices| - 1];
        }
      }
    }
  }

  /** Over an increasing index list (every active list of a well-formed
      layout is one), per-LED sampling keeps the list order, so no index gets
      two colours. */
  lemma {:induction false} PerLedColorsOrdered(indices: seq<nat>, positions: seq<Point>, canvas: Canvas, brightness: int)
    requires Addresses(indices, positions)
    requires forall k, m :: 0 <= k < m < |indices| ==> indices[k] < indices[m]
    ensures var out := PerLedColors(indices, positions, canvas, brightness);
            forall k, m :: 0 <= k < m < |out| ==> out[k].index < out[m].index
    decreases |indices|
  {
    if |indices| > 0 {
      var n := |indices| - 1;
      var init := indices[..n];
      PerLedColorsOrdered(init, positions, canvas, brightness);
      PerLedColorsMembers(init, positions, canvas, brightness);
      var out := PerLedColors(indices, positions, canvas, brightness);
      var head := PerLedColors(init, positions, canvas, brightness);
      assert out == head + SampleAt(positions, canvas, brightness, indices[n]);
      forall k, m | 0 <= k < m < |out| ensures out[k].index < out[m].index {
        if m < |head| {
          assert out[k] == head[k] && out[m] == head[m];
        } else {
          assert out[k] == head[k];
          var j :| 0 <= j < |init| && init[j] == head[k].index;
          assert out[m].index == indices[n];
        }
      }
    }
  }

  /** When the canvas answers at every index, per-LED sampling gives every
      LED exactly its own scaled colour, in index-list order. */
  lemma {:induction false} PerLedColorsComplete(indices: seq<nat>, positions: seq<Point>, canvas: Canvas, brightness: int)
    requires Addresses(indices, positions)
    requires forall k :: 0 <= k < |indices| ==> canvas(positions[indices[k]]).Some?
    ensures var out := PerLedColors(indices, positions, canvas, brightness);
            && |out| == |indices|
            && forall k :: 0 <= k < |indices| ==>
                 out[k] == ScaleColor(indices[k], canvas(positions[indices[k]]).value, brightness)
    decreases |indices|
  {
    if |indices| > 0 {
      var n := |indices| - 1;
      var init := indices[..n];
      assert forall k :: 0 <= k < n ==> init[k] == indices[k];
      PerLedColorsComplete(init, positions, canvas, brightness);
      var last := ScaleColor(indices[n], canvas(positions[indices[n]]).value, brightness);
      assert SampleAt(positions, canvas, brightness, indices[n]) == [last];
      assert PerLedColors(indices, positions, canvas, brightness)
          == PerLedColors(init, positions, canvas, brightness) + [last];
    }
  }

  /** The sample count is zero exactly when the canvas answers for no index. */
  lemma {:induction false} ValidTotalsCount(indices: seq<nat>, positions: seq<Point>, canvas: Canvas)
    requires Addresses(indices, positions)
    ensures ValidTotals(indices, positions, canvas).count <= |indices|
    ensures ValidTotals(indices, positions, canvas).count == 0
            <==> forall k :: 0 <= k < |indices| ==> canvas(positions[indices[k]]).None?
    decreases |indices|
  {
    if |indices| > 0 {
      var init := indices[..|indices| - 1];
      ValidTotalsCount(init, positions, canvas);
      if ValidTotals(indices, positions, canvas).count == 0 {
        forall k | 0 <= k < |indices| ensures canvas(positions[indices[k]]).None? {
          if k < |init| {
            assert indices[k] == init[k];
          }
        }
      }
    }
  }

  /** Averaged mode yields nothing when no sample is valid; otherwise one
      colour, the same on every entry, on exactly the given indices in order. */
  lemma AveragedColorsSpec(indices: seq<nat>, positions: seq<Point>, canvas: Canvas, brightness: int)
    requires Addresses(indices, positions)
    ensures var out := AveragedColors(indices, positions, canvas, brightness);
            && (out == [] <==> forall k :: 0 <= k < |indices| ==> canvas(positions[indices[k]]).None?)
            && (out != [] ==>
                  |out| == |indices|
                  && (forall k :: 0 <= k < |out| ==> out[k].index == indices[k])
                  && (forall k :: 0 <= k < |out| ==> out[k].r == out[0].r && out[k].g == out[0].g && out[k].b == out[0].b))
    ensures var out := AveragedColors(indices, positions, canvas, brightness);
            var t := ValidTotals(indices, positions, canvas);
            out != [] ==>
              && t.count > 0
              && forall k :: 0 <= k < |out| ==>
                   out[k] == LedColor(indices[k], AverageColor(t, brightness).r,
                                      AverageColor(t, brightness).g, AverageColor(t, brightness).b)
  {
    ValidTotalsCount(indices, positions, canvas);
  }

  /** The averaging example: red, green and blue on three LEDs at full
      brightness average to (85, 85, 85), copied to all three. */
  lemma AveragedPrimaries(i0: nat, i1: nat, i2: nat, positions: seq<Point>, canvas: Canvas)
    requires i0 < |positions| && i1 < |positions| && i2 < |positions|
    requires canvas(positions[i0]) == Some(Rgb(255, 0, 0))
    requires canvas(positions[i1]) == Some(Rgb(0, 255, 0))
    requires canvas(positions[i2]) == Some(Rgb(0, 0, 255))
    ensures AveragedColors([i0, i1, i2], positions, canvas, 100)
         == [LedColor(i0, 85, 85, 85), LedColor(i1, 85, 85, 85), LedColor(i2, 85, 85, 85)]
  {
    var ix := [i0, i1, i2];
    assert ix[..2] == [i0, i1] && [i0, i1][..1] == [i0] && [i0][..0] == [];
    assert ValidTotals([i0], positions, canvas) == Totals(255, 0, 0, 1);
    assert ValidTotals([i0, i1], positions, canvas) == Totals(255, 255, 0, 2);
    assert ValidTotals(ix, positions, canvas) == Totals(255, 255, 255, 3);
    assert AverageColor(Totals(255, 255, 255, 3), 100) == Rgb(85, 85, 85);
  }

  /** The brightness example: at 50% the colour (200, 100, 0) is sent as
      (100, 50, 0). */
  lemma HalfBrightness(index: nat)
    ensures ScaleColor(index, Rgb(200, 100, 0), 50) == LedColor(index, 100, 50, 0)
  {
    assert Scale(200, 50) == 100 && Scale(100, 50) == 50 && Scale(0, 50) == 0;
  }

  /** Channel sums over a list of samples, with their number. */
  function ColorTotals(colors: seq<LedColor>): (t: Totals)
    ensures t.count == |colors|
    decreases |colors|
  {
    if |colors| == 0 then Totals(0, 0, 0, 0)
    else
      var t := ColorTotals(colors[..|colors| - 1]);
      var c := colors[|colors| - 1];
      Totals(t.r + c.r, t.g + c.g, t.b + c.b, t.count + 1)
  }

  /** The rounded mean colour of a non-empty list. */
  function MeanColor(colors: seq<LedColor>): Rgb
    requires |colors| > 0
  {
    var t := ColorTotals(colors);
    Rgb(RoundDiv(t.r, |colors|), RoundDiv(t.g, |colors|), RoundDiv(t.b, |colors|))
  }

  /** calculateAverageColor: Math.round(total / count) per channel. The only
      caller passes a non-empty list. */
  method CalculateAverageColor(colors: seq<LedColor>) returns (avg: Rgb)
    requires |colors| > 0
    ensures avg == MeanColor(colors)
  {
    var totalR, totalG, totalB := 0, 0, 0;
    var i := 0;
    while i < |colors|
      invariant 0 <= i <= |colors|
      invariant Totals(totalR, totalG, totalB, i) == ColorTotals(colors[..i])
    {
      assert colors[..i + 1][..i] == colors[..i];
      totalR, totalG, totalB := totalR + colors[i].r, totalG + colors[i].g, totalB + colors[i].b;
      i := i + 1;
    }
    assert colors[..i] == colors;
    avg := Rgb(RoundDiv(totalR, i), RoundDiv(totalG, i), RoundDiv(totalB, i));
  }

  /** Sums over n copies of one colour. */
  lemma {:induction false} UniformTotals(colors: seq<LedColor>, c: Rgb)
    requires forall k :: 0 <= k < |colors| ==> colors[k].r == c.r && colors[k].g == c.g && colors[k].b == c.b
    ensures ColorTotals(colors) == Totals(|colors| * c.r, |colors| * c.g, |colors| * c.b, |colors|)
    decreases |colors|
  {
    if |colors| > 0 {
      UniformTotals(colors[..|colors| - 1], c);
    }
  }

  /** Averaging a list in which every entry has the same colour gives back
      that colour: the averaged-mode list, averaged again by
      renderCombinedMode, is sent unchanged. */
  lemma AverageOfUniform(colors: seq<LedColor>, c: Rgb)
    requires |colors| > 0
    requires forall k :: 0 <= k < |colors| ==> colors[k].r == c.r && colors[k].g == c.g && colors[k].b == c.b
    ensures MeanColor(colors) == c
  {
    UniformTotals(colors, c);
    var n := |colors|;
    RoundDivOfMultiple(n, c.r);
    RoundDivOfMultiple(n, c.g);
    RoundDivOfMultiple(n, c.b);
  }

  /** calculateAverageColor on red, green and blue gives (85, 85, 85). */
  lemma MeanOfPrimaries(i0: nat, i1: nat, i2: nat)
    ensures MeanColor([LedColor(i0, 255, 0, 0), LedColor(i1, 0, 255, 0), LedColor(i2, 0, 0, 255)]) == Rgb(85, 85, 85)
  {
    var cs := [LedColor(i0, 255, 0, 0), LedColor(i1, 0, 255, 0), LedColor(i2, 0, 0, 255)];
    assert cs[..2][..1][..0] == [];
    assert ColorTotals(cs[..2][..1]) == Totals(255, 0, 0, 1);
    assert ColorTotals(cs[..2]) == Totals(255, 255, 0, 2);
    assert ColorTotals(cs) == Totals(255, 255, 255, 3);
  }

  lemma RoundDivOfMultiple(n: int, x: int)
    requires n > 0
    ensures RoundDiv(n * x, n) == x
  {
    assert 2 * (n * x) + n == (2 * n) * x + n;
    DivUnique(2 * (n * x) + n, 2 * n, x);
  }

  /** flattenLEDColors: [index, r, g, b] per sample, in order. */
  function Flatten(colors: seq<LedColor>): (data: seq<int>)
    ensures |data| == BytesPerLed * |colors|
    decreases |colors|
  {
    if |colors| == 0 then []
    else
      var c := colors[|colors| - 1];
      Flatten(colors[..|colors| - 1]) + [c.index, c.r, c.g, c.b]
  }

  method FlattenLedColors(colors: seq<LedColor>) returns (data: seq<int>)
    ensures data == Flatten(colors)
  {
    data := [];
    var i := 0;
    while i < |colors|
      invariant 0 <= i <= |colors|
      invariant data == Flatten(colors[..i])
    {
      assert colors[..i + 1][..i] == colors[..i];
      var c := colors[i];
      data := data + [c.index, c.r, c.g, c.b];
      i := i + 1;
    }
    assert colors[..i] == colors;
  }

  /** Four bytes per sample, sample k at bytes 4k..4k+3. */
  lemma {:induction false} FlattenLayout(colors: seq<LedColor>)
    ensures |Flatten(colors)| == BytesPerLed * |colors|
    ensures forall k :: 0 <= k < |colors| ==>
              Flatten(colors)[BytesPerLed * k..BytesPerLed * k + BytesPerLed]
                == [colors[k].index, colors[k].r, colors[k].g, colors[k].b]
    decreases |colors|
  {
    if |colors| > 0 {
      var init := colors[..|colors| - 1];
      FlattenLayout(init);
      var f := Flatten(colors);
      var fi := Flatten(init);
      assert f == fi + [colors[|colors| - 1].index, colors[|colors| - 1].r, colors[|colors| - 1].g, colors[|colors| - 1].b];
      assert f[..|fi|] == fi;
      forall k | 0 <= k < |colors|
        ensures f[BytesPerLed * k..BytesPerLed * k + BytesPerLed] == [colors[k].index, colors[k].r, colors[k].g, colors[k].b]
      {
        if k < |init| {
          assert BytesPerLed * k + BytesPerLed <= |fi|;
          assert f[BytesPerLed * k..BytesPerLed * k + BytesPerLed] == f[..|fi|][BytesPerLed * k..BytesPerLed * k + BytesPerLed];
          assert init[k] == colors[k];
        }
      }
    }
  }
}
