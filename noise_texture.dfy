/** The film-grain overlay: a 256 x 256 RGBA noise tile generated once from
    the target colour and a stream of random samples, cached off-screen, and
    tiled over the visible canvas whenever the host element is resized. */
module NoiseTexture {
  import opened Text
  import opened Sampling

  /** Side of the square noise tile, in pixels. */
  const NoiseSize: nat := 256

  /** Length of the tile's RGBA byte buffer. */
  const BufferLength: nat := NoiseSize * NoiseSize * 4

  // ---------------------------------------------------------------------------
  // Colour extraction
  // ---------------------------------------------------------------------------

  /** The longest run of digits at the front of `s`. */
  function LeadingDigits(s: string): (d: string)
    ensures d <= s && AllDigits(d)
    ensures |d| < |s| ==> !IsDigit(s[|d|])
  {
    if s == [] || !IsDigit(s[0]) then [] else [s[0]] + LeadingDigits(s[1..])
  }

  /** `s.match(/\d+/g)`: the maximal digit runs of `s`, left to right; the
      empty list stands for the `null` the match returns when there is none. */
  function DigitRuns(s: string): (runs: seq<string>)
    ensures forall k :: 0 <= k < |runs| ==> |runs[k]| > 0 && AllDigits(runs[k])
    decreases |s|
  {
    if s == [] then []
    else if !IsDigit(s[0]) then DigitRuns(s[1..])
    else
      var d := LeadingDigits(s);
      [d] + DigitRuns(s[|d|..])
  }

  /** The match is `null` exactly when the string has no digit. */
  lemma {:induction false} DigitRunsNone(s: string)
    ensures DigitRuns(s) == [] <==> forall i :: 0 <= i < |s| ==> !IsDigit(s[i])
    decreases |s|
  {
    if s != [] && !IsDigit(s[0]) {
      DigitRunsNone(s[1..]);
      assert forall i :: 1 <= i < |s| ==> s[i] == s[1..][i - 1];
    }
  }

  /** A colour component as `Number.parseInt` yields it: `NaN` when the match
      has no run at that index (`parseInt(undefined)`). */
  datatype Channel = Value(n: nat) | NotANumber

  datatype Rgb = Rgb(r: Channel, g: Channel, b: Channel)

  function RunChannel(runs: seq<string>, k: nat): (c: Channel)
    requires forall j :: 0 <= j < |runs| ==> AllDigits(runs[j])
    ensures c.NotANumber? <==> k >= |runs|
  {
    if k < |runs| then Value(ParseDigits(runs[k])) else NotANumber
  }

  /** The colour components read from the computed colour string: the first
      three digit runs, or 255 for all three when the string has no digit. */
  function ExtractRgb(computed: string): (c: Rgb)
    ensures DigitRuns(computed) == [] ==> c == Rgb(Value(255), Value(255), Value(255))
    ensures c.r.Value?
    ensures c.g.NotANumber? <==> |DigitRuns(computed)| == 1
    ensures c.b.NotANumber? <==> 1 <= |DigitRuns(computed)| <= 2
    ensures |DigitRuns(computed)| >= 3 ==>
              c == Rgb(Value(ParseDigits(DigitRuns(computed)[0])), Value(ParseDigits(DigitRuns(computed)[1])),
                       Value(ParseDigits(DigitRuns(computed)[2])))
  {
    var runs := DigitRuns(computed);
    if runs == [] then Rgb(Value(255), Value(255), Value(255))
    else Rgb(RunChannel(runs, 0), RunChannel(runs, 1), RunChannel(runs, 2))
  }

  /** The `rgb(r, g, b)` form in which a browser reports a computed colour. */
  function RgbString(r: nat, g: nat, b: nat): string
  {
    "rgb(" + (NatToString(r) + (", " + (NatToString(g) + (", " + (NatToString(b) + ")")))))
  }

  lemma {:induction false} DigitRunsSkip(p: string, rest: string)
    requires forall i :: 0 <= i < |p| ==> !IsDigit(p[i])
    ensures DigitRuns(p + rest) == DigitRuns(rest)
    decreases |p|
  {
    if p != [] {
      var s := p + rest;
      assert s[0] == p[0] && s != [];
      assert s[1..] == p[1..] + rest;
      assert DigitRuns(s) == DigitRuns(s[1..]);
      DigitRunsSkip(p[1..], rest);
    } else {
      assert p + rest == rest;
    }
  }

  lemma {:induction false} LeadingDigitsOf(d: string, rest: string)
    requires AllDigits(d)
    requires rest == [] || !IsDigit(rest[0])
    ensures LeadingDigits(d + rest) == d
    decreases |d|
  {
    if d != [] {
      assert (d + rest)[1..] == d[1..] + rest;
      LeadingDigitsOf(d[1..], rest);
    }
  }

  lemma DigitRunsNumeral(d: string, rest: string)
    requires |d| > 0 && AllDigits(d)
    requires rest == [] || !IsDigit(rest[0])
    ensures DigitRuns(d + rest) == [d] + DigitRuns(rest)
  {
    LeadingDigitsOf(d, rest);
    assert (d + rest)[|d|..] == rest;
  }

  /** The last numeral of `rgb(...)`, before the closing parenthesis. */
  lemma NumeralThenClose(n: nat)
    ensures DigitRuns(NatToString(n) + ")") == [NatToString(n)]
  {
    DigitRunsSkip(")", []);
    assert ")" + [] == ")";
    DigitRunsNumeral(NatToString(n), ")");
  }

  /** A numeral followed by the `, ` separator and more text. */
  lemma NumeralThenComma(n: nat, rest: string)
    ensures DigitRuns(NatToString(n) + (", " + rest)) == [NatToString(n)] + DigitRuns(rest)
  {
    DigitRunsSkip(", ", rest);
    DigitRunsNumeral(NatToString(n), ", " + rest);
  }

  /** The digit runs of `rgb(r, g, b)` are the three numerals. */
  lemma RgbStringRuns(r: nat, g: nat, b: nat)
    ensures DigitRuns(RgbString(r, g, b)) == [NatToString(r), NatToString(g), NatToString(b)]
  {
    var tail := NatToString(b) + ")";
    var mid := NatToString(g) + (", " + tail);
    var whole := NatToString(r) + (", " + mid);
    NumeralThenClose(b);
    NumeralThenComma(g, tail);
    NumeralThenComma(r, mid);
    DigitRunsSkip("rgb(", whole);
  }

  /** Extraction reads back the components of an `rgb(...)` string. */
  lemma ExtractRgbString(r: nat, g: nat, b: nat)
    ensures ExtractRgb(RgbString(r, g, b)) == Rgb(Value(r), Value(g), Value(b))
  {
    RgbStringRuns(r, g, b);
    ParseNatToString(r);
    ParseNatToString(g);
    ParseNatToString(b);
  }

  /** A string without digits yields white. */
  lemma ExtractRgbNoDigits(computed: string)
    requires forall i :: 0 <= i < |computed| ==> !IsDigit(computed[i])
    ensures ExtractRgb(computed) == Rgb(Value(255), Value(255), Value(255))
  {
    DigitRunsNone(computed);
  }

  // ---------------------------------------------------------------------------
  // The fill loop
  // ---------------------------------------------------------------------------

  /** `component * value` as stored in the clamped byte array, before its
      rounding: a `NaN` product is stored as 0, and a product of 255 or more
      saturates at 255. */
  function Scale(c: Channel, v: real): (x: real)
    requires 0.0 <= v < 1.0
    ensures 0.0 <= x <= 255.0
    ensures c.Value? ==> x <= c.n as real
    ensures c.Value? && c.n > 0 ==> x < c.n as real
    ensures c.Value? && c.n <= 255 ==> x == Times(v, c.n as real)
    ensures c.NotANumber? ==> x == 0.0
  {
    match c
    case Value(n) =>
      ScaleBySample(v, n as real);
      var product := Times(v, n as real);
      if product < 255.0 then product else 255.0
    case NotANumber => 0.0
  }

  predicate UnitValues(samples: seq<real>)
  {
    forall p :: 0 <= p < |samples| ==> 0.0 <= samples[p] < 1.0
  }

  /** Byte `j` of the buffer when pixel `j / 4` draws sample `samples[j / 4]`. */
  function BufferByte(c: Rgb, samples: seq<real>, j: nat): (x: real)
    requires UnitValues(samples) && j < 4 * |samples|
    ensures j % 4 == 3 ==> x == 255.0
    ensures j % 4 < 3 ==> var ch := [c.r, c.g, c.b][j % 4];
              (ch.Value? ==> 0.0 <= x <= ch.n as real) && (ch.NotANumber? ==> x == 0.0)
  {
    var v := samples[j / 4];
    match j % 4
    case 0 => Scale(c.r, v)
    case 1 => Scale(c.g, v)
    case 2 => Scale(c.b, v)
    case _ => 255.0
  }

  /** The whole buffer the loop leaves behind, one pixel per sample. */
  function NoiseBuffer(c: Rgb, samples: seq<real>): (buf: seq<real>)
    requires UnitValues(samples)
    ensures |buf| == 4 * |samples|
  {
    seq(4 * |samples|, j requires 0 <= j < 4 * |samples| => BufferByte(c, samples, j))
  }

  /** Every pixel of the buffer: opaque, and each colour byte its component
      scaled by the pixel's one sample, so never above that component. */
  lemma NoisePixel(c: Rgb, samples: seq<real>, p: nat)
    requires UnitValues(samples) && p < |samples|
    ensures var buf := NoiseBuffer(c, samples);
            && buf[4 * p + 3] == 255.0
            && buf[4 * p] == Scale(c.r, samples[p])
            && buf[4 * p + 1] == Scale(c.g, samples[p])
            && buf[4 * p + 2] == Scale(c.b, samples[p])
            && (c.r.Value? ==> 0.0 <= buf[4 * p] <= c.r.n as real)
            && (c.g.Value? ==> 0.0 <= buf[4 * p + 1] <= c.g.n as real)
            && (c.b.Value? ==> 0.0 <= buf[4 * p + 2] <= c.b.n as real)
  {
  }

  /** A tile pixel index addresses four bytes inside the buffer. */
  lemma TilePixel(p: nat)
    requires p < NoiseSize * NoiseSize
    ensures 4 * p + 3 < BufferLength && (4 * p + 3) % 4 == 3 && (4 * p + 3) / 4 == p
  {
  }

  /** Writing the pixel that starts at byte `i` extends the filled prefix of
      the buffer by its four bytes. */
  lemma PixelWritten(d: seq<real>, c: Rgb, samples: seq<real>, i: nat)
    requires UnitValues(samples) && |d| == 4 * |samples| && i % 4 == 0 && i + 3 < |d|
    requires forall j :: 0 <= j < i ==> d[j] == BufferByte(c, samples, j)
    requires d[i] == Scale(c.r, samples[i / 4]) && d[i + 1] == Scale(c.g, samples[i / 4])
    requires d[i + 2] == Scale(c.b, samples[i / 4]) && d[i + 3] == 255.0
    ensures forall j :: 0 <= j < i + 4 ==> d[j] == BufferByte(c, samples, j)
  {
    assert (i + 1) / 4 == (i + 2) / 4 == (i + 3) / 4 == i / 4;
  }

  /** Index arithmetic of one step of the fill loop. */
  lemma StepBounds(i: nat, n: nat)
    requires i % 4 == 0 && i < 4 * n
    ensures i / 4 < n && i + 3 < 4 * n && (i + 4) % 4 == 0
  {
  }

  /** The fill loop: for i = 0, 4, 8, ... below the buffer length, draw one
      sample and write the pixel's four bytes in place. */
  method FillNoise(data: array<real>, c: Rgb, samples: seq<real>)
    requires UnitValues(samples) && data.Length == 4 * |samples|
    modifies data
    ensures data[..] == NoiseBuffer(c, samples)
  {
    var i := 0;
    while i < data.Length
      invariant 0 <= i <= data.Length && i % 4 == 0
      invariant forall j :: 0 <= j < i ==> data[j] == BufferByte(c, samples, j)
      decreases data.Length - i
    {
      StepBounds(i, |samples|);
      var value := samples[i / 4];
      data[i] := Scale(c.r, value);
      data[i + 1] := Scale(c.g, value);
      data[i + 2] := Scale(c.b, value);
      data[i + 3] := 255.0;
      PixelWritten(data[..], c, samples, i);
      i := i + 4;
    }
  }

  // ---------------------------------------------------------------------------
  // The component
  // ---------------------------------------------------------------------------

  /** The visible canvas and the off-screen tile behind it. */
  class NoiseCanvas {
    /** The off-screen tile's bytes, generated once. */
    const offscreen: array<real>
    /** The colour and the samples the tile was generated from. */
    ghost const colour: Rgb
    ghost const samples: seq<real>
    /** The visible canvas's size. */
    var width: nat
    var height: nat

    ghost predicate Valid()
      reads this, offscreen
    {
      && UnitValues(samples)
      && |samples| == NoiseSize * NoiseSize
      && offscreen.Length == BufferLength
      && offscreen[..] == NoiseBuffer(colour, samples)
    }

    /** The effect's set-up: reads the colour from the computed style string
        and fills the 256 x 256 tile; the visible canvas keeps its size until
        the first update. */
    constructor (computedColour: string, randomValues: seq<real>, canvasWidth: nat, canvasHeight: nat)
      requires UnitValues(randomValues) && |randomValues| == NoiseSize * NoiseSize
      ensures Valid()
      ensures colour == ExtractRgb(computedColour) && samples == randomValues
      ensures width == canvasWidth && height == canvasHeight
      ensures fresh(offscreen)
    {
      var c := ExtractRgb(computedColour);
      var data := new real[BufferLength];
      FillNoise(data, c, randomValues);
      offscreen := data;
      colour := c;
      samples := randomValues;
      width := canvasWidth;
      height := canvasHeight;
    }

    /** Byte `k` of the tile's pixel that the repeating pattern paints at
        (x, y) of the visible canvas. */
    function VisibleByte(x: nat, y: nat, k: nat): (v: real)
      requires Valid() && k < 4
      reads this, offscreen
      ensures k == 3 ==> v == 255.0
    {
      var p := (y % NoiseSize) * NoiseSize + x % NoiseSize;
      TilePixel(p);
      offscreen[4 * p + k]
    }

    /** `updateCanvas`: without a parent element nothing changes; otherwise
        the canvas takes the parent's size and is repainted from the tile,
        which itself is never touched. */
    method UpdateCanvas(parent: Option<(nat, nat)>)
      requires Valid()
      modifies this
      ensures Valid()
      ensures offscreen[..] == old(offscreen[..])
      ensures parent.None? ==> width == old(width) && height == old(height)
      ensures parent.Some? ==> width == parent.value.0 && height == parent.value.1
    {
      if parent.Some? {
        width := parent.value.0;
        height := parent.value.1;
      }
    }
  }

  /** The repainted canvas repeats the tile every 256 pixels in both
      directions, and each painted pixel is a pixel of the tile. */
  lemma TilePeriodic(nc: NoiseCanvas, x: nat, y: nat, k: nat)
    requires nc.Valid() && k < 4
    ensures nc.VisibleByte(x + NoiseSize, y, k) == nc.VisibleByte(x, y, k)
    ensures nc.VisibleByte(x, y + NoiseSize, k) == nc.VisibleByte(x, y, k)
    ensures nc.VisibleByte(x, y, k) == NoiseBuffer(nc.colour, nc.samples)[4 * ((y % NoiseSize) * NoiseSize + x % NoiseSize) + k]
  {
    assert (x + NoiseSize) % NoiseSize == x % NoiseSize;
    assert (y + NoiseSize) % NoiseSize == y % NoiseSize;
  }
}
