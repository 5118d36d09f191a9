/** writeText: the answer drawn glyph by glyph on the enlarged image, with one
    font for the whole string and a pen that moves right after every glyph. */
module Glyphs {
  import opened Php
  import opened Gd
  import opened Constants

  /** A font definition: spacing after each glyph, the size range and the TrueType file. */
  datatype Font = Font(letterSpace: real, minSize: int, maxSize: int, filename: string)

  /** The font catalogue every captcha chooses from. */
  const DefaultFonts: seq<Font> := [
    Font(1.0, 14, 20, "BoomBox.ttf"),
    Font(0.0, 22, 38, "Duality.ttf"),
    Font(1.0, 28, 32, "Monof.ttf"),
    Font(0.0, 22, 28, "OrionPax.ttf"),
    Font(0.0, 26, 34, "Stark.ttf"),
    Font(1.5, 24, 30, "StayPuft.ttf"),
    Font(1.0, 12, 18, "VenusRisingRg.ttf"),
    Font(0.5, 22, 30, "WhiteRabbit.ttf")
  ]

  /** Shorter answers get bigger glyphs: 9 hundredths more per letter short of
      the maximum length, so the factor is at least 1 exactly when the answer
      is not longer than the maximum, and exactly 1 at the maximum. */
  function FontSizeFactor(maxLength: int, length: int): (f: real)
    ensures f >= 1.0 <==> length <= maxLength
    ensures f == 1.0 <==> length == maxLength
  {
    1.0 + (maxLength - length) as real * (FontFactor as real / 100.0)
  }

  /** The pen starts 20 display pixels from the left edge. */
  const StartX: int := 20 * ImageFactor

  /** The baseline: 27/40 of the height, enlarged, rounded to the nearest
      pixel with halves going up. */
  function Baseline(height: int): (y: int)
    requires height >= 0
    ensures (height * 81) as real / 40.0 - 0.5 < y as real <= (height * 81) as real / 40.0 + 0.5
  {
    Round(height as real * 27.0 / 40.0 * ImageFactor as real)
  }

  /** At the default height of 60 the baseline, 121.5, rounds to 122. */
  lemma DefaultBaseline()
    ensures Baseline(60) == 122
  {
    assert 60 as real * 27.0 / 40.0 * ImageFactor as real == 121.5;
    assert (121.5 + 0.5).Floor == 122;
  }

  /** Everything one call of writeText draws with: the text, the font chosen
      for it, the colour, the size factor, the baseline, and for each glyph the
      angle and size drawn with rand and the right edge imagettftext reports. */
  datatype Lettering = Lettering(
    text: string, font: Font, color: Color, factor: real, baseline: int,
    angles: seq<int>, sizes: seq<int>, rightEdges: seq<int>)
  {
    predicate Drawable()
    {
      |text| <= |angles| && |text| <= |sizes| && |text| <= |rightEdges|
    }
  }

  /** The lettering of `text` in `font`: the size factor comes from the
      text's length and `maxLength`, the baseline from the height. */
  function LetteringFor(text: string, color: Color, font: Font, maxLength: int, height: int,
                        angles: seq<int>, sizes: seq<int>, rightEdges: seq<int>): Lettering
    requires height >= 0
  {
    Lettering(text, font, color, FontSizeFactor(maxLength, |text|), Baseline(height),
              angles, sizes, rightEdges)
  }

  /** Where the pen stands before glyph k: the start, then the previous
      glyph's right edge plus the font's spacing, enlarged. */
  function PenX(l: Lettering, k: nat): real
    requires l.Drawable() && k <= |l.text|
  {
    if k == 0 then StartX as real
    else l.rightEdges[k - 1] as real + l.font.letterSpace * ImageFactor as real
  }

  /** The font size of glyph k: the size drawn for it, enlarged, times the size factor. */
  function GlyphSizeOf(l: Lettering, k: nat): real
    requires l.Drawable() && k < |l.text|
  {
    l.sizes[k] as real * ImageFactor as real * l.factor
  }

  /** The imagettftext call for glyph k. */
  function GlyphAt(l: Lettering, k: nat): Op
    requires l.Drawable() && k < |l.text|
  {
    Glyph(GlyphSizeOf(l, k), l.angles[k], PenX(l, k), l.baseline,
          l.color, l.font.filename, [l.text[k]])
  }

  /** The calls for the first n glyphs, in order. */
  function GlyphRun(l: Lettering, n: nat): (ops: seq<Op>)
    requires l.Drawable() && n <= |l.text|
    ensures |ops| == n
  {
    if n == 0 then [] else GlyphRun(l, n - 1) + [GlyphAt(l, n - 1)]
  }

  /** One glyph per character, in order: glyph k draws exactly character k, in
      the one font and colour of the lettering, on the baseline, at the angle
      and scaled size drawn for it, from the pen position of PenX. */
  lemma {:induction false} GlyphRunAt(l: Lettering, n: nat, k: nat)
    requires l.Drawable() && k < n <= |l.text|
    ensures var g := GlyphRun(l, n)[k];
      g.Glyph? && g.text == [l.text[k]] && g.fontFile == l.font.filename && g.color == l.color &&
      g.penY == l.baseline && g.penX == PenX(l, k) && g.angle == l.angles[k] &&
      g.size == GlyphSizeOf(l, k)
  {
    if k < n - 1 {
      GlyphRunAt(l, n - 1, k);
    } else if n > 1 {
      GlyphRunAt(l, n - 1, 0);
    }
  }

  /** x lies between lo and hi, both enlarged by the image factor and scaled by f. */
  predicate ScaledBetween(lo: int, hi: int, f: real, x: real)
  {
    (lo * ImageFactor) as real * f <= x <= (hi * ImageFactor) as real * f
  }

  /** A glyph drawn at a size picked from the font's range (rand takes the
      bounds in either order) lies within that range, enlarged and scaled by a
      non-negative size factor; with a factor of at least 1 it is never
      smaller than the font's smaller bound enlarged. */
  lemma GlyphSizeBounds(l: Lettering, k: nat)
    requires l.Drawable() && k < |l.text|
    requires RandIn(l.font.minSize, l.font.maxSize, l.sizes[k])
    ensures l.factor >= 0.0 ==>
      ScaledBetween(Min(l.font.minSize, l.font.maxSize), Max(l.font.minSize, l.font.maxSize), l.factor, GlyphSizeOf(l, k))
    ensures l.factor >= 1.0 && Min(l.font.minSize, l.font.maxSize) >= 0 ==>
      GlyphSizeOf(l, k) >= (Min(l.font.minSize, l.font.maxSize) * ImageFactor) as real
  {
    var lo := (Min(l.font.minSize, l.font.maxSize) * ImageFactor) as real;
    var hi := (Max(l.font.minSize, l.font.maxSize) * ImageFactor) as real;
    var s := l.sizes[k] as real * ImageFactor as real;
    assert GlyphSizeOf(l, k) == s * l.factor;
    if l.factor >= 0.0 {
      NonNegativeProduct(s - lo, l.factor);
      NonNegativeProduct(hi - s, l.factor);
    }
    if l.factor >= 1.0 && lo >= 0.0 {
      NonNegativeProduct(s, l.factor - 1.0);
    }
  }

  /** The product of two non-negative reals is non-negative. */
  lemma NonNegativeProduct(a: real, b: real)
    requires a >= 0.0 && b >= 0.0
    ensures a * b >= 0.0
  {
  }

  /** The loop of writeText: draw each character at the pen, then move the pen
      by `right edge - pen + spacing`, which puts it at the right edge plus the
      spacing whatever it was before. */
  method Render(canvas: Canvas, l: Lettering) returns (c: Canvas)
    requires l.Drawable()
    ensures c == Draw(canvas, GlyphRun(l, |l.text|))
  {
    var coordX: real := StartX as real;
    c := canvas;
    for i := 0 to |l.text|
      invariant c == Draw(canvas, GlyphRun(l, i))
      invariant coordX == PenX(l, i)
    {
      var fontSize := l.sizes[i] as real * ImageFactor as real * l.factor;
      var glyph := Glyph(fontSize, l.angles[i], coordX, l.baseline, l.color, l.font.filename, [l.text[i]]);
      assert glyph == GlyphAt(l, i);
      c := Draw(c, [glyph]);
      assert canvas.trace + GlyphRun(l, i) + [glyph] == canvas.trace + GlyphRun(l, i + 1);
      coordX := coordX + ((l.rightEdges[i] as real - coordX) + l.font.letterSpace * ImageFactor as real);
    }
  }
}
