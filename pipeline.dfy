/** process, stage by stage, as functions of the settings, the random draws
    and what GD reports: the image each stage leaves behind and what is sent. */
module Pipeline {
  import opened Php
  import opened Gd
  import opened Web
  import opened Constants
  import HexColor
  import Answer
  import opened Glyphs
  import opened Distortion

  /** An (x, y) setting: the period and the amplitude of the distortion. */
  datatype Pair = Pair(x: int, y: int)

  /** The settings of a captcha object. */
  datatype Config = Config(
    width: int, height: int, minLength: int, maxLength: int,
    bgdColor: string, bgdTransparent: bool, fgdColors: seq<string>, fonts: seq<Font>,
    maxRotation: int, period: Pair, amplitude: Pair,
    blur: bool, emboss: bool, pixelate: bool, format: string)
  {
    /** What process takes for granted of its settings without checking them:
        a drawable size, and a colour and a font to pick from. */
    predicate Runnable()
    {
      width > 0 && height > 0 && |fgdColors| > 0 && |fonts| > 0
    }
  }

  /** The five default letter colours: blue, green, red, purple, orange. */
  const DefaultFgdColors: seq<string> := ["#006ACC", "#00CC00", "#CC0000", "#8B28FA", "#FF7007"]

  /** The settings a new captcha object starts with. */
  const Defaults: Config := Config(250, 60, 6, 10, "#FFFFFF", false, DefaultFgdColors, DefaultFonts,
                                   7, Pair(11, 12), Pair(5, 14), false, false, false, FormatPng)

  /** The random draws one run of process makes, in the order it makes them,
      and the right edge imagettftext reports for each glyph. */
  datatype Draws = Draws(
    colorPick: int,          // mt_rand(0, count(fgdColors) - 1)
    length: int,             // rand(minLength, maxLength)
    letterPicks: seq<int>,   // mt_rand(0, 25) for each letter
    fontPick: int,           // array_rand(fonts)
    angles: seq<int>,        // rand(-maxRotation, maxRotation) for each glyph
    sizes: seq<int>,         // rand(min_size, max_size) for each glyph
    rightEdges: seq<int>,    // imagettftext(...)[2] for each glyph
    xMultiplier: int,        // rand(1, 3)
    yMultiplier: int,        // rand(1, 2)
    xPhase: int,             // rand(0, 100) before the column sweep
    yPhase: int)             // rand(0, 100) before the row sweep

  /** Every draw lies in the range it is drawn from (rand takes its bounds in
      either order), and there is one per-letter draw for every letter of the
      answer. */
  predicate Fits(c: Config, d: Draws)
  {
    0 <= d.colorPick < |c.fgdColors| &&
    RandIn(c.minLength, c.maxLength, d.length) &&
    Answer.Rounds(d.length) <= |d.letterPicks| &&
    (forall i :: 0 <= i < |d.letterPicks| ==> Answer.IsLetterPick(d.letterPicks[i])) &&
    0 <= d.fontPick < |c.fonts| &&
    Answer.Rounds(d.length) <= |d.angles| &&
    Answer.Rounds(d.length) <= |d.sizes| &&
    Answer.Rounds(d.length) <= |d.rightEdges| &&
    (forall i :: 0 <= i < Answer.Rounds(d.length) ==> RandIn(-c.maxRotation, c.maxRotation, d.angles[i])) &&
    (forall i :: 0 <= i < Answer.Rounds(d.length) ==>
       RandIn(c.fonts[d.fontPick].minSize, c.fonts[d.fontPick].maxSize, d.sizes[i])) &&
    1 <= d.xMultiplier <= 3 && 1 <= d.yMultiplier <= 2 &&
    0 <= d.xPhase <= 100 && 0 <= d.yPhase <= 100
  }

  /** The answer the letter draws spell. */
  function AnswerOf(c: Config, d: Draws): string
    requires Fits(c, d)
  {
    Answer.Spell(d.letterPicks[..Answer.Rounds(d.length)])
  }

  /** The answer is lower-case and, when at least one length bound is not
      negative, its length lies between the two bounds. */
  lemma AnswerShape(c: Config, d: Draws)
    requires Fits(c, d)
    ensures |AnswerOf(c, d)| == Answer.Rounds(d.length)
    ensures Answer.IsLowerWord(AnswerOf(c, d))
    ensures 0 <= Max(c.minLength, c.maxLength) ==> RandIn(c.minLength, c.maxLength, |AnswerOf(c, d)|)
  {
    var a := AnswerOf(c, d);
    forall i | 0 <= i < |a| ensures Answer.IsLowerLetter(a[i]) {
      assert a[i] == Answer.Letters[d.letterPicks[i]];
    }
  }

  /** Once process has stored the answer, check accepts exactly the inputs
      that spell it in any mix of small and capital letters. */
  lemma CheckAfterProcess(c: Config, d: Draws, vars: map<string, string>, code: string)
    requires Fits(c, d)
    ensures Answer.Check(vars[SessionVar := AnswerOf(c, d)], code) <==> Answer.IsCaseVariant(code, AnswerOf(c, d))
  {
    AnswerShape(c, d);
    Answer.CheckAcceptsCaseVariants(vars, AnswerOf(c, d), code);
  }

  /** The working image: the display size times the image factor. */
  function WorkingImage(c: Config): Canvas
  {
    CreateTrueColor(c.width * ImageFactor, c.height * ImageFactor)
  }

  /** imagecolorallocatealpha(0, 0, 0, 127): fully transparent black. */
  const Transparent: Gd.Color := Gd.Color(0, 0, 0, 127)

  /** imagecolorallocate(r, g, b): the opaque colour. */
  function Opaque(rgb: HexColor.Rgb): Gd.Color
  {
    Gd.Color(rgb.r, rgb.g, rgb.b, 0)
  }

  /** The background: transparent wins (blending off, a transparent fill, and
      the alpha channel kept); otherwise a non-empty background colour is
      filled in; otherwise nothing is drawn. */
  function FillBackground(c: Config, canvas: Canvas): Canvas
  {
    if c.bgdTransparent then
      Draw(canvas, [AlphaBlending(false), Fill(0, 0, Transparent)]).(saveAlpha := true)
    else if !Empty(c.bgdColor) then
      Draw(canvas, [Fill(0, 0, Opaque(HexColor.RgbFromHex(c.bgdColor)))])
    else
      canvas
  }

  /** A transparent background ignores the background colour: blending is
      switched off, the image is filled with the transparent colour and the
      alpha channel is kept. Otherwise the alpha flag is untouched, and a
      non-empty background colour (as PHP's empty() sees it) is filled in,
      opaque, while an empty one leaves the image as it is. */
  lemma BackgroundPrecedence(c: Config, canvas: Canvas, otherColor: string)
    ensures c.bgdTransparent ==>
      FillBackground(c, canvas) == FillBackground(c.(bgdColor := otherColor), canvas) &&
      FillBackground(c, canvas).saveAlpha &&
      FillBackground(c, canvas).trace == canvas.trace + [AlphaBlending(false), Fill(0, 0, Transparent)]
    ensures !c.bgdTransparent ==> FillBackground(c, canvas).saveAlpha == canvas.saveAlpha
    ensures !c.bgdTransparent && !Empty(c.bgdColor) ==>
      FillBackground(c, canvas).trace == canvas.trace + [Fill(0, 0, Opaque(HexColor.RgbFromHex(c.bgdColor)))]
    ensures !c.bgdTransparent && Empty(c.bgdColor) ==> FillBackground(c, canvas) == canvas
  {
  }

  /** The letters' colour: the picked palette entry, opaque. */
  function Foreground(c: Config, d: Draws): Gd.Color
    requires 0 <= d.colorPick < |c.fgdColors|
  {
    Opaque(HexColor.RgbFromHex(c.fgdColors[d.colorPick]))
  }

  /** The lettering writeText draws: the answer, in the picked font. */
  function LetteringOf(c: Config, d: Draws): (l: Lettering)
    requires Fits(c, d) && c.height >= 0
    ensures l.Drawable()
  {
    LetteringFor(AnswerOf(c, d), Foreground(c, d), c.fonts[d.fontPick], c.maxLength, c.height,
                 d.angles, d.sizes, d.rightEdges)
  }

  /** Glyph k of the answer: character k, in the picked colour and the one
      picked font, at an angle between -maxRotation and maxRotation, on the
      baseline, the pen at the start or at the previous glyph's right edge plus
      the spacing. */
  lemma GlyphFacts(c: Config, d: Draws, k: nat)
    requires Fits(c, d) && c.height >= 0 && k < |AnswerOf(c, d)|
    ensures var l := LetteringOf(c, d);
      var g := GlyphRun(l, |l.text|)[k];
      g.Glyph? && g.text == [AnswerOf(c, d)[k]] &&
      g.color == Foreground(c, d) &&
      g.fontFile == c.fonts[d.fontPick].filename &&
      RandIn(-c.maxRotation, c.maxRotation, g.angle) &&
      g.penY == Baseline(c.height) &&
      g.penX == if k == 0 then StartX as real
                else d.rightEdges[k - 1] as real + c.fonts[d.fontPick].letterSpace * ImageFactor as real
  {
    var l := LetteringOf(c, d);
    AnswerShape(c, d);
    GlyphRunAt(l, |l.text|, k);
  }

  /** The size of glyph k: the font's range (in either order) enlarged and
      scaled by the size factor of the answer's length; when the answer is no
      longer than maxLength it is never below the smaller bound enlarged. */
  lemma GlyphSize(c: Config, d: Draws, k: nat)
    requires Fits(c, d) && c.height >= 0 && k < |AnswerOf(c, d)|
    ensures var l := LetteringOf(c, d);
      var font := c.fonts[d.fontPick];
      var lo, hi := Min(font.minSize, font.maxSize), Max(font.minSize, font.maxSize);
      var g := GlyphRun(l, |l.text|)[k];
      g.Glyph? && l.factor == FontSizeFactor(c.maxLength, |AnswerOf(c, d)|) &&
      (l.factor >= 0.0 ==> ScaledBetween(lo, hi, l.factor, g.size)) &&
      (|AnswerOf(c, d)| <= c.maxLength && lo >= 0 ==> g.size >= (lo * ImageFactor) as real)
  {
    var l := LetteringOf(c, d);
    assert |AnswerOf(c, d)| == Answer.Rounds(d.length);
    assert l.font == c.fonts[d.fontPick] && l.text == AnswerOf(c, d);
    assert RandIn(l.font.minSize, l.font.maxSize, l.sizes[k]);
    GlyphRunAt(l, |l.text|, k);
    GlyphSizeBounds(l, k);
  }

  /** The two sweeps of distortImage for these settings and the period
      multipliers and phases drawn for them. */
  function DistortionOf(c: Config, wave: Wave, xMultiplier: int, yMultiplier: int, xPhase: int, yPhase: int): seq<Op>
  {
    Sweeps(wave,
           Sweep(xPhase, c.period.x * xMultiplier * ImageFactor, c.amplitude.x * ImageFactor),
           Sweep(yPhase, c.period.y * yMultiplier * ImageFactor, c.amplitude.y * ImageFactor),
           c.width * ImageFactor, c.height * ImageFactor)
  }

  /** Order of the effects. */
  function EffectRank(f: Filter): int
  {
    match f
    case GaussianBlur => 0
    case Emboss => 1
    case Pixelate => 2
  }

  /** addEffects: blur, then emboss, then pixelate, each only when switched on.
      Every call passes the filter constant alone, pixelate included. */
  function Effects(blur: bool, emboss: bool, pixelate: bool): seq<Op>
  {
    (if blur then [ApplyFilter(GaussianBlur, [])] else []) +
    (if emboss then [ApplyFilter(Emboss, [])] else []) +
    (if pixelate then [ApplyFilter(Pixelate, [])] else [])
  }

  /** Only filters are applied, each exactly when its switch is on, in the
      order blur, emboss, pixelate, and nothing at all with every switch off. */
  lemma EffectsOrder(blur: bool, emboss: bool, pixelate: bool)
    ensures var ops := Effects(blur, emboss, pixelate);
      (forall op :: op in ops ==> op.ApplyFilter?) &&
      (ApplyFilter(GaussianBlur, []) in ops <==> blur) &&
      (ApplyFilter(Emboss, []) in ops <==> emboss) &&
      (ApplyFilter(Pixelate, []) in ops <==> pixelate) &&
      (forall i, j :: 0 <= i < j < |ops| ==> EffectRank(ops[i].filter) < EffectRank(ops[j].filter)) &&
      (ops == [] <==> !blur && !emboss && !pixelate)
  {
  }

  /** The pixelate call is made without its block size, so GD refuses it,
      while the blur and emboss calls have every argument they need. */
  lemma PixelateRefused(blur: bool, emboss: bool, pixelate: bool)
    ensures forall op :: op in Effects(blur, emboss, pixelate) ==> (TakesEffect(op) <==> op.filter != Pixelate)
  {
  }

  /** Whatever the pixelate switch says, the calls that change the image are
      the blur and emboss calls alone. */
  lemma PixelateNeverApplies(blur: bool, emboss: bool, pixelate: bool)
    ensures Effective(Effects(blur, emboss, pixelate)) == Effects(blur, emboss, false)
  {
    var b: seq<Op> := if blur then [ApplyFilter(GaussianBlur, [])] else [];
    var e: seq<Op> := if emboss then [ApplyFilter(Emboss, [])] else [];
    var p: seq<Op> := if pixelate then [ApplyFilter(Pixelate, [])] else [];
    EffectiveSingle(ApplyFilter(GaussianBlur, []));
    EffectiveSingle(ApplyFilter(Emboss, []));
    EffectiveSingle(ApplyFilter(Pixelate, []));
    EffectiveAppend(b + e, p);
    EffectiveAppend(b, e);
    assert Effects(blur, emboss, false) == b + e + [];
  }

  /** The working image once every drawing stage has run: background, text,
      distortion, effects. */
  function Drawn(c: Config, d: Draws, wave: Wave): Canvas
    requires Fits(c, d) && c.height >= 0
  {
    var l := LetteringOf(c, d);
    var background := FillBackground(c, WorkingImage(c));
    var lettered := Draw(background, GlyphRun(l, |l.text|));
    var distorted := Draw(lettered, DistortionOf(c, wave, d.xMultiplier, d.yMultiplier, d.xPhase, d.yPhase));
    Draw(distorted, Effects(c.blur, c.emboss, c.pixelate))
  }

  /** resampledImage: a new image of the display size receives one smooth
      copy of the whole working image, with blending off around the copy when
      the background is transparent. */
  function Resample(c: Config, source: Canvas): Canvas
  {
    var before := if c.bgdTransparent then [AlphaBlending(false)] else [];
    var after := if c.bgdTransparent then [AlphaBlending(true)] else [];
    Draw(CreateTrueColor(c.width, c.height),
         before + [CopyResampled(0, 0, 0, 0, c.width, c.height, c.width * ImageFactor, c.height * ImageFactor, source)] + after)
  }

  /** The resampled image has exactly the display size and no saved alpha
      channel; it is drawn only by the one copy of the whole working image
      and blending switches, and blending is back on afterwards for a
      transparent background. */
  lemma ResampleShape(c: Config, source: Canvas)
    ensures var r := Resample(c, source);
      var copy := CopyResampled(0, 0, 0, 0, c.width, c.height, c.width * ImageFactor, c.height * ImageFactor, source);
      r.width == c.width && r.height == c.height && !r.saveAlpha &&
      copy in r.trace &&
      (forall op :: op in r.trace && !op.AlphaBlending? ==> op == copy) &&
      (c.bgdTransparent ==> r.trace[|r.trace| - 1] == AlphaBlending(true))
  {
  }

  /** The displayed image: the drawn working image, resampled. */
  function Final(c: Config, d: Draws, wave: Wave): Canvas
    requires Fits(c, d) && c.height >= 0
  {
    Resample(c, Drawn(c, d, wave))
  }

  /** writeImage sends PNG when the format is "png" and GD can write PNG. */
  predicate SendsPng(c: Config, pngSupported: bool)
  {
    c.format == FormatPng && pngSupported
  }

  /** The image writeImage encodes: for PNG with a transparent background,
      blending is switched off and the alpha channel kept first. */
  function Shown(c: Config, pngSupported: bool, canvas: Canvas): Canvas
  {
    if SendsPng(c, pngSupported) && c.bgdTransparent then
      Draw(canvas, [AlphaBlending(false)]).(saveAlpha := true)
    else canvas
  }

  /** writeImage: a content type, then the image encoded to match it. */
  function Emit(c: Config, pngSupported: bool, canvas: Canvas): seq<Emission>
  {
    if SendsPng(c, pngSupported) then [ContentType("image/png"), Png(Shown(c, pngSupported, canvas))]
    else [ContentType("image/jpeg"), Jpeg(canvas, 90)]
  }

  /** Two things are sent: the content type, then the image in the format it
      names. PNG goes out exactly when SendsPng holds, JPEG at quality 90 of
      the image as it is otherwise; the image keeps its size, and a
      transparent PNG keeps its alpha channel. */
  lemma EmitShape(c: Config, pngSupported: bool, canvas: Canvas)
    ensures var out := Emit(c, pngSupported, canvas);
      |out| == 2 &&
      (out[1].Png? <==> SendsPng(c, pngSupported)) &&
      (out[1].Png? || out[1].Jpeg?) &&
      out[0] == ContentType(if out[1].Png? then "image/png" else "image/jpeg") &&
      (out[1].Jpeg? ==> out[1].quality == 90 && out[1].image == canvas) &&
      out[1].image.width == canvas.width && out[1].image.height == canvas.height &&
      (out[1].Png? && c.bgdTransparent ==> out[1].image.saveAlpha)
  {
  }

  /** Everything process sends: the displayed image, encoded. */
  function Response(c: Config, d: Draws, wave: Wave, pngSupported: bool): seq<Emission>
    requires Fits(c, d) && c.height >= 0
  {
    Emit(c, pngSupported, Final(c, d, wave))
  }
}
