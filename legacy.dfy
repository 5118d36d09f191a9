/** The legacy captcha class of class.cws.captcha.php: public settings with
    their defaults as field initialisers, an error message, and process, which
    needs the CwsDebug class and otherwise draws one captcha, stores its answer
    in the session and sends the image. */
module Legacy {
  import opened Php
  import opened Gd
  import opened Web
  import opened Constants
  import HexColor
  import Answer
  import opened Glyphs
  import opened Distortion
  import opened Pipeline

  /** The message process records and echoes when CwsDebug is missing. */
  const MissingDebug: string := "CwsDebug is required - https://github.com/crazy-max/CwsDebug"

  class CwsCaptcha {
    var width: int
    var height: int
    var minLength: int
    var maxLength: int
    var bgdColor: string
    var bgdTransparent: bool
    var fgdColors: seq<string>
    var fonts: seq<Font>
    var maxRotation: int
    var period: Pair
    var amplitude: Pair
    var blur: bool
    var emboss: bool
    var pixelate: bool
    var format: string
    /** The GD image the object holds, if any. */
    var handler: Option<Canvas>
    /** The images handed to imagedestroy, in order. */
    var released: seq<Canvas>
    /** The last error message; null until process fails. */
    var error: Option<string>

    /** The settings as one value. */
    function Settings(): Config
      reads this`width, this`height, this`minLength, this`maxLength, this`bgdColor, this`bgdTransparent,
            this`fgdColors, this`fonts, this`maxRotation, this`period, this`amplitude,
            this`blur, this`emboss, this`pixelate, this`format
    {
      Config(width, height, minLength, maxLength, bgdColor, bgdTransparent, fgdColors, fonts,
             maxRotation, period, amplitude, blur, emboss, pixelate, format)
    }

    /** A new captcha has the default settings, PNG output, no image and no error. */
    constructor ()
      ensures Settings() == Defaults && format == FormatPng
      ensures handler == None && released == [] && error == None
    {
      width, height, minLength, maxLength := 250, 60, 6, 10;
      bgdColor, bgdTransparent := "#FFFFFF", false;
      fgdColors, fonts := DefaultFgdColors, DefaultFonts;
      maxRotation, period, amplitude := 7, Pair(11, 12), Pair(5, 14);
      blur, emboss, pixelate := false, false, false;
      format := FormatPng;
      handler, released, error := None, [], None;
    }

    /** process: without the CwsDebug class, record and echo the error and
        stop, touching neither the image nor the session; otherwise run. */
    method Process(debugAvailable: bool, d: Draws, wave: Wave, pngSupported: bool, session: Session, out: Output)
      requires debugAvailable ==> Settings().Runnable() && Fits(Settings(), d)
      modifies this`handler, this`released, this`error, session`vars, out`sent
      ensures Settings() == old(Settings())
      ensures !debugAvailable ==>
        error == Some(MissingDebug) && out.sent == old(out.sent) + [Echo(MissingDebug)] &&
        handler == old(handler) && released == old(released) && session.vars == old(session.vars)
      ensures debugAvailable ==> error == old(error) && handler == None
      ensures debugAvailable ==>
        released == old(released) + (if old(handler).Some? then [old(handler).value] else []) +
                    [Drawn(Settings(), d, wave), Shown(Settings(), pngSupported, Final(Settings(), d, wave))]
      ensures debugAvailable ==> session.vars == old(session.vars)[SessionVar := AnswerOf(Settings(), d)]
      ensures debugAvailable ==> out.sent == old(out.sent) + Response(Settings(), d, wave, pngSupported)
    {
      if !debugAvailable {
        error := Some(MissingDebug);
        out.sent := out.sent + [Echo(MissingDebug)];
        return;
      }
      Run(d, wave, pngSupported, session, out);
    }

    /** The rest of process once CwsDebug is there: release any image, draw a
        new one on a working image three times the display size (background,
        text, distortion, effects), store the answer in the session, resample
        to the display size, send it and release it. Afterwards no image is
        held, the session holds exactly the drawn answer, and what was sent is
        the encoded display image. */
    method Run(d: Draws, wave: Wave, pngSupported: bool, session: Session, out: Output)
      requires Settings().Runnable() && Fits(Settings(), d)
      modifies this`handler, this`released, session`vars, out`sent
      ensures Settings() == old(Settings())
      ensures handler == None
      ensures released == old(released) + (if old(handler).Some? then [old(handler).value] else []) +
                          [Drawn(Settings(), d, wave), Shown(Settings(), pngSupported, Final(Settings(), d, wave))]
      ensures session.vars == old(session.vars)[SessionVar := AnswerOf(Settings(), d)]
      ensures out.sent == old(out.sent) + Response(Settings(), d, wave, pngSupported)
    {
      Destroy();
      DrawCaptcha(d, wave, session);
      Display(pngSupported, out);
    }

    /** The drawing steps of process: a new working image with its
        background, the answer written in the picked colour and stored in the
        session, then the distortion and the effects. The result becomes the
        object's image. */
    method DrawCaptcha(d: Draws, wave: Wave, session: Session)
      requires Settings().Runnable() && Fits(Settings(), d)
      modifies this`handler, session`vars
      ensures handler == Some(Drawn(Settings(), d, wave))
      ensures session.vars == old(session.vars)[SessionVar := AnswerOf(Settings(), d)]
    {
      var image := CreateImage();

      var rgbFgdColor := HexColor.RgbFromHex(fgdColors[d.colorPick]);
      var fgdColor := Opaque(rgbFgdColor);
      var rdmStr := GetRandomString(d.length, d.letterPicks);
      image := WriteText(image, rdmStr, fgdColor, d.fontPick, d.angles, d.sizes, d.rightEdges);

      session.vars := session.vars[SessionVar := rdmStr];

      image := DistortImage(image, wave, d.xMultiplier, d.yMultiplier, d.xPhase, d.yPhase);
      image := AddEffects(image);
      handler := Some(image);
    }

    /** The last steps of process: resample the drawn image to the display
        size, send it, and release it. */
    method Display(pngSupported: bool, out: Output)
      requires handler.Some?
      modifies this`handler, this`released, out`sent
      ensures handler == None
      ensures released == old(released) +
                          [old(handler).value, Shown(Settings(), pngSupported, Resample(Settings(), old(handler).value))]
      ensures out.sent == old(out.sent) + Emit(Settings(), pngSupported, Resample(Settings(), old(handler).value))
    {
      ResampledImage();
      WriteImage(pngSupported, out);
      Destroy();
    }

    /** The blank working image, three times the display size, with its
        background: transparent, or filled with the background colour when
        that is not empty. */
    method CreateImage() returns (image: Canvas)
      ensures image == FillBackground(Settings(), WorkingImage(Settings()))
    {
      image := CreateTrueColor(width * ImageFactor, height * ImageFactor);
      if bgdTransparent {
        image := Draw(image, [AlphaBlending(false)]);
        image := Draw(image, [Fill(0, 0, Transparent)]);
        image := image.(saveAlpha := true);
      } else if !Empty(bgdColor) {
        var rgbBgdColor := HexColor.RgbFromHex(bgdColor);
        image := Draw(image, [Fill(0, 0, Opaque(rgbBgdColor))]);
      }
    }

    /** writeImage: PNG when the format is "png" and GD can write it (with
        blending off and the alpha channel kept for a transparent background),
        otherwise JPEG at quality 90, each after its content type. */
    method WriteImage(pngSupported: bool, out: Output)
      requires handler.Some?
      modifies this`handler, out`sent
      ensures handler == Some(Shown(Settings(), pngSupported, old(handler).value))
      ensures out.sent == old(out.sent) + Emit(Settings(), pngSupported, old(handler).value)
    {
      if format == FormatPng && pngSupported {
        out.sent := out.sent + [ContentType("image/png")];
        if bgdTransparent {
          handler := Some(Draw(handler.value, [AlphaBlending(false)]).(saveAlpha := true));
        }
        out.sent := out.sent + [Png(handler.value)];
      } else {
        out.sent := out.sent + [ContentType("image/jpeg")];
        out.sent := out.sent + [Jpeg(handler.value, 90)];
      }
    }

    /** writeText: one font picked for the whole text, the size factor from
        the text's length, then the glyph loop. */
    method WriteText(image: Canvas, text: string, color: Gd.Color, fontPick: int,
                     angles: seq<int>, sizes: seq<int>, rightEdges: seq<int>) returns (drawn: Canvas)
      requires height >= 0 && 0 <= fontPick < |fonts|
      requires |text| <= |angles| && |text| <= |sizes| && |text| <= |rightEdges|
      ensures drawn == Draw(image,
        GlyphRun(LetteringFor(text, color, fonts[fontPick], maxLength, height, angles, sizes, rightEdges), |text|))
    {
      var font := fonts[fontPick];
      var lettering := LetteringFor(text, color, font, maxLength, height, angles, sizes, rightEdges);
      drawn := Render(image, lettering);
    }

    /** resampledImage: a display-size image receives a smooth copy of the
        whole working image, the working image is released and the new one
        becomes the object's image. */
    method ResampledImage()
      requires handler.Some?
      modifies this`handler, this`released
      ensures handler == Some(Resample(Settings(), old(handler).value))
      ensures released == old(released) + [old(handler).value]
    {
      var resampled := CreateTrueColor(width, height);
      if bgdTransparent {
        resampled := Draw(resampled, [AlphaBlending(false)]);
      }
      resampled := Draw(resampled, [CopyResampled(0, 0, 0, 0, width, height,
                                                  width * ImageFactor, height * ImageFactor, handler.value)]);
      if bgdTransparent {
        resampled := Draw(resampled, [AlphaBlending(true)]);
      }
      assert resampled == Resample(Settings(), handler.value);
      Destroy();
      handler := Some(resampled);
    }

    /** getRandomString: the answer, of the drawn length, in lower-case letters. */
    method GetRandomString(length: int, picks: seq<int>) returns (str: string)
      requires RandIn(minLength, maxLength, length)
      requires Answer.Rounds(length) <= |picks|
      requires forall i :: 0 <= i < |picks| ==> Answer.IsLetterPick(picks[i])
      ensures |str| == Answer.Rounds(length)
      ensures 0 <= Max(minLength, maxLength) ==> RandIn(minLength, maxLength, |str|)
      ensures Answer.IsLowerWord(str)
      ensures str == Answer.Spell(picks[..|str|])
    {
      str := Answer.RandomString(minLength, maxLength, length, picks);
    }

    /** distortImage: the column sweep, then the row sweep, over the working image. */
    method DistortImage(image: Canvas, wave: Wave, xMultiplier: int, yMultiplier: int, xPhase: int, yPhase: int)
      returns (distorted: Canvas)
      requires 1 <= xMultiplier <= 3 && 1 <= yMultiplier <= 2
      requires 0 <= xPhase <= 100 && 0 <= yPhase <= 100
      ensures distorted == Draw(image, DistortionOf(Settings(), wave, xMultiplier, yMultiplier, xPhase, yPhase))
    {
      distorted := Distort(image, wave, width, height, period.x, period.y,
                           amplitude.x, amplitude.y, xMultiplier, yMultiplier, xPhase, yPhase);
    }

    /** addEffects: blur, emboss, pixelate, each when switched on, in that order;
        the pixelate call passes no block size. */
    method AddEffects(image: Canvas) returns (filtered: Canvas)
      ensures filtered == Draw(image, Effects(blur, emboss, pixelate))
    {
      filtered := image;
      if blur {
        filtered := Draw(filtered, [ApplyFilter(GaussianBlur, [])]);
      }
      if emboss {
        filtered := Draw(filtered, [ApplyFilter(Emboss, [])]);
      }
      if pixelate {
        filtered := Draw(filtered, [ApplyFilter(Pixelate, [])]);
      }
      assert filtered.trace == image.trace + Effects(blur, emboss, pixelate);
    }

    /** destroy: release the image if there is one; nothing otherwise. */
    method Destroy()
      modifies this`handler, this`released
      ensures handler == None
      ensures released == old(released) + (if old(handler).Some? then [old(handler).value] else [])
    {
      if handler.Some? {
        released := released + [handler.value];
        handler := None;
      }
    }

    method SetWidth(width: int)
      modifies this`width
      ensures this.width == width
    {
      this.width := width;
    }

    method SetHeight(height: int)
      modifies this`height
      ensures this.height == height
    {
      this.height := height;
    }

    method SetMinLength(minLength: int)
      modifies this`minLength
      ensures this.minLength == minLength
    {
      this.minLength := minLength;
    }

    method SetMaxLength(maxLength: int)
      modifies this`maxLength
      ensures this.maxLength == maxLength
    {
      this.maxLength := maxLength;
    }

    method SetBgdColor(bgdColor: string)
      modifies this`bgdColor
      ensures this.bgdColor == bgdColor
    {
      this.bgdColor := bgdColor;
    }

    method SetBgdTransparent(bgdTransparent: bool)
      modifies this`bgdTransparent
      ensures this.bgdTransparent == bgdTransparent
    {
      this.bgdTransparent := bgdTransparent;
    }

    method SetFgdColors(fgdColors: seq<string>)
      modifies this`fgdColors
      ensures this.fgdColors == fgdColors
    {
      this.fgdColors := fgdColors;
    }

    method SetMaxRotation(maxRotation: int)
      modifies this`maxRotation
      ensures this.maxRotation == maxRotation
    {
      this.maxRotation := maxRotation;
    }

    method SetPeriod(period: Pair)
      modifies this`period
      ensures this.period == period
    {
      this.period := period;
    }

    method SetAmplitude(amplitude: Pair)
      modifies this`amplitude
      ensures this.amplitude == amplitude
    {
      this.amplitude := amplitude;
    }

    method SetBlur(blur: bool)
      modifies this`blur
      ensures this.blur == blur
    {
      this.blur := blur;
    }

    method SetEmboss(emboss: bool)
      modifies this`emboss
      ensures this.emboss == emboss
    {
      this.emboss := emboss;
    }

    method SetPixelate(pixelate: bool)
      modifies this`pixelate
      ensures this.pixelate == pixelate
    {
      this.pixelate := pixelate;
    }

    method SetFormat(format: string)
      modifies this`format
      ensures this.format == format
    {
      this.format := format;
    }
  }
}
