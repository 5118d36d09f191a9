# CwsCaptcha in Dafny

CwsCaptcha is a PHP class that draws a CAPTCHA image with GD and stores its answer in the session. The answer is a random string of lower-case letters. Each letter is drawn in one randomly picked TrueType font, with a random size and angle. The image is then distorted by two sine-wave sweeps and optionally filtered: blur and emboss work, and the pixelate switch makes a call that GD refuses (see below). It is drawn three times larger than displayed, resampled down, and sent as PNG or JPEG. A later request calls `check($code)`, which compares the code with the stored answer, ignoring case.

The repository has two versions of the class, and both are modelled:

- `lib/Cws/CwsCaptcha.php` is the namespaced class. Its settings are private fields with setters, and its constructor sets the PNG format. It is modelled by `Cws.CwsCaptcha` in `cws.dfy`.
- `class.cws.captcha.php` is the older global class. Its settings are public fields. It has an `error` field, and `process` refuses to run when the debug class is missing. It is modelled by `Legacy.CwsCaptcha` in `legacy.dfy`.

The object's state is a Dafny `class` with the same fields:

- the settings;
- `handler`, the GD image the object holds, or `None`;
- `released`, the images handed to `imagedestroy`, in order;
- in the legacy class, also `error`.

`process` is a method that changes that state, the session (`Web.Session.vars`) and the response (`Web.Output.sent`). Its `ensures` gives the whole new state in terms of specification functions in `Pipeline`. The lemmas beside those functions say what the functions mean.

The pure parts are functions with lemmas about them:

- `HexColor`: colour parsing (`getRgbFromHex`);
- `Answer`: the answer alphabet and `check`;
- `Glyphs`: text layout (`writeText`);
- `Distortion`: the distortion sweeps (`distortImage`).

The loops of `getRandomString`, `writeText` and `distortImage` are methods with loop invariants, proved against those functions: `Answer.RandomString`, `Glyphs.Render` and `Distortion.Distort`.

How the outside world appears in the model:

- **GD.** An image (`Gd.Canvas`) is its size, its save-alpha flag and the list of drawing calls made on it (`Gd.Op`), each with its arguments. What the calls do to pixels is not modelled. `Gd.TakesEffect` says which calls GD carries out: a filter call that lacks an argument its filter needs is refused. `Gd.Effective` keeps the calls that are carried out.
- **Session and response.** The module `Web` (`web.dfy`) holds `$_SESSION` and what is sent to the client.
- **Randomness.** Every draw made by `rand`, `mt_rand` and `array_rand` is a parameter. `Pipeline.Draws` lists the draws in the order `process` makes them, and `Pipeline.Fits` requires each draw to lie in its range. `rand` takes its two bounds in either order (`Php.RandIn`). So a negative `maxRotation`, a reversed length range or a font whose `min_size` exceeds its `max_size` still gives draws, as it does in PHP.
- **Glyph widths.** The right edge that `imagettftext` reports for each glyph is also a parameter.
- **The sine offsets.** `sin(phase + i / axis) * amplitude` is computed in floating point and truncated by `imagecopy`. It is a parameter `Distortion.Wave`, applied to the integers it is computed from.
- **PNG support.** Whether `imagepng` exists is the parameter `pngSupported`.

The drawing stages of `process` (`CreateImage`, `WriteText`, `DistortImage`, `AddEffects`) take and return the image value. GD changes the image the handle refers to, never the handle field itself, so the stages do not change the object. `process` is written as:

- `Destroy`;
- `DrawCaptcha`: from creating the image to storing it in `handler`;
- `Display`: `ResampledImage`, `WriteImage`, `Destroy`.

These groups follow the order of the source lines.

Behaviour of the code worth knowing:

- **Colour parsing has no error case.** `getRgbFromHex` returns three numbers for any string. `"bad"` reads as (187, 170, 221) (`HexColor.BadIsParsed`), and `"#1"` as (1, 0, 0) (`HexColor.OneDigitIsRed`). Only a three-character string is read with doubled digits.
- **Settings are not validated.** What `process` assumes of its settings without checking them is a precondition: `Config.Runnable` and `Fits`. `Runnable` asks for a positive size and a non-empty colour list and font list. `Fits` asks that every random draw lie between the bounds it is drawn from.
- **The distortion offset is a float.** `sin(...)` times the amplitude is passed to `imagecopy` as it is, and PHP converts it to an integer coordinate by truncation.
- **The format is chosen up front.** PNG is sent exactly when the format is `"png"` and `imagepng` exists. Otherwise the image is JPEG at quality 90. A failed PNG encoding does not fall back to JPEG.
- **The pixelate switch does not pixelate.** `addEffects` calls `imagefilter(handler, IMG_FILTER_PIXELATE)` without the block size that filter needs. On PHP 5 and 7 the call warns, returns false and leaves the image as it was. On PHP 8 it throws `ArgumentCountError`, so `process` stops after the session write and sends nothing. The model records the call with its empty argument list (`Pipeline.Effects`). `Pipeline.PixelateRefused` and `Pipeline.PixelateNeverApplies` show that GD refuses it and that only blur and emboss change the image.
- **Save-alpha is set when writing.** `resampledImage` does not switch save-alpha on for the new image. `writeImage`'s PNG branch does, for a transparent background only.

## Model

| member | source | states |
|---|---|---|
| Php.StripCharSpec | lib/Cws/CwsCaptcha.php:500 | `str_replace('#', '', ...)` leaves no `#`, adds no character and never lengthens the string |
| Php.StripCharAppend | lib/Cws/CwsCaptcha.php:500 | removing a character works piecewise over a concatenation |
| Php.StripCharBetween | lib/Cws/CwsCaptcha.php:500 | a removed character between two parts makes no difference to the result |
| Php.StripCharAbsent | lib/Cws/CwsCaptcha.php:500 | a string without the character comes back unchanged |
| Php.SubstrSpec | lib/Cws/CwsCaptcha.php:503-509 | `substr` gives at most `length` characters, none past the end, each equal to the character at `start + i` |
| Php.HexDigitValue | lib/Cws/CwsCaptcha.php:503-509 | a hex digit is worth less than 16 |
| Php.Pow16 | lib/Cws/CwsCaptcha.php:503-509 | powers of 16 are positive |
| Php.HexDecBound | lib/Cws/CwsCaptcha.php:503-509 | `hexdec` of n characters is below 16^n |
| Php.HexDecPair | lib/Cws/CwsCaptcha.php:507-509 | `hexdec` of two digits is 16 times the high digit plus the low digit |
| Php.Round | lib/Cws/CwsCaptcha.php:358 | `round` gives the nearest integer, halves away from zero |
| HexColor.TwoDigits | lib/Cws/CwsCaptcha.php:503-509 | a group of at most two characters reads as at most 255 |
| HexColor.ComponentsAreBytes | lib/Cws/CwsCaptcha.php:496-515 | for every input string, each of r, g, b lies in 0..255 |
| HexColor.LongForm | lib/Cws/CwsCaptcha.php:506-510 | six characters are read as the pairs 0-1, 2-3, 4-5 |
| HexColor.HashIgnored | lib/Cws/CwsCaptcha.php:500 | a `#` anywhere in the input does not change the colour |
| HexColor.LeadingHash | lib/Cws/CwsCaptcha.php:500-510 | with one leading `#`, the rest of the string is what gets parsed |
| HexColor.ShortDigitsDouble | class.cws.captcha.php:525-528 | three characters parse exactly as the six characters with each one doubled |
| HexColor.ShortFormDoubles | class.cws.captcha.php:523-533 | a `#`-free `xyz` gives the same colour as `xxyyzz` |
| HexColor.WhiteLongForm | class.cws.captcha.php:96 | the default background `#FFFFFF` is (255, 255, 255) |
| HexColor.WhiteShortForm | class.cws.captcha.php:523-533 | `#FFF` is the same colour as `#FFFFFF` |
| HexColor.BadIsParsed | class.cws.captcha.php:518-538 | a string that is not a colour still parses: `bad` is (187, 170, 221), with no error |
| HexColor.OneDigitIsRed | class.cws.captcha.php:529-533 | a one-digit string is not doubled: `#1` is (1, 0, 0) |
| HexColor.DigitChar | class.cws.captcha.php:530-532 | every value below 16 has a hex digit that reads back as that value |
| HexColor.HexByte | class.cws.captcha.php:530-532 | every byte has a two-digit spelling that `hexdec` reads back as that byte |
| HexColor.ParsePairs | class.cws.captcha.php:529-533 | three two-digit groups parse to their three byte values |
| HexColor.RoundTrip | class.cws.captcha.php:518-538 | parsing `#RRGGBB` gives back every colour with byte components |
| Answer.RandomString | lib/Cws/CwsCaptcha.php:408-425 | the answer has one letter per loop round, each the alphabet letter its pick selects. It is lower-case, and its length is the drawn length, or 0 for a negative draw. When either bound is not negative, that length lies between minLength and maxLength, in either order: a negative draw gives the empty string |
| Answer.PickOf | lib/Cws/CwsCaptcha.php:413-419 | every lower-case letter is selected by some pick in 0..25 |
| Answer.EveryWordDrawable | lib/Cws/CwsCaptcha.php:408-425 | every lower-case word whose length lies between the two length bounds (in either order) is the answer for some sequence of picks |
| Answer.Check | lib/Cws/CwsCaptcha.php:279-282 | no stored answer means reject, and an accepted code has the stored answer's length |
| Answer.CheckAcceptsCaseVariants | lib/Cws/CwsCaptcha.php:279-282 | with a lower-case answer stored, `check` accepts a code if and only if it is the answer with some letters in capitals |
| Answer.CheckIgnoresCase | class.cws.captcha.php:299-302 | two codes equal up to case get the same verdict |
| Answer.CheckExamples | class.cws.captcha.php:299-302 | stored `abcxyz` accepts `ABCXYZ` and rejects `abcxy`; an empty session rejects every code |
| Glyphs.FontSizeFactor | lib/Cws/CwsCaptcha.php:356 | the size factor is at least 1 if and only if the text is no longer than maxLength, and exactly 1 if and only if it has maxLength letters |
| Glyphs.Baseline | lib/Cws/CwsCaptcha.php:358 | the baseline is within half a pixel of 81/40 of the height (27/40 times the image factor 3) |
| Glyphs.DefaultBaseline | class.cws.captcha.php:380 | at the default height 60 the baseline is 122 |
| Glyphs.GlyphRun | lib/Cws/CwsCaptcha.php:360-372 | n rounds of the loop make n `imagettftext` calls |
| Glyphs.GlyphRunAt | lib/Cws/CwsCaptcha.php:360-372 | call k draws character k at the pen position for k, in the font's file, colour and baseline, with the k-th angle |
| Glyphs.GlyphSizeBounds | lib/Cws/CwsCaptcha.php:362 | for a size drawn between the font's bounds (in either order) and a non-negative size factor, the glyph's size lies between the smaller and the larger bound, each times the image factor and the size factor. With a factor of at least 1 and a smaller bound that is not negative, it is never below the smaller bound times the image factor |
| Glyphs.Render | class.cws.captcha.php:382-394 | the glyph loop draws exactly the glyph run for the whole text, in order |
| Distortion.ColumnSweepAt | lib/Cws/CwsCaptcha.php:436-441 | the column sweep makes one copy per column. Copy i moves the full-height strip at column i to column i - 1, shifted by the wave |
| Distortion.RowSweepAt | lib/Cws/CwsCaptcha.php:444-449 | the row sweep makes one copy per row. Copy i moves the full-width strip at row i to row i - 1, shifted by the wave |
| Distortion.Distort | class.cws.captcha.php:453-473 | the two loops draw the column sweep and then the row sweep over the enlarged image, with axes period times multiplier times 3 |
| Gd.DrawTwice | lib/Cws/CwsCaptcha.php:259-261 | drawing in two stages is drawing all the calls in order |
| Web.Session.constructor | lib/Cws/CwsCaptcha.php:256 | a new session holds no variables |
| Web.Output.constructor | lib/Cws/CwsCaptcha.php:287-308 | a new response has sent nothing |
| Pipeline.AnswerShape | lib/Cws/CwsCaptcha.php:252 | the answer `process` draws is lower-case and has the drawn length, which lies between minLength and maxLength (in either order) when at least one of them is not negative |
| Pipeline.CheckAfterProcess | lib/Cws/CwsCaptcha.php:256 | after `process` has stored its answer, `check` accepts a code if and only if it is that answer up to case |
| Pipeline.BackgroundPrecedence | lib/Cws/CwsCaptcha.php:223-244 | a transparent background ignores bgdColor and turns blending off, fills with the transparent colour and keeps alpha. Otherwise a non-empty colour is filled opaque, and an empty one leaves the image untouched |
| Pipeline.LetteringOf | lib/Cws/CwsCaptcha.php:252-253 | the text `process` writes can be drawn: one angle, size and edge per letter, and a picked font |
| Pipeline.GlyphFacts | lib/Cws/CwsCaptcha.php:246-253 | glyph k of the answer draws letter k in the picked colour and the one picked font, at an angle between -maxRotation and maxRotation, on the baseline, at the pen position after the previous glyph |
| Pipeline.GlyphSize | lib/Cws/CwsCaptcha.php:356-362 | glyph k's size lies between the font's smaller and larger bound, times the image factor and the size factor of the answer's length (when that factor is not negative). For an answer no longer than maxLength and a smaller bound that is not negative, it is at least the smaller bound times the image factor |
| Pipeline.EffectsOrder | lib/Cws/CwsCaptcha.php:455-476 | only filter calls are made, each with the filter constant alone, exactly when its switch is on, in the order blur, emboss, pixelate; none at all when all are off |
| Pipeline.PixelateRefused | lib/Cws/CwsCaptcha.php:472-475 | of the filter calls made, GD refuses exactly the pixelate call, which lacks its block size |
| Pipeline.PixelateNeverApplies | lib/Cws/CwsCaptcha.php:455-476 | whatever the pixelate switch says, the calls that change the image are the blur and emboss calls alone, as with pixelate off |
| Pipeline.ResampleShape | lib/Cws/CwsCaptcha.php:378-401 | the resampled image has the display size and no saved alpha. It holds the resampled copy of the whole working image, and restores blending last when the background is transparent |
| Pipeline.EmitShape | lib/Cws/CwsCaptcha.php:287-308 | two things are sent: the content type, then the image in that format. PNG is used exactly when the format is `png` and PNG is supported; otherwise JPEG at quality 90, unchanged. A transparent PNG keeps alpha |
| Cws.CwsCaptcha.constructor | lib/Cws/CwsCaptcha.php:204-208 | a new captcha has the default settings, PNG format, no image and nothing released |
| Cws.CwsCaptcha.Process | lib/Cws/CwsCaptcha.php:213-270 | settings are unchanged, no image is held, the old image (if any), the drawn image and the sent image are released in that order, the session holds exactly the drawn answer under `cwscaptcha`, and the response is the encoded display image |
| Cws.CwsCaptcha.DrawCaptcha | lib/Cws/CwsCaptcha.php:219-261 | the object holds the working image with background, text, distortion and effects, and the session holds the answer |
| Cws.CwsCaptcha.Display | lib/Cws/CwsCaptcha.php:263-269 | the held image is resampled, sent and released, together with the image sent |
| Cws.CwsCaptcha.CreateImage | lib/Cws/CwsCaptcha.php:219-244 | the blank image is three times the display size with the background the settings call for |
| Cws.CwsCaptcha.WriteImage | lib/Cws/CwsCaptcha.php:287-308 | the response gains the content type and the encoded image, and the held image is the one sent |
| Cws.CwsCaptcha.WriteText | lib/Cws/CwsCaptcha.php:348-373 | the image gains exactly the glyph run of the text in the picked font |
| Cws.CwsCaptcha.ResampledImage | lib/Cws/CwsCaptcha.php:378-401 | the object holds the resampled image, and the working image is released |
| Cws.CwsCaptcha.GetRandomString | lib/Cws/CwsCaptcha.php:408-425 | the answer is lower-case, spelled by the picks, of the drawn length, which may come from a reversed range |
| Cws.CwsCaptcha.DistortImage | lib/Cws/CwsCaptcha.php:430-450 | the image gains exactly the two distortion sweeps for the settings |
| Cws.CwsCaptcha.AddEffects | lib/Cws/CwsCaptcha.php:455-476 | the image gains exactly the switched-on filter calls, in order, the pixelate call without a block size |
| Cws.CwsCaptcha.Destroy | lib/Cws/CwsCaptcha.php:481-487 | afterwards no image is held; a held image is released, and nothing is released otherwise |
| Cws.CwsCaptcha.SetWidth | lib/Cws/CwsCaptcha.php:537-540 | width is set and nothing else changes |
| Cws.CwsCaptcha.SetHeight | lib/Cws/CwsCaptcha.php:558-561 | height is set and nothing else changes |
| Cws.CwsCaptcha.SetMinLength | lib/Cws/CwsCaptcha.php:579-582 | minLength is set and nothing else changes |
| Cws.CwsCaptcha.SetMaxLength | lib/Cws/CwsCaptcha.php:600-603 | maxLength is set and nothing else changes |
| Cws.CwsCaptcha.SetBgdColor | lib/Cws/CwsCaptcha.php:621-624 | bgdColor is set and nothing else changes |
| Cws.CwsCaptcha.SetBgdTransparent | lib/Cws/CwsCaptcha.php:643-646 | bgdTransparent is set and nothing else changes |
| Cws.CwsCaptcha.SetFgdColors | lib/Cws/CwsCaptcha.php:664-667 | fgdColors is set and nothing else changes |
| Cws.CwsCaptcha.SetMaxRotation | lib/Cws/CwsCaptcha.php:695-698 | maxRotation is set and nothing else changes |
| Cws.CwsCaptcha.SetPeriod | lib/Cws/CwsCaptcha.php:716-719 | period is set and nothing else changes |
| Cws.CwsCaptcha.SetAmplitude | lib/Cws/CwsCaptcha.php:737-740 | amplitude is set and nothing else changes |
| Cws.CwsCaptcha.SetBlur | lib/Cws/CwsCaptcha.php:758-761 | blur is set and nothing else changes |
| Cws.CwsCaptcha.SetEmboss | lib/Cws/CwsCaptcha.php:779-782 | emboss is set and nothing else changes |
| Cws.CwsCaptcha.SetPixelate | lib/Cws/CwsCaptcha.php:800-803 | pixelate is set and nothing else changes |
| Cws.CwsCaptcha.SetPngFormat | lib/Cws/CwsCaptcha.php:818-821 | the format becomes `png` and nothing else changes |
| Cws.CwsCaptcha.SetJpegFormat | lib/Cws/CwsCaptcha.php:826-829 | the format becomes `jpeg` and nothing else changes |
| Cws.CwsCaptcha.SetFormat | lib/Cws/CwsCaptcha.php:837-840 | format is set and nothing else changes |
| Legacy.CwsCaptcha.constructor | class.cws.captcha.php:72-219 | a new captcha has the field defaults, PNG format, no image, nothing released and no error |
| Legacy.CwsCaptcha.Process | class.cws.captcha.php:224-292 | without the debug class: the error is the "CwsDebug is required" message, that message is echoed, and nothing else changes. With it: the same outcome as the namespaced `process`, and the error is untouched |
| Legacy.CwsCaptcha.Run | class.cws.captcha.php:239-291 | releases, draws, stores the answer, resamples, sends and releases, as in the namespaced `process` |
| Legacy.CwsCaptcha.DrawCaptcha | class.cws.captcha.php:241-283 | the object holds the drawn working image, and the session holds the answer |
| Legacy.CwsCaptcha.Display | class.cws.captcha.php:285-291 | the held image is resampled, sent and released |
| Legacy.CwsCaptcha.CreateImage | class.cws.captcha.php:241-266 | the blank enlarged image with the background the settings call for |
| Legacy.CwsCaptcha.WriteImage | class.cws.captcha.php:307-329 | the response gains the content type and the encoded image |
| Legacy.CwsCaptcha.WriteText | class.cws.captcha.php:369-395 | the image gains exactly the glyph run of the text |
| Legacy.CwsCaptcha.ResampledImage | class.cws.captcha.php:400-424 | the object holds the resampled image, and the working image is released |
| Legacy.CwsCaptcha.GetRandomString | class.cws.captcha.php:430-448 | the answer is lower-case, spelled by the picks, of the drawn length, which may come from a reversed range |
| Legacy.CwsCaptcha.DistortImage | class.cws.captcha.php:453-473 | the image gains exactly the two distortion sweeps |
| Legacy.CwsCaptcha.AddEffects | class.cws.captcha.php:478-500 | the image gains exactly the switched-on filter calls, in order, the pixelate call without a block size |
| Legacy.CwsCaptcha.Destroy | class.cws.captcha.php:505-511 | no image is held afterwards, and a held image is released |
| Legacy.CwsCaptcha.SetWidth | class.cws.captcha.php:581-583 | width is set and nothing else changes |
| Legacy.CwsCaptcha.SetHeight | class.cws.captcha.php:598-600 | height is set and nothing else changes |
| Legacy.CwsCaptcha.SetMinLength | class.cws.captcha.php:615-617 | minLength is set and nothing else changes |
| Legacy.CwsCaptcha.SetMaxLength | class.cws.captcha.php:632-634 | maxLength is set and nothing else changes |
| Legacy.CwsCaptcha.SetBgdColor | class.cws.captcha.php:649-651 | bgdColor is set and nothing else changes |
| Legacy.CwsCaptcha.SetBgdTransparent | class.cws.captcha.php:667-669 | bgdTransparent is set and nothing else changes |
| Legacy.CwsCaptcha.SetFgdColors | class.cws.captcha.php:684-686 | fgdColors is set and nothing else changes |
| Legacy.CwsCaptcha.SetMaxRotation | class.cws.captcha.php:709-711 | maxRotation is set and nothing else changes |
| Legacy.CwsCaptcha.SetPeriod | class.cws.captcha.php:726-728 | period is set and nothing else changes |
| Legacy.CwsCaptcha.SetAmplitude | class.cws.captcha.php:743-745 | amplitude is set and nothing else changes |
| Legacy.CwsCaptcha.SetBlur | class.cws.captcha.php:760-762 | blur is set and nothing else changes |
| Legacy.CwsCaptcha.SetEmboss | class.cws.captcha.php:777-779 | emboss is set and nothing else changes |
| Legacy.CwsCaptcha.SetPixelate | class.cws.captcha.php:794-796 | pixelate is set and nothing else changes |
| Legacy.CwsCaptcha.SetFormat | class.cws.captcha.php:811-813 | format is set and nothing else changes |

## Left out

- Getters (`getWidth` and the rest, and the legacy `getError`) return a field as it is. Dafny code reads the field directly.
- Debug output, through `CwsDebug` (`titleH2`, `labelValue`, `simple`), is not modelled. The legacy debug settings (`setDebugVerbose`, `setDebugMode`, `debugFilePath` and the rest) only configure that output and are left out too. The namespaced constructor's `CwsDebug` argument is dropped.
- `writeHeaders` and its cache-control headers are HTTP I/O. Only the `Content-type` header is modelled.
- GD's effect on pixels is not modelled. Text, filters and resampling are recorded as the calls made, with their arguments. Antialiasing happens inside the TrueType rasteriser behind `imagettftext` and has no call of its own.
- Pipeline.Effects: on PHP 8 the pixelate call throws `ArgumentCountError`, which aborts `process` after the session write, with nothing sent and no image released. The model follows PHP 5 and 7, where the call is refused and `process` goes on. So with pixelate on, `Process`'s promise of a complete response holds for PHP 5 and 7 only.
- `sin` and the floating-point product in `distortImage` are not computed. They enter as the `Wave` parameter, so a period of 0, which would be a division by zero in PHP, is not modelled either.
- `rand`, `mt_rand`, `array_rand` and the `mt_srand(hexdec(uniqid()))` reseeding in `getRandomString` are not modelled. Their results are the `Draws` parameter.
- The font file path (`dirname(__FILE__)` plus the fonts directory) is not modelled. A glyph records the font's file name only.
- PHP floats are modelled as exact reals: the font size factor, the glyph size and the pen position.
- Strings are sequences of characters. Multibyte strings and `strtolower` beyond ASCII are not modelled.
- Legacy.CwsCaptcha: its settings are public PHP fields that callers may assign directly. Dafny fields are public too, so the model needs no extra member for this.
- Cws.CwsCaptcha.SetFormat is private in the namespaced source. It is an ordinary method here; only `SetPngFormat` and `SetJpegFormat` call it there.
- The namespaced class's `error` field is never assigned, so `getError` always returns null there; the field is left out of `Cws.CwsCaptcha`.
- Cws.CwsCaptcha.Process requires `Runnable` and `Fits` because the source never checks its settings. With an empty colour or font list, or a non-positive size, PHP itself fails, and that failure is not modelled. Legacy.CwsCaptcha.Process has the same preconditions when the debug class is present.
- Session start, the demo pages and the fonts shipped with the library are outside the class.
