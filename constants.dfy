/** The class constants both versions of the captcha define. */
module Constants {
  /** Font size factor, in hundredths per letter short of the maximum length. */
  const FontFactor: int := 9
  /** The working image is this many times the displayed size in each direction. */
  const ImageFactor: int := 3
  /** The session key the answer is stored under. */
  const SessionVar: string := "cwscaptcha"
  /** The two image formats. */
  const FormatPng: string := "png"
  const FormatJpeg: string := "jpeg"
}
