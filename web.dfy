/** What the captcha touches outside itself: the session array and the response. */
module Web {
  import opened Gd

  /** One thing sent to the client, in order: a Content-type header, an
      encoded image (imagepng / imagejpeg with its quality), or echoed text. */
  datatype Emission =
    | ContentType(mime: string)
    | Png(image: Canvas)
    | Jpeg(image: Canvas, quality: int)
    | Echo(text: string)

  /** $_SESSION. */
  class Session {
    var vars: map<string, string>

    constructor ()
      ensures vars == map[]
    {
      vars := map[];
    }
  }

  /** The response: everything sent to the client, in order. */
  class Output {
    var sent: seq<Emission>

    constructor ()
      ensures sent == []
    {
      sent := [];
    }
  }
}
