/** The GD image library as the captcha sees it. An image is a record of its
    size, its "save alpha" flag and the drawing calls made on it, in order;
    what those calls do to the pixels is GD's business and is not modelled. */
module Gd {

  datatype Option<T> = None | Some(value: T)

  /** A colour as imagecolorallocate / imagecolorallocatealpha receive it:
      alpha 0 is opaque, 127 fully transparent. */
  datatype Color = Color(red: int, green: int, blue: int, alpha: int)

  /** The imagefilter kinds the captcha uses. */
  datatype Filter = GaussianBlur | Emboss | Pixelate

  /** How many arguments imagefilter needs after the filter constant: the
      pixelate filter needs its block size, blur and emboss need none. */
  function RequiredArgs(f: Filter): nat
  {
    match f
    case Pixelate => 1
    case GaussianBlur => 0
    case Emboss => 0
  }

  /** One drawing call on an image. */
  datatype Op =
    | AlphaBlending(on: bool)                                   // imagealphablending
    | Fill(x: int, y: int, color: Color)                        // imagefill
    | Glyph(size: real, angle: int, penX: real, penY: int,
            color: Color, fontFile: string, text: string)       // imagettftext
    | Copy(dstX: int, dstY: int, srcX: int, srcY: int,
           width: int, height: int)                             // imagecopy of the image onto itself
    | ApplyFilter(filter: Filter, args: seq<int>)               // imagefilter, with the arguments after the filter
    | CopyResampled(dstX: int, dstY: int, srcX: int, srcY: int,
                    dstW: int, dstH: int, srcW: int, srcH: int,
                    source: Canvas)                             // imagecopyresampled from another image

  /** An image handle's state: its size, whether imagesavealpha was switched
      on, and every drawing call made on it since imagecreatetruecolor. */
  datatype Canvas = Canvas(width: int, height: int, saveAlpha: bool, trace: seq<Op>)

  /** imagecreatetruecolor(width, height): a fresh image nothing has been drawn on. */
  function CreateTrueColor(width: int, height: int): Canvas
  {
    Canvas(width, height, false, [])
  }

  /** The image with more drawing calls made on it. */
  function Draw(c: Canvas, ops: seq<Op>): Canvas
  {
    c.(trace := c.trace + ops)
  }

  /** Whether GD carries out a call. A filter call that lacks an argument its
      filter needs is refused: imagefilter fails and leaves the image as it was. */
  predicate TakesEffect(op: Op)
  {
    op.ApplyFilter? ==> |op.args| >= RequiredArgs(op.filter)
  }

  /** The calls of a trace that change the image, in order. */
  function Effective(ops: seq<Op>): (r: seq<Op>)
    ensures |r| <= |ops|
  {
    if ops == [] then []
    else (if TakesEffect(ops[0]) then [ops[0]] else []) + Effective(ops[1..])
  }

  /** A call is among the effective ones exactly when it was made and GD
      carries it out. */
  lemma {:induction false} EffectiveMembers(ops: seq<Op>)
    ensures forall op :: op in Effective(ops) <==> op in ops && TakesEffect(op)
  {
    if ops != [] {
      EffectiveMembers(ops[1..]);
      assert ops == [ops[0]] + ops[1..];
    }
  }

  /** A single call is kept exactly when GD carries it out. */
  lemma EffectiveSingle(op: Op)
    ensures Effective([op]) == if TakesEffect(op) then [op] else []
  {
    assert [op][1..] == [];
  }

  /** Keeping the effective calls works piecewise over a concatenation. */
  lemma {:induction false} EffectiveAppend(first: seq<Op>, second: seq<Op>)
    ensures Effective(first + second) == Effective(first) + Effective(second)
  {
    if first != [] {
      assert (first + second)[1..] == first[1..] + second;
      EffectiveAppend(first[1..], second);
    } else {
      assert first + second == second;
    }
  }

  /** Drawing in two goes is drawing all the calls in order. */
  lemma DrawTwice(c: Canvas, first: seq<Op>, second: seq<Op>)
    ensures Draw(Draw(c, first), second) == Draw(c, first + second)
  {
  }
}
