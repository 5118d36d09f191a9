/** distortImage: two sweeps of one-pixel strip copies that shift the image
    onto itself, first column by column, then row by row. */
module Distortion {
  import opened Gd
  import opened Constants

  /** The integer shift GD receives for strip i: sin(phase + i / axis) times the
      amplitude, computed in floating point and truncated by the call. It is
      given to the model as a function of (phase, i, axis, amplitude). */
  type Wave = (int, int, int, int) -> int

  /** The sine parameters of one sweep: phase (rand(0, 100)), axis
      (period times rand(1, k) times the image factor) and enlarged amplitude. */
  datatype Sweep = Sweep(phase: int, axis: int, amplitude: int)

  /** Column i copied one column to the left, shifted vertically. */
  function ColumnCopy(wave: Wave, s: Sweep, height: int, i: int): Op
  {
    Copy(i - 1, wave(s.phase, i, s.axis, s.amplitude), i, 0, 1, height)
  }

  /** Row i copied one row up, shifted horizontally. */
  function RowCopy(wave: Wave, s: Sweep, width: int, i: int): Op
  {
    Copy(wave(s.phase, i, s.axis, s.amplitude), i - 1, 0, i, width, 1)
  }

  /** The column copies for columns 0 .. n-1, in that order. */
  function ColumnSweep(wave: Wave, s: Sweep, height: int, n: nat): seq<Op>
  {
    if n == 0 then [] else ColumnSweep(wave, s, height, n - 1) + [ColumnCopy(wave, s, height, n - 1)]
  }

  /** The row copies for rows 0 .. n-1, in that order. */
  function RowSweep(wave: Wave, s: Sweep, width: int, n: nat): seq<Op>
  {
    if n == 0 then [] else RowSweep(wave, s, width, n - 1) + [RowCopy(wave, s, width, n - 1)]
  }

  /** The column sweep makes exactly n copies; the i-th takes the full-height,
      one-column strip at column i and puts it at column i - 1. */
  lemma {:induction false} ColumnSweepAt(wave: Wave, s: Sweep, height: int, n: nat, i: nat)
    requires i < n
    ensures |ColumnSweep(wave, s, height, n)| == n
    ensures var op := ColumnSweep(wave, s, height, n)[i];
      op.Copy? && op.srcX == i && op.dstX == i - 1 && op.srcY == 0 &&
      op.width == 1 && op.height == height && op.dstY == wave(s.phase, i, s.axis, s.amplitude)
  {
    if i < n - 1 {
      ColumnSweepAt(wave, s, height, n - 1, i);
    } else if n > 1 {
      ColumnSweepAt(wave, s, height, n - 1, 0);
    }
  }

  /** The row sweep makes exactly n copies; the i-th takes the full-width,
      one-row strip at row i and puts it at row i - 1. */
  lemma {:induction false} RowSweepAt(wave: Wave, s: Sweep, width: int, n: nat, i: nat)
    requires i < n
    ensures |RowSweep(wave, s, width, n)| == n
    ensures var op := RowSweep(wave, s, width, n)[i];
      op.Copy? && op.srcY == i && op.dstY == i - 1 && op.srcX == 0 &&
      op.width == width && op.height == 1 && op.dstX == wave(s.phase, i, s.axis, s.amplitude)
  {
    if i < n - 1 {
      RowSweepAt(wave, s, width, n - 1, i);
    } else if n > 1 {
      RowSweepAt(wave, s, width, n - 1, 0);
    }
  }

  /** The two sweeps of distortImage on a width x height working image. */
  function Sweeps(wave: Wave, sx: Sweep, sy: Sweep, width: int, height: int): seq<Op>
  {
    ColumnSweep(wave, sx, height, if width < 0 then 0 else width) +
    RowSweep(wave, sy, width, if height < 0 then 0 else height)
  }

  /** distortImage for a captcha of `width` x `height` display pixels, on the
      working image enlarged by the image factor:
      the horizontal axis is period.x times a multiplier in 1..3 times the image
      factor, the vertical one period.y times a multiplier in 1..2 times it; the
      two phases are draws in 0..100. Columns are copied left to right, then
      rows top to bottom, each strip after the previous one. */
  method Distort(canvas: Canvas, wave: Wave, width: int, height: int,
                 periodX: int, periodY: int, amplitudeX: int, amplitudeY: int,
                 xMultiplier: int, yMultiplier: int, xPhase: int, yPhase: int)
    returns (c: Canvas)
    requires 1 <= xMultiplier <= 3 && 1 <= yMultiplier <= 2
    requires 0 <= xPhase <= 100 && 0 <= yPhase <= 100
    ensures c == Draw(canvas, Sweeps(wave, Sweep(xPhase, periodX * xMultiplier * ImageFactor, amplitudeX * ImageFactor),
                                           Sweep(yPhase, periodY * yMultiplier * ImageFactor, amplitudeY * ImageFactor),
                                     width * ImageFactor, height * ImageFactor))
  {
    var xAxis := periodX * xMultiplier * ImageFactor;
    var yAxis := periodY * yMultiplier * ImageFactor;
    var sx := Sweep(xPhase, xAxis, amplitudeX * ImageFactor);
    var sy := Sweep(yPhase, yAxis, amplitudeY * ImageFactor);
    var w, h := width * ImageFactor, height * ImageFactor;

    c := canvas;
    var i := 0;
    while i < w
      invariant 0 <= i <= if w < 0 then 0 else w
      invariant c == Draw(canvas, ColumnSweep(wave, sx, h, i))
    {
      var op := Copy(i - 1, wave(xPhase, i, xAxis, amplitudeX * ImageFactor), i, 0, 1, h);
      c := Draw(c, [op]);
      assert canvas.trace + ColumnSweep(wave, sx, h, i) + [op] == canvas.trace + ColumnSweep(wave, sx, h, i + 1);
      i := i + 1;
    }
    ghost var afterColumns := c;
    assert afterColumns == Draw(canvas, ColumnSweep(wave, sx, h, if w < 0 then 0 else w));

    i := 0;
    while i < h
      invariant 0 <= i <= if h < 0 then 0 else h
      invariant c == Draw(afterColumns, RowSweep(wave, sy, w, i))
    {
      var op := Copy(wave(yPhase, i, yAxis, amplitudeY * ImageFactor), i - 1, 0, i, w, 1);
      c := Draw(c, [op]);
      assert afterColumns.trace + RowSweep(wave, sy, w, i) + [op] == afterColumns.trace + RowSweep(wave, sy, w, i + 1);
      i := i + 1;
    }
    DrawTwice(canvas, ColumnSweep(wave, sx, h, if w < 0 then 0 else w), RowSweep(wave, sy, w, if h < 0 then 0 else h));
  }
}
