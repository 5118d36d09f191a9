/** getRgbFromHex: a hexadecimal colour string to its red, green and blue components. */
module HexColor {
  import opened Php

  datatype Rgb = Rgb(r: int, g: int, b: int)

  /** Every '#' is removed. Three remaining characters are each read doubled
      ("F" as "FF"); anything else is read as the pairs at offsets 0, 2 and 4.
      There is no error case: hexdec skips what is not a hex digit and a pair
      past the end reads as 0, so every component stays a byte. */
  function RgbFromHex(hex: string): Rgb
  {
    ParseDigits(StripChar(hex, '#'))
  }

  /** The components read from the string once the '#'s are gone. */
  function ParseDigits(h: string): Rgb
  {
    if |h| == 3 then
      Rgb(HexDec(Substr(h, 0, 1) + Substr(h, 0, 1)),
          HexDec(Substr(h, 1, 1) + Substr(h, 1, 1)),
          HexDec(Substr(h, 2, 1) + Substr(h, 2, 1)))
    else
      Rgb(HexDec(Substr(h, 0, 2)), HexDec(Substr(h, 2, 2)), HexDec(Substr(h, 4, 2)))
  }

  /** At most two hex digits go into each component. */
  lemma TwoDigits(s: string)
    requires |s| <= 2
    ensures HexDec(s) <= 255
  {
    HexDecBound(s);
    assert Pow16(|s|) <= 256;
  }

  /** Whatever the string, every component is a byte. */
  lemma ComponentsAreBytes(hex: string)
    ensures var c := RgbFromHex(hex);
      0 <= c.r <= 255 && 0 <= c.g <= 255 && 0 <= c.b <= 255
  {
    var h := StripChar(hex, '#');
    if |h| == 3 {
      SubstrSpec(h, 0, 1);
      SubstrSpec(h, 1, 1);
      SubstrSpec(h, 2, 1);
      TwoDigits(Substr(h, 0, 1) + Substr(h, 0, 1));
      TwoDigits(Substr(h, 1, 1) + Substr(h, 1, 1));
      TwoDigits(Substr(h, 2, 1) + Substr(h, 2, 1));
    } else {
      SubstrSpec(h, 0, 2);
      SubstrSpec(h, 2, 2);
      SubstrSpec(h, 4, 2);
      TwoDigits(Substr(h, 0, 2));
      TwoDigits(Substr(h, 2, 2));
      TwoDigits(Substr(h, 4, 2));
    }
  }

  /** Six characters are read as three pairs. */
  lemma LongForm(h: string)
    requires |h| == 6
    ensures ParseDigits(h) == Rgb(HexDec(h[0..2]), HexDec(h[2..4]), HexDec(h[4..6]))
  {
    assert Substr(h, 0, 2) == h[0..2];
    assert Substr(h, 2, 2) == h[2..4];
    assert Substr(h, 4, 2) == h[4..6];
  }

  /** A '#' anywhere in the string changes nothing. */
  lemma HashIgnored(a: string, b: string)
    ensures RgbFromHex(a + "#" + b) == RgbFromHex(a + b)
  {
    StripCharBetween(a, b, '#');
  }

  /** A leading '#' followed by no other '#' leaves the digits to parse. */
  lemma LeadingHash(h: string)
    requires '#' !in h
    ensures RgbFromHex("#" + h) == ParseDigits(h)
  {
    StripCharAppend("#", h, '#');
    assert StripChar("#", '#') == [] by {
      assert "#"[1..] == [];
    }
    StripCharAbsent(h, '#');
    assert StripChar("#" + h, '#') == [] + h == h;
  }

  /** Three digits read as the six digits with each one doubled. */
  lemma ShortDigitsDouble(x: char, y: char, z: char)
    ensures ParseDigits([x, y, z]) == ParseDigits([x, x, y, y, z, z])
  {
    assert Substr([x, y, z], 0, 1) + Substr([x, y, z], 0, 1) == [x, x] == Substr([x, x, y, y, z, z], 0, 2);
    assert Substr([x, y, z], 1, 1) + Substr([x, y, z], 1, 1) == [y, y] == Substr([x, x, y, y, z, z], 2, 2);
    assert Substr([x, y, z], 2, 1) + Substr([x, y, z], 2, 1) == [z, z] == Substr([x, x, y, y, z, z], 4, 2);
  }

  /** The short form x y z reads as xx yy zz, whatever the three characters are. */
  lemma ShortFormDoubles(x: char, y: char, z: char)
    requires x != '#' && y != '#' && z != '#'
    ensures RgbFromHex([x, y, z]) == RgbFromHex([x, x, y, y, z, z])
  {
    StripCharAbsent([x, y, z], '#');
    StripCharAbsent([x, x, y, y, z, z], '#');
    ShortDigitsDouble(x, y, z);
  }

  /** The default background "#FFFFFF" is white. */
  lemma WhiteLongForm()
    ensures RgbFromHex("#FFFFFF") == Rgb(255, 255, 255)
  {
    var white := Rgb(255, 255, 255);
    assert HexOf(white) == "#FFFFFF" by {
      assert HexByte(255) == "FF";
    }
    RoundTrip(white);
  }

  /** White written short, "#FFF", reads as "#FFFFFF". */
  lemma WhiteShortForm()
    ensures RgbFromHex("#FFF") == RgbFromHex("#FFFFFF")
  {
    var f := 'F';
    var short, long := [f, f, f], [f, f, f, f, f, f];
    LeadingHash(short);
    LeadingHash(long);
    assert "#" + short == "#FFF" && "#" + long == "#FFFFFF";
    ShortDigitsDouble(f, f, f);
  }

  /** Not a colour, still parsed: "bad" is three hex digits, read doubled. */
  lemma BadIsParsed()
    ensures RgbFromHex("bad") == Rgb(187, 170, 221)
  {
    var h := "bad";
    StripCharAbsent(h, '#');
    assert Substr(h, 0, 1) + Substr(h, 0, 1) == ['b', 'b'];
    assert Substr(h, 1, 1) + Substr(h, 1, 1) == ['a', 'a'];
    assert Substr(h, 2, 1) + Substr(h, 2, 1) == ['d', 'd'];
    HexDecPair('b', 'b');
    HexDecPair('a', 'a');
    HexDecPair('d', 'd');
  }

  /** A single digit is not doubled: "#1" is read as the pairs "1", "" and "". */
  lemma OneDigitIsRed()
    ensures RgbFromHex("#1") == Rgb(1, 0, 0)
  {
    var h := "1";
    LeadingHash(h);
    assert "#" + h == "#1";
    assert Substr(h, 0, 2) == h && Substr(h, 2, 2) == "" && Substr(h, 4, 2) == "";
    assert HexDec(h) == 1 by {
      assert h[..0] == [];
    }
  }

  /** The upper-case hex digit for a value below 16. */
  function DigitChar(d: int): (c: char)
    requires 0 <= d < 16
    ensures IsHexDigit(c) && HexDigitValue(c) == d
  {
    if d < 10 then ('0' as int + d) as char else ('A' as int + d - 10) as char
  }

  /** A byte as two upper-case hex digits. */
  function HexByte(n: int): (s: string)
    requires 0 <= n <= 255
    ensures |s| == 2 && IsHexDigit(s[0]) && IsHexDigit(s[1])
    ensures 16 * HexDigitValue(s[0]) + HexDigitValue(s[1]) == n
  {
    [DigitChar(n / 16), DigitChar(n % 16)]
  }

  /** A colour written as "#RRGGBB". */
  function HexOf(c: Rgb): string
    requires 0 <= c.r <= 255 && 0 <= c.g <= 255 && 0 <= c.b <= 255
  {
    "#" + HexByte(c.r) + HexByte(c.g) + HexByte(c.b)
  }

  /** Three two-digit groups are read as one byte each. */
  lemma ParsePairs(r: string, g: string, b: string)
    requires |r| == 2 && |g| == 2 && |b| == 2
    requires IsHexDigit(r[0]) && IsHexDigit(r[1]) && IsHexDigit(g[0]) && IsHexDigit(g[1])
    requires IsHexDigit(b[0]) && IsHexDigit(b[1])
    ensures ParseDigits(r + g + b) == Rgb(16 * HexDigitValue(r[0]) + HexDigitValue(r[1]),
                                          16 * HexDigitValue(g[0]) + HexDigitValue(g[1]),
                                          16 * HexDigitValue(b[0]) + HexDigitValue(b[1]))
  {
    var body := r + g + b;
    LongForm(body);
    assert body[0..2] == r == [r[0], r[1]];
    assert body[2..4] == g == [g[0], g[1]];
    assert body[4..6] == b == [b[0], b[1]];
    HexDecPair(r[0], r[1]);
    HexDecPair(g[0], g[1]);
    HexDecPair(b[0], b[1]);
  }

  /** Parsing gives back every colour written in the long form. */
  lemma RoundTrip(c: Rgb)
    requires 0 <= c.r <= 255 && 0 <= c.g <= 255 && 0 <= c.b <= 255
    ensures RgbFromHex(HexOf(c)) == c
  {
    var r, g, b := HexByte(c.r), HexByte(c.g), HexByte(c.b);
    var body := r + g + b;
    assert HexOf(c) == "#" + body;
    assert '#' !in body by {
      assert forall i :: 0 <= i < |body| ==> IsHexDigit(body[i]);
    }
    LeadingHash(body);
    ParsePairs(r, g, b);
  }
}
