/** The PHP built-ins the captcha relies on, with the behaviour PHP gives them
    on the inputs the captcha passes. Strings are sequences of characters; the
    captcha only ever handles ASCII text. */
module Php {

  /** str_replace(c, '', s): every occurrence of `c` removed, the rest kept in order. */
  function StripChar(s: string, c: char): string
  {
    if s == [] then []
    else (if s[0] == c then [] else [s[0]]) + StripChar(s[1..], c)
  }

  /** No `c` is left, nothing is added and the string does not grow. */
  lemma {:induction false} StripCharSpec(s: string, c: char)
    ensures c !in StripChar(s, c)
    ensures |StripChar(s, c)| <= |s|
    ensures forall x :: x in StripChar(s, c) ==> x in s
  {
    if s != [] {
      StripCharSpec(s[1..], c);
      assert forall x :: x in s[1..] ==> x in s;
    }
  }

  /** Removing a character works piecewise on a concatenation. */
  lemma {:induction false} StripCharAppend(a: string, b: string, c: char)
    ensures StripChar(a + b, c) == StripChar(a, c) + StripChar(b, c)
  {
    if a != [] {
      assert (a + b)[1..] == a[1..] + b;
      StripCharAppend(a[1..], b, c);
    } else {
      assert a + b == b;
    }
  }

  /** An occurrence of `c` between two parts makes no difference. */
  lemma StripCharBetween(a: string, b: string, c: char)
    ensures StripChar(a + [c] + b, c) == StripChar(a + b, c)
  {
    StripCharAppend(a + [c], b, c);
    StripCharAppend(a, [c], c);
    StripCharAppend(a, b, c);
    assert StripChar([c], c) == [] by {
      assert [c][1..] == [];
    }
    calc {
      StripChar(a + [c] + b, c);
      StripChar(a + [c], c) + StripChar(b, c);
      StripChar(a, c) + [] + StripChar(b, c);
      { assert StripChar(a, c) + [] == StripChar(a, c); }
      StripChar(a + b, c);
    }
  }

  /** A string without `c` is left as it is. */
  lemma {:induction false} StripCharAbsent(s: string, c: char)
    requires c !in s
    ensures StripChar(s, c) == s
  {
    if s != [] {
      StripCharAbsent(s[1..], c);
    }
  }

  function Min(a: int, b: int): int { if a <= b then a else b }

  function Max(a: int, b: int): int { if a <= b then b else a }

  /** x is a possible result of rand(lo, hi): PHP's rand accepts its bounds in
      either order and draws between them, both included. */
  predicate RandIn(lo: int, hi: int, x: int)
  {
    Min(lo, hi) <= x <= Max(lo, hi)
  }

  /** substr(s, start, length) for non-negative arguments: the part of
      s[start..start+length] that lies inside `s`, "" when `start` is past the end. */
  function Substr(s: string, start: nat, length: nat): string
  {
    if start >= |s| then "" else s[start..Min(start + length, |s|)]
  }

  /** The part is at most `length` long, empty from the end of `s` on, and
      agrees with `s` from `start`. */
  lemma SubstrSpec(s: string, start: nat, length: nat)
    ensures |Substr(s, start, length)| == if start <= |s| then Min(length, |s| - start) else 0
    ensures forall i :: 0 <= i < |Substr(s, start, length)| ==> Substr(s, start, length)[i] == s[start + i]
  {
  }

  predicate IsHexDigit(c: char)
  {
    '0' <= c <= '9' || 'a' <= c <= 'f' || 'A' <= c <= 'F'
  }

  function HexDigitValue(c: char): (v: nat)
    requires IsHexDigit(c)
    ensures v < 16
  {
    if '0' <= c <= '9' then c as int - '0' as int
    else if 'a' <= c <= 'f' then c as int - 'a' as int + 10
    else c as int - 'A' as int + 10
  }

  function Pow16(n: nat): (p: nat)
    ensures p >= 1
  {
    if n == 0 then 1 else 16 * Pow16(n - 1)
  }

  /** hexdec(s): the hexadecimal number spelled by the hex digits of `s`, read
      most significant first; every other character is skipped, so the empty
      string and a string without digits give 0. */
  function HexDec(s: string): nat
  {
    if s == [] then 0
    else if IsHexDigit(s[|s| - 1]) then HexDec(s[..|s| - 1]) * 16 + HexDigitValue(s[|s| - 1])
    else HexDec(s[..|s| - 1])
  }

  /** n characters never read as more than n hex digits can hold. */
  lemma {:induction false} HexDecBound(s: string)
    ensures HexDec(s) < Pow16(|s|)
  {
    if s != [] {
      HexDecBound(s[..|s| - 1]);
    }
  }

  /** Two hex digits read as one byte, high digit first. */
  lemma HexDecPair(hi: char, lo: char)
    requires IsHexDigit(hi) && IsHexDigit(lo)
    ensures HexDec([hi, lo]) == 16 * HexDigitValue(hi) + HexDigitValue(lo)
  {
    assert [hi, lo][..1] == [hi];
    assert [hi][..0] == [];
    assert HexDec([hi]) == HexDigitValue(hi);
  }

  /** strtolower for one character: the ASCII capitals A-Z map to a-z. */
  function LowerChar(c: char): char
  {
    if 'A' <= c <= 'Z' then (c as int + 32) as char else c
  }

  /** The capital of a lower-case ASCII letter. */
  function UpperChar(c: char): char
  {
    if 'a' <= c <= 'z' then (c as int - 32) as char else c
  }

  /** strtolower(s), character by character. */
  function StrToLower(s: string): string
  {
    seq(|s|, i requires 0 <= i < |s| => LowerChar(s[i]))
  }

  /** empty($s) on a string: true for "" and for "0". */
  predicate Empty(s: string)
  {
    s == "" || s == "0"
  }

  /** round($x) with no precision: the nearest integer, halves rounded away from zero. */
  function Round(x: real): (r: int)
    ensures x >= 0.0 ==> x - 0.5 < r as real <= x + 0.5
    ensures x < 0.0 ==> x - 0.5 <= r as real < x + 0.5
  {
    if x >= 0.0 then (x + 0.5).Floor else -((0.5 - x).Floor)
  }
}
