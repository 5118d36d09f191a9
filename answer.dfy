/** The captcha's answer: getRandomString makes it, the session keeps it and
    the static check compares a user's input with it. */
module Answer {
  import opened Php
  import opened Constants

  /** The alphabet answers are drawn from. */
  const Letters: string := "abcdefghijklmnopqrstuvwxyz"

  predicate IsLowerLetter(c: char)
  {
    'a' <= c <= 'z'
  }

  predicate IsLowerWord(s: string)
  {
    forall i :: 0 <= i < |s| ==> IsLowerLetter(s[i])
  }

  /** A draw of mt_rand(0, 25): an index into the alphabet. */
  predicate IsLetterPick(k: int)
  {
    0 <= k < |Letters|
  }

  /** The letter each pick selects, in order. */
  function Spell(picks: seq<int>): string
    requires forall i :: 0 <= i < |picks| ==> IsLetterPick(picks[i])
  {
    seq(|picks|, i requires 0 <= i < |picks| && IsLetterPick(picks[i]) => Letters[picks[i]])
  }

  /** Number of loop rounds for a drawn length: a for loop bounded by a
      negative length does not run. */
  function Rounds(length: int): nat
  {
    if length < 0 then 0 else length
  }

  /** getRandomString: `length` is the draw of rand(minLength, maxLength) and
      picks[i] the draw of mt_rand(0, 25) made for the i-th letter. The answer
      has the drawn length (none for a negative draw) and is made of lower-case
      letters only. */
  method RandomString(minLength: int, maxLength: int, length: int, picks: seq<int>) returns (str: string)
    requires RandIn(minLength, maxLength, length)
    requires Rounds(length) <= |picks|
    requires forall i :: 0 <= i < |picks| ==> IsLetterPick(picks[i])
    ensures |str| == Rounds(length)
    ensures 0 <= Max(minLength, maxLength) ==> RandIn(minLength, maxLength, |str|)
    ensures IsLowerWord(str)
    ensures str == Spell(picks[..|str|])
  {
    str := "";
    var i := 0;
    while i < length
      invariant 0 <= i <= Rounds(length)
      invariant |str| == i
      invariant forall k :: 0 <= k < i ==> str[k] == Letters[picks[k]]
    {
      str := str + [Letters[picks[i]]];
      i := i + 1;
    }
  }

  /** The pick that selects a given letter. */
  function PickOf(c: char): (k: int)
    requires IsLowerLetter(c)
    ensures IsLetterPick(k) && Letters[k] == c
  {
    c as int - 'a' as int
  }

  /** Every lower-case word of an allowed length is a possible answer: the
      picks of its letters spell it. */
  lemma EveryWordDrawable(minLength: int, maxLength: int, w: string)
    requires IsLowerWord(w) && RandIn(minLength, maxLength, |w|)
    ensures var picks := seq(|w|, i requires 0 <= i < |w| => PickOf(w[i]));
            RandIn(minLength, maxLength, |picks|) && Spell(picks) == w
  {
    var picks := seq(|w|, i requires 0 <= i < |w| => PickOf(w[i]));
    assert forall i :: 0 <= i < |w| ==> Spell(picks)[i] == w[i];
  }

  /** check($code): the session holds an answer and the two agree once both
      are lower-cased. Nothing stored means no match. */
  function Check(session: map<string, string>, code: string): (ok: bool)
    ensures SessionVar !in session ==> !ok
    ensures ok ==> |code| == |session[SessionVar]|
  {
    SessionVar in session && StrToLower(session[SessionVar]) == StrToLower(code)
  }

  /** `code` is `answer` with any of its letters written as capitals. */
  predicate IsCaseVariant(code: string, answer: string)
  {
    |code| == |answer| &&
    forall i :: 0 <= i < |code| ==> code[i] == answer[i] || code[i] == UpperChar(answer[i])
  }

  /** With a lower-case answer stored, check accepts exactly the inputs that
      spell the answer in some mix of small and capital letters. */
  lemma CheckAcceptsCaseVariants(session: map<string, string>, answer: string, code: string)
    requires IsLowerWord(answer)
    ensures Check(session[SessionVar := answer], code) <==> IsCaseVariant(code, answer)
  {
    var stored := session[SessionVar := answer];
    assert StrToLower(answer) == answer by {
      assert forall i :: 0 <= i < |answer| ==> LowerChar(answer[i]) == answer[i];
    }
    if Check(stored, code) {
      assert forall i :: 0 <= i < |code| ==> LowerChar(code[i]) == answer[i] by {
        assert StrToLower(code) == answer;
      }
    }
    if IsCaseVariant(code, answer) {
      assert StrToLower(code) == answer by {
        assert forall i :: 0 <= i < |code| ==> StrToLower(code)[i] == answer[i];
      }
    }
  }

  /** Inputs that agree up to case get the same verdict. */
  lemma CheckIgnoresCase(session: map<string, string>, code: string, other: string)
    requires StrToLower(code) == StrToLower(other)
    ensures Check(session, code) == Check(session, other)
  {
  }

  /** The stored "abcxyz" accepts "ABCXYZ" and rejects "abcxy"; nothing
      stored rejects everything. */
  lemma CheckExamples(code: string)
    ensures Check(map[SessionVar := "abcxyz"], "ABCXYZ")
    ensures !Check(map[SessionVar := "abcxyz"], "abcxy")
    ensures !Check(map[], code)
  {
    var answer := "abcxyz";
    assert IsLowerWord(answer);
    CheckAcceptsCaseVariants(map[], answer, "ABCXYZ");
    assert IsCaseVariant("ABCXYZ", answer);
    assert map[][SessionVar := answer] == map[SessionVar := answer];
  }
}
