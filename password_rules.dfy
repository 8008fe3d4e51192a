/** The Signup page's password checks: the regular expression the final rule
    tests, the 0..4 strength score behind the meter, and the meter's label. */
module PasswordRules {
  import opened JsText

  /** The three character classes the rule looks ahead for. */
  datatype CharClass = Lower | Upper | DigitOrNonWord

  predicate IsAsciiLetter(c: char) {
    'a' <= c <= 'z' || 'A' <= c <= 'Z'
  }

  /** `[a-z]`, `[A-Z]` and `[\d\W]`. A digit is a word character, so `[\d\W]`
      is everything except letters and `_`. A character outside the Basic
      Multilingual Plane is a surrogate pair in JavaScript, and each surrogate
      is a non-word unit, so it belongs to `[\d\W]` as well. */
  predicate InClass(c: char, k: CharClass) {
    match k
    case Lower => 'a' <= c <= 'z'
    case Upper => 'A' <= c <= 'Z'
    case DigitOrNonWord => !IsAsciiLetter(c) && c != '_'
  }

  /** The characters `.` does not match (the expression has no `s` flag). */
  predicate IsLineTerminator(c: char) {
    c == '\n' || c == '\r' || c == '\U{2028}' || c == '\U{2029}'
  }

  predicate NoLineTerminator(s: string) {
    forall i :: 0 <= i < |s| ==> !IsLineTerminator(s[i])
  }

  predicate HasClassAt(s: string, k: CharClass, i: int) {
    0 <= i < |s| && InClass(s[i], k)
  }

  /** Some character of `s` is in class `k`; a left-to-right scan. */
  function HasClass(s: string, k: CharClass): (r: bool)
    ensures r <==> exists i :: HasClassAt(s, k, i)
    decreases |s|
  {
    if s == [] then false
    else if InClass(s[0], k) then
      assert HasClassAt(s, k, 0);
      true
    else
      var r := HasClass(s[1..], k);
      ShiftClassAt(s, k);
      r
  }

  lemma ShiftClassAt(s: string, k: CharClass)
    requires s != [] && !InClass(s[0], k)
    ensures (exists i :: HasClassAt(s, k, i)) <==> (exists i :: HasClassAt(s[1..], k, i))
  {
    if exists i :: HasClassAt(s, k, i) {
      var i :| HasClassAt(s, k, i);
      assert HasClassAt(s[1..], k, i - 1);
    }
    if exists i :: HasClassAt(s[1..], k, i) {
      var i :| HasClassAt(s[1..], k, i);
      assert HasClassAt(s, k, i + 1);
    }
  }

  /** The lookahead `(?=.*[k])` at the start of `s`: `.*` runs over characters
      other than line terminators, and a character of class `k` follows. */
  function Lookahead(s: string, k: CharClass): bool
    decreases |s|
  {
    s != [] && (InClass(s[0], k) || (!IsLineTerminator(s[0]) && Lookahead(s[1..], k)))
  }

  /** `.{8,}$` at the start of `s`: at least eight code units up to the end,
      none of them a line terminator (without the `m` flag `$` is the end of
      the input). */
  predicate DotsToEnd(s: string) {
    NoLineTerminator(s) && JsLength(s) >= 8
  }

  /** On a line without terminators the lookahead finds a class member
      exactly when there is one. */
  lemma {:induction false} LookaheadOnOneLine(s: string, k: CharClass)
    requires NoLineTerminator(s)
    ensures Lookahead(s, k) <==> HasClass(s, k)
    decreases |s|
  {
    if s != [] {
      assert NoLineTerminator(s[1..]) by {
        forall i | 0 <= i < |s[1..]| ensures !IsLineTerminator(s[1..][i]) {
          assert s[1..][i] == s[i + 1];
        }
      }
      LookaheadOnOneLine(s[1..], k);
    }
  }

  /** `validatePassword`: `/^(?=.*[a-z])(?=.*[A-Z])(?=.*[\d\W]).{8,}$/.test(pw)`.
      It holds exactly when the password is at least eight code units long,
      has no line terminator, and has a lower-case letter, an upper-case
      letter and a digit or symbol. */
  function ValidatePassword(pw: string): (r: bool)
    ensures r <==> (JsLength(pw) >= 8 && NoLineTerminator(pw)
                    && HasClass(pw, Lower) && HasClass(pw, Upper) && HasClass(pw, DigitOrNonWord))
  {
    if NoLineTerminator(pw) then
      LookaheadOnOneLine(pw, Lower);
      LookaheadOnOneLine(pw, Upper);
      LookaheadOnOneLine(pw, DigitOrNonWord);
      Lookahead(pw, Lower) && Lookahead(pw, Upper) && Lookahead(pw, DigitOrNonWord) && DotsToEnd(pw)
    else
      false
  }

  /** Fewer than eight characters are never enough when all of them lie in
      the Basic Multilingual Plane. */
  lemma ShortPasswordRejected(pw: string)
    requires |pw| < 8 && forall i :: 0 <= i < |pw| ==> pw[i] as int < 0x1_0000
    ensures !ValidatePassword(pw)
  {
    JsLengthOfBmp(pw);
  }

  /** `.length` counts code units, so five characters can pass: each
      character outside the Basic Multilingual Plane counts twice and is a
      symbol. */
  lemma AstralCharactersCountTwice()
    ensures ValidatePassword("Ab\U{1F600}\U{1F600}\U{1F600}")
  {
    var pw := "Ab\U{1F600}\U{1F600}\U{1F600}";
    assert JsLength(pw) == 8;
    assert HasClassAt(pw, Lower, 1);
    assert HasClassAt(pw, Upper, 0);
    assert HasClassAt(pw, DigitOrNonWord, 2);
  }

  /** A line break inside the password makes it invalid although it would
      count as the symbol. */
  lemma LineBreakRejected()
    ensures !ValidatePassword("Abcdefg\n")
    ensures HasClass("Abcdefg\n", DigitOrNonWord)
  {
    assert IsLineTerminator("Abcdefg\n"[7]);
    assert HasClassAt("Abcdefg\n", DigitOrNonWord, 7);
  }

  /** Eight or more characters on one line, with a lower-case letter, an
      upper-case letter and a digit or symbol among them, are accepted,
      whatever plane the characters lie in: `.length` never counts fewer
      code units than characters. */
  lemma LongMixedPasswordAccepted(pw: string, lower: nat, upper: nat, other: nat)
    requires |pw| >= 8 && NoLineTerminator(pw)
    requires HasClassAt(pw, Lower, lower) && HasClassAt(pw, Upper, upper) && HasClassAt(pw, DigitOrNonWord, other)
    ensures ValidatePassword(pw)
  {
  }

  /** A password of letters only is always rejected, yet the meter rates it
      "Strong" once it has twelve letters of both cases. */
  lemma LettersOnlyRejected(pw: string)
    requires forall i :: 0 <= i < |pw| ==> IsAsciiLetter(pw[i])
    ensures !ValidatePassword(pw)
    ensures |pw| >= 12 && HasClass(pw, Lower) && HasClass(pw, Upper) ==>
      StrengthLabel(StrengthScore(pw)) == "Strong"
  {
    assert !HasClass(pw, DigitOrNonWord) by {
      forall i | 0 <= i < |pw| ensures !HasClassAt(pw, DigitOrNonWord, i) {
        assert IsAsciiLetter(pw[i]);
      }
    }
    JsLengthOfBmp(pw);
  }

  function Indicator(b: bool): nat {
    if b then 1 else 0
  }

  /** `passwordStrengthScore` as a value: 0 for the empty password, otherwise
      one point each for at least 8 and at least 12 code units, a lower-case
      letter and an upper-case letter, capped at 4. */
  function StrengthScore(pw: string): (n: nat)
    ensures n <= 4
    ensures pw == "" ==> n == 0
  {
    if pw == "" then 0
    else
      var sum := Indicator(JsLength(pw) >= 8) + Indicator(JsLength(pw) >= 12)
        + Indicator(HasClass(pw, Lower)) + Indicator(HasClass(pw, Upper));
      if sum < 4 then sum else 4
  }

  /** `passwordStrengthScore`: the score accumulated step by step. */
  method PasswordStrengthScore(pw: string) returns (score: int)
    ensures score == StrengthScore(pw)
    ensures 0 <= score <= 4
  {
    score := 0;
    if pw == "" {
      return 0;
    }
    var len := JsLength(pw);
    if len >= 8 {
      score := score + 1;
    }
    if len >= 12 {
      score := score + 1;
    }
    if HasClass(pw, Lower) {
      score := score + 1;
    }
    if HasClass(pw, Upper) {
      score := score + 1;
    }
    score := if score < 4 then score else 4;
  }

  /** The cap `Math.min(score, 4)` never changes anything: the four points
      already add up to at most 4. */
  lemma ScoreIsUncappedSum(pw: string)
    requires pw != ""
    ensures StrengthScore(pw) == Indicator(JsLength(pw) >= 8) + Indicator(JsLength(pw) >= 12)
      + Indicator(HasClass(pw, Lower)) + Indicator(HasClass(pw, Upper))
  {
  }

  /** `strengthLabel`. */
  function StrengthLabel(score: int): (r: string)
    ensures r == "" <==> !(0 <= score <= 4)
    ensures r == "Weak" <==> score == 0 || score == 1
    ensures r == "Fair" <==> score == 2
    ensures r == "Good" <==> score == 3
    ensures r == "Strong" <==> score == 4
  {
    match score
    case 0 => "Weak"
    case 1 => "Weak"
    case 2 => "Fair"
    case 3 => "Good"
    case 4 => "Strong"
    case _ => ""
  }

  /** The meter always has a label for a score it computes. */
  lemma EveryScoreHasLabel(pw: string)
    ensures StrengthLabel(StrengthScore(pw)) != ""
  {
  }

  /** A password the final rule accepts is rated at least "Good": it has the
      length and both letter cases. */
  lemma ValidPasswordIsGoodOrStrong(pw: string)
    requires ValidatePassword(pw)
    ensures StrengthScore(pw) >= 3
    ensures StrengthLabel(StrengthScore(pw)) == "Good" || StrengthLabel(StrengthScore(pw)) == "Strong"
  {
  }

}
