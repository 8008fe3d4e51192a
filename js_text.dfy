/** The few JavaScript string operations the pages rely on: `.length`,
    `.trim()`, `.toLowerCase()`, `.includes()` and the `<` comparison of two
    strings. A Dafny `string` is a sequence of Unicode scalar values, while a
    JavaScript string is a sequence of UTF-16 code units; `JsLength` makes the
    difference explicit where the pages count characters. */
module JsText {

  /** Number of UTF-16 code units: a character outside the Basic Multilingual
      Plane is stored as a surrogate pair and counts twice in `.length`. */
  function JsLength(s: string): (n: nat)
    ensures |s| <= n <= 2 * |s|
    decreases |s|
  {
    if s == [] then 0
    else (if s[0] as int >= 0x1_0000 then 2 else 1) + JsLength(s[1..])
  }

  /** On text made only of Basic Multilingual Plane characters `.length` is the
      number of characters. */
  lemma {:induction false} JsLengthOfBmp(s: string)
    requires forall i :: 0 <= i < |s| ==> s[i] as int < 0x1_0000
    ensures JsLength(s) == |s|
    decreases |s|
  {
    if s != [] {
      JsLengthOfBmp(s[1..]);
    }
  }

  /** The characters `String.prototype.trim` removes: ECMAScript WhiteSpace
      and LineTerminator. */
  predicate IsWhiteSpace(c: char) {
    c == '\t' || c == '\n' || c == '\U{000B}' || c == '\U{000C}' || c == '\r'
    || c == ' ' || c == '\U{00A0}' || c == '\U{1680}'
    || ('\U{2000}' <= c <= '\U{200A}')
    || c == '\U{2028}' || c == '\U{2029}' || c == '\U{202F}' || c == '\U{205F}'
    || c == '\U{3000}' || c == '\U{FEFF}'
  }

  /** Every character of `s` is white space. */
  predicate AllWhiteSpace(s: string) {
    forall i :: 0 <= i < |s| ==> IsWhiteSpace(s[i])
  }

  /** Where the white space starting at `s[i]` ends: everything from `i` up
      to the result is white space, and the character there is not. */
  function SkipLeading(s: string, i: nat): (k: nat)
    requires i <= |s|
    ensures i <= k <= |s|
    ensures forall m :: i <= m < k ==> IsWhiteSpace(s[m])
    ensures k < |s| ==> !IsWhiteSpace(s[k])
    decreases |s| - i
  {
    if i < |s| && IsWhiteSpace(s[i]) then SkipLeading(s, i + 1) else i
  }

  /** Where the white space ending just before `s[j]` starts, not going
      below `lo`: everything from the result up to `j` is white space, and
      the character before it, when it lies above `lo`, is not. */
  function SkipTrailing(s: string, lo: nat, j: nat): (k: nat)
    requires lo <= j <= |s|
    ensures lo <= k <= j
    ensures forall m :: k <= m < j ==> IsWhiteSpace(s[m])
    ensures lo < k ==> !IsWhiteSpace(s[k - 1])
    decreases j
  {
    if lo < j && IsWhiteSpace(s[j - 1]) then SkipTrailing(s, lo, j - 1) else j
  }

  /** `s.trim()`: white space is dropped from the start, then from the end. */
  function Trim(s: string): string {
    var i := SkipLeading(s, 0);
    s[i..SkipTrailing(s, i, |s|)]
  }

  /** `s.trim()` keeps a contiguous middle part `s[i..j]` of `s` that neither
      starts nor ends with white space, and only white space lies outside it. */
  lemma TrimIsMiddle(s: string) returns (i: nat, j: nat)
    ensures i <= j <= |s| && Trim(s) == s[i..j]
    ensures AllWhiteSpace(s[..i]) && AllWhiteSpace(s[j..])
    ensures i < j ==> !IsWhiteSpace(s[i]) && !IsWhiteSpace(s[j - 1])
  {
    i := SkipLeading(s, 0);
    j := SkipTrailing(s, i, |s|);
    forall m | 0 <= m < |s[..i]|
      ensures IsWhiteSpace(s[..i][m])
    {
      assert s[..i][m] == s[m];
    }
    forall m | 0 <= m < |s[j..]|
      ensures IsWhiteSpace(s[j..][m])
    {
      assert s[j..][m] == s[j + m];
    }
  }

  /** `s.trim()` is empty exactly when `s` is all white space. */
  lemma TrimEmptyIff(s: string)
    ensures Trim(s) == [] <==> AllWhiteSpace(s)
  {
    var i, j := TrimIsMiddle(s);
    if i == j {
      forall k | 0 <= k < |s|
        ensures IsWhiteSpace(s[k])
      {
        if k < i {
          assert s[k] == s[..i][k];
        } else {
          assert s[k] == s[j..][k - j];
        }
      }
    } else {
      assert !IsWhiteSpace(s[i]);
    }
  }

  /** Trimming twice is trimming once. */
  lemma TrimIdempotent(s: string)
    ensures Trim(Trim(s)) == Trim(s)
  {
    var r := Trim(s);
    var i, j := TrimIsMiddle(s);
    if r != [] {
      assert r[0] == s[i] && r[|r| - 1] == s[j - 1];
      assert SkipLeading(r, 0) == 0;
      assert SkipTrailing(r, 0, |r|) == |r|;
    }
  }

  /** The lower-case form of one character: `toLowerCase` on the ASCII letters. */
  function LowerChar(c: char): char {
    if 'A' <= c <= 'Z' then (c as int - 'A' as int + 'a' as int) as char else c
  }

  /** `s.toLowerCase()`, restricted to the ASCII letters. */
  function ToLower(s: string): (r: string)
    ensures |r| == |s|
    ensures forall i :: 0 <= i < |s| ==> r[i] == LowerChar(s[i])
  {
    seq(|s|, i requires 0 <= i < |s| => LowerChar(s[i]))
  }

  /** Lower-casing twice is lower-casing once. */
  lemma ToLowerIdempotent(s: string)
    ensures ToLower(ToLower(s)) == ToLower(s)
  {
  }

  /** `sub` occurs in `s` starting at index `i`. */
  predicate OccursAt(s: string, sub: string, i: int) {
    0 <= i && i + |sub| <= |s| && s[i..i + |sub|] == sub
  }

  /** An occurrence in `s[1..]` is an occurrence in `s` one position later. */
  lemma OccursAtShift(s: string, sub: string, j: int)
    requires s != [] && 1 <= j
    ensures OccursAt(s, sub, j) <==> OccursAt(s[1..], sub, j - 1)
  {
    if j + |sub| <= |s| {
      assert s[1..][j - 1..j - 1 + |sub|] == s[j..j + |sub|];
    }
  }

  /** `s.includes(sub)`: a scan for `sub` at each position of `s`. The contract
      is the substring relation. */
  function Includes(s: string, sub: string): (r: bool)
    ensures r <==> exists i :: OccursAt(s, sub, i)
    decreases |s|
  {
    if |sub| <= |s| && s[..|sub|] == sub then
      assert OccursAt(s, sub, 0);
      true
    else if s == [] then
      assert forall i :: !OccursAt(s, sub, i);
      false
    else
      var r := Includes(s[1..], sub);
      assert r ==> exists j :: OccursAt(s, sub, j) by {
        if r {
          var i :| OccursAt(s[1..], sub, i);
          OccursAtShift(s, sub, i + 1);
        }
      }
      assert (exists j :: OccursAt(s, sub, j)) ==> r by {
        if exists j :: OccursAt(s, sub, j) {
          var j :| OccursAt(s, sub, j);
          assert j != 0;
          OccursAtShift(s, sub, j);
        }
      }
      r
  }

  /** Every string includes the empty string. */
  lemma IncludesEmpty(s: string)
    ensures Includes(s, "")
  {
    assert OccursAt(s, "", 0);
  }

  /** JavaScript's `a < b` on strings: lexicographic order, a proper prefix
      coming first. */
  function StrLess(a: string, b: string): bool
    decreases |a|
  {
    if a == [] then b != []
    else if b == [] then false
    else if a[0] != b[0] then a[0] < b[0]
    else StrLess(a[1..], b[1..])
  }

  /** `<` on strings is irreflexive. */
  lemma {:induction false} StrLessIrreflexive(a: string)
    ensures !StrLess(a, a)
    decreases |a|
  {
    if a != [] {
      StrLessIrreflexive(a[1..]);
    }
  }

  /** `<` on strings is transitive. */
  lemma {:induction false} StrLessTransitive(a: string, b: string, c: string)
    requires StrLess(a, b) && StrLess(b, c)
    ensures StrLess(a, c)
    decreases |a|
  {
    if a != [] && b != [] && c != [] && a[0] == b[0] && b[0] == c[0] {
      StrLessTransitive(a[1..], b[1..], c[1..]);
    }
  }
}
