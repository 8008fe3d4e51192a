/** Small shared vocabulary: optional values and the sublist relation that the
    list views and the delete operation are stated with. */
module Common {

  /** `undefined` / `null` versus a present value. */
  datatype Option<+T> = None | Some(value: T) {
    /** JavaScript's `x ?? d`. */
    function GetOr(default: T): T {
      match this
      case Some(v) => v
      case None => default
    }
  }

  /** `s` can be obtained from `t` by deleting elements, keeping the order of
      the rest. */
  predicate IsSubsequence<T(==)>(s: seq<T>, t: seq<T>)
    decreases |t|
  {
    if s == [] then true
    else if t == [] then false
    else if s[0] == t[0] then IsSubsequence(s[1..], t[1..])
    else IsSubsequence(s, t[1..])
  }

  /** A sublist is never longer than the list it is taken from. */
  lemma {:induction false} SubsequenceLength<T>(s: seq<T>, t: seq<T>)
    requires IsSubsequence(s, t)
    ensures |s| <= |t|
    decreases |t|
  {
    if s != [] {
      if s[0] == t[0] {
        SubsequenceLength(s[1..], t[1..]);
      } else {
        SubsequenceLength(s, t[1..]);
      }
    }
  }

  /** Every element of a sublist comes from the list. */
  lemma {:induction false} SubsequenceMembers<T>(s: seq<T>, t: seq<T>, x: T)
    requires IsSubsequence(s, t) && x in s
    ensures x in t
    decreases |t|
  {
    if s[0] == t[0] {
      if x != s[0] {
        SubsequenceMembers(s[1..], t[1..], x);
      }
    } else {
      SubsequenceMembers(s, t[1..], x);
    }
  }

  /** Dropping the head of the list keeps a sublist relation when the head is
      not used. */
  lemma {:induction false} SubsequenceOfTail<T>(s: seq<T>, t: seq<T>)
    requires t != [] && IsSubsequence(s, t[1..])
    ensures IsSubsequence(s, t)
    decreases |t|, 0
  {
    if s != [] && s[0] == t[0] {
      // s[0] == t[0] and s is a sublist of t[1..]: then s[1..] is one too
      SubsequenceDropHead(s, t[1..]);
    }
  }

  /** If `s` is a sublist of `t`, so is `s` without its head. */
  lemma {:induction false} SubsequenceDropHead<T>(s: seq<T>, t: seq<T>)
    requires s != [] && IsSubsequence(s, t)
    ensures IsSubsequence(s[1..], t)
    decreases |t|, 1
  {
    if s[0] == t[0] {
      SubsequenceOfTail(s[1..], t);
    } else {
      SubsequenceDropHead(s, t[1..]);
      SubsequenceOfTail(s[1..], t);
    }
  }

  /** Every list is a sublist of itself. */
  lemma {:induction false} SubsequenceReflexive<T>(t: seq<T>)
    ensures IsSubsequence(t, t)
    decreases |t|
  {
    if t != [] {
      SubsequenceReflexive(t[1..]);
    }
  }
}
