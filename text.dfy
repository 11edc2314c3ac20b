/** The two string operations the chat core is built on: Python's substring
    test `sub in s`, and lowercasing of the incoming message. */
module Text {

  /** `sub` occurs in `s` starting at position `i`. */
  predicate OccursAt(s: string, sub: string, i: nat) {
    i + |sub| <= |s| && s[i..i + |sub|] == sub
  }

  /** Python's `sub in s`: some slice `s[i..i + |sub|]` equals `sub`. */
  predicate Contains(s: string, sub: string) {
    exists i: nat | i <= |s| :: OccursAt(s, sub, i)
  }

  /** A string contains only substrings no longer than itself. */
  lemma ContainsShorter(s: string, sub: string)
    requires Contains(s, sub)
    ensures |sub| <= |s|
  {
    var i: nat :| i <= |s| && OccursAt(s, sub, i);
  }

  /** The empty message contains no non-empty keyword. */
  lemma EmptyContainsNothing(sub: string)
    requires |sub| > 0
    ensures !Contains("", sub)
  {
    if Contains("", sub) {
      ContainsShorter("", sub);
    }
  }

  /** Containment is transitive: a message containing "andromeda galaxy"
      also contains "andromeda". */
  lemma {:induction false} ContainsTransitive(s: string, mid: string, sub: string)
    requires Contains(s, mid) && Contains(mid, sub)
    ensures Contains(s, sub)
  {
    var i: nat :| i <= |s| && OccursAt(s, mid, i);
    var j: nat :| j <= |mid| && OccursAt(mid, sub, j);
    forall k | 0 <= k < |sub|
      ensures s[i + j + k] == sub[k]
    {
      assert sub[k] == mid[j..j + |sub|][k] == mid[j + k];
      assert mid[j + k] == s[i..i + |mid|][j + k] == s[i + j + k];
    }
    assert OccursAt(s, sub, i + j);
  }

  /** A keyword with a character that the message lacks is not contained in it. */
  lemma AbsentChar(s: string, sub: string, k: nat)
    requires k < |sub| && sub[k] !in s
    ensures !Contains(s, sub)
  {
  }

  /** An occurrence of `sub` at `i` puts each character of `sub` at its place in `s`. */
  lemma OccursAtChar(s: string, sub: string, i: nat, k: nat)
    requires OccursAt(s, sub, i) && k < |sub|
    ensures i + k < |s| && s[i + k] == sub[k]
  {
    assert s[i + k] == s[i..i + |sub|][k];
  }

  /** A keyword with two adjacent characters that never stand next to each
      other in the message is not contained in it. */
  lemma AbsentPair(s: string, sub: string, k: nat)
    requires k + 1 < |sub|
    requires forall i :: 0 <= i < |s| - 1 ==> !(s[i] == sub[k] && s[i + 1] == sub[k + 1])
    ensures !Contains(s, sub)
  {
    if Contains(s, sub) {
      var i: nat :| i <= |s| && OccursAt(s, sub, i);
      OccursAtChar(s, sub, i, k);
      OccursAtChar(s, sub, i, k + 1);
    }
  }

  /** An occurrence given character by character. */
  lemma OccursByChars(s: string, sub: string, i: nat)
    requires i + |sub| <= |s| && forall k :: 0 <= k < |sub| ==> s[i + k] == sub[k]
    ensures Contains(s, sub)
  {
    assert s[i..i + |sub|] == sub;
    assert OccursAt(s, sub, i);
  }

  predicate IsUpper(c: char) {
    'A' <= c <= 'Z'
  }

  /** Lowercasing of one character, restricted to ASCII letters. */
  function LowerChar(c: char): (d: char)
    ensures !IsUpper(d)
    ensures !IsUpper(c) ==> d == c
    ensures IsUpper(c) ==> 'a' <= d <= 'z' && d as int - c as int == 'a' as int - 'A' as int
  {
    if IsUpper(c) then (c as int - 'A' as int + 'a' as int) as char else c
  }

  /** Python's `str.lower()` on the ASCII letters: every upper-case letter is
      replaced by its lower-case partner and nothing else changes. */
  function Lower(s: string): (r: string)
    ensures |r| == |s|
    ensures forall i :: 0 <= i < |r| ==> !IsUpper(r[i])
    ensures forall i :: 0 <= i < |s| && !IsUpper(s[i]) ==> r[i] == s[i]
    ensures forall i :: 0 <= i < |s| && IsUpper(s[i]) ==> r[i] == LowerChar(s[i])
  {
    seq(|s|, i requires 0 <= i < |s| => LowerChar(s[i]))
  }

  /** Lowercasing twice is lowercasing once. */
  lemma LowerIdempotent(s: string)
    ensures Lower(Lower(s)) == Lower(s)
  {
  }

  /** A string with no upper-case letter is its own lower-case form. */
  lemma LowerOfLower(s: string)
    requires forall i :: 0 <= i < |s| ==> !IsUpper(s[i])
    ensures Lower(s) == s
  {
  }
}
