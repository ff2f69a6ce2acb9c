/**
 * The two string operations the router relies on: lower-casing the user's
 * message and the substring test written `word in text` in the handler.
 */
module Text {

  /** Lower-case one character (only the ASCII letters A to Z change). */
  function LowerChar(c: char): char {
    if 'A' <= c <= 'Z' then (c as int - 'A' as int + 'a' as int) as char else c
  }

  /** The message with every character lower-cased, position by position. */
  function Lower(s: string): (r: string)
    ensures |r| == |s|
    ensures forall i :: 0 <= i < |s| ==> r[i] == LowerChar(s[i])
  {
    if s == [] then [] else [LowerChar(s[0])] + Lower(s[1..])
  }

  /** `w` appears in `s` starting at position `i`. */
  predicate OccursAt(s: string, w: string, i: int) {
    0 <= i && i + |w| <= |s| && s[i..i + |w|] == w
  }

  /** `s` begins with `w`. */
  predicate StartsWith(s: string, w: string) {
    |w| <= |s| && s[..|w|] == w
  }

  /** The substring test `w in s`: `w` occurs somewhere in `s`. */
  predicate Contains(s: string, w: string) {
    exists i :: 0 <= i <= |s| - |w| && OccursAt(s, w, i)
  }

  /** A word holding a character the text lacks does not occur in it. */
  lemma AbsentCharacter(s: string, w: string, c: char)
    requires c in w && c !in s
    ensures !Contains(s, w)
  {
  }

  /** A word holding a piece that does not occur in the text does not occur in it either. */
  lemma AbsentPiece(s: string, w: string, p: string, j: nat)
    requires OccursAt(w, p, j)
    requires !Contains(s, p)
    ensures !Contains(s, w)
  {
    forall i | 0 <= i <= |s| - |w|
      ensures !OccursAt(s, w, i)
    {
      if OccursAt(s, w, i) {
        forall k | 0 <= k < |p|
          ensures s[i + j + k] == p[k]
        {
          assert p[k] == w[j..j + |p|][k] == w[j + k];
          assert w[j + k] == s[i..i + |w|][j + k];
        }
        assert s[i + j..i + j + |p|] == p;
        assert OccursAt(s, p, i + j);
        assert false;
      }
    }
  }

  /** A word that occurs at no position before `k`, nor in the rest of the text, does not occur. */
  lemma AbsentFrom(s: string, w: string, k: nat)
    requires k <= |s|
    requires forall i :: 0 <= i < k ==> !OccursAt(s, w, i)
    requires !Contains(s[k..], w)
    ensures !Contains(s, w)
  {
    if Contains(s, w) {
      var i :| 0 <= i <= |s| - |w| && OccursAt(s, w, i);
      assert s[k..][i - k..i - k + |w|] == s[i..i + |w|];
      assert OccursAt(s[k..], w, i - k);
    }
  }
}
