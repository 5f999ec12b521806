/** The two string tests the screen uses: `contains(…, ignoreCase = true)`
    for the search box and `isNotBlank()` for the project name.

    Case folding is restricted to ASCII: 'A'..'Z' compare equal to
    'a'..'z', and every other character compares only with itself. */
module Text {

  /** The ASCII lower-case form of `c`; every other character is itself. */
  function FoldChar(c: char): char {
    if 'A' <= c <= 'Z' then (c as int + 32) as char else c
  }

  /** `s` with every character folded. */
  function Fold(s: string): (r: string)
    ensures |r| == |s|
    ensures forall i :: 0 <= i < |s| ==> r[i] == FoldChar(s[i])
  {
    seq(|s|, i requires 0 <= i < |s| => FoldChar(s[i]))
  }

  /** The window of `s` at index `i` has the length of `q` and equals `q`
      up to case. */
  predicate MatchesAt(s: string, q: string, i: int) {
    0 <= i && i + |q| <= |s| && Fold(s[i..i + |q|]) == Fold(q)
  }

  /** Some window of `s` at or after index `from` matches `q`. */
  function MatchesFrom(s: string, q: string, from: nat): (r: bool)
    requires from <= |s| + 1
    decreases |s| + 1 - from
    ensures r <==> exists i :: from <= i && MatchesAt(s, q, i)
  {
    if from + |q| > |s| then false
    else MatchesAt(s, q, from) || MatchesFrom(s, q, from + 1)
  }

  /** Kotlin's `s.contains(q, ignoreCase = true)`: `q` occurs in `s` at some
      position when case is ignored. The empty query occurs everywhere. */
  function ContainsIgnoreCase(s: string, q: string): (r: bool)
    ensures r <==> exists i :: MatchesAt(s, q, i)
    ensures q == [] ==> r
    ensures |q| > |s| ==> !r
  {
    assert q == [] ==> MatchesAt(s, q, 0);
    MatchesFrom(s, q, 0)
  }

  lemma {:induction false} FoldIdempotent(s: string)
    ensures Fold(Fold(s)) == Fold(s)
  {
  }

  lemma {:induction false} FoldSlice(s: string, i: nat, j: nat)
    requires i <= j <= |s|
    ensures Fold(s)[i..j] == Fold(s[i..j])
  {
  }

  /** Folding the text and the query together does not change the answer. */
  lemma {:induction false} ContainsOfFolded(s: string, q: string)
    ensures ContainsIgnoreCase(s, q) == ContainsIgnoreCase(Fold(s), Fold(q))
  {
    FoldIdempotent(q);
    forall i | 0 <= i && i + |q| <= |s|
      ensures MatchesAt(Fold(s), Fold(q), i) == MatchesAt(s, q, i)
    {
      FoldSlice(s, i, i + |q|);
      FoldIdempotent(s[i..i + |q|]);
    }
  }

  /** The search is insensitive to case on both sides: folding the text, the
      query, or both first does not change the answer. */
  lemma ContainsIgnoresCase(s: string, q: string)
    ensures ContainsIgnoreCase(Fold(s), q) == ContainsIgnoreCase(s, q)
    ensures ContainsIgnoreCase(s, Fold(q)) == ContainsIgnoreCase(s, q)
    ensures ContainsIgnoreCase(Fold(s), Fold(q)) == ContainsIgnoreCase(s, q)
  {
    FoldIdempotent(s);
    FoldIdempotent(q);
    ContainsOfFolded(s, q);
    ContainsOfFolded(Fold(s), q);
    ContainsOfFolded(s, Fold(q));
  }

  /** Kotlin's `Char.isWhitespace()` on the JVM: Java's `isWhitespace` or
      `isSpaceChar`, that is the ASCII controls TAB..CR and FS..US, the space,
      and the Unicode space, line and paragraph separators (including the
      no-break spaces). */
  predicate IsWhitespace(c: char) {
    var n := c as int;
    || n == 0x20
    || 0x09 <= n <= 0x0D
    || 0x1C <= n <= 0x1F
    || n == 0xA0
    || n == 0x1680
    || 0x2000 <= n <= 0x200A
    || n == 0x2028
    || n == 0x2029
    || n == 0x202F
    || n == 0x205F
    || n == 0x3000
  }

  /** Kotlin's `isBlank()`: the string is empty or holds only whitespace. */
  function IsBlank(s: string): (r: bool)
    ensures r <==> forall i :: 0 <= i < |s| ==> IsWhitespace(s[i])
  {
    if s == [] then true else IsWhitespace(s[0]) && IsBlank(s[1..])
  }

  /** A name of three spaces is blank; one with leading spaces and a word is not. */
  lemma BlankExamples()
    ensures IsBlank("   ")
    ensures !IsBlank("  Groceries")
  {
    assert !IsWhitespace("  Groceries"[2]);
  }

  /** A query matches whatever its case: "GROC" is found in "Groceries". */
  lemma ContainsExample()
    ensures ContainsIgnoreCase("Groceries", "GROC")
  {
    assert MatchesAt("Groceries", "GROC", 0);
  }
}
