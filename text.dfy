/**
 * The two string services of the browser that the marker logic relies on:
 * `String.prototype.indexOf` and the splitting of a `class` attribute into
 * the element's class list.
 */
module Text {

  /** ASCII whitespace: the separators of a class attribute. */
  predicate IsSpace(c: char) {
    c == ' ' || c == '\t' || c == '\n' || c == '\r' || c == '\U{C}'
  }

  /** `pat` occurs in `s` starting at index `i`. */
  predicate MatchesAt(s: string, pat: string, i: int) {
    0 <= i && i + |pat| <= |s| && s[i..i + |pat|] == pat
  }

  ghost predicate Contains(s: string, pat: string) {
    exists i :: MatchesAt(s, pat, i)
  }

  /** `s.indexOf(pat, from)`: the leftmost occurrence at or after `from`, or -1. */
  function IndexFrom(s: string, pat: string, from: nat): (r: int)
    decreases |s| - from
    ensures r == -1 ==> forall j :: from <= j ==> !MatchesAt(s, pat, j)
    ensures r != -1 ==> from <= r && MatchesAt(s, pat, r)
    ensures r != -1 ==> forall j :: from <= j < r ==> !MatchesAt(s, pat, j)
  {
    if |s| < from + |pat| then -1
    else if s[from..from + |pat|] == pat then from
    else IndexFrom(s, pat, from + 1)
  }

  /** `s.indexOf(pat)` */
  function IndexOf(s: string, pat: string): (r: int)
    ensures r == -1 <==> !Contains(s, pat)
    ensures r != -1 ==> MatchesAt(s, pat, r) && forall j :: 0 <= j < r ==> !MatchesAt(s, pat, j)
  {
    IndexFrom(s, pat, 0)
  }

  /** A string that contains `pat` still contains it once something is appended. */
  lemma ContainsExtended(a: string, b: string, pat: string)
    requires Contains(a, pat) && a <= b
    ensures Contains(b, pat)
  {
    var i :| MatchesAt(a, pat, i);
    assert b[i..i + |pat|] == a[i..i + |pat|];
    assert MatchesAt(b, pat, i);
  }

  /** Whatever is prepended, a string keeps the occurrences it has. */
  lemma ContainsAfterPrefix(a: string, b: string, pat: string)
    requires Contains(b, pat)
    ensures Contains(a + b, pat)
  {
    var i :| MatchesAt(b, pat, i);
    assert (a + b)[|a| + i..|a| + i + |pat|] == b[i..i + |pat|];
    assert MatchesAt(a + b, pat, |a| + i);
  }

  /** A non-empty run of non-whitespace characters: one class name. */
  predicate IsToken(w: string) {
    w != [] && forall c :: c in w ==> !IsSpace(c)
  }

  /** A non-empty string with no whitespace at any position is a single class name. */
  lemma TokenByPosition(w: string)
    requires w != [] && forall i | 0 <= i < |w| :: !IsSpace(w[i])
    ensures IsToken(w)
  {
    forall c | c in w
      ensures !IsSpace(c)
    {
      var i :| 0 <= i < |w| && w[i] == c;
    }
  }

  /** The longest prefix of `s` without whitespace. */
  function Word(s: string): (w: string)
    ensures w <= s
    ensures forall c :: c in w ==> !IsSpace(c)
    ensures |w| == |s| || IsSpace(s[|w|])
  {
    if s == [] || IsSpace(s[0]) then [] else [s[0]] + Word(s[1..])
  }

  /**
   * The class list of an element whose class attribute is `s`: the attribute
   * split at whitespace, empty pieces dropped.
   */
  function ClassTokens(s: string): (ts: seq<string>)
    ensures forall k :: 0 <= k < |ts| ==> IsToken(ts[k])
    decreases |s|
  {
    if s == [] then []
    else if IsSpace(s[0]) then ClassTokens(s[1..])
    else
      var w := Word(s);
      [w] + ClassTokens(s[|w|..])
  }

  lemma {:induction false} WordOfToken(w: string)
    requires forall c :: c in w ==> !IsSpace(c)
    ensures Word(w) == w
  {
    if w != [] {
      assert w[0] in w;
      assert forall c :: c in w[1..] ==> c in w;
      WordOfToken(w[1..]);
    }
  }

  /** A single class name is read back as a one-element class list. */
  lemma TokensOfToken(w: string)
    requires IsToken(w)
    ensures ClassTokens(w) == [w]
  {
    WordOfToken(w);
    assert w[0] in w;
    assert w[|w|..] == [];
  }

  lemma {:induction false} WordBeforeSpace(a: string, b: string)
    ensures Word(a + " " + b) == Word(a)
  {
    if a != [] && !IsSpace(a[0]) {
      assert (a + " " + b)[1..] == a[1..] + " " + b;
      WordBeforeSpace(a[1..], b);
    } else if a == [] {
      assert a + " " + b == " " + b;
    }
  }

  /** An attribute that starts with a class name lists that name first. */
  lemma TokensOfWord(s: string)
    requires s != [] && !IsSpace(s[0])
    ensures ClassTokens(s) == [Word(s)] + ClassTokens(s[|Word(s)|..])
  {
  }

  /** Cutting a joined attribute inside its first part cuts that part. */
  lemma JoinSuffix(a: string, b: string, n: nat)
    requires n <= |a|
    ensures (a + " " + b)[n..] == a[n..] + " " + b
  {
  }

  /** Joined to anything after a space, an attribute keeps its first class name, and the rest is joined the same way. */
  lemma JoinHead(a: string, b: string)
    requires a != [] && !IsSpace(a[0])
    ensures var s := a + " " + b;
            && s != [] && !IsSpace(s[0]) && Word(s) == Word(a)
            && s[|Word(a)|..] == a[|Word(a)|..] + " " + b
  {
    WordBeforeSpace(a, b);
    JoinSuffix(a, b, 0);
    JoinSuffix(a, b, |Word(a)|);
  }

  /** The join step for an attribute that starts with a class name, given the join of what follows it. */
  lemma JoinAfterWord(a: string, b: string)
    requires a != [] && !IsSpace(a[0])
    requires ClassTokens(a[|Word(a)|..] + " " + b) == ClassTokens(a[|Word(a)|..]) + ClassTokens(b)
    ensures ClassTokens(a + " " + b) == ClassTokens(a) + ClassTokens(b)
  {
    JoinHead(a, b);
    TokensOfWord(a + " " + b);
    TokensOfWord(a);
  }

  /**
   * Joining two class attributes with a space joins their class lists: this is
   * what `className += " " + c` does to the class list.
   */
  lemma {:induction false} TokensOfJoin(a: string, b: string)
    ensures ClassTokens(a + " " + b) == ClassTokens(a) + ClassTokens(b)
    decreases |a|
  {
    if a == [] {
      assert a + " " + b == " " + b;
      assert (" " + b)[1..] == b;
    } else if IsSpace(a[0]) {
      assert (a + " " + b)[1..] == a[1..] + " " + b;
      TokensOfJoin(a[1..], b);
    } else {
      TokensOfJoin(a[|Word(a)|..], b);
      JoinAfterWord(a, b);
    }
  }
}
