/**
  The string primitives the artifact names depend on: Python's `str.endswith`
  and `str.replace`. `Replace` follows CPython: it scans left to right,
  replaces the leftmost occurrence, resumes right after it, and so replaces
  every non-overlapping occurrence.
 */
module StringOps {

  predicate StartsWith(s: string, prefix: string)
  {
    |prefix| <= |s| && s[..|prefix|] == prefix
  }

  predicate EndsWith(s: string, suffix: string)
  {
    |suffix| <= |s| && s[|s| - |suffix|..] == suffix
  }

  /** `pat` occurs in `s` starting at position `i`. */
  predicate OccursAt(s: string, pat: string, i: int)
  {
    0 <= i && i + |pat| <= |s| && s[i..i + |pat|] == pat
  }

  predicate Contains(s: string, pat: string)
  {
    exists i | 0 <= i <= |s| :: OccursAt(s, pat, i)
  }

  /** `s.replace(pat, rep)` for a non-empty pattern. */
  function Replace(s: string, pat: string, rep: string): string
    requires pat != []
    decreases |s|
  {
    if StartsWith(s, pat) then rep + Replace(s[|pat|..], pat, rep)
    else if s == [] then []
    else [s[0]] + Replace(s[1..], pat, rep)
  }

  /** A string without the pattern comes back unchanged. */
  lemma {:induction false} ReplaceAbsent(s: string, pat: string, rep: string)
    requires pat != []
    requires !Contains(s, pat)
    ensures Replace(s, pat, rep) == s
    decreases |s|
  {
    if StartsWith(s, pat) {
      assert OccursAt(s, pat, 0);
    } else if s != [] {
      forall i | OccursAt(s[1..], pat, i)
        ensures false
      {
        assert s[i + 1..i + 1 + |pat|] == s[1..][i..i + |pat|];
        assert OccursAt(s, pat, i + 1);
      }
      ReplaceAbsent(s[1..], pat, rep);
    }
  }

  /** The pattern occurs right at the front: it is replaced. */
  lemma ReplaceHit(s: string, pat: string, rep: string)
    requires pat != []
    ensures Replace(pat + s, pat, rep) == rep + Replace(s, pat, rep)
  {
    assert (pat + s)[..|pat|] == pat;
    assert (pat + s)[|pat|..] == s;
  }

  /** A leading word none of whose characters can start the pattern is kept
      as it is, and the scan goes on after it. */
  lemma {:induction false} ReplaceSkip(w: string, s: string, pat: string, rep: string)
    requires pat != []
    requires pat[0] !in w
    ensures Replace(w + s, pat, rep) == w + Replace(s, pat, rep)
    decreases |w|
  {
    if w != [] {
      assert (w + s)[0] == w[0] != pat[0];
      assert !StartsWith(w + s, pat);
      assert (w + s)[1..] == w[1..] + s;
      ReplaceSkip(w[1..], s, pat, rep);
      assert [w[0]] + w[1..] == w;
    } else {
      assert w + s == s;
    }
  }

  /** A character that does not occur in the pattern splits the scan:
      no occurrence can straddle it. */
  lemma {:induction false} ReplaceAround(a: string, c: char, b: string, pat: string, rep: string)
    requires pat != []
    requires c !in pat
    ensures Replace(a + [c] + b, pat, rep) == Replace(a, pat, rep) + [c] + Replace(b, pat, rep)
    decreases |a|
  {
    var s := a + [c] + b;
    if |a| < |pat| {
      assert s[|a|] == c;
      assert !StartsWith(s, pat);
      assert !StartsWith(a, pat);
      if a == [] {
        assert !StartsWith([c] + b, pat) by { assert ([c] + b)[0] == c; }
        assert ([c] + b)[1..] == b;
        assert s == [c] + b;
      } else {
        assert s[1..] == a[1..] + [c] + b;
        ReplaceAround(a[1..], c, b, pat, rep);
      }
    } else {
      assert s[..|pat|] == a[..|pat|];
      if StartsWith(a, pat) {
        assert s[|pat|..] == a[|pat|..] + [c] + b;
        ReplaceAround(a[|pat|..], c, b, pat, rep);
      } else {
        assert s[1..] == a[1..] + [c] + b;
        ReplaceAround(a[1..], c, b, pat, rep);
      }
    }
  }

  /** If a character of the pattern is missing from `s`, the pattern is too. */
  lemma CharAbsent(s: string, pat: string, k: nat)
    requires k < |pat| && pat[k] !in s
    ensures !Contains(s, pat)
  {
  }

  /** When the pattern is at the front, the result starts with the replacement. */
  lemma ReplaceHead(s: string, pat: string, rep: string)
    requires pat != [] && rep != []
    ensures StartsWith(s, pat) ==> |Replace(s, pat, rep)| > 0 && Replace(s, pat, rep)[0] == rep[0]
  {
  }

  /** A replacement that starts with a character outside `w` cannot be read
      back as the start of `w`: a `w` at the front of the result was already
      at the front of the input. */
  lemma {:induction false} ReplaceKeepsPrefix(s: string, w: string, pat: string, rep: string)
    requires pat != [] && rep != []
    requires rep[0] !in w
    requires StartsWith(Replace(s, pat, rep), w)
    ensures StartsWith(s, w)
    decreases |s|
  {
    var r := Replace(s, pat, rep);
    if w != [] {
      ReplaceHead(s, pat, rep);
      assert r[..|w|][0] == w[0];
      var r' := Replace(s[1..], pat, rep);
      assert r == [s[0]] + r';
      assert r'[..|w| - 1] == r[..|w|][1..] == w[1..];
      ReplaceKeepsPrefix(s[1..], w[1..], pat, rep);
      assert s[..|w|] == [s[0]] + s[1..][..|w| - 1];
    }
  }

  /** Putting a character in front of a replaced string creates no match at
      the front, unless the unreplaced string had one there. */
  lemma StartsAfterCons(c: char, t: string, pat: string, rep: string)
    requires pat != [] && rep != []
    requires rep[0] !in pat[1..]
    ensures StartsWith([c] + Replace(t, pat, rep), pat) ==> StartsWith([c] + t, pat)
  {
    var r := [c] + Replace(t, pat, rep);
    if StartsWith(r, pat) {
      assert r[..|pat|][0] == pat[0];
      assert Replace(t, pat, rep)[..|pat| - 1] == r[..|pat|][1..] == pat[1..];
      ReplaceKeepsPrefix(t, pat[1..], pat, rep);
      assert ([c] + t)[..|pat|] == [c] + t[..|pat| - 1];
    }
  }

  /** When the replacement shares no character with the pattern, the result
      holds no occurrence of the pattern. */
  lemma {:induction false} ReplaceRemovesAll(s: string, pat: string, rep: string)
    requires pat != [] && rep != []
    requires forall k :: 0 <= k < |rep| ==> rep[k] !in pat
    ensures !Contains(Replace(s, pat, rep), pat)
    decreases |s|
  {
    var r := Replace(s, pat, rep);
    if StartsWith(s, pat) {
      var r' := Replace(s[|pat|..], pat, rep);
      assert r == rep + r';
      ReplaceRemovesAll(s[|pat|..], pat, rep);
      forall i | 0 <= i <= |r|
        ensures !OccursAt(r, pat, i)
      {
        if i < |rep| {
          assert r[i] == rep[i] != pat[0];
        } else if i + |pat| <= |r| {
          assert r[i..i + |pat|] == r'[i - |rep|..i - |rep| + |pat|];
          assert !OccursAt(r', pat, i - |rep|);
        }
      }
    } else if s != [] {
      var r' := Replace(s[1..], pat, rep);
      assert r == [s[0]] + r';
      ReplaceRemovesAll(s[1..], pat, rep);
      forall i | 0 <= i <= |r|
        ensures !OccursAt(r, pat, i)
      {
        if i == 0 {
          assert rep[0] !in pat[1..];
          StartsAfterCons(s[0], s[1..], pat, rep);
          assert [s[0]] + s[1..] == s;
        } else if i + |pat| <= |r| {
          assert r[i..i + |pat|] == r'[i - 1..i - 1 + |pat|];
          assert !OccursAt(r', pat, i - 1);
        }
      }
    }
  }

  /** Under the same condition replacing is idempotent. */
  lemma ReplaceIdempotent(s: string, pat: string, rep: string)
    requires pat != [] && rep != []
    requires forall k :: 0 <= k < |rep| ==> rep[k] !in pat
    ensures Replace(Replace(s, pat, rep), pat, rep) == Replace(s, pat, rep)
  {
    ReplaceRemovesAll(s, pat, rep);
    ReplaceAbsent(Replace(s, pat, rep), pat, rep);
  }

  /** A pattern at the very end, after a word none of whose characters can
      start it, is replaced once. */
  lemma ReplaceAtEnd(w: string, pat: string, rep: string)
    requires pat != []
    requires pat[0] !in w
    ensures Replace(w + pat, pat, rep) == w + rep
  {
    ReplaceSkip(w, pat, pat, rep);
    ReplaceHit([], pat, rep);
    assert pat + [] == pat;
  }

  /** A pattern-free word before a separator that cannot belong to the
      pattern is kept, and the scan goes on after the separator. */
  lemma ReplaceKeepBefore(a: string, c: char, b: string, pat: string, rep: string)
    requires pat != []
    requires c !in pat && !Contains(a, pat)
    ensures Replace(a + [c] + b, pat, rep) == a + [c] + Replace(b, pat, rep)
  {
    ReplaceAround(a, c, b, pat, rep);
    ReplaceAbsent(a, pat, rep);
  }

  /** An occurrence in a prefix is an occurrence in the whole string. */
  lemma ContainsInPrefix(s: string, prefix: string, pat: string)
    requires StartsWith(s, prefix) && Contains(prefix, pat)
    ensures Contains(s, pat)
  {
    var i :| 0 <= i <= |prefix| && OccursAt(prefix, pat, i);
    assert s[i..i + |pat|] == prefix[i..i + |pat|];
    assert OccursAt(s, pat, i);
  }
}
