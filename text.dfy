/**
 * The string operations the backend relies on: Python's `str.find`, `str.replace`,
 * `str.split`/`str.join`, and the end-of-line rule of the regular-expression wildcard `.`.
 */
module Text {
  import opened Wrappers

  /** `pat` occurs in `s` starting at index `i`. */
  predicate OccursAt(s: string, pat: string, i: nat) {
    i + |pat| <= |s| && s[i..i + |pat|] == pat
  }

  predicate Contains(s: string, pat: string) {
    exists i: nat | i <= |s| :: OccursAt(s, pat, i)
  }

  /** The first occurrence of `pat` in `s` at or after `from`. */
  function FindFrom(s: string, pat: string, from: nat): (r: Option<nat>)
    requires from <= |s|
    ensures r.Some? ==> from <= r.value && OccursAt(s, pat, r.value)
    ensures r.Some? ==> forall j: nat :: from <= j < r.value ==> !OccursAt(s, pat, j)
    ensures r.None? ==> forall j: nat :: from <= j ==> !OccursAt(s, pat, j)
    decreases |s| - from
  {
    if OccursAt(s, pat, from) then Some(from)
    else if from == |s| then None
    else FindFrom(s, pat, from + 1)
  }

  /** Python's `s.find(pat)`: the leftmost occurrence, or None. */
  function Find(s: string, pat: string): (r: Option<nat>)
    ensures r.Some? ==> OccursAt(s, pat, r.value) && forall j: nat :: j < r.value ==> !OccursAt(s, pat, j)
    ensures r.None? <==> !Contains(s, pat)
  {
    FindFrom(s, pat, 0)
  }

  /** The leftmost occurrence is the one `Find` reports. */
  lemma FindIsLeftmost(s: string, pat: string, i: nat)
    requires OccursAt(s, pat, i)
    requires forall j: nat :: j < i ==> !OccursAt(s, pat, j)
    ensures Find(s, pat) == Some(i)
  {
    assert Contains(s, pat);
  }

  /**
   * A pattern without line breaks, absent from a run of whole lines, is first found where
   * the next line starts with it.
   */
  lemma FindAfterLines(before: string, pat: string, rest: string)
    requires !Contains(before, pat) && '\n' !in pat
    requires before == [] || before[|before| - 1] == '\n'
    requires pat <= rest
    ensures Find(before + rest, pat) == Some(|before|)
  {
    var s := before + rest;
    var m := |pat|;
    assert s[|before|..|before| + m] == pat;
    forall j: nat | j < |before| ensures !OccursAt(s, pat, j) {
      if j + m <= |before| {
        assert s[j..j + m] == before[j..j + m];
        assert !OccursAt(before, pat, j);
      } else if j + m <= |s| {
        assert s[j..j + m][|before| - 1 - j] == s[|before| - 1] == '\n';
      }
    }
    FindIsLeftmost(s, pat, |before|);
  }

  /**
   * Python's `s.replace(pat, rep)`: every occurrence of `pat`, scanned left to right
   * without overlap, is replaced by `rep`.
   */
  function Replace(s: string, pat: string, rep: string): (r: string)
    requires pat != []
    ensures Find(s, pat).Some? ==> s[..Find(s, pat).value] + rep <= r
    decreases |s|
  {
    match Find(s, pat)
    case None => s
    case Some(i) => s[..i] + rep + Replace(s[i + |pat|..], pat, rep)
  }

  /** Python's `s.split(sep)`: the pieces between the non-overlapping occurrences of `sep`. */
  function Split(s: string, sep: string): (parts: seq<string>)
    requires sep != []
    ensures |parts| > 0
    decreases |s|
  {
    match Find(s, sep)
    case None => [s]
    case Some(i) => [s[..i]] + Split(s[i + |sep|..], sep)
  }

  /** Python's `sep.join(parts)`. */
  function Join(sep: string, parts: seq<string>): string
    requires |parts| > 0
  {
    if |parts| == 1 then parts[0] else parts[0] + sep + Join(sep, parts[1..])
  }

  /** No piece of a split still holds the separator. */
  lemma {:induction false} SplitPiecesAreFree(s: string, sep: string)
    requires sep != []
    ensures forall k :: 0 <= k < |Split(s, sep)| ==> !Contains(Split(s, sep)[k], sep)
    decreases |s|
  {
    match Find(s, sep)
    case None =>
    case Some(i) =>
      SplitPiecesAreFree(s[i + |sep|..], sep);
      forall j: nat | OccursAt(s[..i], sep, j)
        ensures false
      {
        assert s[..i][j..j + |sep|] == s[j..j + |sep|];
        assert OccursAt(s, sep, j);
      }
      assert !Contains(s[..i], sep);
      var parts := Split(s, sep);
      assert parts == [s[..i]] + Split(s[i + |sep|..], sep);
      forall k | 0 <= k < |parts|
        ensures !Contains(parts[k], sep)
      {
        if k > 0 {
          assert parts[k] == Split(s[i + |sep|..], sep)[k - 1];
        }
      }
  }

  /** Joining the pieces of a split with the separator gives back the original string. */
  lemma {:induction false} SplitJoinRoundTrip(s: string, sep: string)
    requires sep != []
    ensures Join(sep, Split(s, sep)) == s
    decreases |s|
  {
    match Find(s, sep)
    case None =>
    case Some(i) =>
      var rest := s[i + |sep|..];
      SplitJoinRoundTrip(rest, sep);
      var parts := Split(s, sep);
      assert parts[1..] == Split(rest, sep);
      assert s[i..i + |sep|] == sep;
      assert s == s[..i] + sep + rest;
  }

  /**
   * Replacement is the join of the split with the replacement text: the source
   * is cut at every occurrence of `pat` and the pieces are glued back with `rep`.
   */
  lemma {:induction false} ReplaceIsJoinOfSplit(s: string, pat: string, rep: string)
    requires pat != []
    ensures Replace(s, pat, rep) == Join(rep, Split(s, pat))
    decreases |s|
  {
    match Find(s, pat)
    case None =>
    case Some(i) =>
      var rest := s[i + |pat|..];
      ReplaceIsJoinOfSplit(rest, pat, rep);
      var parts := Split(s, pat);
      assert parts[1..] == Split(rest, pat);
  }

  /** A string without the pattern is left as it is. */
  lemma ReplaceAbsent(s: string, pat: string, rep: string)
    requires pat != [] && !Contains(s, pat)
    ensures Replace(s, pat, rep) == s
  {
  }

  /** When the pattern occurs, the replacement text appears in the result. */
  lemma ReplaceInserts(s: string, pat: string, rep: string)
    requires pat != [] && Contains(s, pat)
    ensures Contains(Replace(s, pat, rep), rep)
  {
    var i := Find(s, pat).value;
    var r := Replace(s, pat, rep);
    assert r == s[..i] + rep + Replace(s[i + |pat|..], pat, rep);
    assert r[i..i + |rep|] == rep;
    assert OccursAt(r, rep, i);
  }

  /**
   * The conditions under which no occurrence of `pat` can straddle a seam around `rep`: the
   * replacement's first character occurs in the pattern only at its head, the pattern's first
   * character occurs in the replacement only at its head, and the replacement differs from the
   * pattern within their common length.
   */
  predicate SeamFree(pat: string, rep: string) {
    && pat != [] && rep != []
    && (forall k :: 0 < k < |pat| ==> pat[k] != rep[0])
    && (forall k :: 0 < k < |rep| ==> rep[k] != pat[0])
    && (exists k :: 0 <= k < |pat| && k < |rep| && pat[k] != rep[k])
  }

  /** No occurrence of the pattern survives a replacement whose seams it cannot straddle. */
  lemma {:induction false} ReplaceLeavesNoPattern(s: string, pat: string, rep: string)
    requires SeamFree(pat, rep)
    ensures !Contains(Replace(s, pat, rep), pat)
    decreases |s|
  {
    var found := Find(s, pat);
    if found.Some? {
      var i := found.value;
      var x := s[..i];
      var y := Replace(s[i + |pat|..], pat, rep);
      ReplaceLeavesNoPattern(s[i + |pat|..], pat, rep);
      BeforeFirstIsFree(s, pat, i);
      assert Replace(s, pat, rep) == x + rep + y;
      forall j: nat | j <= |x + rep + y|
        ensures !OccursAt(x + rep + y, pat, j)
      {
        NotAcrossSeam(x, rep, y, pat, j);
      }
    }
  }

  /** The text before the first occurrence holds no occurrence of its own. */
  lemma BeforeFirstIsFree(s: string, pat: string, i: nat)
    requires pat != [] && Find(s, pat) == Some(i)
    ensures forall j: nat :: j + |pat| <= |s[..i]| ==> !OccursAt(s[..i], pat, j)
  {
    forall j: nat | j + |pat| <= i
      ensures !OccursAt(s[..i], pat, j)
    {
      assert s[..i][j..j + |pat|] == s[j..j + |pat|];
      assert !OccursAt(s, pat, j);
    }
  }

  /** With `x` and `y` free of the pattern, no occurrence starts at `j` in `x + rep + y`. */
  lemma NotAcrossSeam(x: string, rep: string, y: string, pat: string, j: nat)
    requires SeamFree(pat, rep)
    requires forall j': nat :: j' + |pat| <= |x| ==> !OccursAt(x, pat, j')
    requires !Contains(y, pat)
    ensures !OccursAt(x + rep + y, pat, j)
  {
    var r := x + rep + y;
    var m := |pat|;
    if j + m > |r| {
    } else if j + m <= |x| {
      assert r[j..j + m] == x[j..j + m];
      assert !OccursAt(x, pat, j);
    } else if j < |x| {
      assert r[j..j + m][|x| - j] == rep[0] != pat[|x| - j];
    } else if j == |x| {
      var k :| 0 <= k < |pat| && k < |rep| && pat[k] != rep[k];
      assert r[j..j + m][k] == rep[k];
    } else if j < |x| + |rep| {
      assert r[j..j + m][0] == rep[j - |x|] != pat[0];
    } else {
      var j' := j - |x| - |rep|;
      assert r[j..j + m] == y[j'..j' + m];
      assert !OccursAt(y, pat, j');
    }
  }

  /** A string that starts with the pattern gets the replacement in front. */
  lemma ReplaceLeading(t: string, pat: string, rep: string)
    requires pat != []
    ensures Replace(pat + t, pat, rep) == rep + Replace(t, pat, rep)
  {
    var s := pat + t;
    assert s[0..|pat|] == pat;
    FindIsLeftmost(s, pat, 0);
    assert s[..0] == [] && s[|pat|..] == t;
    calc {
      Replace(s, pat, rep);
      s[..0] + rep + Replace(s[|pat|..], pat, rep);
      rep + Replace(t, pat, rep);
    }
  }

  /**
   * What the wildcard `.*` of Python's `re` module takes from `s`: the longest
   * prefix that holds no line break.
   */
  function TakeLine(s: string): (line: string)
    ensures line <= s
    ensures '\n' !in line
    ensures |line| == |s| || s[|line|] == '\n'
  {
    if s == [] || s[0] == '\n' then [] else [s[0]] + TakeLine(s[1..])
  }

  /** A line followed by a line break is taken whole, whatever comes after the break. */
  lemma {:induction false} TakeLineBeforeBreak(line: string, after: string)
    requires '\n' !in line
    ensures TakeLine(line + "\n" + after) == line
  {
    if line != [] {
      assert (line + "\n" + after)[1..] == line[1..] + "\n" + after;
      TakeLineBeforeBreak(line[1..], after);
      assert [line[0]] + line[1..] == line;
    }
  }

  /**
   * When the first line holding `pat` starts with it, the search finds it there and the
   * rest of that line is everything up to the next line break.
   */
  lemma MarkedLine(before: string, pat: string, line: string, after: string)
    requires !Contains(before, pat) && '\n' !in pat
    requires before == [] || before[|before| - 1] == '\n'
    requires '\n' !in line
    ensures var s := before + pat + line + "\n" + after;
      Find(s, pat) == Some(|before|) && TakeLine(s[|before| + |pat|..]) == line
  {
    var tail := line + "\n" + after;
    var rest := pat + tail;
    assert before + pat + line + "\n" + after == before + rest;
    FindAfterLines(before, pat, rest);
    assert (before + rest)[|before| + |pat|..] == tail;
    TakeLineBeforeBreak(line, after);
  }
}
