/**
 * The JavaScript string operations the application relies on: the `\s`
 * character class (the same set `String.prototype.trim` removes), `trim`,
 * `split(/\s+/)`, `filter(Boolean)`, `includes`, `substring(0, n)` and
 * `toLowerCase`, together with an independent definition of "the number of
 * words" (maximal runs of non-whitespace characters) and the lemmas that
 * connect the library-style chains to it.
 */
module Text {

  /** ECMAScript WhiteSpace and LineTerminator code points: the `\s` class. */
  predicate IsWhitespace(c: char) {
    || c == '\t' || c == '\n' || c == '\U{0B}' || c == '\U{0C}' || c == '\r' || c == ' '
    || c == '\U{A0}' || c == '\U{1680}' || ('\U{2000}' <= c <= '\U{200A}')
    || c == '\U{2028}' || c == '\U{2029}' || c == '\U{202F}' || c == '\U{205F}'
    || c == '\U{3000}' || c == '\U{FEFF}'
  }

  ghost predicate AllWhitespace(s: string) {
    forall i :: 0 <= i < |s| ==> IsWhitespace(s[i])
  }

  // ---------------------------------------------------------------------------
  // trim

  /** `s.trimStart()`: drops the leading whitespace and nothing else. */
  function TrimStart(s: string): (r: string)
    ensures |r| <= |s| && r == s[|s| - |r|..]
    ensures r == [] || !IsWhitespace(r[0])
    ensures AllWhitespace(s[..|s| - |r|])
  {
    if s == [] || !IsWhitespace(s[0]) then s else TrimStart(s[1..])
  }

  /** `s.trimEnd()`: drops the trailing whitespace and nothing else. */
  function TrimEnd(s: string): (r: string)
    ensures |r| <= |s| && r == s[..|r|]
    ensures r == [] || !IsWhitespace(r[|r| - 1])
    ensures AllWhitespace(s[|r|..])
  {
    if s == [] || !IsWhitespace(s[|s| - 1]) then s else TrimEnd(s[..|s| - 1])
  }

  /** `s.trim()`: empty exactly when `s` is blank, otherwise starts and ends with a non-blank. */
  function Trim(s: string): (r: string)
    ensures r == [] <==> AllWhitespace(s)
    ensures r != [] ==> !IsWhitespace(r[0]) && !IsWhitespace(r[|r| - 1])
  {
    var t := TrimStart(s);
    var r := TrimEnd(t);
    assert r == [] ==> AllWhitespace(s) by {
      if r == [] {
        assert s == s[..|s| - |t|] + t;
        assert t == t[|r|..];
      }
    }
    assert r != [] ==> r[0] == t[0];
    r
  }

  // ---------------------------------------------------------------------------
  // words

  /**
   * The number of maximal runs of non-whitespace characters in `s`, where
   * `inWord` says that the character just before `s` was part of a run.
   * This is the reference meaning of "number of words".
   */
  function Runs(s: string, inWord: bool): nat {
    if s == [] then 0
    else if IsWhitespace(s[0]) then Runs(s[1..], false)
    else (if inWord then 0 else 1) + Runs(s[1..], true)
  }

  function WordRuns(s: string): nat {
    Runs(s, false)
  }

  /** `s.split(/\s+/)`: the pieces between maximal whitespace runs, keeping the empty first and last pieces. */
  function SplitWs(s: string): (r: seq<string>)
    ensures |r| >= 1
    ensures r[0] == [] <==> s == [] || IsWhitespace(s[0])
    decreases |s|
  {
    if s == [] then [[]]
    else if IsWhitespace(s[0]) then [[]] + SplitWs(TrimStart(s))
    else
      var rest := SplitWs(s[1..]);
      [[s[0]] + rest[0]] + rest[1..]
  }

  /** `pieces.filter(Boolean)` on strings: the non-empty pieces, in order. */
  function NonEmpty(pieces: seq<string>): (r: seq<string>)
    ensures |r| <= |pieces|
    ensures forall w :: w in r ==> w != [] && w in pieces
    ensures forall w :: w in pieces && w != [] ==> w in r
  {
    if pieces == [] then []
    else (if pieces[0] != [] then [pieces[0]] else []) + NonEmpty(pieces[1..])
  }

  /** A run starting at the first character is counted once, whatever the flag says afterwards. */
  lemma RunsFlag(s: string)
    ensures Runs(s, false) == Runs(s, true) + (if s != [] && !IsWhitespace(s[0]) then 1 else 0)
  {
  }

  /** Leading whitespace contributes no word and ends any run in progress. */
  lemma {:induction false} RunsAfterBlank(w: string, t: string, inWord: bool)
    requires w != [] && AllWhitespace(w)
    ensures Runs(w + t, inWord) == Runs(t, false)
    decreases |w|
  {
    assert (w + t)[1..] == w[1..] + t;
    if |w| > 1 {
      RunsAfterBlank(w[1..], t, false);
    }
  }

  /** Trailing whitespace contributes no word. */
  lemma {:induction false} RunsBeforeBlank(x: string, w: string, inWord: bool)
    requires AllWhitespace(w)
    ensures Runs(x + w, inWord) == Runs(x, inWord)
    decreases |x|
  {
    if x == [] {
      assert x + w == w;
      if w != [] {
        assert w + [] == w;
        RunsAfterBlank(w, [], inWord);
      }
    } else {
      assert (x + w)[1..] == x[1..] + w;
      RunsBeforeBlank(x[1..], w, !IsWhitespace(x[0]));
    }
  }

  /** A text has no word exactly when it is blank. */
  lemma {:induction false} NoRunsIffBlank(s: string)
    ensures WordRuns(s) == 0 <==> AllWhitespace(s)
    decreases |s|
  {
    if s != [] {
      NoRunsIffBlank(s[1..]);
      if IsWhitespace(s[0]) {
        assert AllWhitespace(s) <==> AllWhitespace(s[1..]) by {
          assert forall i :: 1 <= i < |s| ==> s[i] == s[1..][i - 1];
        }
      }
    }
  }

  /** Dropping the leading whitespace does not change the number of words. */
  lemma TrimStartKeepsRuns(s: string)
    ensures WordRuns(TrimStart(s)) == WordRuns(s)
  {
    var t := TrimStart(s);
    var p := s[..|s| - |t|];
    assert s == p + t;
    if p != [] {
      RunsAfterBlank(p, t, false);
    }
  }

  /** Dropping the trailing whitespace does not change the number of words. */
  lemma TrimEndKeepsRuns(t: string)
    ensures WordRuns(TrimEnd(t)) == WordRuns(t)
  {
    var r := TrimEnd(t);
    assert t == r + t[|r|..];
    RunsBeforeBlank(r, t[|r|..], false);
  }

  /** Trimming does not change the number of words. */
  lemma TrimKeepsRuns(s: string)
    ensures WordRuns(Trim(s)) == WordRuns(s)
  {
    TrimStartKeepsRuns(s);
    TrimEndKeepsRuns(TrimStart(s));
  }

  /** Replacing a run of whitespace by a single space does not change the number of words. */
  lemma {:induction false} CollapseBlankKeepsRuns(a: string, w: string, b: string, inWord: bool)
    requires w != [] && AllWhitespace(w)
    ensures Runs(a + w + b, inWord) == Runs(a + [' '] + b, inWord)
    decreases |a|
  {
    if a == [] {
      assert a + w + b == w + b;
      assert a + [' '] + b == [' '] + b;
      RunsAfterBlank(w, b, inWord);
      RunsAfterBlank([' '], b, inWord);
    } else {
      assert (a + w + b)[1..] == a[1..] + w + b;
      assert (a + [' '] + b)[1..] == a[1..] + [' '] + b;
      CollapseBlankKeepsRuns(a[1..], w, b, !IsWhitespace(a[0]));
    }
  }

  /**
   * `split(/\s+/)` yields one piece per word, plus an empty first piece when
   * the text is empty or starts blank and an empty last piece when it ends blank.
   */
  lemma {:induction false} SplitLength(s: string)
    ensures |SplitWs(s)| == WordRuns(s)
      + (if s == [] || IsWhitespace(s[0]) then 1 else 0)
      + (if s != [] && IsWhitespace(s[|s| - 1]) then 1 else 0)
    decreases |s|
  {
    if s == [] {
    } else if IsWhitespace(s[0]) {
      var t := TrimStart(s);
      var p := s[..|s| - |t|];
      assert s == p + t;
      RunsAfterBlank(p, t, false);
      if t == [] {
        assert AllWhitespace(s);
      } else {
        SplitLength(t);
        assert t[|t| - 1] == s[|s| - 1];
      }
    } else {
      SplitLength(s[1..]);
      RunsFlag(s[1..]);
      if s[1..] != [] {
        assert s[1..][|s[1..]| - 1] == s[|s| - 1];
      }
    }
  }

  /** `s.split(/\s+/).filter(Boolean).length` is the number of words of `s`. */
  lemma {:induction false} SplitNonEmptyCountsRuns(s: string)
    ensures |NonEmpty(SplitWs(s))| == WordRuns(s)
    decreases |s|
  {
    if s == [] {
    } else if IsWhitespace(s[0]) {
      var t := TrimStart(s);
      var p := s[..|s| - |t|];
      assert s == p + t;
      RunsAfterBlank(p, t, false);
      SplitNonEmptyCountsRuns(t);
      assert ([[]] + SplitWs(t))[1..] == SplitWs(t);
    } else {
      var rest := SplitWs(s[1..]);
      SplitNonEmptyCountsRuns(s[1..]);
      RunsFlag(s[1..]);
      var pieces := [[s[0]] + rest[0]] + rest[1..];
      assert pieces[1..] == rest[1..];
      assert |NonEmpty(rest)| == (if rest[0] != [] then 1 else 0) + |NonEmpty(rest[1..])|;
    }
  }

  // ---------------------------------------------------------------------------
  // search and case

  predicate OccursAt(s: string, sub: string, i: nat) {
    i + |sub| <= |s| && s[i..i + |sub|] == sub
  }

  /** `s.includes(sub)`. */
  function Contains(s: string, sub: string): (r: bool)
    ensures r <==> exists i: nat :: OccursAt(s, sub, i)
    decreases |s|
  {
    if |sub| > |s| then false
    else if s[..|sub|] == sub then assert OccursAt(s, sub, 0); true
    else
      var r := Contains(s[1..], sub);
      assert forall i: nat :: OccursAt(s, sub, i + 1) <==> OccursAt(s[1..], sub, i) by {
        forall i: nat ensures OccursAt(s, sub, i + 1) <==> OccursAt(s[1..], sub, i) {
          if i + 1 + |sub| <= |s| {
            var here, there := s[i + 1..i + 1 + |sub|], s[1..][i..i + |sub|];
            assert |here| == |there|;
            assert forall k :: 0 <= k < |here| ==> here[k] == there[k];
            assert here == there;
          }
        }
      }
      assert (exists i: nat :: OccursAt(s, sub, i)) ==> r by {
        if i: nat :| OccursAt(s, sub, i) {
          assert i > 0;
          assert OccursAt(s[1..], sub, i - 1);
        }
      }
      assert r ==> OccursAt(s, sub, (var i: nat :| OccursAt(s[1..], sub, i); i) + 1);
      r
  }

  /**
   * `toLowerCase` on one character, for the ranges the application's keywords
   * use: ASCII capitals and the Latin-1 capitals (U+00C0 to U+00DE except the
   * multiplication sign). Every other character is left as it is.
   */
  function LowerChar(c: char): char {
    if 'A' <= c <= 'Z' || ('\U{C0}' <= c <= '\U{DE}' && c != '\U{D7}') then (c as int + 32) as char else c
  }

  function Lower(s: string): string {
    seq(|s|, i requires 0 <= i < |s| => LowerChar(s[i]))
  }

  /** `s.substring(0, n)`: the first `n` characters, or all of them when there are fewer. */
  function Prefix(s: string, n: nat): (r: string)
    ensures |r| == if |s| < n then |s| else n
    ensures r <= s
  {
    if |s| <= n then s else s[..n]
  }
}
