/** The handful of Python string operations the charm and the benchmark
    action rely on, written out with their exact semantics:
    `str.replace`, `str.split(sep)`, `str.splitlines()` and the whitespace
    word split that `shlex.split` performs on text without quotes. */
module Strings {

  // ---------------------------------------------------------------------
  // str.replace
  // ---------------------------------------------------------------------

  /** `pat` occurs in `s` starting at index `i`. */
  predicate OccursAt(pat: string, s: string, i: int)
  {
    0 <= i && i + |pat| <= |s| && s[i..i + |pat|] == pat
  }

  ghost predicate Occurs(pat: string, s: string)
  {
    exists i :: OccursAt(pat, s, i)
  }

  /** Python's `s.replace(pat, rep)` for a non-empty `pat`: a left-to-right
      scan that replaces every non-overlapping occurrence, leftmost first,
      and never rescans the text it has produced. */
  function ReplaceAll(s: string, pat: string, rep: string): (r: string)
    requires |pat| > 0
    ensures |pat| == |rep| ==> |r| == |s|
    decreases |s|
  {
    if |s| < |pat| then s
    else if s[..|pat|] == pat then rep + ReplaceAll(s[|pat|..], pat, rep)
    else [s[0]] + ReplaceAll(s[1..], pat, rep)
  }

  /** Text without any occurrence of `pat` is left as it is. */
  lemma {:induction false} ReplaceAllAbsent(s: string, pat: string, rep: string)
    requires |pat| > 0 && !Occurs(pat, s)
    ensures ReplaceAll(s, pat, rep) == s
    decreases |s|
  {
    if |s| >= |pat| {
      assert !OccursAt(pat, s, 0);
      forall i | 0 <= i ensures !OccursAt(pat, s[1..], i) {
        if OccursAt(pat, s[1..], i) {
          assert s[1..][i..i + |pat|] == s[i + 1..i + 1 + |pat|];
          assert OccursAt(pat, s, i + 1);
        }
      }
      ReplaceAllAbsent(s[1..], pat, rep);
    }
  }

  /** A prefix that cannot start a match passes through unchanged. */
  lemma {:induction false} ReplaceAllSkip(x: string, y: string, pat: string, rep: string)
    requires |pat| > 0 && pat[0] !in x
    ensures ReplaceAll(x + y, pat, rep) == x + ReplaceAll(y, pat, rep)
    decreases |x|
  {
    if x == [] {
      assert x + y == y;
    } else if |x + y| < |pat| {
      assert ReplaceAll(y, pat, rep) == y;
    } else {
      assert (x + y)[0] == x[0];
      assert (x + y)[..|pat|] != pat;
      assert (x + y)[1..] == x[1..] + y;
      ReplaceAllSkip(x[1..], y, pat, rep);
      assert [x[0]] + x[1..] == x;
    }
  }

  /** A match at the very start is replaced, and the scan resumes after it. */
  lemma ReplaceAllLeading(y: string, pat: string, rep: string)
    requires |pat| > 0
    ensures ReplaceAll(pat + y, pat, rep) == rep + ReplaceAll(y, pat, rep)
  {
    assert (pat + y)[..|pat|] == pat;
    assert (pat + y)[|pat|..] == y;
  }

  /** A prefix of the result in which the first character of `rep` never
      appears holds no replacement, so it was copied from the input. */
  lemma {:induction false} ReplaceAllPrefixCopied(s: string, pat: string, rep: string, j: nat)
    requires |pat| > 0 && |rep| > 0
    requires j <= |ReplaceAll(s, pat, rep)|
    ensures (forall k :: 0 <= k < j ==> ReplaceAll(s, pat, rep)[k] != rep[0]) ==>
              j <= |s| && ReplaceAll(s, pat, rep)[..j] == s[..j]
    decreases |s|
  {
    var r := ReplaceAll(s, pat, rep);
    if j == 0 || |s| < |pat| {
    } else if s[..|pat|] == pat {
      assert r[0] == rep[0];
    } else {
      ReplaceAllPrefixCopied(s[1..], pat, rep, j - 1);
      var r' := ReplaceAll(s[1..], pat, rep);
      assert r == [s[0]] + r';
      if forall k :: 0 <= k < j ==> r[k] != rep[0] {
        assert forall k :: 0 <= k < j - 1 ==> r'[k] == r[k + 1];
        assert r[..j] == [s[0]] + r'[..j - 1];
        assert s[..j] == [s[0]] + s[1..][..j - 1];
      }
    }
  }

  /** Deleting a pattern that opens the text, when it cannot start again
      in what follows, leaves exactly what follows. */
  lemma ReplaceAllDeletePrefix(pat: string, x: string)
    requires |pat| > 0 && pat[0] !in x
    ensures ReplaceAll(pat + x, pat, "") == x
  {
    ReplaceAllLeading(x, pat, "");
    ReplaceAllSkip(x, "", pat, "");
    assert x + "" == x;
  }

  /** Deleting a pattern that closes the text, when it cannot start
      earlier, leaves exactly what precedes it. */
  lemma ReplaceAllDeleteSuffix(x: string, pat: string)
    requires |pat| > 0 && pat[0] !in x
    ensures ReplaceAll(x + pat, pat, "") == x
  {
    ReplaceAllSkip(x, pat, pat, "");
    ReplaceAllLeading("", pat, "");
    assert pat + "" == pat;
  }

  /** A tail shorter than the pattern is never matched. */
  lemma ReplaceAllShortTail(x: string, tail: string, pat: string, rep: string)
    requires |pat| > 0 && pat[0] !in x && |tail| < |pat|
    ensures ReplaceAll(x + tail, pat, rep) == x + tail
  {
    ReplaceAllSkip(x, tail, pat, rep);
  }

  /** When no occurrence of `pat` can start inside `rep` (its first
      character is not in `rep`) and none can run into it (`rep` starts with
      a character not in `pat`), replacing leaves no occurrence behind, not
      even one formed across a replacement boundary. */
  lemma {:induction false} ReplaceAllLeavesNoPattern(s: string, pat: string, rep: string)
    requires |pat| > 0 && |rep| > 0
    requires rep[0] !in pat && pat[0] !in rep
    ensures !Occurs(pat, ReplaceAll(s, pat, rep))
    decreases |s|
  {
    var r := ReplaceAll(s, pat, rep);
    if |s| < |pat| {
    } else if s[..|pat|] == pat {
      var t := ReplaceAll(s[|pat|..], pat, rep);
      ReplaceAllLeavesNoPattern(s[|pat|..], pat, rep);
      assert r == rep + t;
      forall i | 0 <= i ensures !OccursAt(pat, r, i) {
        if i < |rep| && i + |pat| <= |r| {
          assert r[i] == rep[i] && rep[i] in rep;
          assert r[i..i + |pat|][0] == r[i] && pat[0] == pat[0];
        } else if i >= |rep| && i + |pat| <= |r| {
          assert r[i..i + |pat|] == t[i - |rep|..i - |rep| + |pat|];
          assert !OccursAt(pat, t, i - |rep|);
        }
      }
    } else {
      var t := ReplaceAll(s[1..], pat, rep);
      ReplaceAllLeavesNoPattern(s[1..], pat, rep);
      assert r == [s[0]] + t;
      forall i | 0 <= i ensures !OccursAt(pat, r, i) {
        if i == 0 && |pat| <= |r| {
          ReplaceAllPrefixCopied(s, pat, rep, |pat|);
          if !(forall k :: 0 <= k < |pat| ==> r[k] != rep[0]) {
            var k :| 0 <= k < |pat| && r[k] == rep[0];
            assert r[..|pat|][k] == r[k];
          }
        } else if i > 0 && i + |pat| <= |r| {
          assert r[i..i + |pat|] == t[i - 1..i - 1 + |pat|];
          assert !OccursAt(pat, t, i - 1);
        }
      }
    }
  }

  /** `s` with every occurrence of `c` taken out: the reference definition
      for a one-character deletion. */
  function Without(s: string, c: char): (r: string)
    ensures c !in r
    ensures |r| <= |s|
    ensures forall d :: d != c ==> (d in r <==> d in s)
  {
    if s == [] then []
    else if s[0] == c then Without(s[1..], c)
    else [s[0]] + Without(s[1..], c)
  }

  /** `s.replace(c, '')` deletes every `c` and keeps everything else. */
  lemma {:induction false} DeleteCharIsWithout(s: string, c: char)
    ensures ReplaceAll(s, [c], "") == Without(s, c)
    decreases |s|
  {
    if s != [] {
      DeleteCharIsWithout(s[1..], c);
      assert s[..1] == [s[0]];
    }
  }

  // ---------------------------------------------------------------------
  // str.split(sep) with a one-character separator
  // ---------------------------------------------------------------------

  /** Index of the first `c` in `s`. */
  function IndexOf(s: string, c: char): (i: nat)
    requires c in s
    ensures i < |s| && s[i] == c && c !in s[..i]
  {
    if s[0] == c then 0 else 1 + IndexOf(s[1..], c)
  }

  /** The first `c` after a prefix free of `c` is the one right after it. */
  lemma {:induction false} IndexOfAfter(p: string, rest: string, c: char)
    requires c !in p
    ensures IndexOf(p + [c] + rest, c) == |p|
    decreases |p|
  {
    var s := p + [c] + rest;
    if p != [] {
      assert s[0] == p[0];
      assert s[1..] == p[1..] + [c] + rest;
      IndexOfAfter(p[1..], rest, c);
    }
  }

  /** Python's `s.split(c)`: always at least one field; the separators
      themselves are dropped and nothing else is. */
  function Split(s: string, c: char): (parts: seq<string>)
    ensures |parts| >= 1
    ensures forall p :: p in parts ==> c !in p
    decreases |s|
  {
    if c !in s then [s]
    else
      var i := IndexOf(s, c);
      [s[..i]] + Split(s[i + 1..], c)
  }

  /** Python's `c.join(parts)`. */
  function Join(parts: seq<string>, c: char): string
    requires |parts| >= 1
  {
    if |parts| == 1 then parts[0] else parts[0] + [c] + Join(parts[1..], c)
  }

  /** Joining the fields of a split gives back the text. */
  lemma {:induction false} JoinSplit(s: string, c: char)
    ensures Join(Split(s, c), c) == s
    decreases |s|
  {
    if c in s {
      var i := IndexOf(s, c);
      JoinSplit(s[i + 1..], c);
      assert s == s[..i] + [c] + s[i + 1..];
    }
  }

  /** A first field free of the separator is split off whole. */
  lemma SplitAfterField(p: string, rest: string, c: char)
    requires c !in p
    ensures Split(p + [c] + rest, c) == [p] + Split(rest, c)
  {
    var s := p + [c] + rest;
    IndexOfAfter(p, rest, c);
    assert s[|p|] == c;
    assert s[..|p|] == p;
    assert s[|p| + 1..] == rest;
  }

  /** Splitting joined fields that hold no separator gives back the fields. */
  lemma {:induction false} SplitJoin(parts: seq<string>, c: char)
    requires |parts| >= 1
    requires forall k :: 0 <= k < |parts| ==> c !in parts[k]
    ensures Split(Join(parts, c), c) == parts
    decreases |parts|
  {
    if |parts| > 1 {
      var rest := parts[1..];
      assert forall k :: 0 <= k < |rest| ==> rest[k] == parts[k + 1];
      SplitJoin(rest, c);
      SplitAfterField(parts[0], Join(rest, c), c);
      assert parts == [parts[0]] + rest;
    }
  }

  /** Three fields free of the separator, joined by it, split back. */
  lemma SplitThree(a: string, b: string, c: string, sep: char)
    requires sep !in a && sep !in b && sep !in c
    ensures Split(a + [sep] + b + [sep] + c, sep) == [a, b, c]
  {
    var parts := [a, b, c];
    assert parts[1..] == [b, c];
    assert parts[1..][1..] == [c];
    assert Join([c], sep) == c;
    assert Join([b, c], sep) == b + [sep] + c;
    assert Join(parts, sep) == a + [sep] + (b + [sep] + c);
    assert a + [sep] + b + [sep] + c == a + [sep] + (b + [sep] + c);
    SplitJoin(parts, sep);
  }

  // ---------------------------------------------------------------------
  // str.splitlines()
  // ---------------------------------------------------------------------

  /** The line boundaries of Python's `str.splitlines`: \n, \r, \v, \f,
      the file/group/record separators, NEL and the two Unicode line and
      paragraph separators. */
  predicate IsLineBreak(c: char)
  {
    var n := c as int;
    n == 10 || n == 11 || n == 12 || n == 13 || n == 28 || n == 29 || n == 30
    || n == 0x85 || n == 0x2028 || n == 0x2029
  }

  predicate NoLineBreak(s: string)
  {
    forall k :: 0 <= k < |s| ==> !IsLineBreak(s[k])
  }

  lemma NoLineBreakAppend(a: string, b: string)
    requires NoLineBreak(a) && NoLineBreak(b)
    ensures NoLineBreak(a + b)
  {
    forall k | 0 <= k < |a + b| ensures (a + b)[k] == if k < |a| then a[k] else b[k - |a|] {}
  }

  /** Index of the first line boundary, or |s| when there is none. */
  function LineEnd(s: string): (i: nat)
    ensures i <= |s|
    ensures NoLineBreak(s[..i])
    ensures i < |s| ==> IsLineBreak(s[i])
  {
    if s == [] || IsLineBreak(s[0]) then 0 else 1 + LineEnd(s[1..])
  }

  /** A line free of boundaries ends at the boundary that follows it. */
  lemma {:induction false} LineEndAfter(l: string, rest: string)
    requires NoLineBreak(l)
    requires rest != [] && IsLineBreak(rest[0])
    ensures LineEnd(l + rest) == |l|
    decreases |l|
  {
    var s := l + rest;
    if l != [] {
      assert s[0] == l[0];
      assert s[1..] == l[1..] + rest;
      LineEndAfter(l[1..], rest);
    }
  }

  /** Python's `s.splitlines()`: "\r\n" is one boundary, a final boundary
      does not open an empty last line, and "" has no lines at all. */
  function SplitLines(s: string): (lines: seq<string>)
    ensures forall k :: 0 <= k < |lines| ==> NoLineBreak(lines[k])
    ensures |lines| <= |s|
    decreases |s|
  {
    if s == [] then []
    else
      var i := LineEnd(s);
      if i == |s| then [s]
      else
        var skip := if s[i] == '\r' && i + 1 < |s| && s[i + 1] == '\n' then 2 else 1;
        [s[..i]] + SplitLines(s[i + skip..])
  }

  /** The log text of `lines`, each line ended by "\n". */
  function Terminated(lines: seq<string>): string
  {
    if lines == [] then [] else lines[0] + "\n" + Terminated(lines[1..])
  }

  /** Splitting newline-terminated lines gives back exactly those lines. */
  lemma {:induction false} SplitLinesTerminated(lines: seq<string>)
    requires forall k :: 0 <= k < |lines| ==> NoLineBreak(lines[k])
    ensures SplitLines(Terminated(lines)) == lines
    decreases |lines|
  {
    if lines != [] {
      var l := lines[0];
      var rest := Terminated(lines[1..]);
      var s := Terminated(lines);
      assert s == l + "\n" + rest;
      assert s == l + ("\n" + rest);
      LineEndAfter(l, "\n" + rest);
      var i := LineEnd(s);
      assert s[..i] == l;
      assert s[i + 1..] == rest;
      SplitLinesTerminated(lines[1..]);
    }
  }

  // ---------------------------------------------------------------------
  // Whitespace word split (shlex.split on text without quotes or escapes)
  // ---------------------------------------------------------------------

  /** The characters `shlex` treats as whitespace. */
  predicate IsSpace(c: char)
  {
    c == ' ' || c == '\t' || c == '\r' || c == '\n'
  }

  /** Text without whitespace, quotes or backslashes: `shlex` reads it
      literally and never splits it. */
  predicate ShellSafe(s: string)
  {
    forall k :: 0 <= k < |s| ==> !IsSpace(s[k]) && s[k] != '\'' && s[k] != '"' && s[k] != '\\'
  }

  lemma ShellSafeAppend(a: string, b: string)
    requires ShellSafe(a) && ShellSafe(b)
    ensures ShellSafe(a + b)
  {
    forall k | 0 <= k < |a + b| ensures (a + b)[k] == if k < |a| then a[k] else b[k - |a|] {}
  }

  /** A non-empty shell-safe word: `shlex` passes it through as one argument. */
  predicate PlainWord(w: string)
  {
    |w| > 0 && ShellSafe(w)
  }

  /** End of the word that starts `s`. */
  function WordEnd(s: string): (i: nat)
    ensures i <= |s|
    ensures forall k :: 0 <= k < i ==> !IsSpace(s[k])
    ensures i < |s| ==> IsSpace(s[i])
  {
    if s == [] || IsSpace(s[0]) then 0 else 1 + WordEnd(s[1..])
  }

  /** A word free of whitespace ends where the whitespace (or text) does. */
  lemma {:induction false} WordEndAfter(w: string, rest: string)
    requires forall k :: 0 <= k < |w| ==> !IsSpace(w[k])
    requires rest == [] || IsSpace(rest[0])
    ensures WordEnd(w + rest) == |w|
    decreases |w|
  {
    var s := w + rest;
    if w != [] {
      assert s[0] == w[0];
      assert s[1..] == w[1..] + rest;
      WordEndAfter(w[1..], rest);
    }
  }

  /** The words of `s`, as `shlex.split` gives them for plain text: runs of
      whitespace separate words and never produce empty ones. */
  function Words(s: string): (ws: seq<string>)
    ensures forall k :: 0 <= k < |ws| ==> |ws[k]| > 0
    ensures forall k, j :: 0 <= k < |ws| && 0 <= j < |ws[k]| ==> !IsSpace(ws[k][j])
    decreases |s|
  {
    if s == [] then []
    else if IsSpace(s[0]) then Words(s[1..])
    else
      var i := WordEnd(s);
      [s[..i]] + Words(s[i..])
  }

  /** A space between two texts always separates their words: the words of
      the whole are the words of the left part followed by those of the
      right part. */
  lemma {:induction false} WordsAppend(x: string, y: string)
    ensures Words(x + " " + y) == Words(x) + Words(y)
    decreases |x|
  {
    var s := x + " " + y;
    if x == [] {
      assert s == " " + y && s[1..] == y;
    } else if IsSpace(x[0]) {
      assert s[0] == x[0];
      assert s[1..] == x[1..] + " " + y;
      WordsAppend(x[1..], y);
    } else {
      var i := WordEnd(x);
      assert s == x[..i] + (x[i..] + " " + y);
      WordEndAfter(x[..i], x[i..] + " " + y);
      assert s[..i] == x[..i];
      assert s[i..] == x[i..] + " " + y;
      WordsAppend(x[i..], y);
    }
  }

  /** A plain word is a single argument. */
  lemma WordsSingle(w: string)
    requires PlainWord(w)
    ensures Words(w) == [w]
  {
    WordEndAfter(w, []);
    assert w + [] == w;
  }
}
