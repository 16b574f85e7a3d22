/**
 * String primitives with the semantics of the Python built-ins the exporter
 * uses: `str.strip()`, `str.split()` (runs of whitespace), `str.split(c)`
 * (a single-character separator), `sep.join(xs)`, `startswith`, `endswith`,
 * `in` on strings, `str.replace` and `str.rstrip(c)`.
 *
 * Whitespace is the set of ASCII characters for which Python's
 * `str.isspace()` holds.
 */
module Text {

  predicate IsSpace(c: char)
  {
    c == ' ' || (9 <= c as int <= 13) || (28 <= c as int <= 31)
  }

  predicate NoSpace(s: string)
  {
    forall i :: 0 <= i < |s| ==> !IsSpace(s[i])
  }

  predicate AllSpace(s: string)
  {
    forall i :: 0 <= i < |s| ==> IsSpace(s[i])
  }

  // ---------------------------------------------------------------- strip

  /** `s.lstrip()` */
  function TrimLeft(s: string): (r: string)
    ensures |r| <= |s| && r == s[|s| - |r|..]
    ensures |r| > 0 ==> !IsSpace(r[0])
  {
    if |s| > 0 && IsSpace(s[0]) then TrimLeft(s[1..]) else s
  }

  /** `s.rstrip()` */
  function TrimRight(s: string): (r: string)
    ensures |r| <= |s| && r == s[..|r|]
    ensures |r| > 0 ==> !IsSpace(r[|r| - 1])
  {
    if |s| > 0 && IsSpace(s[|s| - 1]) then TrimRight(s[..|s| - 1]) else s
  }

  /** `s.strip()`: the result neither starts nor ends with whitespace. */
  function Strip(s: string): (r: string)
    ensures |r| <= |s|
    ensures |r| > 0 ==> !IsSpace(r[0]) && !IsSpace(r[|r| - 1])
  {
    TrimRight(TrimLeft(s))
  }

  lemma {:induction false} TrimLeftEmpty(s: string)
    ensures TrimLeft(s) == [] <==> AllSpace(s)
  {
    if |s| > 0 && IsSpace(s[0]) {
      TrimLeftEmpty(s[1..]);
      assert AllSpace(s) <==> AllSpace(s[1..]) by {
        assert forall i :: 0 < i < |s| ==> s[i] == s[1..][i - 1];
      }
    }
  }

  lemma {:induction false} TrimRightKeepsFirst(t: string)
    requires |t| > 0 && !IsSpace(t[0])
    ensures |TrimRight(t)| > 0
    decreases |t|
  {
    if IsSpace(t[|t| - 1]) {
      assert |t| > 1;
      assert t[..|t| - 1][0] == t[0];
      TrimRightKeepsFirst(t[..|t| - 1]);
    }
  }

  /** A string strips to nothing exactly when it is all whitespace. */
  lemma StripEmpty(s: string)
    ensures Strip(s) == [] <==> AllSpace(s)
  {
    var t := TrimLeft(s);
    TrimLeftEmpty(s);
    if |t| > 0 {
      TrimRightKeepsFirst(t);
    }
  }

  /** A string with no whitespace at either end is left unchanged by strip. */
  lemma StripUnchanged(s: string)
    requires |s| > 0 ==> !IsSpace(s[0]) && !IsSpace(s[|s| - 1])
    ensures Strip(s) == s
  {
  }

  /** Leading whitespace in front of a stripped text is all that `strip()` removes. */
  lemma {:induction false} StripPadded(sp: string, t: string)
    requires AllSpace(sp)
    requires |t| > 0 && !IsSpace(t[0]) && !IsSpace(t[|t| - 1])
    ensures Strip(sp + t) == t
    decreases |sp|
  {
    if |sp| > 0 {
      assert (sp + t)[1..] == sp[1..] + t;
      StripPadded(sp[1..], t);
    } else {
      assert sp + t == t;
      StripUnchanged(t);
    }
  }

  /** `lstrip()` removes a prefix made only of whitespace. */
  lemma {:induction false} TrimLeftDrops(s: string)
    ensures AllSpace(s[..|s| - |TrimLeft(s)|])
  {
    if |s| > 0 && IsSpace(s[0]) {
      TrimLeftDrops(s[1..]);
      var n := |s| - |TrimLeft(s)|;
      assert forall i :: 1 <= i < n ==> s[i] == s[1..][..n - 1][i - 1];
    }
  }

  /** `rstrip()` removes a suffix made only of whitespace. */
  lemma {:induction false} TrimRightDrops(s: string)
    ensures AllSpace(s[|TrimRight(s)|..])
  {
    if |s| > 0 && IsSpace(s[|s| - 1]) {
      var init := s[..|s| - 1];
      TrimRightDrops(init);
      var n := |TrimRight(s)|;
      assert forall i :: n <= i < |s| - 1 ==> s[i] == init[n..][i - n];
    }
  }

  /** `strip()` returns a slice of its input whose two cut-off ends are all whitespace. */
  lemma StripTrims(s: string)
    ensures exists i, j :: 0 <= i <= j <= |s| && Strip(s) == s[i..j] && AllSpace(s[..i]) && AllSpace(s[j..])
  {
    var t := TrimLeft(s);
    var i := |s| - |t|;
    var j := i + |TrimRight(t)|;
    TrimLeftDrops(s);
    TrimRightDrops(t);
    assert t == s[i..];
    assert Strip(s) == s[i..j];
    assert s[j..] == t[|TrimRight(t)|..];
  }

  lemma {:induction false} TrimLeftAppend(s: string, c: char)
    requires !AllSpace(s)
    ensures TrimLeft(s + [c]) == TrimLeft(s) + [c]
  {
    assert (s + [c])[0] == s[0];
    if IsSpace(s[0]) {
      assert (s + [c])[1..] == s[1..] + [c];
      TrimLeftAppend(s[1..], c);
    }
  }

  /** Whitespace appended at the end is removed again by strip. */
  lemma StripTrailingSpace(s: string, c: char)
    requires IsSpace(c)
    ensures Strip(s + [c]) == Strip(s)
  {
    if AllSpace(s) {
      StripEmpty(s);
      StripEmpty(s + [c]);
    } else {
      TrimLeftAppend(s, c);
      var t := TrimLeft(s);
      assert (t + [c])[..|t|] == t;
    }
  }

  /** Stripping twice is stripping once. */
  lemma StripIdempotent(s: string)
    ensures Strip(Strip(s)) == Strip(s)
  {
    StripUnchanged(Strip(s));
  }

  // ---------------------------------------------------------------- split()

  /** The longest prefix of `s` without whitespace. */
  function Token(s: string): (w: string)
    ensures |w| <= |s| && w == s[..|w|]
    ensures NoSpace(w)
    ensures |w| < |s| ==> IsSpace(s[|w|])
    ensures |s| > 0 && !IsSpace(s[0]) ==> |w| > 0
  {
    if |s| == 0 || IsSpace(s[0]) then "" else [s[0]] + Token(s[1..])
  }

  /** A non-empty run of non-whitespace characters. */
  predicate IsWord(w: string)
  {
    |w| > 0 && NoSpace(w)
  }

  /** `s.split()`: the maximal runs of non-whitespace characters, in order. */
  function Words(s: string): (ws: seq<string>)
    ensures forall i :: 0 <= i < |ws| ==> IsWord(ws[i])
    decreases |s|
  {
    if |s| == 0 then []
    else if IsSpace(s[0]) then Words(s[1..])
    else
      var w := Token(s);
      [w] + Words(s[|w|..])
  }

  /** Leading whitespace does not change the words of a string. */
  lemma {:induction false} WordsSkipSpace(sp: string, rest: string)
    requires AllSpace(sp)
    ensures Words(sp + rest) == Words(rest)
    decreases |sp|
  {
    if |sp| > 0 {
      assert (sp + rest)[1..] == sp[1..] + rest;
      WordsSkipSpace(sp[1..], rest);
    } else {
      assert sp + rest == rest;
    }
  }

  lemma {:induction false} TokenOf(w: string, rest: string)
    requires NoSpace(w)
    requires |rest| > 0 ==> IsSpace(rest[0])
    ensures Token(w + rest) == w
    decreases |w|
  {
    if |w| > 0 {
      assert (w + rest)[1..] == w[1..] + rest;
      TokenOf(w[1..], rest);
    } else {
      assert w + rest == rest;
    }
  }

  /** A word followed by whitespace (or nothing) is the first word. */
  lemma WordsCons(w: string, sp: string, rest: string)
    requires IsWord(w)
    requires AllSpace(sp)
    requires |sp| == 0 ==> rest == ""
    ensures Words(w + sp + rest) == [w] + Words(rest)
  {
    var s := w + sp + rest;
    assert TrimLeft(s) == s;
    TokenOf(w, sp + rest);
    assert s == w + (sp + rest);
    assert s[|w|..] == sp + rest;
    WordsSkipSpace(sp, rest);
  }

  function JoinSpaced(ts: seq<string>): string
  {
    if |ts| == 0 then "" else if |ts| == 1 then ts[0] else ts[0] + " " + JoinSpaced(ts[1..])
  }

  /** `" ".join(ts).split() == ts` when every token is non-empty and has no whitespace. */
  lemma {:induction false} WordsOfJoinSpaced(ts: seq<string>)
    requires forall i :: 0 <= i < |ts| ==> IsWord(ts[i])
    ensures Words(JoinSpaced(ts)) == ts
  {
    if |ts| == 0 {
      assert Words("") == [];
    } else if |ts| == 1 {
      var w := ts[0];
      WordsCons(w, "", "");
      assert w + "" + "" == w;
      assert Words("") == [];
    } else {
      var j := JoinSpaced(ts[1..]);
      var w := ts[0];
      calc {
        Words(JoinSpaced(ts));
        { assert JoinSpaced(ts) == w + " " + j; }
        Words(w + " " + j);
        { WordsCons(w, " ", j); }
        [w] + Words(j);
        { WordsOfJoinSpaced(ts[1..]); }
        [w] + ts[1..];
        { assert ts == [w] + ts[1..]; }
        ts;
      }
    }
  }

  /** Words `ts` with the runs of whitespace `gaps` between them, as a line of text is laid out. */
  function JoinRuns(ts: seq<string>, gaps: seq<string>): (s: string)
    requires |ts| > 0 && |gaps| == |ts| - 1
    ensures |ts[0]| <= |s| && s[..|ts[0]|] == ts[0]
    ensures |ts[|ts| - 1]| <= |s| && s[|s| - |ts[|ts| - 1]|..] == ts[|ts| - 1]
    decreases |ts|
  {
    if |ts| == 1 then ts[0] else ts[0] + gaps[0] + JoinRuns(ts[1..], gaps[1..])
  }

  /** Words and the non-empty whitespace runs between them. */
  predicate Runs(ts: seq<string>, gaps: seq<string>)
  {
    |ts| > 0 && |gaps| == |ts| - 1 &&
    (forall i :: 0 <= i < |ts| ==> IsWord(ts[i])) &&
    (forall i :: 0 <= i < |gaps| ==> |gaps[i]| > 0 && AllSpace(gaps[i]))
  }

  lemma RunsTail(ts: seq<string>, gaps: seq<string>)
    requires Runs(ts, gaps) && |ts| > 1
    ensures Runs(ts[1..], gaps[1..])
    ensures IsWord(ts[0]) && |gaps[0]| > 0 && AllSpace(gaps[0])
  {
    assert forall i :: 0 <= i < |ts| - 1 ==> ts[1..][i] == ts[i + 1];
    assert forall i :: 0 <= i < |gaps| - 1 ==> gaps[1..][i] == gaps[i + 1];
  }

  /** `line.split()` recovers the words of a line whatever the runs of whitespace between them. */
  lemma {:induction false} WordsOfJoinRuns(ts: seq<string>, gaps: seq<string>)
    requires Runs(ts, gaps)
    ensures Words(JoinRuns(ts, gaps)) == ts
    decreases |ts|
  {
    if |ts| == 1 {
      assert IsWord(ts[0]);
      WordsCons(ts[0], "", "");
      assert ts[0] + "" + "" == ts[0];
      assert Words("") == [];
    } else {
      RunsTail(ts, gaps);
      var w, g, j := ts[0], gaps[0], JoinRuns(ts[1..], gaps[1..]);
      WordsOfJoinRuns(ts[1..], gaps[1..]);
      assert JoinRuns(ts, gaps) == w + g + j;
      WordsCons(w, g, j);
      assert ts == [w] + ts[1..];
    }
  }


  // ---------------------------------------------------------------- split(c), join

  /** `s.split(sep)` for a one-character separator. */
  function Split(s: string, sep: char): (r: seq<string>)
    ensures |r| >= 1
    ensures forall i :: 0 <= i < |r| ==> sep !in r[i]
  {
    if |s| == 0 then [""]
    else
      var rest := Split(s[1..], sep);
      if s[0] == sep then [""] + rest else [[s[0]] + rest[0]] + rest[1..]
  }

  /** `sep.join(xs)` */
  function Join(xs: seq<string>, sep: string): string
  {
    if |xs| == 0 then "" else if |xs| == 1 then xs[0] else xs[0] + sep + Join(xs[1..], sep)
  }

  lemma JoinCons(x: string, xs: seq<string>, sep: string)
    requires |xs| > 0
    ensures Join([x] + xs, sep) == x + sep + Join(xs, sep)
  {
    assert ([x] + xs)[1..] == xs;
  }

  lemma {:induction false} JoinAppend(xs: seq<string>, ys: seq<string>, sep: string)
    requires |xs| > 0 && |ys| > 0
    ensures Join(xs + ys, sep) == Join(xs, sep) + sep + Join(ys, sep)
  {
    if |xs| == 1 {
      JoinCons(xs[0], ys, sep);
      assert xs + ys == [xs[0]] + ys;
    } else {
      JoinAppend(xs[1..], ys, sep);
      assert xs + ys == [xs[0]] + (xs[1..] + ys);
      JoinCons(xs[0], xs[1..] + ys, sep);
    }
  }

  /** A join starts with the first piece and ends with the last one. */
  lemma {:induction false} JoinEnds(xs: seq<string>, sep: string)
    requires |xs| > 0 && |xs[|xs| - 1]| > 0
    ensures |Join(xs, sep)| > 0
    ensures |xs[0]| > 0 ==> Join(xs, sep)[0] == xs[0][0]
    ensures Join(xs, sep)[|Join(xs, sep)| - 1] == xs[|xs| - 1][|xs[|xs| - 1]| - 1]
  {
    if |xs| > 1 {
      JoinEnds(xs[1..], sep);
    }
  }

  /** A character in none of the pieces and not in the separator is not in the join. */
  lemma {:induction false} JoinNoChar(xs: seq<string>, sep: string, c: char)
    requires forall i :: 0 <= i < |xs| ==> c !in xs[i]
    requires c !in sep
    ensures c !in Join(xs, sep)
  {
    if |xs| > 1 {
      JoinNoChar(xs[1..], sep, c);
    }
  }

  /** A piece without the separator is glued to the first piece of what follows. */
  lemma {:induction false} SplitPrefix(a: string, t: string, sep: char)
    requires sep !in a
    ensures Split(a + t, sep) == [a + Split(t, sep)[0]] + Split(t, sep)[1..]
    decreases |a|
  {
    if |a| > 0 {
      assert (a + t)[1..] == a[1..] + t;
      assert (a + t)[0] == a[0] != sep;
      SplitPrefix(a[1..], t, sep);
      var r := Split(t, sep);
      var rest := Split(a[1..] + t, sep);
      assert rest[0] == a[1..] + r[0] && rest[1..] == r[1..];
      assert [a[0]] + (a[1..] + r[0]) == a + r[0];
    } else {
      assert a + t == t;
      var r := Split(t, sep);
      assert r == [r[0]] + r[1..];
      assert a + r[0] == r[0];
    }
  }

  /** One step of `Split`: the first character either ends a piece or extends it. */
  lemma SplitCons(c: char, t: string, sep: char)
    ensures Split([c] + t, sep) ==
      if c == sep then [""] + Split(t, sep) else [[c] + Split(t, sep)[0]] + Split(t, sep)[1..]
  {
    assert ([c] + t)[0] == c && ([c] + t)[1..] == t;
  }

  /** The first piece of a split is a prefix of the string. */
  lemma {:induction false} SplitFirst(s: string, sep: char)
    ensures |Split(s, sep)[0]| <= |s| && Split(s, sep)[0] == s[..|Split(s, sep)[0]|]
    decreases |s|
  {
    if |s| > 0 {
      SplitFirst(s[1..], sep);
      assert s == [s[0]] + s[1..];
      SplitCons(s[0], s[1..], sep);
    }
  }

  /** Splitting at a separator splits the two sides independently. */
  lemma {:induction false} SplitAtSep(a: string, b: string, sep: char)
    ensures Split(a + [sep] + b, sep) == Split(a, sep) + Split(b, sep)
    decreases |a|
  {
    if |a| == 0 {
      assert a + [sep] + b == [sep] + b;
      SplitCons(sep, b, sep);
    } else {
      var t := a[1..] + [sep] + b;
      assert a + [sep] + b == [a[0]] + t;
      assert a == [a[0]] + a[1..];
      SplitAtSep(a[1..], b, sep);
      SplitCons(a[0], t, sep);
      SplitCons(a[0], a[1..], sep);
    }
  }

  /** The pieces of a split are separated by single separators in the original. */
  lemma {:induction false} JoinSplit(s: string, sep: char)
    ensures Join(Split(s, sep), [sep]) == s
    decreases |s|
  {
    if |s| > 0 {
      JoinSplit(s[1..], sep);
      var rest := Split(s[1..], sep);
      if s[0] == sep {
        JoinCons("", rest, [sep]);
        assert s == [sep] + s[1..];
      } else {
        if |rest| == 1 {
          assert [[s[0]] + rest[0]] + rest[1..] == [[s[0]] + rest[0]];
        } else {
          JoinCons([s[0]] + rest[0], rest[1..], [sep]);
          JoinCons(rest[0], rest[1..], [sep]);
          assert rest == [rest[0]] + rest[1..];
        }
        assert s == [s[0]] + s[1..];
      }
    }
  }

  /** The flattening of a sequence of sequences. */
  function Concat<T>(xss: seq<seq<T>>): seq<T>
  {
    if |xss| == 0 then [] else xss[0] + Concat(xss[1..])
  }

  function SplitEach(xs: seq<string>, sep: char): (r: seq<seq<string>>)
    ensures |r| == |xs|
    ensures forall i :: 0 <= i < |xs| ==> r[i] == Split(xs[i], sep)
  {
    if |xs| == 0 then [] else [Split(xs[0], sep)] + SplitEach(xs[1..], sep)
  }

  /** Splitting a joined text gives the pieces of every part, in order. */
  lemma {:induction false} SplitJoin(xs: seq<string>, sep: char)
    requires |xs| > 0
    ensures Split(Join(xs, [sep]), sep) == Concat(SplitEach(xs, sep))
  {
    if |xs| == 1 {
      assert Concat(SplitEach(xs, sep)) == Split(xs[0], sep) + Concat(SplitEach(xs[1..], sep));
    } else {
      SplitJoin(xs[1..], sep);
      SplitAtSep(xs[0], Join(xs[1..], [sep]), sep);
      assert Join(xs, [sep]) == xs[0] + [sep] + Join(xs[1..], [sep]);
    }
  }

  /** A piece-free sequence of lines comes back unchanged from join-then-split. */
  lemma {:induction false} SplitJoinLines(xs: seq<string>, sep: char)
    requires |xs| > 0
    requires forall i :: 0 <= i < |xs| ==> sep !in xs[i]
    ensures Split(Join(xs, [sep]), sep) == xs
  {
    if |xs| == 1 {
      assert Split(xs[0] + [], sep) == [xs[0] + Split([], sep)[0]] + Split([], sep)[1..] by {
        SplitPrefix(xs[0], [], sep);
      }
      assert xs[0] + [] == xs[0];
    } else {
      SplitJoinLines(xs[1..], sep);
      SplitAtSep(xs[0], Join(xs[1..], [sep]), sep);
      assert Join(xs, [sep]) == xs[0] + [sep] + Join(xs[1..], [sep]);
      SplitPrefix(xs[0], [], sep);
      assert xs[0] + [] == xs[0];
      assert xs == [xs[0]] + xs[1..];
    }
  }

  // ---------------------------------------------------------------- searching

  predicate StartsWith(s: string, p: string)
  {
    |p| <= |s| && s[..|p|] == p
  }

  predicate EndsWith(s: string, p: string)
  {
    |p| <= |s| && s[|s| - |p|..] == p
  }

  /** Python's `p in s` for strings. */
  predicate Contains(s: string, p: string)
    decreases |s|
  {
    StartsWith(s, p) || (|s| > 0 && Contains(s[1..], p))
  }

  lemma {:induction false} NotContainsFirst(s: string, p: string)
    requires |p| > 0 && p[0] !in s
    ensures !Contains(s, p)
    decreases |s|
  {
    if |s| > 0 {
      assert s[0] != p[0];
      NotContainsFirst(s[1..], p);
    }
  }

  /** `s.replace(pat, rep)`: non-overlapping occurrences, left to right. */
  function ReplaceAll(s: string, pat: string, rep: string): string
    requires |pat| > 0
    decreases |s|
  {
    if |s| < |pat| then s
    else if s[..|pat|] == pat then rep + ReplaceAll(s[|pat|..], pat, rep)
    else [s[0]] + ReplaceAll(s[1..], pat, rep)
  }

  /** Replacing a pattern whose first character does not occur changes nothing. */
  lemma {:induction false} ReplaceAllAbsent(s: string, pat: string, rep: string)
    requires |pat| > 0 && pat[0] !in s
    ensures ReplaceAll(s, pat, rep) == s
    decreases |s|
  {
    if |s| >= |pat| {
      assert s[..|pat|][0] == s[0];
      ReplaceAllAbsent(s[1..], pat, rep);
      assert s == [s[0]] + s[1..];
    }
  }

  /** Text free of the pattern's first character is copied unchanged in front of the rest. */
  lemma {:induction false} ReplaceAllSkip(a: string, s: string, pat: string, rep: string)
    requires |pat| > 0 && pat[0] !in a
    ensures ReplaceAll(a + s, pat, rep) == a + ReplaceAll(s, pat, rep)
    decreases |a|
  {
    if |a| > 0 {
      var t := a + s;
      if |t| >= |pat| {
        assert t[..|pat|][0] == a[0];
        assert t[1..] == a[1..] + s;
        ReplaceAllSkip(a[1..], s, pat, rep);
      } else {
        assert |s| < |pat|;
      }
    } else {
      assert a + s == s;
    }
  }

  /** A match at the front is replaced and scanning resumes after it. */
  lemma ReplaceAllFront(s: string, pat: string, rep: string)
    requires |pat| > 0
    ensures ReplaceAll(pat + s, pat, rep) == rep + ReplaceAll(s, pat, rep)
  {
    var t := pat + s;
    assert t[..|pat|] == pat;
    assert t[|pat|..] == s;
  }

  /** Replacing one character works character by character. */
  lemma {:induction false} ReplaceCharAppend(a: string, b: string, p: char, rep: string)
    ensures ReplaceAll(a + b, [p], rep) == ReplaceAll(a, [p], rep) + ReplaceAll(b, [p], rep)
    decreases |a|
  {
    if |a| == 0 {
      assert a + b == b;
    } else {
      var t := a + b;
      assert t[..1] == [a[0]] && a[..1] == [a[0]];
      assert t[1..] == a[1..] + b;
      ReplaceCharAppend(a[1..], b, p, rep);
    }
  }

  /** One character becomes the replacement when it is the pattern, and stays otherwise. */
  lemma ReplaceCharOne(c: char, p: char, rep: string)
    ensures ReplaceAll([c], [p], rep) == if c == p then rep else [c]
  {
    assert [c][..1] == [c] && [c][1..] == [];
  }

  /** `s.rstrip(c)` for one character: removes every trailing `c`. */
  function RStripChar(s: string, c: char): (r: string)
    ensures |r| <= |s| && r == s[..|r|]
    ensures |r| > 0 ==> r[|r| - 1] != c
    ensures forall i :: |r| <= i < |s| ==> s[i] == c
  {
    if |s| > 0 && s[|s| - 1] == c then RStripChar(s[..|s| - 1], c) else s
  }

  /** The characters of `s` that satisfy `keep`, in order (`''.join(c for c in s if keep(c))`). */
  function Filter(s: string, keep: char -> bool): (r: string)
    ensures |r| <= |s|
    ensures forall i :: 0 <= i < |r| ==> keep(r[i])
  {
    if |s| == 0 then "" else (if keep(s[0]) then [s[0]] else "") + Filter(s[1..], keep)
  }

  /** Filtering a string all of whose characters are kept is the identity. */
  lemma {:induction false} FilterKeepsAll(s: string, keep: char -> bool)
    requires forall i :: 0 <= i < |s| ==> keep(s[i])
    ensures Filter(s, keep) == s
  {
    if |s| > 0 {
      FilterKeepsAll(s[1..], keep);
      assert s == [s[0]] + s[1..];
    }
  }

  /** Filtering a concatenation filters each part, keeping their order. */
  lemma {:induction false} FilterAppend(a: string, b: string, keep: char -> bool)
    ensures Filter(a + b, keep) == Filter(a, keep) + Filter(b, keep)
  {
    if |a| == 0 {
      assert a + b == b;
    } else {
      assert (a + b)[0] == a[0];
      assert (a + b)[1..] == a[1..] + b;
      FilterAppend(a[1..], b, keep);
    }
  }

  /** A single character is kept exactly when it passes; with `FilterAppend` this says
      every passing character is kept, in order, and no other. */
  lemma FilterOne(c: char, keep: char -> bool)
    ensures Filter([c], keep) == if keep(c) then [c] else ""
  {
    assert [c][1..] == [];
  }
}
