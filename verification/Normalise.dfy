/**
 * The two whitespace normalisers the applications apply to their prompts.
 *
 * - `CollapseBlanks` is `re.sub(r"[ \t]+", " ", s)` (CV-Job-analyzer): every
 *   maximal run of spaces and tabs becomes one space.
 * - `CollapseTabsAndSpaceRuns` is `re.sub(r"\t+| {2,}", " ", s)`
 *   (Simple-AI-tutor): scanning left to right, a run of tabs becomes one
 *   space, a run of two or more spaces becomes one space, and a lone space
 *   stays. The two kinds of run are replaced separately, so `"\t "` becomes
 *   two spaces.
 */
module Normalise {

  predicate IsBlank(c: char)
  {
    c == ' ' || c == '\t'
  }

  ghost predicate NoTab(s: string)
  {
    forall i :: 0 <= i < |s| ==> s[i] != '\t'
  }

  ghost predicate NoDoubleSpace(s: string)
  {
    forall i, j :: 0 <= i < j < |s| && j == i + 1 ==> !(s[i] == ' ' && s[j] == ' ')
  }

  lemma ConcatAssoc(p: string, q: string, r: string)
    ensures p + q + r == p + (q + r)
  {
  }

  /** The text with every space and tab removed: what a normaliser must keep. */
  function Strip(s: string): string
  {
    if s == [] then []
    else (if IsBlank(s[0]) then [] else [s[0]]) + Strip(s[1..])
  }

  lemma {:induction false} StripAppend(a: string, b: string)
    ensures Strip(a + b) == Strip(a) + Strip(b)
  {
    if a == [] {
      assert a + b == b;
    } else {
      assert (a + b)[0] == a[0] && (a + b)[1..] == a[1..] + b;
      StripAppend(a[1..], b);
    }
  }

  /** A suffix of `s` without its first character is a suffix of `s`, and a blank first character is no text. */
  lemma DropHead(s: string, r: string)
    requires s != [] && |r| <= |s| - 1 && r == s[1..][|s| - 1 - |r|..]
    ensures r == s[|s| - |r|..]
    ensures IsBlank(s[0]) ==> Strip(s) == Strip(s[1..])
  {
    assert s[1..][|s| - 1 - |r|..] == s[|s| - |r|..];
    if IsBlank(s[0]) {
      assert Strip(s) == [] + Strip(s[1..]);
    }
  }

  /** Drops the leading spaces and tabs. */
  function SkipBlanks(s: string): (r: string)
    ensures |r| <= |s| && r == s[|s| - |r|..]
    ensures r == [] || !IsBlank(r[0])
    ensures Strip(r) == Strip(s)
  {
    if s != [] && IsBlank(s[0]) then
      var r := SkipBlanks(s[1..]);
      DropHead(s, r);
      r
    else s
  }

  /** A character before a tidy string keeps it tidy unless it is a tab, or a space before a blank. */
  lemma TidyCons(c: char, t: string)
    requires NoTab(t) && NoDoubleSpace(t) && c != '\t'
    requires c == ' ' ==> t == [] || !IsBlank(t[0])
    ensures NoTab([c] + t) && NoDoubleSpace([c] + t)
  {
    var r := [c] + t;
    assert forall i :: 0 < i < |r| ==> r[i] == t[i - 1];
  }

  /** `re.sub(r"[ \t]+", " ", s)`. */
  function CollapseBlanks(s: string): (r: string)
    ensures NoTab(r) && NoDoubleSpace(r)
    ensures |r| <= |s| && (r == [] <==> s == [])
    ensures s != [] ==> r[0] == if IsBlank(s[0]) then ' ' else s[0]
    decreases |s|
  {
    if s == [] then []
    else if IsBlank(s[0]) then
      var t := CollapseBlanks(SkipBlanks(s[1..]));
      TidyCons(' ', t);
      " " + t
    else
      var t := CollapseBlanks(s[1..]);
      TidyCons(s[0], t);
      [s[0]] + t
  }

  /** Collapsing removes blanks only: every other character survives, in order. */
  lemma {:induction false} CollapseBlanksKeepsText(s: string)
    ensures Strip(CollapseBlanks(s)) == Strip(s)
    decreases |s|
  {
    if s != [] {
      var r := CollapseBlanks(s);
      if IsBlank(s[0]) {
        var t := SkipBlanks(s[1..]);
        CollapseBlanksKeepsText(t);
        StripAppend(" ", CollapseBlanks(t));
        StripAppend(s[..1], s[1..]);
        assert s == s[..1] + s[1..];
      } else {
        CollapseBlanksKeepsText(s[1..]);
        StripAppend([s[0]], CollapseBlanks(s[1..]));
        StripAppend([s[0]], s[1..]);
        assert s == [s[0]] + s[1..];
      }
    }
  }

  /** A tidy string stays tidy without its first character, and a leading space is not followed by a blank. */
  lemma TidyTail(s: string)
    requires s != [] && NoTab(s) && NoDoubleSpace(s)
    ensures NoTab(s[1..]) && NoDoubleSpace(s[1..])
    ensures s[0] == ' ' && |s| >= 2 ==> !IsBlank(s[1])
  {
    var rest := s[1..];
    forall i, j | 0 <= i < j < |rest| && j == i + 1 ensures !(rest[i] == ' ' && rest[j] == ' ') {
      assert rest[i] == s[i + 1] && rest[j] == s[j + 1];
    }
    if |s| >= 2 {
      assert s[1] != '\t';
    }
  }

  /** A string without tabs or double spaces is its own normal form. */
  lemma {:induction false} TidyIsCollapsed(s: string)
    requires NoTab(s) && NoDoubleSpace(s)
    ensures CollapseBlanks(s) == s
    decreases |s|
  {
    if s != [] {
      var rest := s[1..];
      TidyTail(s);
      TidyIsCollapsed(rest);
      if s[0] == ' ' {
        assert SkipBlanks(rest) == rest;
      }
      assert s == [s[0]] + rest;
    }
  }

  /** The strings `CollapseBlanks` leaves alone are exactly those without tabs or double spaces. */
  lemma CollapseBlanksFixedPoints(s: string)
    ensures CollapseBlanks(s) == s <==> NoTab(s) && NoDoubleSpace(s)
  {
    if NoTab(s) && NoDoubleSpace(s) {
      TidyIsCollapsed(s);
    }
  }

  /** Normalising twice changes nothing. */
  lemma CollapseBlanksIdempotent(s: string)
    ensures CollapseBlanks(CollapseBlanks(s)) == CollapseBlanks(s)
  {
    CollapseBlanksFixedPoints(CollapseBlanks(s));
  }

  /** Skipping the blanks of a string that ends in text stops inside it, before its last character. */
  lemma {:induction false} SkipBlanksAppend(x: string, y: string)
    requires x != [] && !IsBlank(x[|x| - 1])
    ensures SkipBlanks(x) != [] && SkipBlanks(x)[|SkipBlanks(x)| - 1] == x[|x| - 1]
    ensures SkipBlanks(x + y) == SkipBlanks(x) + y
    decreases |x|
  {
    if IsBlank(x[0]) {
      assert (x + y)[1..] == x[1..] + y;
      SkipBlanksAppend(x[1..], y);
    }
  }

  /** A run of blanks followed by text (or nothing) is skipped entirely. */
  lemma {:induction false} SkipBlanksRun(b: string, c: string)
    requires forall i :: 0 <= i < |b| ==> IsBlank(b[i])
    requires c == [] || !IsBlank(c[0])
    ensures SkipBlanks(b + c) == c
    decreases |b|
  {
    if b == [] {
      assert b + c == c;
    } else {
      assert (b + c)[1..] == b[1..] + c;
      SkipBlanksRun(b[1..], c);
    }
  }

  /** The first step of normalising a concatenation whose first part is not empty. */
  lemma CollapseBlanksConsAppend(x: string, y: string)
    requires x != []
    ensures IsBlank(x[0]) ==> CollapseBlanks(x + y) == " " + CollapseBlanks(SkipBlanks(x[1..] + y))
    ensures !IsBlank(x[0]) ==> CollapseBlanks(x + y) == [x[0]] + CollapseBlanks(x[1..] + y)
  {
    assert (x + y)[0] == x[0] && (x + y)[1..] == x[1..] + y;
  }

  /** One step of `CollapseBlanksAppend`, given the step for the rest of `x`. */
  lemma CollapseBlanksAppendStep(x: string, y: string, t: string)
    requires x != []
    requires t == if IsBlank(x[0]) then SkipBlanks(x[1..]) else x[1..]
    requires IsBlank(x[0]) ==> SkipBlanks(x[1..] + y) == t + y
    requires CollapseBlanks(t + y) == CollapseBlanks(t) + CollapseBlanks(y)
    ensures CollapseBlanks(x + y) == CollapseBlanks(x) + CollapseBlanks(y)
  {
    CollapseBlanksConsAppend(x, y);
    var head := if IsBlank(x[0]) then " " else [x[0]];
    assert CollapseBlanks(x) == head + CollapseBlanks(t);
    assert CollapseBlanks(x + y) == head + CollapseBlanks(t + y);
    ConcatAssoc(head, CollapseBlanks(t), CollapseBlanks(y));
  }

  /** A string that ends in text normalises independently of what follows it. */
  lemma {:induction false} CollapseBlanksAppend(x: string, y: string)
    requires x == [] || !IsBlank(x[|x| - 1])
    ensures CollapseBlanks(x + y) == CollapseBlanks(x) + CollapseBlanks(y)
    decreases |x|
  {
    if x == [] {
      assert x + y == y;
    } else if IsBlank(x[0]) {
      var t := SkipBlanks(x[1..]);
      SkipBlanksAppend(x[1..], y);
      CollapseBlanksAppend(t, y);
      CollapseBlanksAppendStep(x, y, t);
    } else {
      CollapseBlanksAppend(x[1..], y);
      CollapseBlanksAppendStep(x, y, x[1..]);
    }
  }

  /** A run of blanks at the front becomes one space before the normalised rest. */
  lemma CollapseBlanksLeadingRun(b: string, c: string)
    requires b != [] && forall i :: 0 <= i < |b| ==> IsBlank(b[i])
    requires c == [] || !IsBlank(c[0])
    ensures CollapseBlanks(b + c) == " " + CollapseBlanks(c)
  {
    CollapseBlanksConsAppend(b, c);
    SkipBlanksRun(b[1..], c);
  }

  /**
   * A maximal run of spaces and tabs between two pieces of text becomes
   * exactly one space, and each side is normalised on its own.
   */
  lemma CollapseBlanksRun(a: string, b: string, c: string)
    requires a == [] || !IsBlank(a[|a| - 1])
    requires b != [] && forall i :: 0 <= i < |b| ==> IsBlank(b[i])
    requires c == [] || !IsBlank(c[0])
    ensures CollapseBlanks(a + b + c) == CollapseBlanks(a) + " " + CollapseBlanks(c)
  {
    ConcatAssoc(a, b, c);
    CollapseBlanksAppend(a, b + c);
    CollapseBlanksLeadingRun(b, c);
    ConcatAssoc(CollapseBlanks(a), " ", CollapseBlanks(c));
  }

  /** Drops the leading copies of `c`. */
  function SkipRun(s: string, c: char): (r: string)
    ensures |r| <= |s| && r == s[|s| - |r|..]
    ensures r == [] || r[0] != c
    ensures (s != [] && s[0] == c) ==> |r| < |s|
    ensures IsBlank(c) ==> Strip(r) == Strip(s)
  {
    if s != [] && s[0] == c then
      var r := SkipRun(s[1..], c);
      DropHead(s, r);
      r
    else s
  }

  lemma NoTabCons(c: char, t: string)
    requires c != '\t' && NoTab(t)
    ensures NoTab([c] + t)
  {
    assert forall i :: 0 < i <= |t| ==> ([c] + t)[i] == t[i - 1];
  }

  /** `re.sub(r"\t+| {2,}", " ", s)`. */
  function CollapseTabsAndSpaceRuns(s: string): (r: string)
    ensures NoTab(r)
    ensures |r| <= |s| && (r == [] <==> s == [])
    decreases |s|
  {
    if s == [] then []
    else if s[0] == '\t' || (|s| >= 2 && s[0] == ' ' && s[1] == ' ') then
      var t := CollapseTabsAndSpaceRuns(SkipRun(s, s[0]));
      NoTabCons(' ', t);
      " " + t
    else
      var t := CollapseTabsAndSpaceRuns(s[1..]);
      NoTabCons(s[0], t);
      [s[0]] + t
  }

  /** Only blanks are replaced: every other character survives, in order. */
  lemma {:induction false} CollapseTabsAndSpaceRunsKeepsText(s: string)
    ensures Strip(CollapseTabsAndSpaceRuns(s)) == Strip(s)
    decreases |s|
  {
    if s != [] {
      if s[0] == '\t' || (|s| >= 2 && s[0] == ' ' && s[1] == ' ') {
        var t := SkipRun(s, s[0]);
        CollapseTabsAndSpaceRunsKeepsText(t);
        StripAppend(" ", CollapseTabsAndSpaceRuns(t));
      } else {
        CollapseTabsAndSpaceRunsKeepsText(s[1..]);
        StripAppend([s[0]], CollapseTabsAndSpaceRuns(s[1..]));
        StripAppend([s[0]], s[1..]);
        assert s == [s[0]] + s[1..];
      }
    }
  }

  /** The strings this normaliser leaves alone are exactly those without tabs or double spaces. */
  lemma {:induction false} CollapseTabsAndSpaceRunsFixedPoints(s: string)
    ensures CollapseTabsAndSpaceRuns(s) == s <==> NoTab(s) && NoDoubleSpace(s)
    decreases |s|
  {
    if s != [] {
      var rest := s[1..];
      if NoTab(s) && NoDoubleSpace(s) {
        assert NoTab(rest) && NoDoubleSpace(rest) by {
          forall i, j | 0 <= i < j < |rest| && j == i + 1 ensures !(rest[i] == ' ' && rest[j] == ' ') {
            assert rest[i] == s[i + 1] && rest[j] == s[j + 1];
          }
        }
        CollapseTabsAndSpaceRunsFixedPoints(rest);
        assert !(|s| >= 2 && s[0] == ' ' && s[1] == ' ');
        assert s == [s[0]] + rest;
      } else if CollapseTabsAndSpaceRuns(s) == s {
        // s has a tab, which the result cannot have, or a double space
        assert NoTab(s);
        // a leading double space would make the result shorter than s
        assert !(|s| >= 2 && s[0] == ' ' && s[1] == ' ');
        assert CollapseTabsAndSpaceRuns(s) == [s[0]] + CollapseTabsAndSpaceRuns(rest);
        assert CollapseTabsAndSpaceRuns(rest) == rest;
        CollapseTabsAndSpaceRunsFixedPoints(rest);
        assert NoDoubleSpace(s) by {
          forall i, j | 0 <= i < j < |s| && j == i + 1 ensures !(s[i] == ' ' && s[j] == ' ') {
            if i > 0 { assert s[i] == rest[i - 1] && s[j] == rest[j - 1]; }
          }
        }
      }
    }
  }

  /** Skipping copies of `c` from a string whose last character differs from what follows stops inside it. */
  lemma {:induction false} SkipRunAppend(x: string, y: string, c: char)
    requires x != [] && (y == [] || x[|x| - 1] != y[0])
    ensures SkipRun(x + y, c) == SkipRun(x, c) + y
    decreases |x|
  {
    if x[0] == c {
      assert (x + y)[1..] == x[1..] + y;
      if |x| == 1 {
        assert x[1..] + y == y;
      } else {
        SkipRunAppend(x[1..], y, c);
      }
    }
  }

  /** A run of `c` followed by something else (or nothing) is skipped entirely. */
  lemma {:induction false} SkipRunAll(b: string, rest: string, c: char)
    requires forall i :: 0 <= i < |b| ==> b[i] == c
    requires rest == [] || rest[0] != c
    ensures SkipRun(b + rest, c) == rest
    decreases |b|
  {
    if b == [] {
      assert b + rest == rest;
    } else {
      assert (b + rest)[1..] == b[1..] + rest;
      SkipRunAll(b[1..], rest, c);
    }
  }

  /** A non-empty suffix ends where the whole string ends. */
  lemma SuffixLast(s: string, r: string)
    requires r != [] && |r| <= |s| && r == s[|s| - |r|..]
    ensures r[|r| - 1] == s[|s| - 1]
  {
  }

  /** The first step of normalising a concatenation whose first part is not empty. */
  lemma CollapseTabsAndSpaceRunsConsAppend(x: string, y: string)
    requires x != [] && (y == [] || x[|x| - 1] != y[0])
    ensures x[0] == '\t' || (|x| >= 2 && x[0] == ' ' && x[1] == ' ') ==>
      CollapseTabsAndSpaceRuns(x + y) == " " + CollapseTabsAndSpaceRuns(SkipRun(x + y, x[0]))
    ensures !(x[0] == '\t' || (|x| >= 2 && x[0] == ' ' && x[1] == ' ')) ==>
      CollapseTabsAndSpaceRuns(x + y) == [x[0]] + CollapseTabsAndSpaceRuns(x[1..] + y)
  {
    var s := x + y;
    assert s[0] == x[0] && s[1..] == x[1..] + y;
    if |x| >= 2 {
      assert s[1] == x[1];
    } else if y != [] {
      assert s[1] == y[0];
    }
  }

  /** A tab, or two spaces, at the front of `x`: the pattern matches there. */
  predicate StartsRun(x: string)
  {
    x != [] && (x[0] == '\t' || (|x| >= 2 && x[0] == ' ' && x[1] == ' '))
  }

  /** The step of `CollapseTabsAndSpaceRunsAppend` for a run at the front, given the step for what follows it. */
  lemma RunAppendStep(x: string, y: string, t: string)
    requires StartsRun(x) && (y == [] || x[|x| - 1] != y[0])
    requires t == SkipRun(x, x[0]) && SkipRun(x + y, x[0]) == t + y
    requires CollapseTabsAndSpaceRuns(t + y) == CollapseTabsAndSpaceRuns(t) + CollapseTabsAndSpaceRuns(y)
    ensures CollapseTabsAndSpaceRuns(x + y) == CollapseTabsAndSpaceRuns(x) + CollapseTabsAndSpaceRuns(y)
  {
    CollapseTabsAndSpaceRunsConsAppend(x, y);
    ConcatAssoc(" ", CollapseTabsAndSpaceRuns(t), CollapseTabsAndSpaceRuns(y));
  }

  /** The step of `CollapseTabsAndSpaceRunsAppend` for a kept character at the front, given the step for the rest. */
  lemma KeptAppendStep(x: string, y: string)
    requires x != [] && !StartsRun(x) && (y == [] || x[|x| - 1] != y[0])
    requires CollapseTabsAndSpaceRuns(x[1..] + y) == CollapseTabsAndSpaceRuns(x[1..]) + CollapseTabsAndSpaceRuns(y)
    ensures CollapseTabsAndSpaceRuns(x + y) == CollapseTabsAndSpaceRuns(x) + CollapseTabsAndSpaceRuns(y)
  {
    CollapseTabsAndSpaceRunsConsAppend(x, y);
    ConcatAssoc([x[0]], CollapseTabsAndSpaceRuns(x[1..]), CollapseTabsAndSpaceRuns(y));
  }

  /** Where the last character of one string differs from the first of the next, no run crosses the seam. */
  lemma {:induction false} CollapseTabsAndSpaceRunsAppend(x: string, y: string)
    requires x == [] || y == [] || x[|x| - 1] != y[0]
    ensures CollapseTabsAndSpaceRuns(x + y) == CollapseTabsAndSpaceRuns(x) + CollapseTabsAndSpaceRuns(y)
    decreases |x|
  {
    if x == [] {
      assert x + y == y;
    } else if StartsRun(x) {
      var t := SkipRun(x, x[0]);
      SkipRunAppend(x, y, x[0]);
      if t != [] {
        SuffixLast(x, t);
      }
      CollapseTabsAndSpaceRunsAppend(t, y);
      RunAppendStep(x, y, t);
    } else {
      CollapseTabsAndSpaceRunsAppend(x[1..], y);
      KeptAppendStep(x, y);
    }
  }

  /** A run of tabs, or of two or more spaces, at the front becomes one space before the normalised rest. */
  lemma LeadingRunBecomesSpace(b: string, c: string, ch: char)
    requires ch == '\t' || ch == ' '
    requires b != [] && (ch == ' ' ==> |b| >= 2) && forall i :: 0 <= i < |b| ==> b[i] == ch
    requires c == [] || c[0] != ch
    ensures CollapseTabsAndSpaceRuns(b + c) == " " + CollapseTabsAndSpaceRuns(c)
  {
    var s := b + c;
    assert s[0] == ch;
    if ch == ' ' {
      assert s[1] == ' ';
    }
    SkipRunAll(b, c, ch);
  }

  /** A maximal run of tabs between two pieces of text becomes exactly one space. */
  lemma TabRunBecomesSpace(a: string, b: string, c: string)
    requires a == [] || a[|a| - 1] != '\t'
    requires b != [] && forall i :: 0 <= i < |b| ==> b[i] == '\t'
    requires c == [] || c[0] != '\t'
    ensures CollapseTabsAndSpaceRuns(a + b + c) ==
      CollapseTabsAndSpaceRuns(a) + " " + CollapseTabsAndSpaceRuns(c)
  {
    ConcatAssoc(a, b, c);
    CollapseTabsAndSpaceRunsAppend(a, b + c);
    LeadingRunBecomesSpace(b, c, '\t');
    ConcatAssoc(CollapseTabsAndSpaceRuns(a), " ", CollapseTabsAndSpaceRuns(c));
  }

  /** A maximal run of two or more spaces between two pieces of text becomes exactly one space. */
  lemma SpaceRunBecomesSpace(a: string, b: string, c: string)
    requires a == [] || a[|a| - 1] != ' '
    requires |b| >= 2 && forall i :: 0 <= i < |b| ==> b[i] == ' '
    requires c == [] || c[0] != ' '
    ensures CollapseTabsAndSpaceRuns(a + b + c) ==
      CollapseTabsAndSpaceRuns(a) + " " + CollapseTabsAndSpaceRuns(c)
  {
    ConcatAssoc(a, b, c);
    CollapseTabsAndSpaceRunsAppend(a, b + c);
    LeadingRunBecomesSpace(b, c, ' ');
    ConcatAssoc(CollapseTabsAndSpaceRuns(a), " ", CollapseTabsAndSpaceRuns(c));
  }

  /** A lone space between two pieces of text is kept as it is. */
  lemma LoneSpaceIsKept(a: string, c: string)
    requires a == [] || a[|a| - 1] != ' '
    requires c == [] || c[0] != ' '
    ensures CollapseTabsAndSpaceRuns(a + " " + c) ==
      CollapseTabsAndSpaceRuns(a) + " " + CollapseTabsAndSpaceRuns(c)
  {
    ConcatAssoc(a, " ", c);
    CollapseTabsAndSpaceRunsAppend(a, " " + c);
    assert (" " + c)[0] == ' ' && (" " + c)[1..] == c;
    if c != [] {
      assert (" " + c)[1] == c[0];
    }
    ConcatAssoc(CollapseTabsAndSpaceRuns(a), " ", CollapseTabsAndSpaceRuns(c));
  }

  lemma TabRunIsSpace()
    ensures CollapseTabsAndSpaceRuns("\t ") == "  "
  {
    assert SkipRun("\t ", '\t') == " " by {
      assert "\t "[1..] == " ";
      assert SkipRun(" ", '\t') == " ";
    }
    assert CollapseTabsAndSpaceRuns(" ") == " " by {
      assert " "[1..] == [];
      assert CollapseTabsAndSpaceRuns([]) == [];
    }
  }

  lemma SpaceRunIsSpace()
    ensures CollapseTabsAndSpaceRuns("  ") == " "
  {
    assert SkipRun("  ", ' ') == [] by {
      assert "  "[1..] == " " && " "[1..] == [];
      assert SkipRun([], ' ') == [];
      assert SkipRun(" ", ' ') == [];
    }
    assert CollapseTabsAndSpaceRuns([]) == [];
  }

  /** Unlike `CollapseBlanks`, this normaliser can leave two adjacent spaces and is not idempotent. */
  lemma TabThenSpaceLeavesDoubleSpace()
    ensures CollapseTabsAndSpaceRuns("\t ") == "  "
    ensures !NoDoubleSpace(CollapseTabsAndSpaceRuns("\t "))
    ensures CollapseTabsAndSpaceRuns(CollapseTabsAndSpaceRuns("\t ")) == " "
  {
    TabRunIsSpace();
    SpaceRunIsSpace();
    assert "  "[0] == ' ' && "  "[1] == ' ';
  }
}
