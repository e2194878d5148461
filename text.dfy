/** The string operations the core applies to provider names, replies and scraped text:
    `str.lower`, `str.strip`, `str.isdigit` and `re.sub(r'\s+', ' ', s)`. */
module Text {

  /** `str.lower()` on one character; only the ASCII letters are mapped. */
  function LowerChar(c: char): char
  {
    if 'A' <= c <= 'Z' then (c as int + 32) as char else c
  }

  /** `str.lower()`. */
  function Lower(s: string): (r: string)
    ensures |r| == |s|
    ensures forall i :: 0 <= i < |s| ==> r[i] == LowerChar(s[i])
  {
    if s == [] then [] else [LowerChar(s[0])] + Lower(s[1..])
  }

  /** Lowering twice is lowering once, so names that differ only in letter case meet in one key. */
  lemma LowerIdempotent(s: string)
    ensures Lower(Lower(s)) == Lower(s)
  {
    var l := Lower(s);
    assert forall i :: 0 <= i < |l| ==> LowerChar(l[i]) == l[i];
  }

  /** A string without upper-case ASCII letters is its own lower-case form. */
  lemma LowerOfLowerCase(s: string)
    requires forall i :: 0 <= i < |s| ==> !('A' <= s[i] <= 'Z')
    ensures Lower(s) == s
  {
  }

  /** The characters Python's `str.isspace()` and the regular-expression class `\s` accept. */
  predicate IsSpace(c: char)
  {
    || ('\t' <= c <= '\r')
    || ('\U{001C}' <= c <= ' ')
    || c == '\U{0085}' || c == '\U{00A0}' || c == '\U{1680}'
    || ('\U{2000}' <= c <= '\U{200A}')
    || c == '\U{2028}' || c == '\U{2029}' || c == '\U{202F}' || c == '\U{205F}' || c == '\U{3000}'
  }

  predicate AllSpace(s: string)
  {
    forall i :: 0 <= i < |s| ==> IsSpace(s[i])
  }

  /** `str.isdigit()` restricted to the ASCII digits. */
  predicate IsDigit(c: char)
  {
    '0' <= c <= '9'
  }

  /** The leading whitespace of `s` removed. */
  function TrimStart(s: string): (r: string)
    ensures |r| <= |s|
    ensures r == s[|s| - |r|..]
    ensures AllSpace(s[..|s| - |r|])
    ensures r != [] ==> !IsSpace(r[0])
  {
    if s != [] && IsSpace(s[0]) then
      var r := TrimStart(s[1..]);
      assert s[1..][..|s[1..]| - |r|] == s[1..|s| - |r|];
      r
    else s
  }

  /** The trailing whitespace of `s` removed. */
  function TrimEnd(s: string): (r: string)
    ensures |r| <= |s|
    ensures r == s[..|r|]
    ensures AllSpace(s[|r|..])
    ensures r != [] ==> !IsSpace(r[|r| - 1])
  {
    if s != [] && IsSpace(s[|s| - 1]) then
      var r := TrimEnd(s[..|s| - 1]);
      assert s[..|s| - 1][|r|..] == s[|r|..|s| - 1];
      assert forall i :: |r| <= i < |s| - 1 ==> s[i] == s[..|s| - 1][i];
      r
    else s
  }

  /** `str.strip()`. */
  function Strip(s: string): string
  {
    TrimEnd(TrimStart(s))
  }

  /** Stripping leaves nothing exactly when every character is whitespace; otherwise the
      result starts and ends with a non-whitespace character. */
  lemma StripEmptyIffAllSpace(s: string)
    ensures Strip(s) == [] <==> AllSpace(s)
    ensures Strip(s) != [] ==> !IsSpace(Strip(s)[0]) && !IsSpace(Strip(s)[|Strip(s)| - 1])
  {
    var a := TrimStart(s);
    var b := TrimEnd(a);
    if b == [] {
      assert s[..|s| - |a|] == s;
    } else {
      assert b[0] == a[0];
      assert s[|s| - |a|] == a[0];
    }
  }

  /** `re.sub(r'\s+', ' ', s)`: every maximal run of whitespace becomes one space. */
  function Collapse(s: string): (r: string)
    decreases |s|
  {
    if s == [] then []
    else if IsSpace(s[0]) then [' '] + Collapse(TrimStart(s[1..]))
    else [s[0]] + Collapse(s[1..])
  }

  /** The non-whitespace characters of `s`, in order. */
  function Visible(s: string): string
  {
    if s == [] then [] else (if IsSpace(s[0]) then [] else [s[0]]) + Visible(s[1..])
  }

  lemma {:induction false} VisibleOfSpaces(s: string)
    requires AllSpace(s)
    ensures Visible(s) == []
  {
    if s != [] {
      VisibleOfSpaces(s[1..]);
    }
  }

  lemma {:induction false} VisibleAppend(a: string, b: string)
    ensures Visible(a + b) == Visible(a) + Visible(b)
  {
    if a == [] {
      assert a + b == b;
    } else {
      assert (a + b)[1..] == a[1..] + b;
      VisibleAppend(a[1..], b);
    }
  }

  /** Collapsing keeps every visible character, in order, and drops none. */
  lemma {:induction false} CollapseKeepsVisible(s: string)
    ensures Visible(Collapse(s)) == Visible(s)
    decreases |s|
  {
    if s != [] {
      var t := s[1..];
      VisibleStep(s);
      if IsSpace(s[0]) {
        var d := TrimStart(t);
        CollapseKeepsVisible(d);
        VisibleStep([' '] + Collapse(d));
        VisibleOfTrimmed(t);
      } else {
        CollapseKeepsVisible(t);
        VisibleStep([s[0]] + Collapse(t));
      }
    }
  }

  /** One step of `Visible`. */
  lemma VisibleStep(s: string)
    requires s != []
    ensures Visible(s) == (if IsSpace(s[0]) then [] else [s[0]]) + Visible(s[1..])
  {
  }

  /** Trimming the front drops only whitespace. */
  lemma VisibleOfTrimmed(t: string)
    ensures Visible(TrimStart(t)) == Visible(t)
  {
    var d := TrimStart(t);
    var p := t[..|t| - |d|];
    assert t == p + d;
    VisibleAppend(p, d);
    VisibleOfSpaces(p);
  }

  /** No whitespace character but the plain space survives, and no two whitespace characters are adjacent. */
  ghost predicate Collapsed(r: string)
  {
    && (forall i :: 0 <= i < |r| && IsSpace(r[i]) ==> r[i] == ' ')
    && (forall i :: 0 <= i < |r| - 1 ==> !(IsSpace(r[i]) && IsSpace(r[i + 1])))
  }

  lemma ConsCollapsed(c: char, r: string)
    requires Collapsed(r)
    requires IsSpace(c) ==> c == ' ' && (r == [] || !IsSpace(r[0]))
    ensures Collapsed([c] + r)
  {
    var x := [c] + r;
    forall i | 0 <= i < |x| && IsSpace(x[i]) ensures x[i] == ' ' {
      if i > 0 { assert x[i] == r[i - 1]; }
    }
    forall i | 0 <= i < |x| - 1 ensures !(IsSpace(x[i]) && IsSpace(x[i + 1])) {
      if i > 0 { assert x[i] == r[i - 1] && x[i + 1] == r[i]; }
    }
  }

  /** The result of `Collapse` is collapsed, and it starts with whitespace only if `s` does. */
  lemma {:induction false} CollapseIsCollapsed(s: string)
    ensures Collapsed(Collapse(s))
    ensures Collapse(s) != [] && IsSpace(Collapse(s)[0]) ==> s != [] && IsSpace(s[0])
    ensures |Collapse(s)| == 0 <==> |s| == 0
    decreases |s|
  {
    if s == [] {
    } else if IsSpace(s[0]) {
      var d := TrimStart(s[1..]);
      CollapseIsCollapsed(d);
      ConsCollapsed(' ', Collapse(d));
      assert Collapse(s) == [' '] + Collapse(d);
    } else {
      CollapseIsCollapsed(s[1..]);
      ConsCollapsed(s[0], Collapse(s[1..]));
      assert Collapse(s) == [s[0]] + Collapse(s[1..]);
    }
  }

  /** A collapsed string is left as it is: collapsing is idempotent. */
  lemma {:induction false} CollapseFixesCollapsed(s: string)
    requires Collapsed(s)
    ensures Collapse(s) == s
    decreases |s|
  {
    if s != [] {
      var t := s[1..];
      assert Collapsed(t) by {
        forall i | 0 <= i < |t| - 1 ensures !(IsSpace(t[i]) && IsSpace(t[i + 1])) {
          assert t[i] == s[i + 1] && t[i + 1] == s[i + 2];
        }
      }
      if IsSpace(s[0]) {
        assert s[0] == ' ';
        assert t != [] ==> !IsSpace(t[0]) by {
          if t != [] { assert t[0] == s[1]; }
        }
        assert TrimStart(t) == t;
      }
      CollapseFixesCollapsed(t);
    }
  }

  lemma CollapseIdempotent(s: string)
    ensures Collapse(Collapse(s)) == Collapse(s)
  {
    CollapseIsCollapsed(s);
    CollapseFixesCollapsed(Collapse(s));
  }

  /** `re.sub(r'\s+', ' ', s)` read as one left-to-right scan: `inRun` says the character before
      was whitespace, so its run has already produced its space. */
  function CollapseScan(s: string, inRun: bool): string
    decreases |s|
  {
    if s == [] then []
    else if IsSpace(s[0]) then (if inRun then [] else [' ']) + CollapseScan(s[1..], true)
    else [s[0]] + CollapseScan(s[1..], false)
  }

  /** Inside a run, the rest of the run produces nothing more. */
  lemma {:induction false} ScanInRun(s: string)
    ensures CollapseScan(s, true) == CollapseScan(TrimStart(s), false)
    decreases |s|
  {
    if s != [] && IsSpace(s[0]) {
      ScanInRun(s[1..]);
    }
  }

  /** `Collapse` and the scan agree. */
  lemma {:induction false} CollapseIsScan(s: string)
    ensures Collapse(s) == CollapseScan(s, false)
    decreases |s|
  {
    if s != [] {
      if IsSpace(s[0]) {
        CollapseIsScan(TrimStart(s[1..]));
        ScanInRun(s[1..]);
      } else {
        CollapseIsScan(s[1..]);
      }
    }
  }

  /** Whether the scan is inside a run after reading `x`. */
  function EndsInRun(x: string, inRun: bool): bool
  {
    if x == [] then inRun else IsSpace(x[|x| - 1])
  }

  /** What the scan emits for one character `c` in state `inRun`. */
  function ScanHead(c: char, inRun: bool): string
  {
    if IsSpace(c) then (if inRun then [] else [' ']) else [c]
  }

  /** One step of the scan, on `x` and on `x + y`. */
  lemma ScanStep(x: string, y: string, inRun: bool)
    requires x != []
    ensures CollapseScan(x, inRun) == ScanHead(x[0], inRun) + CollapseScan(x[1..], IsSpace(x[0]))
    ensures CollapseScan(x + y, inRun) == ScanHead(x[0], inRun) + CollapseScan(x[1..] + y, IsSpace(x[0]))
  {
    assert (x + y)[0] == x[0] && (x + y)[1..] == x[1..] + y;
  }

  /** The scan of `x + y` is the scan of `x`, then the scan of `y` in the state `x` left. */
  lemma {:induction false} ScanSplit(x: string, y: string, inRun: bool)
    ensures CollapseScan(x + y, inRun) == CollapseScan(x, inRun) + CollapseScan(y, EndsInRun(x, inRun))
    decreases |x|
  {
    if x == [] {
      assert x + y == y;
    } else {
      ScanStep(x, y, inRun);
      ScanSplit(x[1..], y, IsSpace(x[0]));
      EndsInRunTail(x, inRun);
      AppendAssoc(ScanHead(x[0], inRun), CollapseScan(x[1..], IsSpace(x[0])), CollapseScan(y, EndsInRun(x, inRun)));
    }
  }

  lemma EndsInRunTail(x: string, inRun: bool)
    requires x != []
    ensures EndsInRun(x[1..], IsSpace(x[0])) == EndsInRun(x, inRun)
  {
    assert x[1..] != [] ==> x[1..][|x[1..]| - 1] == x[|x| - 1];
  }

  lemma AppendAssoc(a: string, b: string, c: string)
    ensures a + (b + c) == (a + b) + c
  {
  }

  /** A whitespace run produces one space, or nothing when a run is already open. */
  lemma {:induction false} ScanOfRun(w: string, inRun: bool)
    requires AllSpace(w)
    ensures CollapseScan(w, inRun) == if w == [] || inRun then [] else [' ']
    decreases |w|
  {
    if w != [] {
      assert IsSpace(w[0]);
      assert forall i :: 0 <= i < |w| - 1 ==> w[1..][i] == w[i + 1];
      ScanOfRun(w[1..], true);
    }
  }

  /** A string that starts with a visible character, or is empty, scans alike in both states. */
  lemma ScanFromVisible(b: string)
    requires b != [] ==> !IsSpace(b[0])
    ensures CollapseScan(b, true) == CollapseScan(b, false)
  {
  }

  /** A string that ends with a visible character collapses on its own: no whitespace run
      crosses its end. */
  lemma CollapseSplit(x: string, y: string)
    requires x != [] ==> !IsSpace(x[|x| - 1])
    ensures Collapse(x + y) == Collapse(x) + Collapse(y)
  {
    CollapseIsScan(x + y);
    CollapseIsScan(x);
    CollapseIsScan(y);
    ScanSplit(x, y, false);
  }

  /** `re.sub(r'\s+', ' ', ...)` replaces each maximal whitespace run, whatever its length and
      characters, by exactly one space in its place. */
  lemma CollapseRun(a: string, w: string, b: string)
    requires a != [] ==> !IsSpace(a[|a| - 1])
    requires w != [] && AllSpace(w)
    requires b != [] ==> !IsSpace(b[0])
    ensures Collapse(a + (w + b)) == Collapse(a) + (" " + Collapse(b))
  {
    CollapseSplit(a, w + b);
    CollapseLeadingRun(w, b);
  }

  /** A whitespace run followed by a visible character, or by nothing, collapses to one space. */
  lemma CollapseLeadingRun(w: string, b: string)
    requires w != [] && AllSpace(w)
    requires b != [] ==> !IsSpace(b[0])
    ensures Collapse(w + b) == " " + Collapse(b)
  {
    CollapseIsScan(w + b);
    CollapseIsScan(b);
    ScanSplit(w, b, false);
    assert IsSpace(w[|w| - 1]);
    ScanOfRun(w, false);
    ScanFromVisible(b);
  }
}
