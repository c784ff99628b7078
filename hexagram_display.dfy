/**
 * The hexagram component: it draws one bar per line string, a broken
 * (yin) bar when the string contains "yin" and a solid (yang) bar otherwise.
 */
module HexagramDisplay {
  import opened Wrappers

  /** The two bars the component can draw: a solid `YangLine`, or a `YinLine`
      made of two segments with a gap between them. */
  datatype Glyph = YangLine | YinLine

  /** `pat` occurs in `s` starting at index `i`. */
  predicate OccursAt(s: string, pat: string, i: nat) {
    i + |pat| <= |s| && s[i..i + |pat|] == pat
  }

  /** JavaScript's `s.includes(pat)`, as a left-to-right scan. The empty
      pattern is found in every string; a match needs a pattern no longer than
      the string. */
  function Includes(s: string, pat: string): (b: bool)
    ensures b ==> |pat| <= |s|
    ensures OccursAt(s, pat, 0) ==> b
    ensures pat == [] ==> b
    decreases |s|
  {
    if |pat| > |s| then false
    else if s[..|pat|] == pat then true
    else Includes(s[1..], pat)
  }

  /** The scan finds `pat` exactly when `pat` occurs somewhere in `s`. */
  lemma {:induction false} IncludesIff(s: string, pat: string)
    ensures Includes(s, pat) <==> exists i: nat :: OccursAt(s, pat, i)
    decreases |s|
  {
    if |pat| > |s| {
    } else if s[..|pat|] == pat {
      assert OccursAt(s, pat, 0);
    } else {
      IncludesIff(s[1..], pat);
      if Includes(s, pat) {
        var j: nat :| OccursAt(s[1..], pat, j);
        assert s[j + 1..j + 1 + |pat|] == s[1..][j..j + |pat|];
        assert OccursAt(s, pat, j + 1);
      }
      if exists i: nat :: OccursAt(s, pat, i) {
        var i: nat :| OccursAt(s, pat, i);
        assert i != 0 by { assert s[0..|pat|] == s[..|pat|]; }
        assert s[1..][i - 1..i - 1 + |pat|] == s[i..i + |pat|];
        assert OccursAt(s[1..], pat, i - 1);
      }
    }
  }

  /** The bar drawn for one line string: yin exactly when "yin" occurs in it. */
  function Classify(line: string): (g: Glyph)
    ensures g == YinLine <==> exists i: nat :: OccursAt(line, "yin", i)
  {
    IncludesIff(line, "yin");
    if Includes(line, "yin") then YinLine else YangLine
  }

  /** The rendered component: `lines.map(...)`, one bar per line string, in
      order. The `currentLine` prop is declared but never read. */
  function Render(lines: seq<string>, currentLine: Option<int>): (r: seq<Glyph>)
    ensures |r| == |lines|
    ensures forall i :: 0 <= i < |lines| ==> r[i] == Classify(lines[i])
  {
    if lines == [] then [] else [Classify(lines[0])] + Render(lines[1..], currentLine)
  }

  /** A line renders as yin iff its string contains "yin", as yang otherwise. */
  lemma RenderYinIff(lines: seq<string>, currentLine: Option<int>, i: nat)
    requires i < |lines|
    ensures Render(lines, currentLine)[i] == YinLine <==> exists k: nat :: OccursAt(lines[i], "yin", k)
    ensures Render(lines, currentLine)[i] == YangLine <==> !exists k: nat :: OccursAt(lines[i], "yin", k)
  {
  }

  /** "yang", the word the coin-toss page falls back on for a solid line,
      renders solid; so does any other string without "yin", e.g. "old yang". */
  lemma YangRendersSolid()
    ensures Classify("yang") == YangLine
    ensures Classify("old yang") == YangLine
  {
    WithoutIRendersSolid("yang");
    WithoutIRendersSolid("old yang");
  }

  /** A string with no letter 'i' cannot contain "yin", so it renders solid. */
  lemma WithoutIRendersSolid(line: string)
    requires forall j :: 0 <= j < |line| ==> line[j] != 'i'
    ensures Classify(line) == YangLine
  {
    forall k: nat ensures !OccursAt(line, "yin", k) {
      if k + 3 <= |line| {
        assert line[k..k + 3][1] == line[k + 1] != 'i' == "yin"[1];
      }
    }
  }

  /** Any string that mentions "yin" renders broken, e.g. "old yin". */
  lemma YinRendersBroken(line: string, k: nat)
    requires OccursAt(line, "yin", k)
    ensures Classify(line) == YinLine
  {
  }

  /** The rendering depends on `lines` alone. */
  lemma {:induction false} RenderIgnoresCurrentLine(lines: seq<string>, c1: Option<int>, c2: Option<int>)
    ensures Render(lines, c1) == Render(lines, c2)
  {
    if lines != [] {
      RenderIgnoresCurrentLine(lines[1..], c1, c2);
    }
  }

  /** Appending a line string appends exactly its bar and redraws nothing else. */
  lemma RenderAppend(lines: seq<string>, line: string, c: Option<int>)
    ensures Render(lines + [line], c) == Render(lines, c) + [Classify(line)]
  {
  }
}
