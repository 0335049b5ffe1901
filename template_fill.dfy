/**
 * Template substitution shared by both content generators: a title template and
 * each selling-point line go through a fixed chain of `String.replace` calls with
 * string patterns, so only the first occurrence of each placeholder is replaced.
 */
module TemplateFill {
  import opened Base
  import opened Types

  /** `s.replace(p0, r0).replace(p1, r1)...`, each step applied to the previous result. */
  function Substitute(s: string, steps: seq<(string, string)>): string
    decreases |steps|
  {
    if |steps| == 0 then s
    else Substitute(ReplaceFirst(s, steps[0].0, steps[0].1), steps[1..])
  }

  /** The title chain: brand, name, category, material, color, audience; a missing optional field is ''. */
  function TitleSteps(p: Product): (r: seq<(string, string)>)
    ensures |r| == 6
    ensures forall i :: 0 <= i < |r| ==> |r[i].0| > 0 && r[i].0[0] == '{'
  {
    [("{brand}", p.brand), ("{name}", p.name), ("{category}", p.category),
     ("{material}", OrElse(p.material, "")), ("{color}", OrElse(p.color, "")),
     ("{targetAudience}", OrElse(p.targetAudience, ""))]
  }

  /** The selling-point chain: brand, material (default '精选材料'), audience (default '多场景'). */
  function PointSteps(p: Product): (r: seq<(string, string)>)
    ensures |r| == 3
    ensures forall i :: 0 <= i < |r| ==> |r[i].0| > 0 && r[i].0[0] == '{'
  {
    [("{brand}", p.brand), ("{material}", OrElse(p.material, "精选材料")),
     ("{targetAudience}", OrElse(p.targetAudience, "多场景"))]
  }

  /** The filled title. */
  function FillTitle(template: string, p: Product): string
  {
    Substitute(template, TitleSteps(p))
  }

  /** The filled selling points: one line per template line, in order. */
  function FillPoints(lines: seq<string>, p: Product): (r: seq<string>)
    ensures |r| == |lines|
    ensures forall i :: 0 <= i < |lines| ==> r[i] == Substitute(lines[i], PointSteps(p))
  {
    seq(|lines|, i requires 0 <= i < |lines| => Substitute(lines[i], PointSteps(p)))
  }

  /** A text without '{' holds no placeholder. */
  lemma NoBraceNoMatch(s: string, pat: string)
    requires '{' !in s && |pat| > 0 && pat[0] == '{'
    ensures forall j :: !MatchesAt(s, pat, j)
  {
    forall j | 0 <= j && j + |pat| <= |s| ensures !MatchesAt(s, pat, j) {
      assert s[j..j + |pat|][0] == s[j];
    }
  }

  /**
   * A placeholder occurs nowhere in a text whose only '{' is its first character and
   * whose second character differs from the placeholder's.
   */
  lemma OneBraceNoMatch(s: string, pat: string)
    requires |s| >= 2 && |pat| >= 2 && pat[0] == '{' && s[1] != pat[1]
    requires '{' !in s[1..]
    ensures forall j :: !MatchesAt(s, pat, j)
  {
    forall j | 0 <= j && j + |pat| <= |s| ensures !MatchesAt(s, pat, j) {
      if j == 0 {
        assert s[j..j + |pat|][1] == s[1];
      } else {
        assert s[1..][j - 1] == s[j];
        assert s[j..j + |pat|][0] == s[j];
      }
    }
  }

  /** A text without '{' goes through any chain of placeholder replacements unchanged. */
  lemma {:induction false} SubstituteNoBrace(s: string, steps: seq<(string, string)>)
    requires '{' !in s
    requires forall i :: 0 <= i < |steps| ==> |steps[i].0| > 0 && steps[i].0[0] == '{'
    ensures Substitute(s, steps) == s
    decreases |steps|
  {
    if |steps| > 0 {
      NoBraceNoMatch(s, steps[0].0);
      SubstituteNoBrace(s, steps[1..]);
    }
  }

  /** Chains compose: running two chains one after the other is running their concatenation. */
  lemma {:induction false} SubstituteAppend(s: string, xs: seq<(string, string)>, ys: seq<(string, string)>)
    ensures Substitute(s, xs + ys) == Substitute(Substitute(s, xs), ys)
    decreases |xs|
  {
    if |xs| == 0 {
      assert xs + ys == ys;
    } else {
      assert (xs + ys)[1..] == xs[1..] + ys;
      SubstituteAppend(ReplaceFirst(s, xs[0].0, xs[0].1), xs[1..], ys);
    }
  }

  /** A template without placeholders is the title itself, and lines without them are kept as they are. */
  lemma PlainTemplates(template: string, lines: seq<string>, p: Product)
    requires '{' !in template
    requires forall i :: 0 <= i < |lines| ==> '{' !in lines[i]
    ensures FillTitle(template, p) == template
    ensures FillPoints(lines, p) == lines
  {
    SubstituteNoBrace(template, TitleSteps(p));
    forall i | 0 <= i < |lines| ensures FillPoints(lines, p)[i] == lines[i] {
      SubstituteNoBrace(lines[i], PointSteps(p));
    }
  }

  /**
   * Only the first "{brand}" is replaced: with no placeholder before it, the brand step
   * writes the brand there and keeps the rest verbatim, later "{brand}"s included.
   */
  lemma BrandReplacedOnce(a: string, b: string, p: Product)
    requires '{' !in a && '$' !in p.brand
    ensures var steps := TitleSteps(p);
            FillTitle(a + "{brand}" + b, p) == Substitute(a + p.brand + b, steps[1..])
  {
    var s := a + "{brand}" + b;
    forall j | 0 <= j < |a| ensures !MatchesAt(s, "{brand}", j) {
      assert s[j] == a[j];
      assert j + 7 <= |s| ==> s[j..j + 7][0] == s[j];
    }
    ReplaceFirstAt(a, "{brand}", b, p.brand);
    ExpandLiteral(p.brand, "{brand}", a, b);
  }

  /** A missing or empty material, color or audience is written exactly as '' would be. */
  lemma TitleDefaults(template: string, p: Product)
    ensures !Present(p.material) ==> FillTitle(template, p) == FillTitle(template, p.(material := Some("")))
    ensures !Present(p.color) ==> FillTitle(template, p) == FillTitle(template, p.(color := Some("")))
    ensures !Present(p.targetAudience) ==> FillTitle(template, p) == FillTitle(template, p.(targetAudience := Some("")))
  {
    assert !Present(p.material) ==> TitleSteps(p) == TitleSteps(p.(material := Some("")));
    assert !Present(p.color) ==> TitleSteps(p) == TitleSteps(p.(color := Some("")));
    assert !Present(p.targetAudience) ==> TitleSteps(p) == TitleSteps(p.(targetAudience := Some("")));
  }

  /** In the selling points a missing material reads '精选材料' and a missing audience '多场景'. */
  lemma PointDefaults(lines: seq<string>, p: Product)
    ensures !Present(p.material) ==> FillPoints(lines, p) == FillPoints(lines, p.(material := Some("精选材料")))
    ensures !Present(p.targetAudience) ==> FillPoints(lines, p) == FillPoints(lines, p.(targetAudience := Some("多场景")))
  {
    assert !Present(p.material) ==> PointSteps(p) == PointSteps(p.(material := Some("精选材料")));
    assert !Present(p.targetAudience) ==> PointSteps(p) == PointSteps(p.(targetAudience := Some("多场景")));
  }

  /** The selling-point chain has no name, category or color step: those placeholders stay. */
  lemma PointsKeepOtherPlaceholders(p: Product)
    ensures FillPoints(["{name}", "{category}", "{color}"], p) == ["{name}", "{category}", "{color}"]
  {
    var lines := ["{name}", "{category}", "{color}"];
    var steps := PointSteps(p);
    forall i, k | 0 <= i < 3 && 0 <= k < 3 ensures forall j :: !MatchesAt(lines[i], steps[k].0, j) {
      assert lines[i][1..] == lines[i][1..|lines[i]|];
      OneBraceNoMatch(lines[i], steps[k].0);
    }
    forall i | 0 <= i < 3 ensures Substitute(lines[i], steps) == lines[i] {
      SubstituteNoMatch(lines[i], steps);
    }
  }

  /** A chain none of whose placeholders occurs leaves the text unchanged. */
  lemma {:induction false} SubstituteNoMatch(s: string, steps: seq<(string, string)>)
    requires forall k, j :: 0 <= k < |steps| ==> !MatchesAt(s, steps[k].0, j)
    ensures Substitute(s, steps) == s
    decreases |steps|
  {
    if |steps| > 0 {
      assert ReplaceFirst(s, steps[0].0, steps[0].1) == s;
      assert forall k :: 1 <= k < |steps| ==> steps[1..][k - 1] == steps[k];
      SubstituteNoMatch(s, steps[1..]);
    }
  }
}
