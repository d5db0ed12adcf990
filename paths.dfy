/**
 * The path arithmetic of the dataset: an image's mask lives at the image's
 * path with every occurrence of "<mode>_img" replaced by "<mode>_label",
 * with the left-to-right, non-overlapping semantics of Python's str.replace.
 */
module Paths {

  /** Does `pat` occur in `s` starting at position k? */
  predicate OccursAt(s: string, pat: string, k: int)
  {
    0 <= k && k + |pat| <= |s| && s[k..k + |pat|] == pat
  }

  /** Every occurrence of `pattern` in `s`, scanned left to right without overlap, replaced by `replacement`. */
  function ReplaceAll(s: string, pattern: string, replacement: string): (r: string)
    requires |pattern| > 0
    ensures replacement == pattern ==> r == s
    ensures |replacement| == |pattern| ==> |r| == |s|
    ensures |pattern| <= |replacement| ==> |s| <= |r|
    decreases |s|
  {
    if |s| < |pattern| then s
    else if s[..|pattern|] == pattern then replacement + ReplaceAll(s[|pattern|..], pattern, replacement)
    else [s[0]] + ReplaceAll(s[1..], pattern, replacement)
  }

  function ImageDir(mode: string): string { mode + "_img" }

  function LabelDir(mode: string): string { mode + "_label" }

  /** The mask that belongs to the image at `dataPath`. */
  function MaskPath(dataPath: string, mode: string): (r: string)
    ensures |dataPath| <= |r|
    ensures (forall k :: !OccursAt(dataPath, ImageDir(mode), k)) ==> r == dataPath
  {
    assert (forall k :: !OccursAt(dataPath, ImageDir(mode), k)) ==> ReplaceAll(dataPath, ImageDir(mode), LabelDir(mode)) == dataPath by {
      if forall k :: !OccursAt(dataPath, ImageDir(mode), k) {
        ReplaceAllNoMatch(dataPath, ImageDir(mode), LabelDir(mode));
      }
    }
    ReplaceAll(dataPath, ImageDir(mode), LabelDir(mode))
  }

  /** A string in which `pattern` never occurs is left as it is. */
  lemma {:induction false} ReplaceAllNoMatch(s: string, pattern: string, replacement: string)
    requires |pattern| > 0
    requires forall k :: !OccursAt(s, pattern, k)
    ensures ReplaceAll(s, pattern, replacement) == s
  {
    if |s| >= |pattern| {
      assert !OccursAt(s, pattern, 0);
      forall k ensures !OccursAt(s[1..], pattern, k) {
        if OccursAt(s[1..], pattern, k) {
          assert s[1..][k..k + |pattern|] == s[k + 1..k + 1 + |pattern|];
          assert OccursAt(s, pattern, k + 1);
        }
      }
      ReplaceAllNoMatch(s[1..], pattern, replacement);
    }
  }

  /**
   * When the first occurrence of `pattern` in `p + pattern + q` is the one right after `p`,
   * `p` is copied, that occurrence becomes `replacement`, and the scan resumes after it.
   */
  lemma {:induction false} ReplaceAllFirstMatch(p: string, pattern: string, q: string, replacement: string)
    requires |pattern| > 0
    requires forall k :: 0 <= k < |p| ==> !OccursAt(p + pattern, pattern, k)
    ensures ReplaceAll(p + pattern + q, pattern, replacement) == p + replacement + ReplaceAll(q, pattern, replacement)
  {
    var s := p + pattern + q;
    if |p| == 0 {
      assert s == pattern + q;
      assert s[..|pattern|] == pattern;
      assert s[|pattern|..] == q;
    } else {
      assert !OccursAt(p + pattern, pattern, 0);
      assert s[..|pattern|] == (p + pattern)[..|pattern|];
      assert s[..|pattern|] != pattern;
      forall k | 0 <= k < |p[1..]|
        ensures !OccursAt(p[1..] + pattern, pattern, k)
      {
        assert (p[1..] + pattern)[k..k + |pattern|] == (p + pattern)[k + 1..k + 1 + |pattern|];
        assert !OccursAt(p + pattern, pattern, k + 1);
      }
      ReplaceAllFirstMatch(p[1..], pattern, q, replacement);
      assert s[1..] == p[1..] + pattern + q;
      assert [s[0]] + (p[1..] + replacement + ReplaceAll(q, pattern, replacement)) == p + replacement + ReplaceAll(q, pattern, replacement);
    }
  }

  /**
   * The path of an image found by the dataset's glob, `dir + "<mode>_img" + name`, maps to
   * `dir + "<mode>_label" + name` when "<mode>_img" occurs nowhere else in it.
   */
  lemma MaskPathOfGlobbedImage(dir: string, mode: string, name: string)
    requires forall k :: 0 <= k < |dir| ==> !OccursAt(dir + ImageDir(mode), ImageDir(mode), k)
    requires forall k :: !OccursAt(name, ImageDir(mode), k)
    ensures MaskPath(dir + ImageDir(mode) + name, mode) == dir + LabelDir(mode) + name
  {
    ReplaceAllFirstMatch(dir, ImageDir(mode), name, LabelDir(mode));
    ReplaceAllNoMatch(name, ImageDir(mode), LabelDir(mode));
  }

}
