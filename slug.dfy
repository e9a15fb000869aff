/**
 * `slugify_title`: a project title turned into the path segment of a YouGile
 * project URL. Whitespace runs become one hyphen and hyphen runs collapse.
 */
module Slug {
  import opened Wrappers
  import opened Text

  /** No two adjacent hyphens. */
  predicate NoDoubleHyphen(s: string) {
    forall i :: 0 <= i < |s| - 1 ==> !(s[i] == '-' && s[i + 1] == '-')
  }

  /** The letters of `s` that are neither whitespace nor hyphens, in order. */
  function Skeleton(s: string): string {
    if s == [] then []
    else (if IsSpace(s[0]) || s[0] == '-' then [] else [s[0]]) + Skeleton(s[1..])
  }

  lemma {:induction false} SkeletonAppend(a: string, b: string)
    ensures Skeleton(a + b) == Skeleton(a) + Skeleton(b)
    decreases |a|
  {
    if a == [] {
      assert a + b == b;
    } else {
      assert (a + b)[1..] == a[1..] + b;
      SkeletonAppend(a[1..], b);
    }
  }

  lemma {:induction false} SkeletonOfSpaces(s: string)
    requires AllSpace(s)
    ensures Skeleton(s) == []
    decreases |s|
  {
    if s != [] {
      SkeletonOfSpaces(s[1..]);
    }
  }

  /** Whitespace at either end does not count towards the skeleton. */
  lemma SkeletonStrip(s: string)
    ensures Skeleton(Strip(s)) == Skeleton(s)
  {
    var pre, post := StripParts(s);
    SkeletonOfSpaces(pre);
    SkeletonOfSpaces(post);
    SkeletonAppend(pre, Strip(s));
    SkeletonAppend(pre + Strip(s), post);
  }

  /** `re.sub(r"\s+", "-", s)`: every maximal whitespace run becomes one hyphen. */
  function ReplaceSpaceRuns(s: string): (r: string)
    ensures HasNoSpace(r)
    ensures Skeleton(r) == Skeleton(s)
    ensures |r| <= |s|
    decreases |s|
  {
    if s == [] then []
    else if IsSpace(s[0]) then
      var rest := TrimStart(s);
      assert |rest| < |s|;
      var tail := ReplaceSpaceRuns(rest);
      SkeletonStripStart(s);
      assert ("-" + tail)[1..] == tail;
      "-" + tail
    else
      var tail := ReplaceSpaceRuns(s[1..]);
      assert ([s[0]] + tail)[1..] == tail;
      [s[0]] + tail
  }

  lemma SkeletonStripStart(s: string)
    ensures Skeleton(TrimStart(s)) == Skeleton(s)
  {
    var k := |s| - |TrimStart(s)|;
    assert s == s[..k] + TrimStart(s);
    SkeletonOfSpaces(s[..k]);
    SkeletonAppend(s[..k], TrimStart(s));
  }

  /** A text with no whitespace is left as it is. */
  lemma {:induction false} ReplaceSpaceRunsNoSpace(s: string)
    requires HasNoSpace(s)
    ensures ReplaceSpaceRuns(s) == s
    decreases |s|
  {
    if s != [] {
      ReplaceSpaceRunsNoSpace(s[1..]);
    }
  }

  /** Dropping leading whitespace stops inside `a` when `a` ends in another character. */
  lemma TrimStartSplit(a: string, y: string)
    requires a != [] && !IsSpace(a[|a| - 1])
    ensures TrimStart(a + y) == TrimStart(a) + y
  {
    var t := TrimStart(a);
    var k := |a| - |t|;
    assert k < |a|;
    assert (a + y)[..k] == a[..k];
    TrimStartAt(a + y, k);
    assert (a + y)[k..] == a[k..] + y;
  }

  /**
   * A whitespace run between two other characters becomes exactly one
   * hyphen, and each side is rewritten on its own.
   */
  lemma {:induction false} ReplaceSpaceRunsSplit(a: string, sp: string, b: string)
    requires sp != [] && AllSpace(sp)
    requires a == [] || !IsSpace(a[|a| - 1])
    requires b == [] || !IsSpace(b[0])
    ensures ReplaceSpaceRuns(a + sp + b) == ReplaceSpaceRuns(a) + "-" + ReplaceSpaceRuns(b)
    decreases |a|
  {
    if a == [] {
      assert a + sp + b == sp + b;
      ReplaceSpaceRunsLead(sp, b);
    } else if IsSpace(a[0]) {
      var t := TrimStart(a);
      assert t != [] && t[|t| - 1] == a[|a| - 1];
      ReplaceSpaceRunsSplit(t, sp, b);
      SpaceFrontStep(a, sp, b);
      Regroup("-", ReplaceSpaceRuns(t), ReplaceSpaceRuns(b));
    } else {
      ReplaceSpaceRunsSplit(a[1..], sp, b);
      LetterFrontStep(a, sp, b);
      Regroup([a[0]], ReplaceSpaceRuns(a[1..]), ReplaceSpaceRuns(b));
    }
  }

  /** Concatenation regrouped around the hyphen the split lemmas put in. */
  lemma Regroup(h: string, x: string, y: string)
    ensures h + (x + "-" + y) == h + x + "-" + y
  {
  }

  /** A whitespace run at the front of `a` rewrites ahead of the rest. */
  lemma SpaceFrontStep(a: string, sp: string, b: string)
    requires a != [] && IsSpace(a[0]) && !IsSpace(a[|a| - 1])
    ensures ReplaceSpaceRuns(a + sp + b) == "-" + ReplaceSpaceRuns(TrimStart(a) + sp + b)
    ensures ReplaceSpaceRuns(a) == "-" + ReplaceSpaceRuns(TrimStart(a))
  {
    TrimStartSplit(a, sp + b);
    assert a + (sp + b) == a + sp + b;
    assert TrimStart(a) + (sp + b) == TrimStart(a) + sp + b;
  }

  /** Another character at the front of `a` is kept ahead of the rest. */
  lemma LetterFrontStep(a: string, sp: string, b: string)
    requires a != [] && !IsSpace(a[0])
    ensures ReplaceSpaceRuns(a + sp + b) == [a[0]] + ReplaceSpaceRuns(a[1..] + sp + b)
    ensures ReplaceSpaceRuns(a) == [a[0]] + ReplaceSpaceRuns(a[1..])
  {
    assert (a + sp + b)[1..] == a[1..] + sp + b;
  }

  /** A text opening with a whitespace run: the run becomes one hyphen. */
  lemma ReplaceSpaceRunsLead(sp: string, b: string)
    requires sp != [] && AllSpace(sp)
    requires b == [] || !IsSpace(b[0])
    ensures ReplaceSpaceRuns(sp + b) == "-" + ReplaceSpaceRuns(b)
  {
    var s := sp + b;
    assert s[..|sp|] == sp;
    TrimStartAt(s, |sp|);
    assert s[|sp|..] == b;
  }

  /** Rewriting whitespace keeps the last character when it is not whitespace. */
  lemma {:induction false} ReplaceSpaceRunsLast(s: string)
    requires s != [] && !IsSpace(s[|s| - 1])
    ensures var r := ReplaceSpaceRuns(s); r != [] && r[|r| - 1] == s[|s| - 1]
    decreases |s|
  {
    if IsSpace(s[0]) {
      var t := TrimStart(s);
      assert t != [] && t[|t| - 1] == s[|s| - 1];
      ReplaceSpaceRunsLast(t);
    } else if |s| > 1 {
      ReplaceSpaceRunsLast(s[1..]);
    }
  }

  /** Nothing but hyphens in `s`. */
  predicate AllHyphens(s: string) {
    forall i :: 0 <= i < |s| ==> s[i] == '-'
  }

  /** The end of the hyphen run that starts at index `i` of `s`. */
  function HyphenRunEnd(s: string, i: int): (k: int)
    requires 0 <= i <= |s|
    ensures i <= k <= |s|
    ensures forall j :: i <= j < k ==> s[j] == '-'
    ensures k == |s| || s[k] != '-'
    decreases |s| - i
  {
    if i < |s| && s[i] == '-' then HyphenRunEnd(s, i + 1) else i
  }

  /** The hyphen run at the front of `s` dropped. */
  function DropHyphens(s: string): (r: string)
    ensures |r| <= |s| && r == s[|s| - |r|..]
    ensures r == [] || r[0] != '-'
    ensures AllHyphens(s[..|s| - |r|])
  {
    s[HyphenRunEnd(s, 0)..]
  }

  lemma SkeletonDropHyphens(s: string)
    ensures Skeleton(DropHyphens(s)) == Skeleton(s)
  {
    var k := HyphenRunEnd(s, 0);
    assert s == s[..k] + s[k..];
    SkeletonOfHyphens(s[..k]);
    SkeletonAppend(s[..k], s[k..]);
  }

  lemma {:induction false} SkeletonOfHyphens(s: string)
    requires AllHyphens(s)
    ensures Skeleton(s) == []
    decreases |s|
  {
    if s != [] {
      SkeletonOfHyphens(s[1..]);
    }
  }

  /** `re.sub(r"-+", "-", s)`: every maximal hyphen run becomes one hyphen. */
  function CollapseHyphens(s: string): (r: string)
    ensures NoDoubleHyphen(r)
    ensures (r == []) == (s == []) && (s != [] ==> r[0] == s[0])
    decreases |s|
  {
    if s == [] then []
    else if s[0] == '-' then
      var tail := CollapseHyphens(DropHyphens(s));
      assert ("-" + tail)[1..] == tail;
      "-" + tail
    else
      var tail := CollapseHyphens(s[1..]);
      assert ([s[0]] + tail)[1..] == tail;
      [s[0]] + tail
  }

  /** The hyphen run at the front ends at `k` when `k` is where the hyphens stop. */
  lemma HyphenRunEndAt(s: string, k: int)
    requires 0 <= k <= |s| && AllHyphens(s[..k])
    requires k == |s| || s[k] != '-'
    ensures HyphenRunEnd(s, 0) == k
  {
  }

  /** Dropping leading hyphens stops inside `a` when `a` ends in another character. */
  lemma DropHyphensSplit(a: string, y: string)
    requires a != [] && a[|a| - 1] != '-'
    ensures DropHyphens(a + y) == DropHyphens(a) + y
  {
    var t := DropHyphens(a);
    var k := |a| - |t|;
    assert k < |a|;
    assert (a + y)[..k] == a[..k];
    HyphenRunEndAt(a + y, k);
    assert (a + y)[k..] == a[k..] + y;
  }

  /**
   * A hyphen run between two other characters becomes exactly one hyphen,
   * and each side is collapsed on its own.
   */
  lemma {:induction false} CollapseSplit(a: string, hy: string, b: string)
    requires hy != [] && AllHyphens(hy)
    requires a == [] || a[|a| - 1] != '-'
    requires b == [] || b[0] != '-'
    ensures CollapseHyphens(a + hy + b) == CollapseHyphens(a) + "-" + CollapseHyphens(b)
    decreases |a|
  {
    if a == [] {
      assert a + hy + b == hy + b;
      CollapseLead(hy, b);
    } else if a[0] == '-' {
      var t := DropHyphens(a);
      assert t != [] && t[|t| - 1] == a[|a| - 1];
      CollapseSplit(t, hy, b);
      HyphenFrontStep(a, hy, b);
      Regroup("-", CollapseHyphens(t), CollapseHyphens(b));
    } else {
      CollapseSplit(a[1..], hy, b);
      CollapseLetterStep(a, hy, b);
      Regroup([a[0]], CollapseHyphens(a[1..]), CollapseHyphens(b));
    }
  }

  /** A text opening with a hyphen run: the run becomes one hyphen. */
  lemma CollapseLead(hy: string, b: string)
    requires hy != [] && AllHyphens(hy)
    requires b == [] || b[0] != '-'
    ensures CollapseHyphens(hy + b) == "-" + CollapseHyphens(b)
  {
    var s := hy + b;
    assert s[..|hy|] == hy;
    HyphenRunEndAt(s, |hy|);
    assert s[|hy|..] == b;
  }

  /** A hyphen run at the front of `a` collapses ahead of the rest. */
  lemma HyphenFrontStep(a: string, hy: string, b: string)
    requires a != [] && a[0] == '-' && a[|a| - 1] != '-'
    ensures CollapseHyphens(a + hy + b) == "-" + CollapseHyphens(DropHyphens(a) + hy + b)
    ensures CollapseHyphens(a) == "-" + CollapseHyphens(DropHyphens(a))
  {
    DropHyphensSplit(a, hy + b);
    assert a + (hy + b) == a + hy + b;
    assert DropHyphens(a) + (hy + b) == DropHyphens(a) + hy + b;
  }

  /** Another character at the front of `a` is kept ahead of the rest. */
  lemma CollapseLetterStep(a: string, hy: string, b: string)
    requires a != [] && a[0] != '-'
    ensures CollapseHyphens(a + hy + b) == [a[0]] + CollapseHyphens(a[1..] + hy + b)
    ensures CollapseHyphens(a) == [a[0]] + CollapseHyphens(a[1..])
  {
    assert (a + hy + b)[1..] == a[1..] + hy + b;
  }

  /** Collapsing hyphen runs keeps every other character, in order. */
  lemma {:induction false} CollapseSkeleton(s: string)
    ensures Skeleton(CollapseHyphens(s)) == Skeleton(s)
    decreases |s|
  {
    if s != [] {
      var r := CollapseHyphens(s);
      if s[0] == '-' {
        var rest := DropHyphens(s);
        CollapseSkeleton(rest);
        SkeletonDropHyphens(s);
        assert r == "-" + CollapseHyphens(rest);
        SkeletonAppend("-", CollapseHyphens(rest));
      } else {
        CollapseSkeleton(s[1..]);
        assert r == [s[0]] + CollapseHyphens(s[1..]);
        SkeletonAppend([s[0]], CollapseHyphens(s[1..]));
      }
    }
  }

  /** Collapsing hyphen runs brings in no whitespace. */
  lemma {:induction false} CollapseNoSpace(s: string)
    requires HasNoSpace(s)
    ensures HasNoSpace(CollapseHyphens(s))
    decreases |s|
  {
    if s != [] {
      if s[0] == '-' {
        CollapseNoSpace(DropHyphens(s));
      } else {
        CollapseNoSpace(s[1..]);
      }
    }
  }

  /** A text without a double hyphen is left as it is. */
  lemma {:induction false} CollapseIdentity(s: string)
    requires NoDoubleHyphen(s)
    ensures CollapseHyphens(s) == s
    decreases |s|
  {
    if s != [] {
      if s[0] == '-' {
        assert HyphenRunEnd(s, 0) == HyphenRunEnd(s, 1);
        assert HyphenRunEnd(s, 1) == 1 by {
          assert |s| > 1 ==> s[1] != '-';
        }
      }
      assert NoDoubleHyphen(s[1..]);
      CollapseIdentity(s[1..]);
      assert s == [s[0]] + s[1..];
    }
  }

  /**
   * `slugify_title(title)` before URL quoting: the stripped title with each
   * whitespace run replaced by a hyphen and each hyphen run collapsed. The
   * slug has no whitespace, no double hyphen, and keeps every other character
   * of the title in order.
   */
  function SlugifyTitle(title: Option<string>): (r: string)
    ensures HasNoSpace(r) && NoDoubleHyphen(r)
    ensures Skeleton(r) == Skeleton(title.GetOr(""))
  {
    var s := ReplaceSpaceRuns(Strip(title.GetOr("")));
    SkeletonStrip(title.GetOr(""));
    CollapseSkeleton(s);
    CollapseNoSpace(s);
    CollapseHyphens(s)
  }

  /** Slugifying a slug changes nothing. */
  lemma SlugifyIdempotent(title: Option<string>)
    ensures SlugifyTitle(Some(SlugifyTitle(title))) == SlugifyTitle(title)
  {
    var r := SlugifyTitle(title);
    assert IsStripped(r);
    assert Strip(r) == r;
    ReplaceSpaceRunsNoSpace(r);
    CollapseIdentity(r);
  }

  /**
   * Two titles joined by whitespace slugify to their two slugs joined by one
   * hyphen: `"Мой проект"` becomes `"Мой-проект"`.
   */
  lemma SlugifyJoin(a: string, sp: string, b: string)
    requires a != [] && IsStripped(a) && a[|a| - 1] != '-'
    requires b != [] && IsStripped(b) && b[0] != '-'
    requires sp != [] && AllSpace(sp)
    ensures SlugifyTitle(Some(a + sp + b)) == SlugifyTitle(Some(a)) + "-" + SlugifyTitle(Some(b))
  {
    SlugsOfJoin(a, sp, b);
    JoinRewrite(a, sp, b);
    CollapseSplit(ReplaceSpaceRuns(a), "-", ReplaceSpaceRuns(b));
  }

  /** The three slugs of `SlugifyJoin`, none of whose titles has outer whitespace. */
  lemma SlugsOfJoin(a: string, sp: string, b: string)
    requires a != [] && IsStripped(a) && b != [] && IsStripped(b)
    ensures SlugifyTitle(Some(a + sp + b)) == CollapseHyphens(ReplaceSpaceRuns(a + sp + b))
    ensures SlugifyTitle(Some(a)) == CollapseHyphens(ReplaceSpaceRuns(a))
    ensures SlugifyTitle(Some(b)) == CollapseHyphens(ReplaceSpaceRuns(b))
  {
    var s := a + sp + b;
    assert s[0] == a[0] && s[|s| - 1] == b[|b| - 1];
    SlugOfStripped(s);
    SlugOfStripped(a);
    SlugOfStripped(b);
  }

  /** The rewritten join, with no hyphen on either side of the one put in. */
  lemma JoinRewrite(a: string, sp: string, b: string)
    requires a != [] && !IsSpace(a[|a| - 1]) && a[|a| - 1] != '-'
    requires b != [] && !IsSpace(b[0]) && b[0] != '-'
    requires sp != [] && AllSpace(sp)
    ensures var ra, rb := ReplaceSpaceRuns(a), ReplaceSpaceRuns(b);
      && ReplaceSpaceRuns(a + sp + b) == ra + "-" + rb
      && ra != [] && ra[|ra| - 1] != '-' && rb != [] && rb[0] != '-'
  {
    ReplaceSpaceRunsSplit(a, sp, b);
    ReplaceSpaceRunsLast(a);
    LetterFrontStep(b, [], []);
  }

  /** A title with no outer whitespace is only rewritten and collapsed. */
  lemma SlugOfStripped(s: string)
    requires IsStripped(s)
    ensures SlugifyTitle(Some(s)) == CollapseHyphens(ReplaceSpaceRuns(s))
  {
    assert Strip(s) == s;
  }
}
