/**
 * The bubble sizer's image processor, without its image numerics: how the contours of a
 * contour tree are sorted into inner, outer and isolated contours, which fitted ellipses the
 * reconstruction keeps, and how the evaluation splits the results into trusted values and
 * metadata. Contours are identified by their index and carried as their point counts;
 * measures computed by the image library (fitted axes, perimeters, overlap scores) are inputs.
 */
module BubbleProcessor {
  import opened Wrappers

  /** One contour's entry of the tree hierarchy: next and previous sibling, first child and parent, -1 for none. */
  datatype Hier = Hier(next: int, prev: int, child: int, parent: int)

  /** The hierarchy has an entry per contour and every first child is a contour index or -1. */
  predicate WellFormed(sizes: seq<nat>, hier: seq<Hier>)
  {
    && |hier| == |sizes|
    && forall i :: 0 <= i < |hier| ==> hier[i].child == -1 || 0 <= hier[i].child < |hier|
  }

  /** A contour with a first child that has no next sibling: the outline of a bubble with exactly one hole. */
  predicate OnlyChild(sizes: seq<nat>, hier: seq<Hier>, i: nat)
    requires WellFormed(sizes, hier) && i < |hier|
  {
    hier[i].child != -1 && hier[hier[i].child].next == -1
  }

  predicate InnerKind(sizes: seq<nat>, hier: seq<Hier>, i: nat)
    requires WellFormed(sizes, hier) && i < |hier|
  {
    sizes[i] > 15 && hier[i].parent != -1
  }

  predicate OuterKind(sizes: seq<nat>, hier: seq<Hier>, i: nat)
    requires WellFormed(sizes, hier) && i < |hier|
  {
    sizes[i] > 15 && hier[i].parent == -1 && !OnlyChild(sizes, hier, i)
  }

  predicate IsolatedKind(sizes: seq<nat>, hier: seq<Hier>, i: nat)
    requires WellFormed(sizes, hier) && i < |hier|
  {
    sizes[i] > 15 && hier[i].parent == -1 && OnlyChild(sizes, hier, i)
  }

  /** The three lists and the set of skipped indices built so far. */
  datatype Sorting = Sorting(inner: seq<nat>, outer: seq<nat>, isolated: seq<nat>, processed: set<int>)

  /** `find_contours` after its first `n` iterations. */
  function Scan(sizes: seq<nat>, hier: seq<Hier>, n: nat): Sorting
    requires WellFormed(sizes, hier) && n <= |sizes|
  {
    if n == 0 then Sorting([], [], [], {})
    else
      var s := Scan(sizes, hier, n - 1);
      var i := n - 1;
      if i in s.processed then s
      else if hier[i].parent == -1 then
        if OnlyChild(sizes, hier, i) then
          if sizes[i] > 15 then s.(isolated := s.isolated + [i], processed := s.processed + {hier[i].child}) else s
        else if sizes[i] > 15 then s.(outer := s.outer + [i]) else s
      else if sizes[i] > 15 then s.(inner := s.inner + [i]) else s
  }

  /** Whether contour `i` was marked as an isolated bubble's hole before its own turn came. */
  predicate Marked(sizes: seq<nat>, hier: seq<Hier>, i: nat)
    requires WellFormed(sizes, hier) && i <= |sizes|
  {
    i in Scan(sizes, hier, i).processed
  }

  predicate Increasing(xs: seq<nat>)
  {
    forall i, j :: 0 <= i < j < |xs| ==> xs[i] < xs[j]
  }

  /**
   * The lists hold indices below `n` in increasing order; the marked indices are exactly the
   * first children of the isolated contours.
   */
  lemma {:induction false} ScanShape(sizes: seq<nat>, hier: seq<Hier>, n: nat)
    requires WellFormed(sizes, hier) && n <= |sizes|
    ensures var s := Scan(sizes, hier, n);
            && (forall x :: x in s.inner || x in s.outer || x in s.isolated ==> x < n)
            && Increasing(s.inner) && Increasing(s.outer) && Increasing(s.isolated)
            && s.processed == set j | j in s.isolated && j < |hier| :: hier[j].child
  {
    if n > 0 {
      ScanShape(sizes, hier, n - 1);
      var s := Scan(sizes, hier, n - 1);
      AppendIncreasing(s.inner, n - 1);
      AppendIncreasing(s.outer, n - 1);
      AppendIncreasing(s.isolated, n - 1);
    }
  }

  lemma AppendIncreasing(xs: seq<nat>, x: nat)
    requires Increasing(xs) && forall y :: y in xs ==> y < x
    ensures Increasing(xs + [x])
  {
    assert forall i :: 0 <= i < |xs| ==> xs[i] in xs;
  }

  /**
   * Each contour before `n` lands in the list of its kind, unless it was marked as an earlier
   * isolated bubble's hole: inner for a contour with a parent, isolated for a root with an only
   * child, outer for any other root; and only contours of more than 15 points are listed.
   */
  lemma {:induction false} ScanKinds(sizes: seq<nat>, hier: seq<Hier>, n: nat)
    requires WellFormed(sizes, hier) && n <= |sizes|
    ensures var s := Scan(sizes, hier, n);
            forall i :: 0 <= i < n ==>
              && (i in s.inner <==> !Marked(sizes, hier, i) && InnerKind(sizes, hier, i))
              && (i in s.outer <==> !Marked(sizes, hier, i) && OuterKind(sizes, hier, i))
              && (i in s.isolated <==> !Marked(sizes, hier, i) && IsolatedKind(sizes, hier, i))
  {
    forall i | 0 <= i < n
      ensures var s := Scan(sizes, hier, n);
              && (i in s.inner <==> !Marked(sizes, hier, i) && InnerKind(sizes, hier, i))
              && (i in s.outer <==> !Marked(sizes, hier, i) && OuterKind(sizes, hier, i))
              && (i in s.isolated <==> !Marked(sizes, hier, i) && IsolatedKind(sizes, hier, i))
    {
      ScanKindAt(sizes, hier, n, i);
    }
  }

  /** `ScanKinds` for one contour `i`: its turn decides its list, and later turns leave that alone. */
  lemma {:induction false} ScanKindAt(sizes: seq<nat>, hier: seq<Hier>, n: nat, i: nat)
    requires WellFormed(sizes, hier) && i < n <= |sizes|
    ensures var s := Scan(sizes, hier, n);
            && (i in s.inner <==> !Marked(sizes, hier, i) && InnerKind(sizes, hier, i))
            && (i in s.outer <==> !Marked(sizes, hier, i) && OuterKind(sizes, hier, i))
            && (i in s.isolated <==> !Marked(sizes, hier, i) && IsolatedKind(sizes, hier, i))
  {
    var m := n - 1;
    ScanShape(sizes, hier, m);
    if i < m {
      ScanKindAt(sizes, hier, m, i);
    }
  }

  /** No contour is in two lists, and every listed contour has more than 15 points. */
  lemma ScanDisjoint(sizes: seq<nat>, hier: seq<Hier>)
    requires WellFormed(sizes, hier)
    ensures var s := Scan(sizes, hier, |sizes|);
            && (forall i :: !(i in s.inner && i in s.outer) && !(i in s.inner && i in s.isolated) && !(i in s.outer && i in s.isolated))
            && (forall i :: i in s.inner || i in s.outer || i in s.isolated ==> i < |sizes| && sizes[i] > 15)
  {
    ScanShape(sizes, hier, |sizes|);
    ScanKinds(sizes, hier, |sizes|);
  }

  /**
   * The hole of an isolated bubble is never listed: it is marked when its root is listed, and
   * skipped when its turn comes after that.
   */
  lemma IsolatedHoleSkipped(sizes: seq<nat>, hier: seq<Hier>, r: nat)
    requires WellFormed(sizes, hier) && r < |sizes|
    requires r in Scan(sizes, hier, |sizes|).isolated && r < hier[r].child
    ensures var s := Scan(sizes, hier, |sizes|);
            var c := hier[r].child;
            c !in s.inner && c !in s.outer && c !in s.isolated
  {
    var c := hier[r].child;
    ScanKinds(sizes, hier, |sizes|);
    ScanKinds(sizes, hier, c);
    ScanShape(sizes, hier, c);
    ScanShape(sizes, hier, |sizes|);
    assert r in Scan(sizes, hier, c).isolated;
    assert Marked(sizes, hier, c);
  }

  /**
   * What the processor raises besides the image library: indexing the hierarchy of a frame with
   * no contour, whose hierarchy is None (TypeError); center points that are not (N, 2), and
   * `np.vstack` over no outer contour (both ValueError).
   */
  datatype ProcessError = HierarchyNone | CenterPointsShape | NothingToStack

  /**
   * `find_contours`: the image library gives no hierarchy for a frame without contours, so
   * `hierarchy[0]` raises; otherwise the loop over the contours of the tree.
   */
  method FindContours(sizes: seq<nat>, hier: seq<Hier>) returns (r: Result<(seq<nat>, seq<nat>, seq<nat>), ProcessError>)
    requires WellFormed(sizes, hier)
    ensures r.Err? <==> sizes == []
    ensures r.Err? ==> r.error == HierarchyNone
    ensures r.Ok? ==> var s := Scan(sizes, hier, |sizes|); r.value == (s.inner, s.outer, s.isolated)
  {
    if sizes == [] {
      return Err(HierarchyNone);
    }
    var inner: seq<nat>, outer: seq<nat>, isolated: seq<nat> := [], [], [];
    var processed: set<int> := {};
    var i := 0;
    while i < |sizes|
      invariant 0 <= i <= |sizes|
      invariant Scan(sizes, hier, i) == Sorting(inner, outer, isolated, processed)
    {
      if i !in processed {
        if hier[i].parent == -1 {
          var child := hier[i].child;
          if child != -1 && hier[child].next == -1 {
            if sizes[i] > 15 {
              isolated := isolated + [i];
              processed := processed + {child};
            }
          } else if sizes[i] > 15 {
            outer := outer + [i];
          }
        } else if sizes[i] > 15 {
          inner := inner + [i];
        }
      }
      i := i + 1;
    }
    return Ok((inner, outer, isolated));
  }

  /** A fitted ellipse: centre, full axes (`major`, `minor` as the fit reports them) and angle. */
  datatype Ellipse = Ellipse(cx: real, cy: real, major: real, minor: real, angle: real)

  /** The ellipse filter of lines 238-243: both axes at least 5 and major/minor within [0.5, 1.5]. */
  predicate EllipseKept(e: Ellipse)
  {
    var aspect := if e.minor != 0.0 then e.major / e.minor else 0.0;
    !(e.major < 5.0 || e.minor < 5.0) && !(aspect < 0.5 || aspect > 1.5)
  }

  /** The fitted ellipses that pass the filter, in order. */
  function KeptEllipses(fits: seq<Ellipse>): seq<Ellipse>
  {
    if fits == [] then []
    else KeptEllipses(fits[..|fits| - 1]) + (if EllipseKept(fits[|fits| - 1]) then [fits[|fits| - 1]] else [])
  }

  /** Center points form an (N, 2) array: at least one point, each with two coordinates. */
  predicate PairShaped(centers: seq<seq<int>>)
  {
    |centers| > 0 && forall i :: 0 <= i < |centers| ==> |centers[i]| == 2
  }

  /**
   * `circle_fitter_m2` with the ellipse fitted around each center point given: a ValueError
   * unless the center points are (N, 2); then a ValueError from `np.vstack` when there is no
   * outer contour at all (`outerCount` counts the outer contours and the added inner ones);
   * otherwise the fits that pass the filter.
   */
  function FitterResult(centers: seq<seq<int>>, outerCount: nat, fits: seq<Ellipse>): Result<seq<Ellipse>, ProcessError>
  {
    if !PairShaped(centers) then Err(CenterPointsShape)
    else if outerCount == 0 then Err(NothingToStack)
    else Ok(KeptEllipses(fits))
  }

  /**
   * The kept ellipses are exactly the fits that pass the filter, in their order: every kept one
   * has both axes at least 5 and an aspect ratio within [0.5, 1.5], and none that passes is lost.
   */
  lemma {:induction false} KeptEllipsesFacts(fits: seq<Ellipse>)
    ensures var r := KeptEllipses(fits);
            && |r| <= |fits|
            && (forall e :: e in r ==> e in fits && e.major >= 5.0 && e.minor >= 5.0 && 0.5 <= e.major / e.minor <= 1.5)
            && (forall e :: e in fits && EllipseKept(e) ==> e in r)
  {
    if fits != [] {
      KeptEllipsesFacts(fits[..|fits| - 1]);
      assert fits == fits[..|fits| - 1] + [fits[|fits| - 1]];
    }
  }

  /**
   * The filter works fit by fit in order: over a concatenation it keeps the two parts' kept fits
   * concatenated, and a single fit is kept exactly when it passes.
   */
  lemma {:induction false} KeptEllipsesAppend(a: seq<Ellipse>, b: seq<Ellipse>)
    ensures KeptEllipses(a + b) == KeptEllipses(a) + KeptEllipses(b)
    ensures |b| == 1 ==> KeptEllipses(b) == (if EllipseKept(b[0]) then b else [])
    decreases |b|
  {
    if b != [] {
      var init := b[..|b| - 1];
      KeptEllipsesAppend(a, init);
      assert (a + b)[..|a + b| - 1] == a + init;
      assert (a + b)[|a + b| - 1] == b[|b| - 1];
    } else {
      assert a + b == a;
    }
  }

  /**
   * An empty list of center points is not (N, 2): it raises, as any ragged or wider list does.
   * Well-shaped center points with no outer contour to stack raise too.
   */
  lemma NoCentersRaises(fits: seq<Ellipse>)
    ensures FitterResult([], 1, fits) == Err(CenterPointsShape)
    ensures FitterResult([[1, 2, 3]], 1, fits) == Err(CenterPointsShape)
    ensures FitterResult([[1, 2]], 0, fits) == Err(NothingToStack)
    ensures FitterResult([[1, 2]], 1, fits).Ok?
  {
    assert !PairShaped([[1, 2, 3]]) by {
      assert |[[1, 2, 3]][0]| == 3;
    }
  }

  /**
   * `circle_fitter_m2`: the shape test, the stacking of the outer contours' points, and the
   * filtering loop over the fits.
   */
  method CircleFitterM2(centers: seq<seq<int>>, outerCount: nat, fits: seq<Ellipse>) returns (r: Result<seq<Ellipse>, ProcessError>)
    ensures r == FitterResult(centers, outerCount, fits)
  {
    if !PairShaped(centers) {
      return Err(CenterPointsShape);
    }
    if outerCount == 0 {
      return Err(NothingToStack);
    }
    var results: seq<Ellipse> := [];
    var i := 0;
    while i < |fits|
      invariant 0 <= i <= |fits|
      invariant results == KeptEllipses(fits[..i])
    {
      assert fits[..i + 1][..i] == fits[..i];
      var e := fits[i];
      if e.major < 5.0 || e.minor < 5.0 {
        i := i + 1;
        continue;
      }
      var aspect := if e.minor != 0.0 then e.major / e.minor else 0.0;
      if aspect < 0.5 || aspect > 1.5 {
        i := i + 1;
        continue;
      }
      results := results + [e];
      i := i + 1;
    }
    assert fits[..i] == fits;
    return Ok(results);
  }

  /** An isolated bubble's measures: centre, area, perimeter, area radius, circularity and radius deviation. */
  datatype Bubble = Bubble(center: (int, int), area: real, perimeter: real, mradius: real, circularity: real, deviation: real)

  /** The trusted values of a circle: centre, area, area radius and circularity. */
  datatype Circle = Circle(center: (int, int), area: real, mradius: real, circularity: real)

  /** An overlap score: the ellipse area over the overlap area, infinite when they do not overlap. */
  datatype Score = Finite(value: real) | Infinite

  predicate Trusted(s: Score)
  {
    s.Infinite? || s.value > 0.5
  }

  /** A reconstructed ellipse with the perimeter and overlap score the evaluation computes for it. */
  datatype Rebuilt = Rebuilt(ellipse: Ellipse, perimeter: real, score: Score)

  /** The two result dicts, each with "circles" and "ellipses" lists. */
  datatype Evaluation = Evaluation(
    circles: seq<Circle>, ellipses: seq<Ellipse>,
    circleMeta: seq<(real, real)>, ellipseMeta: seq<(real, Score)>)

  function CircleOf(b: Bubble): Circle
  {
    Circle(b.center, b.area, b.mradius, b.circularity)
  }

  /** The reconstructions with a trusted overlap score, in order. */
  function TrustedRebuilt(rs: seq<Rebuilt>): seq<Rebuilt>
  {
    if rs == [] then []
    else TrustedRebuilt(rs[..|rs| - 1]) + (if Trusted(rs[|rs| - 1].score) then [rs[|rs| - 1]] else [])
  }

  /** `evaluater`: every isolated bubble is trusted and split into values and metadata; a reconstruction is kept with its metadata only when its score is trusted. */
  function Evaluate(iresult: seq<Bubble>, rresult: Option<seq<Rebuilt>>): Evaluation
  {
    var kept := if rresult.Some? then TrustedRebuilt(rresult.value) else [];
    Evaluation(
      seq(|iresult|, i requires 0 <= i < |iresult| => CircleOf(iresult[i])),
      seq(|kept|, i requires 0 <= i < |kept| => kept[i].ellipse),
      seq(|iresult|, i requires 0 <= i < |iresult| => (iresult[i].perimeter, iresult[i].deviation)),
      seq(|kept|, i requires 0 <= i < |kept| => (kept[i].perimeter, kept[i].score)))
  }

  /** The trusted reconstructions are a subsequence of the input, each one trusted, and every trusted input is among them. */
  lemma {:induction false} TrustedRebuiltFacts(rs: seq<Rebuilt>)
    ensures var t := TrustedRebuilt(rs);
            && |t| <= |rs|
            && (forall r :: r in t ==> r in rs && Trusted(r.score))
            && (forall r :: r in rs && Trusted(r.score) ==> r in t)
  {
    if rs != [] {
      TrustedRebuiltFacts(rs[..|rs| - 1]);
      assert rs == rs[..|rs| - 1] + [rs[|rs| - 1]];
    }
  }

  /**
   * The score filter works reconstruction by reconstruction in order: over a concatenation it
   * keeps the two parts' trusted ones concatenated, and a single one stays exactly when trusted.
   */
  lemma {:induction false} TrustedRebuiltAppend(a: seq<Rebuilt>, b: seq<Rebuilt>)
    ensures TrustedRebuilt(a + b) == TrustedRebuilt(a) + TrustedRebuilt(b)
    ensures |b| == 1 ==> TrustedRebuilt(b) == (if Trusted(b[0].score) then b else [])
    decreases |b|
  {
    if b != [] {
      var init := b[..|b| - 1];
      TrustedRebuiltAppend(a, init);
      assert (a + b)[..|a + b| - 1] == a + init;
      assert (a + b)[|a + b| - 1] == b[|b| - 1];
    } else {
      assert a + b == a;
    }
  }

  /**
   * The circles and their metadata have one entry per isolated bubble, in order, with the
   * measures split between them; the ellipses and their metadata stay equal in length and the
   * `i`th of each comes from the `i`th trusted reconstruction.
   */
  lemma EvaluateFacts(iresult: seq<Bubble>, rresult: Option<seq<Rebuilt>>)
    ensures var ev := Evaluate(iresult, rresult);
            && |ev.circles| == |ev.circleMeta| == |iresult|
            && (forall i :: 0 <= i < |iresult| ==>
                  && ev.circles[i] == Circle(iresult[i].center, iresult[i].area, iresult[i].mradius, iresult[i].circularity)
                  && ev.circleMeta[i] == (iresult[i].perimeter, iresult[i].deviation))
            && |ev.ellipses| == |ev.ellipseMeta|
            && (rresult.None? ==> ev.ellipses == [])
    ensures rresult.Some? ==>
              var ev := Evaluate(iresult, rresult);
              var kept := TrustedRebuilt(rresult.value);
              && |ev.ellipses| == |kept|
              && forall i :: 0 <= i < |kept| ==>
                   && ev.ellipses[i] == kept[i].ellipse && ev.ellipseMeta[i] == (kept[i].perimeter, kept[i].score)
                   && kept[i] in rresult.value && Trusted(kept[i].score)
  {
    if rresult.Some? {
      TrustedRebuiltFacts(rresult.value);
      var kept := TrustedRebuilt(rresult.value);
      assert forall i :: 0 <= i < |kept| ==> kept[i] in kept;
    } else {
      assert |Evaluate(iresult, rresult).ellipses| == 0;
    }
  }

  /** The loops of `evaluater`, appending to the two dicts' lists. */
  method Evaluater(iresult: seq<Bubble>, rresult: Option<seq<Rebuilt>>) returns (ev: Evaluation)
    ensures ev == Evaluate(iresult, rresult)
  {
    ev := Evaluation([], [], [], []);
    var i := 0;
    while i < |iresult|
      invariant 0 <= i <= |iresult|
      invariant ev == Evaluation(Evaluate(iresult[..i], None).circles, [], Evaluate(iresult[..i], None).circleMeta, [])
    {
      var b := iresult[i];
      ev := ev.(circles := ev.circles + [CircleOf(b)], circleMeta := ev.circleMeta + [(b.perimeter, b.deviation)]);
      i := i + 1;
    }
    assert iresult[..i] == iresult;
    if rresult.Some? {
      var rs := rresult.value;
      var kept: seq<Rebuilt> := [];
      var j := 0;
      while j < |rs|
        invariant 0 <= j <= |rs|
        invariant kept == TrustedRebuilt(rs[..j])
        invariant ev.circles == Evaluate(iresult, None).circles && ev.circleMeta == Evaluate(iresult, None).circleMeta
        invariant ev.ellipses == seq(|kept|, k requires 0 <= k < |kept| => kept[k].ellipse)
        invariant ev.ellipseMeta == seq(|kept|, k requires 0 <= k < |kept| => (kept[k].perimeter, kept[k].score))
      {
        assert rs[..j + 1][..j] == rs[..j];
        var r := rs[j];
        if Trusted(r.score) {
          ev := ev.(ellipses := ev.ellipses + [r.ellipse], ellipseMeta := ev.ellipseMeta + [(r.perimeter, r.score)]);
          kept := kept + [r];
        }
        j := j + 1;
      }
      assert rs[..j] == rs;
    }
  }
}
