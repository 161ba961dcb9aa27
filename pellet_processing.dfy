/**
 * The pellet sizer's contour processing: the contours without children are kept, then
 * filtered by point count, area, bounding-box aspect ratio and extent. A contour is carried
 * as its point count, its area and its bounding box's width and height, which the image
 * library computes.
 */
module PelletProcessing {
  import opened Wrappers

  datatype Contour = Contour(points: nat, area: real, w: nat, h: nat)

  datatype FilterError = ZeroDivision

  /** The elements of `xs` that satisfy `p`, in order. */
  function Keep<T>(xs: seq<T>, p: T -> bool): seq<T>
  {
    if xs == [] then [] else Keep(xs[..|xs| - 1], p) + (if p(xs[|xs| - 1]) then [xs[|xs| - 1]] else [])
  }

  /** The indices of the elements of `xs` that satisfy `p`, in increasing order. */
  function KeepIndices<T>(xs: seq<T>, p: T -> bool): seq<nat>
  {
    if xs == [] then [] else KeepIndices(xs[..|xs| - 1], p) + (if p(xs[|xs| - 1]) then [|xs| - 1] else [])
  }

  /** `KeepIndices` lists, in increasing order, exactly the positions whose element satisfies `p`. */
  lemma {:induction false} KeepIndicesFacts<T>(xs: seq<T>, p: T -> bool)
    ensures var idx := KeepIndices(xs, p);
            && |idx| <= |xs|
            && (forall k :: 0 <= k < |idx| ==> idx[k] < |xs|)
            && (forall k, l :: 0 <= k < l < |idx| ==> idx[k] < idx[l])
            && (forall i :: 0 <= i < |xs| ==> (i in idx <==> p(xs[i])))
  {
    if xs != [] {
      var n := |xs| - 1;
      var init := xs[..n];
      KeepIndicesFacts(init, p);
      var idx0 := KeepIndices(init, p);
      assert forall i :: 0 <= i < n ==> init[i] == xs[i];
      assert n !in idx0;
      if p(xs[n]) {
        assert KeepIndices(xs, p) == idx0 + [n];
      } else {
        assert KeepIndices(xs, p) == idx0;
      }
    }
  }

  /**
   * `Keep` picks, in increasing order, exactly the positions whose element satisfies `p`: the
   * result is an in-order subsequence of the input holding every element that passes.
   */
  lemma {:induction false} KeepFacts<T>(xs: seq<T>, p: T -> bool)
    ensures var r := Keep(xs, p);
            var idx := KeepIndices(xs, p);
            && |r| == |idx| <= |xs|
            && (forall k :: 0 <= k < |idx| ==> idx[k] < |xs| && r[k] == xs[idx[k]])
            && (forall k, l :: 0 <= k < l < |idx| ==> idx[k] < idx[l])
            && (forall i :: 0 <= i < |xs| ==> (i in idx <==> p(xs[i])))
  {
    KeepIndicesFacts(xs, p);
    KeepPicks(xs, p);
  }

  /** `Keep` and `KeepIndices` walk the input together: the k-th kept element sits at the k-th kept index. */
  lemma {:induction false} KeepPicks<T>(xs: seq<T>, p: T -> bool)
    ensures var r := Keep(xs, p);
            var idx := KeepIndices(xs, p);
            && |r| == |idx|
            && (forall k :: 0 <= k < |idx| ==> idx[k] < |xs| && r[k] == xs[idx[k]])
  {
    if xs != [] {
      var n := |xs| - 1;
      var init := xs[..n];
      KeepPicks(init, p);
      assert forall i :: 0 <= i < n ==> init[i] == xs[i];
    }
  }

  /** `contours`: the contours whose hierarchy entry has no first child (-1), in order. */
  function NoChild(conts: seq<(Contour, int)>): (r: seq<Contour>)
  {
    seq(|Keep(conts, (e: (Contour, int)) => e.1 == -1)|, k requires 0 <= k < |Keep(conts, (e: (Contour, int)) => e.1 == -1)| =>
      Keep(conts, (e: (Contour, int)) => e.1 == -1)[k].0)
  }

  /** Exactly the childless contours are kept, in their order. */
  lemma NoChildFacts(conts: seq<(Contour, int)>)
    ensures var p := (e: (Contour, int)) => e.1 == -1;
            var idx := KeepIndices(conts, p);
            && |NoChild(conts)| == |idx|
            && (forall k :: 0 <= k < |idx| ==> idx[k] < |conts| && NoChild(conts)[k] == conts[idx[k]].0)
            && (forall k, l :: 0 <= k < l < |idx| ==> idx[k] < idx[l])
            && (forall i :: 0 <= i < |conts| ==> (i in idx <==> conts[i].1 == -1))
  {
    KeepFacts(conts, (e: (Contour, int)) => e.1 == -1);
  }

  function MaxNat(a: nat, b: nat): nat { if a >= b then a else b }
  function MinNat(a: nat, b: nat): nat { if a <= b then a else b }

  /** The two size thresholds of lines 41-45: more than 50 points and an area of at least 1000. */
  predicate Large(c: Contour)
  {
    c.points > 50 && c.area >= 1000.0
  }

  /** The shape thresholds of lines 49-57: the longer box side at most twice the shorter, and the contour filling at least a fifth of its box. */
  predicate Compact(c: Contour)
    requires MinNat(c.w, c.h) > 0
  {
    && (MaxNat(c.w, c.h) as real) / (MinNat(c.w, c.h) as real) <= 2.0
    && c.area / ((c.w * c.h) as real) >= 0.2
  }

  /** A contour that `filter` keeps. */
  predicate Passes(c: Contour)
  {
    Large(c) && MinNat(c.w, c.h) > 0 && Compact(c)
  }

  /** `filter`: the contours that pass, in order, or a ZeroDivisionError at the first large contour with a flat bounding box. */
  function Filter(conts: seq<Contour>): Result<seq<Contour>, FilterError>
  {
    if conts == [] then Ok([])
    else
      var pre := Filter(conts[..|conts| - 1]);
      var c := conts[|conts| - 1];
      if pre.Err? || !Large(c) then pre
      else if MinNat(c.w, c.h) == 0 then Err(ZeroDivision)
      else if Compact(c) then Ok(pre.value + [c])
      else pre
  }

  /**
   * The filter fails exactly when a contour passes the size thresholds with a zero-width or
   * zero-height box; otherwise it keeps exactly the contours that pass every threshold.
   */
  lemma {:induction false} FilterFacts(conts: seq<Contour>)
    ensures Filter(conts).Err? <==> exists i :: 0 <= i < |conts| && Large(conts[i]) && MinNat(conts[i].w, conts[i].h) == 0
    ensures Filter(conts).Ok? ==> Filter(conts).value == Keep(conts, Passes)
  {
    if conts != [] {
      var init := conts[..|conts| - 1];
      FilterFacts(init);
      assert forall i :: 0 <= i < |init| ==> init[i] == conts[i];
      var c := conts[|conts| - 1];
      if Large(c) && MinNat(c.w, c.h) == 0 {
        assert Large(conts[|conts| - 1]);
      }
    }
  }

  /** What a kept contour is like: more than 50 points, area at least 1000, aspect ratio at most 2, extent at least 0.2. */
  lemma FilterKeeps(conts: seq<Contour>, c: Contour)
    requires Filter(conts).Ok? && c in Filter(conts).value
    ensures c in conts && c.points > 50 && c.area >= 1000.0 && c.w > 0 && c.h > 0
    ensures (MaxNat(c.w, c.h) as real) / (MinNat(c.w, c.h) as real) <= 2.0 && c.area / ((c.w * c.h) as real) >= 0.2
  {
    FilterFacts(conts);
    KeepFacts(conts, Passes);
    var idx := KeepIndices(conts, Passes);
    var r := Keep(conts, Passes);
    var k :| 0 <= k < |r| && r[k] == c;
    assert conts[idx[k]] == c;
  }

  /** `filter`'s loop. */
  method FilterLoop(conts: seq<Contour>) returns (r: Result<seq<Contour>, FilterError>)
    ensures r == Filter(conts)
  {
    var filtered: seq<Contour> := [];
    var i := 0;
    while i < |conts|
      invariant 0 <= i <= |conts|
      invariant Filter(conts[..i]) == Ok(filtered)
    {
      var c := conts[i];
      assert conts[..i + 1][..i] == conts[..i] && conts[..i + 1][i] == c;
      if c.points <= 50 {
        i := i + 1;
        continue;
      } else if c.area < 1000.0 {
        i := i + 1;
        continue;
      }
      if MinNat(c.w, c.h) == 0 {
        FilterErrSticks(conts, i + 1);
        return Err(ZeroDivision);
      }
      var aspect := (MaxNat(c.w, c.h) as real) / (MinNat(c.w, c.h) as real);
      if aspect > 2.0 {
        i := i + 1;
        continue;
      }
      var extent := c.area / ((c.w * c.h) as real);
      if extent < 0.2 {
        i := i + 1;
        continue;
      }
      filtered := filtered + [c];
      i := i + 1;
    }
    assert conts[..i] == conts;
    return Ok(filtered);
  }

  /** Once the filter has raised, later contours do not matter. */
  lemma {:induction false} FilterErrSticks(conts: seq<Contour>, n: nat)
    requires n <= |conts| && Filter(conts[..n]).Err?
    ensures Filter(conts) == Filter(conts[..n])
    decreases |conts| - n
  {
    if n < |conts| {
      assert conts[..n + 1][..n] == conts[..n];
      FilterErrSticks(conts, n + 1);
    } else {
      assert conts[..n] == conts;
    }
  }

  /** `process`: the childless contours, filtered. */
  method Process(conts: seq<(Contour, int)>) returns (r: Result<seq<Contour>, FilterError>)
    ensures r == Filter(NoChild(conts))
  {
    var cont := NoChild(conts);
    r := FilterLoop(cont);
  }

  /** A contour with a child never comes out of `process`, however well it passes the filter. */
  lemma ParentContourDropped(conts: seq<(Contour, int)>, i: nat)
    requires i < |conts| && conts[i].1 != -1
    requires forall j :: 0 <= j < |conts| && j != i ==> conts[j].0 != conts[i].0
    requires Filter(NoChild(conts)).Ok?
    ensures conts[i].0 !in Filter(NoChild(conts)).value
  {
    var nc := NoChild(conts);
    NoChildFacts(conts);
    var idx := KeepIndices(conts, (e: (Contour, int)) => e.1 == -1);
    forall k | 0 <= k < |nc|
      ensures nc[k] != conts[i].0
    {
      assert idx[k] in idx;
    }
    FilterFacts(nc);
    KeepFacts(nc, Passes);
    var kept := Keep(nc, Passes);
    var kidx := KeepIndices(nc, Passes);
    forall k | 0 <= k < |kept|
      ensures kept[k] != conts[i].0
    {
      assert kept[k] == nc[kidx[k]];
    }
  }
}
