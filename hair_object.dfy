/**
 * The PRT Hair object (src/Objects/MaxKrakatoaHairObject.cpp): how a Bezier
 * spline is laid out as a point list, the world-space rule, which splines the
 * viewport shows, how `CacheSpline` reconciles the splines at the current,
 * offset and reference times, the source-node validator and `ClearSpline`.
 *
 * Points are abstract vectors; the world-space transform is a parameter.
 */
module HairObject {
  import opened Common

  datatype Vec3 = Vec3(x: real, y: real, z: real)

  /** One knot of a Bezier spline: its in vector, its point and its out vector. */
  datatype Knot = Knot(inVec: Vec3, point: Vec3, outVec: Vec3)

  // ---------------------------------------------------------------------------
  // cache_splines_from_node: the point layout of one spline
  // ---------------------------------------------------------------------------

  /**
   * Where each knot's vectors land in the point list of a spline with k >= 2
   * knots: knot j's point at 3j, its in vector at 3j - 1 (not for the first
   * knot) and its out vector at 3j + 1 (not for the last knot).
   */
  predicate LaidOut(knots: seq<Knot>, pts: seq<Vec3>, xf: Vec3 -> Vec3)
    requires |knots| >= 2 && |pts| == 3 * |knots| - 2
  {
    (forall j :: 0 <= j < |knots| ==> pts[3 * j] == xf(knots[j].point)) &&
    (forall j :: 1 <= j < |knots| ==> pts[3 * j - 1] == xf(knots[j].inVec)) &&
    (forall j :: 0 <= j < |knots| - 1 ==> pts[3 * j + 1] == xf(knots[j].outVec))
  }

  /**
   * The points of one spline: none for fewer than two knots; otherwise
   * knot 0 and its out vector, then in vector, knot and out vector of every
   * interior knot, then the last knot's in vector and the last knot.
   */
  method SplinePoints(knots: seq<Knot>, xf: Vec3 -> Vec3) returns (pts: seq<Vec3>)
    ensures |knots| < 2 ==> pts == []
    ensures |knots| >= 2 ==> |pts| == 3 * |knots| - 2 && LaidOut(knots, pts, xf)
  {
    pts := [];
    var knotCount := |knots|;
    if knotCount < 2 {
      return;
    }
    pts := pts + [xf(knots[0].point)];
    pts := pts + [xf(knots[0].outVec)];
    var j := 1;
    while j < knotCount - 1
      invariant 1 <= j <= knotCount - 1
      invariant |pts| == 3 * j - 1
      invariant forall m :: 0 <= m < j ==> pts[3 * m] == xf(knots[m].point)
      invariant forall m :: 1 <= m < j ==> pts[3 * m - 1] == xf(knots[m].inVec)
      invariant forall m :: 0 <= m < j ==> pts[3 * m + 1] == xf(knots[m].outVec)
    {
      pts := pts + [xf(knots[j].inVec), xf(knots[j].point), xf(knots[j].outVec)];
      j := j + 1;
    }
    pts := pts + [xf(knots[knotCount - 1].inVec), xf(knots[knotCount - 1].point)];
  }

  /**
   * `cache_splines_from_node`: every spline of the shape in order, or the
   * error raised when the source cannot be converted to splines.
   */
  method CacheSplinesFromNode(canConvertToSpline: bool, sourceName: string, shape: seq<seq<Knot>>, xf: Vec3 -> Vec3)
    returns (r: Result<seq<seq<Vec3>>>)
    ensures r.Err? <==> !canConvertToSpline
    ensures r.Err? ==> r.error == "PRT Hair target node: \"" + sourceName + "\" was NOT able to be converted to splines.\n"
    ensures r.Ok? ==> |r.value| == |shape| && forall i :: 0 <= i < |shape| ==>
      (|shape[i]| < 2 ==> r.value[i] == []) &&
      (|shape[i]| >= 2 ==> |r.value[i]| == 3 * |shape[i]| - 2 && LaidOut(shape[i], r.value[i], xf))
  {
    if !canConvertToSpline {
      return Err("PRT Hair target node: \"" + sourceName + "\" was NOT able to be converted to splines.\n");
    }
    var out: seq<seq<Vec3>> := [];
    var i := 0;
    while i < |shape|
      invariant 0 <= i <= |shape| && |out| == i
      invariant forall k :: 0 <= k < i ==>
        (|shape[k]| < 2 ==> out[k] == []) &&
        (|shape[k]| >= 2 ==> |out[k]| == 3 * |shape[k]| - 2 && LaidOut(shape[k], out[k], xf))
    {
      var pts := SplinePoints(shape[i], xf);
      out := out + [pts];
      i := i + 1;
    }
    return Ok(out);
  }

  /** `InWorldSpace`: several sources, or the InWorldSpace flag. */
  predicate InWorldSpace(numSources: int, inWorldSpaceFlag: bool)
  {
    (numSources > 1) || inWorldSpaceFlag
  }

  /**
   * Only a single source may be cached in its own object space: with two or
   * more sources the flag is irrelevant, and with one (or none) the flag alone
   * decides.
   */
  lemma WorldSpaceRule(numSources: int, flag: bool, flag': bool)
    ensures numSources > 1 ==> InWorldSpace(numSources, flag) && InWorldSpace(numSources, flag')
    ensures numSources <= 1 ==> (InWorldSpace(numSources, flag) <==> flag)
    ensures InWorldSpace(numSources, flag) ==> InWorldSpace(numSources + 1, flag)
  {
  }

  /** `(std::size_t)` of a paramblock int: a negative value wraps to a huge unsigned one. */
  function AsSizeT(v: int): nat
    requires -0x8000_0000 <= v < 0x8000_0000
  {
    if v < 0 then 0x1_0000_0000_0000_0000 + v else v
  }

  /** The number of splines the viewport draws: the hair limit, at most all of them. */
  function ViewportHairCount(cachedCount: nat, viewportHairLimit: int): (n: nat)
    requires -0x8000_0000 <= viewportHairLimit < 0x8000_0000
    requires cachedCount < 0x8000_0000_0000_0000
    ensures n <= cachedCount
    ensures n == if 0 <= viewportHairLimit < cachedCount then viewportHairLimit else cachedCount
  {
    var hairLimit := AsSizeT(viewportHairLimit);
    if cachedCount < hairLimit then cachedCount else hairLimit
  }

  // ---------------------------------------------------------------------------
  // CacheSpline: reconciling the current, offset and reference splines
  // ---------------------------------------------------------------------------

  /** `l` cut or padded (with copies of its last point) to length n. */
  function Fitted(l: seq<Vec3>, n: nat): (r: seq<Vec3>)
    requires |l| > 0 || n == 0
    ensures |r| == n
    ensures forall k :: 0 <= k < n && k < |l| ==> r[k] == l[k]
    ensures forall k :: |l| <= k < n ==> r[k] == l[|l| - 1]
  {
    if n <= |l| then l[..n] else l + seq(n - |l|, _ => l[|l| - 1])
  }

  /** The splines one hair object caches, with their validities. */
  /** The error `CacheSpline` raises when the spline counts at `t` and at `otherTime` differ. */
  function SplineCountError(nodeName: string, t: int, otherTime: int): string
  {
    "MaxKrakatoaHairObject::CacheSpline() - Different spline counts for node: \"" + nodeName + "\" at time: "
      + SignedDecimal(t) + " and: " + SignedDecimal(otherTime) + "\n"
  }

  class SplineCache {
    var current: seq<seq<Vec3>>
    var offset: seq<seq<Vec3>>
    var reference: seq<seq<Vec3>>
    var currentValid: Interval
    var offsetValid: Interval
    var referenceValid: Interval

    /** A fresh cache: empty splines that are valid at no time, so the first update re-reads them. */
    constructor ()
      ensures current == [] && offset == [] && reference == []
      ensures currentValid == Never && offsetValid == Never && referenceValid == Never
    {
      current, offset, reference := [], [], [];
      currentValid, offsetValid, referenceValid := Never, Never, Never;
    }

    /**
     * The step of `UpdateSplines` before each source is cached: in world space
     * the node transforms may have moved, so all three validities become NEVER
     * and `CacheSpline` re-reads every spline; in object space nothing changes.
     */
    method InvalidateForWorldSpace(numSources: int, inWorldSpaceFlag: bool)
      modifies this
      ensures current == old(current) && offset == old(offset) && reference == old(reference)
      ensures InWorldSpace(numSources, inWorldSpaceFlag) ==>
        currentValid == Never && offsetValid == Never && referenceValid == Never
      ensures !InWorldSpace(numSources, inWorldSpaceFlag) ==>
        currentValid == old(currentValid) && offsetValid == old(offsetValid) &&
        referenceValid == old(referenceValid)
    {
      if InWorldSpace(numSources, inWorldSpaceFlag) {
        currentValid, offsetValid, referenceValid := Never, Never, Never;
      }
    }

    /** `ClearSpline`: all three containers emptied, all three validities FOREVER. */
    method ClearSpline()
      modifies this
      ensures current == [] && offset == [] && reference == []
      ensures currentValid == Forever && offsetValid == Forever && referenceValid == Forever
    {
      current, offset, reference := [], [], [];
      currentValid, offsetValid, referenceValid := Forever, Forever, Forever;
    }

    /** Pad or truncate one reference spline to the current length. */
    method FitReference(i: nat, nowSize: nat)
      requires i < |reference| && (|reference[i]| > 0 || nowSize == 0)
      modifies this
      ensures reference == old(reference)[i := Fitted(old(reference)[i], nowSize)]
      ensures current == old(current) && offset == old(offset)
    {
      var refSize := |reference[i]|;
      if nowSize < refSize {
        reference := reference[i := reference[i][..nowSize]];
      } else {
        var l := reference[i];
        while refSize < nowSize
          invariant |l| == refSize <= nowSize && (|l| > 0 || nowSize == 0)
          invariant |old(reference)[i]| <= refSize
          invariant l == Fitted(old(reference)[i], refSize)
          decreases nowSize - refSize
        {
          l := l + [l[|l| - 1]];
          refSize := refSize + 1;
        }
        reference := reference[i := l];
      }
    }

    /**
     * After the current splines are re-read: differing spline counts
     * against the offset splines (or a non-empty reference) raise an error;
     * otherwise every offset spline whose point count differs is replaced by
     * the current one, and every reference spline is cut or padded to the
     * current point count.
     */
    method Reconcile(nodeName: string, t: int, offsetTime: int, referenceTime: int) returns (error: Option<string>)
      requires forall i :: 0 <= i < |reference| && i < |current| ==> |reference[i]| > 0 || |current[i]| == 0
      modifies this
      ensures error.Some? <==> |current| != |old(offset)| || (|old(reference)| > 0 && |current| != |old(reference)|)
      ensures current == old(current)
      ensures error.Some? ==> offset == old(offset) && reference == old(reference)
      ensures error.Some? ==> error.value == SplineCountError(nodeName, t,
        if |current| != |old(offset)| then offsetTime else referenceTime)
      ensures error.None? ==> |offset| == |current| && forall i :: 0 <= i < |current| ==>
        offset[i] == if |current[i]| != |old(offset)[i]| then current[i] else old(offset)[i]
      ensures error.None? && |old(reference)| > 0 ==> |reference| == |current| && forall i :: 0 <= i < |current| ==>
        reference[i] == Fitted(old(reference)[i], |current[i]|)
      ensures error.None? && |old(reference)| == 0 ==> reference == []
    {
      if |current| != |offset| {
        return Some(SplineCountError(nodeName, t, offsetTime));
      }
      if |reference| > 0 && |current| != |reference| {
        return Some(SplineCountError(nodeName, t, referenceTime));
      }
      var i := 0;
      while i < |current|
        invariant 0 <= i <= |current|
        invariant current == old(current) && |offset| == |current| && |reference| == |old(reference)|
        invariant forall k :: 0 <= k < i ==>
          offset[k] == if |current[k]| != |old(offset)[k]| then current[k] else old(offset)[k]
        invariant forall k :: i <= k < |current| ==> offset[k] == old(offset)[k]
        invariant |old(reference)| > 0 ==> forall k :: 0 <= k < i ==> reference[k] == Fitted(old(reference)[k], |current[k]|)
        invariant forall k :: i <= k < |reference| ==> reference[k] == old(reference)[k]
      {
        var nowSize := |current[i]|;
        var thenSize := |offset[i]|;
        if nowSize != thenSize {
          offset := offset[i := current[i]];
        }
        if |reference| > 0 {
          FitReference(i, nowSize);
        }
        i := i + 1;
      }
      return None;
    }
  }

  // ---------------------------------------------------------------------------
  // HairObjectPBValidator
  // ---------------------------------------------------------------------------

  /**
   * `HairObjectPBValidator::Validate` for a new source node: rejected when
   * it is already in the list, when it evaluates to no object or to the
   * hair object itself, or when it cannot be converted to splines. Other
   * parameters and null nodes are always accepted.
   */
  method ValidateSourceNode(isSourceNodes: bool, node: Option<nat>, sourceNodes: seq<nat>,
                            evaluatesToObject: bool, isOwner: bool, canConvertToSpline: bool)
    returns (ok: bool)
    ensures ok <==> (!isSourceNodes || node.None? ||
      (node.value !in sourceNodes && evaluatesToObject && !isOwner && canConvertToSpline))
  {
    if !isSourceNodes || node.None? {
      return true;
    }
    var i := 0;
    while i < |sourceNodes|
      invariant 0 <= i <= |sourceNodes|
      invariant node.value !in sourceNodes[..i]
    {
      if sourceNodes[i] == node.value {
        return false;
      }
      assert sourceNodes[..i + 1] == sourceNodes[..i] + [sourceNodes[i]];
      i := i + 1;
    }
    assert sourceNodes[..i] == sourceNodes;
    if !evaluatesToObject || isOwner || !canConvertToSpline {
      return false;
    }
    return true;
  }
}
