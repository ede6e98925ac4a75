/**
 * The FumeFX PRT object (src/FumeFX/MaxKrakatoaFumeFXObject.cpp): how the
 * scene time is retimed into the simulation frame to load, the hold/blank
 * policies outside a custom frame range, the accessor that keeps the range
 * ordered, and the subdivision and per-voxel sample counts chosen before a
 * voxel stream is built.
 *
 * Times are 3ds Max TimeValues (ticks). Every parameter-block read is an
 * input: `playbackGraphTime` is the playback graph's value at the scene time,
 * already multiplied by the ticks per frame and truncated to a TimeValue.
 */
module FumeFXObject {
  import opened Common

  const IntMin: int := -0x8000_0000
  const IntMax: int := 0x7FFF_FFFF

  /** The timing parameters of the object's parameter block. */
  datatype Timing = Timing(
    usePlaybackGraph: bool, playbackGraphTime: int, frameOffset: int,
    limitToCustomRange: bool, rangeBegin: int, rangeEnd: int,
    belowRangePolicy: int, aboveRangePolicy: int)

  /** `GetEffectiveTime`: the playback graph's time when it is used, else the scene time. */
  function EffectiveTime(t: int, p: Timing): int
  {
    if p.usePlaybackGraph then p.playbackGraphTime else t
  }

  /** `HoldLowerFrame`: a custom range whose below-range policy is 0 ("hold first"). */
  predicate HoldLowerFrame(p: Timing)
  {
    if p.limitToCustomRange then p.belowRangePolicy == 0 else false
  }

  /** `HoldUpperFrame`: a custom range whose above-range policy is 0 ("hold last"). */
  predicate HoldUpperFrame(p: Timing)
  {
    if p.limitToCustomRange then p.aboveRangePolicy == 0 else false
  }

  /** `CalculateCurrentFrame`: effective time plus offset, clamped to the range bounds the hold policies select. */
  function CurrentFrame(t: int, p: Timing): int
  {
    var result := EffectiveTime(t, p) + p.frameOffset;
    if p.limitToCustomRange then
      var r1 := if result < p.rangeBegin && HoldLowerFrame(p) then p.rangeBegin else result;
      if r1 > p.rangeEnd && HoldUpperFrame(p) then p.rangeEnd else r1
    else result
  }

  /** `IsBlankFrame`: the shifted frame lies on a side of the custom range whose policy is "blank". */
  function IsBlankFrame(t: int, p: Timing): (r: bool)
    ensures r <==> (p.limitToCustomRange &&
      ((!HoldLowerFrame(p) && EffectiveTime(t, p) + p.frameOffset < p.rangeBegin) ||
       (!HoldUpperFrame(p) && EffectiveTime(t, p) + p.frameOffset > p.rangeEnd)))
  {
    var holdLower := HoldLowerFrame(p);
    var holdUpper := HoldUpperFrame(p);
    if (holdLower && holdUpper) || !p.limitToCustomRange then false
    else
      var current := EffectiveTime(t, p) + p.frameOffset;
      if !holdLower && current < p.rangeBegin then true
      else if !holdUpper && current > p.rangeEnd then true
      else false
  }

  /** `FrameRangeBottom`: the custom range's start, or INT_MIN without a custom range. */
  function FrameRangeBottom(p: Timing): int
  {
    if p.limitToCustomRange then p.rangeBegin else IntMin
  }

  /** `FrameRangeTop`: the custom range's end, or INT_MAX without a custom range. */
  function FrameRangeTop(p: Timing): int
  {
    if p.limitToCustomRange then p.rangeEnd else IntMax
  }

  /** Without a custom range the frame is just shifted, never blank, and the range is unbounded. */
  lemma NoCustomRange(t: int, p: Timing)
    requires !p.limitToCustomRange
    ensures CurrentFrame(t, p) == EffectiveTime(t, p) + p.frameOffset
    ensures !IsBlankFrame(t, p) && !HoldLowerFrame(p) && !HoldUpperFrame(p)
    ensures FrameRangeBottom(p) == IntMin && FrameRangeTop(p) == IntMax
  {
  }

  /**
   * With an ordered custom range, the hold policies move a frame below the
   * range to its start and a frame above it to its end; a frame inside is
   * left as it is.
   */
  lemma HoldClamps(t: int, p: Timing)
    requires p.limitToCustomRange && p.rangeBegin <= p.rangeEnd
    ensures var raw := EffectiveTime(t, p) + p.frameOffset;
      (raw < p.rangeBegin && HoldLowerFrame(p) ==> CurrentFrame(t, p) == p.rangeBegin) &&
      (raw > p.rangeEnd && HoldUpperFrame(p) ==> CurrentFrame(t, p) == p.rangeEnd) &&
      (p.rangeBegin <= raw <= p.rangeEnd ==> CurrentFrame(t, p) == raw) &&
      (raw < p.rangeBegin && !HoldLowerFrame(p) ==> CurrentFrame(t, p) == raw) &&
      (raw > p.rangeEnd && !HoldUpperFrame(p) ==> CurrentFrame(t, p) == raw)
  {
  }

  /**
   * The two range policies of the custom range: below the range, policy 0
   * ("hold first") loads the range's first frame and any other policy leaves
   * the frame blank; above the range, the same for policy 0 ("hold last") and
   * the range's last frame. Inside the range neither policy matters.
   */
  lemma RangePolicies(t: int, p: Timing)
    requires p.limitToCustomRange && p.rangeBegin <= p.rangeEnd
    ensures var raw := EffectiveTime(t, p) + p.frameOffset;
      (raw < p.rangeBegin ==>
        (p.belowRangePolicy == 0 <==> CurrentFrame(t, p) == p.rangeBegin) &&
        (p.belowRangePolicy == 0 <==> !IsBlankFrame(t, p))) &&
      (raw > p.rangeEnd ==>
        (p.aboveRangePolicy == 0 <==> CurrentFrame(t, p) == p.rangeEnd) &&
        (p.aboveRangePolicy == 0 <==> !IsBlankFrame(t, p))) &&
      (p.rangeBegin <= raw <= p.rangeEnd ==> !IsBlankFrame(t, p))
  {
    HoldClamps(t, p);
  }

  /**
   * What `UpdateLoadingFrame` shows: "Blank", or the current frame in whole
   * frames (C++ division, which truncates toward zero).
   */
  datatype LoadingLabel = Blank | Frame(frame: int)

  function LoadingFrame(t: int, p: Timing, ticksPerFrame: int): LoadingLabel
    requires ticksPerFrame > 0
  {
    if IsBlankFrame(t, p) then Blank else Frame(TruncDiv(CurrentFrame(t, p), ticksPerFrame))
  }

  /** `GetInternalStream`'s range test: the retimed frame falls outside the custom range. */
  function OutsideRange(t: int, p: Timing): bool
  {
    var frame := CurrentFrame(t, p);
    p.limitToCustomRange && (frame < FrameRangeBottom(p) || frame > FrameRangeTop(p))
  }

  /** With an ordered range, the object yields an empty stream exactly when its UI label reads "Blank". */
  lemma EmptyIffBlank(t: int, p: Timing, ticksPerFrame: int)
    requires p.rangeBegin <= p.rangeEnd && ticksPerFrame > 0
    ensures OutsideRange(t, p) <==> LoadingFrame(t, p, ticksPerFrame) == Blank
  {
    if p.limitToCustomRange {
      HoldClamps(t, p);
    }
  }

  /** The custom-range parameters that `MaxKrakatoaFumeFXObjectTimingAccessor::Set` keeps ordered. */
  class CustomRange {
    var rangeBegin: int
    var rangeEnd: int

    constructor (b: int, e: int)
      ensures rangeBegin == b && rangeEnd == e
    {
      rangeBegin := b;
      rangeEnd := e;
    }

    predicate Ordered()
      reads this
    {
      rangeBegin <= rangeEnd
    }

    /** Setting the start above the end raises the end with it. */
    method SetBegin(v: int)
      modifies this
      ensures rangeBegin == v
      ensures rangeEnd == if v > old(rangeEnd) then v else old(rangeEnd)
      ensures Ordered()
    {
      if v > rangeEnd {
        rangeEnd := v;
      }
      rangeBegin := v;
    }

    /** Setting the end below the start lowers the start with it. */
    method SetEnd(v: int)
      modifies this
      ensures rangeEnd == v
      ensures rangeBegin == if v < old(rangeBegin) then v else old(rangeBegin)
      ensures Ordered()
    {
      if v < rangeBegin {
        rangeBegin := v;
      }
      rangeEnd := v;
    }
  }

  // ---------------------------------------------------------------------------
  // Sampling parameters chosen in GetInternalStream
  // ---------------------------------------------------------------------------

  /** The sampling parameters of the parameter block. */
  datatype Sampling = Sampling(
    subdivideEnabled: bool, subdivideCount: int, viewportDisableSubdivision: bool,
    jitterSample: bool, multiplePerRegion: bool, multipleCount: int, randomCount: int)

  /** Subdivision and multi-sampling are honoured when rendering, or in the viewport when it allows them. */
  function SubdivisionAllowed(inRenderMode: bool, s: Sampling): bool
  {
    inRenderMode || !s.viewportDisableSubdivision
  }

  function SubdivCount(inRenderMode: bool, s: Sampling): (n: int)
    ensures n == 0 || n >= 1
    ensures n != 0 <==> s.subdivideEnabled && SubdivisionAllowed(inRenderMode, s)
    ensures n != 0 ==> n == if s.subdivideCount > 1 then s.subdivideCount else 1
  {
    if s.subdivideEnabled && SubdivisionAllowed(inRenderMode, s) then (if 1 > s.subdivideCount then 1 else s.subdivideCount)
    else 0
  }

  function NumPerVoxel(inRenderMode: bool, s: Sampling): (n: int)
    ensures n == 1 || n >= 2
    ensures n != 1 <==> s.jitterSample && s.multiplePerRegion && SubdivisionAllowed(inRenderMode, s)
    ensures n != 1 ==> n == if s.multipleCount > 2 then s.multipleCount else 2
  {
    if s.jitterSample && s.multiplePerRegion && SubdivisionAllowed(inRenderMode, s) then
      (if 2 > s.multipleCount then 2 else s.multipleCount)
    else 1
  }

  /** `(std::size_t)GetInt(kRandomCount)`: a negative count wraps around to a huge unsigned value. */
  function AsSizeT(v: int): nat
    requires IntMin <= v <= IntMax
  {
    if v < 0 then 0x1_0000_0000_0000_0000 + v else v
  }

  /** What `GetInternalStream` builds before it asks the FumeFX reader for particles. */
  datatype StreamPlan =
    | EmptyStream
    | VoxelStream(frame: int, subdivs: int, perVoxel: int, jitter: bool)

  function InternalStreamPlan(
    hasTarget: bool, inRenderMode: bool, viewportEnabled: bool, t: int, p: Timing, s: Sampling): (r: Result<StreamPlan>)
    requires IntMin <= s.randomCount <= IntMax
    ensures r.Err? <==> (hasTarget && (inRenderMode || viewportEnabled) && !OutsideRange(t, p) &&
      s.jitterSample && NumPerVoxel(inRenderMode, s) > AsSizeT(s.randomCount))
    ensures r.Ok? && r.value.VoxelStream? ==>
      r.value.frame == CurrentFrame(t, p) && r.value.subdivs == SubdivCount(inRenderMode, s) &&
      r.value.perVoxel == NumPerVoxel(inRenderMode, s)
    ensures r == Ok(EmptyStream) <==> !hasTarget || (!inRenderMode && !viewportEnabled) || OutsideRange(t, p)
  {
    if !hasTarget || (!inRenderMode && !viewportEnabled) then Ok(EmptyStream)
    else if OutsideRange(t, p) then Ok(EmptyStream)
    else
      var subdivs := SubdivCount(inRenderMode, s);
      var perVoxel := NumPerVoxel(inRenderMode, s);
      if s.jitterSample && perVoxel > AsSizeT(s.randomCount) then
        Err("The number of samples per voxel is larger than the number of available random values. " +
            "Please increase the number of potential random values.")
      else Ok(VoxelStream(CurrentFrame(t, p), subdivs, perVoxel, s.jitterSample))
  }

  /** A negative random count never triggers the sample-count error: it wraps to a huge unsigned value. */
  lemma NegativeRandomCountNeverThrows(hasTarget: bool, inRenderMode: bool, viewportEnabled: bool, t: int, p: Timing, s: Sampling)
    requires IntMin <= s.randomCount < 0 && s.multipleCount <= IntMax
    ensures InternalStreamPlan(hasTarget, inRenderMode, viewportEnabled, t, p, s).Ok?
  {
  }
}
