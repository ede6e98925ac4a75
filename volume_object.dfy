/**
 * The PRT Volume object (src/Objects/MaxKrakatoaVolumeObject.cpp): the voxel
 * spacing it builds its level set with, when the cached level set and the
 * cached voxel sampler are reused or rebuilt, the shell distances and the
 * viewport fraction of the stream it returns, and the migration of an older
 * parameter block on load.
 *
 * The level set and the sampler are represented by build counters: two
 * states with the same counter share the same cached object. Evaluating
 * the target node's world state is a parameter.
 */
module VolumeObject {
  import opened Common
  import FumeFXObject

  /** The parameter block values the object reads (time-varying ones already evaluated at t). */
  datatype Params = Params(
    hasTargetNode: bool,
    voxelLength: real,
    useViewportVoxelLength: bool,
    viewportVoxelLength: real,
    viewportEnabled: bool,
    disableVertexVelocity: bool,
    useShell: bool,
    shellStart: real,
    shellThickness: real,
    useDensityCompensation: bool,
    viewportUsePercentage: bool,
    viewportPercentage: real,
    viewportUseLimit: bool,
    viewportLimit: real,
    seedingMode: int,
    sampling: FumeFXObject.Sampling,
    randomSeed: int,
    jitterWellDistributed: bool)

  /** The defaults of the parameter block descriptor. */
  const DefaultParams: Params := Params(
    false, 1.0, true, 3.0, true, false, false, 0.0, 1.0, false, false, 0.1, false, 1000.0, 0,
    FumeFXObject.Sampling(false, 1, true, true, false, 2, 1024), 42, false)

  /** `MaxKrakatoaVolumeObject_VERSION`. */
  const CurrentVersion: int := 2

  const SeedingModeRegularGrid: int := 0
  const SeedingModeRandom: int := 1

  /** `std::numeric_limits<float>::max()`. */
  const FloatMax: real := 340282346638528859811704183484516925440.0

  const Int64Max: int := 0x7FFF_FFFF_FFFF_FFFF

  /** `(unsigned int)` of an int: reduction modulo 2^32. */
  function AsUInt32(v: int): (r: nat)
    ensures r < 0x1_0000_0000
    ensures 0 <= v < 0x1_0000_0000 ==> r == v
  {
    v % 0x1_0000_0000
  }

  /** `(size_t)` of an int: reduction modulo 2^64. */
  function AsSizeT(v: int): (r: nat)
    ensures r < 0x1_0000_0000_0000_0000
    ensures 0 <= v < 0x1_0000_0000_0000_0000 ==> r == v
    ensures -0x1_0000_0000_0000_0000 <= v < 0 ==> r == v + 0x1_0000_0000_0000_0000
  {
    v % 0x1_0000_0000_0000_0000
  }

  // ---------------------------------------------------------------------------
  // CacheLevelset
  // ---------------------------------------------------------------------------

  /** The voxel spacing: VoxelLength when rendering or when the viewport length is unused, else ViewportVoxelLength. */
  function VoxelSpacing(inRenderMode: bool, p: Params): (s: real)
    ensures inRenderMode ==> s == p.voxelLength
    ensures !p.useViewportVoxelLength ==> s == p.voxelLength
    ensures !inRenderMode && p.useViewportVoxelLength ==> s == p.viewportVoxelLength
  {
    if inRenderMode || !p.useViewportVoxelLength then p.voxelLength else p.viewportVoxelLength
  }

  /** A validity interval; `SetEmpty` gives one that contains no time. */
  datatype Validity = NoTime | Span(start: int, end: int)

  predicate InInterval(v: Validity, t: int)
  {
    v.Span? && v.start <= t <= v.end
  }

  /**
   * The target node's world state at t: either neither a triangle mesh nor
   * convertible to one, or evaluated with the given validity (as narrowed by
   * the object transform in world space), together with whether the world
   * state a quarter frame later can be converted as well.
   */
  datatype MeshEval = NotConvertible | Evaluated(start: int, end: int, futureConvertible: bool)

  /** The level set can be built at all: a target node, enabled in this mode, and a positive spacing. */
  predicate LevelsetRequested(inRenderMode: bool, p: Params)
  {
    p.hasTargetNode && (inRenderMode || p.viewportEnabled) && VoxelSpacing(inRenderMode, p) > 0.0
  }

  /**
   * Vertex velocities are wanted for a mesh whose validity is at most three
   * ticks wide; they come from the quarter-frame-later state, and when that
   * one cannot be converted the build is abandoned.
   */
  predicate VelocityBlocked(p: Params, e: MeshEval)
  {
    e.Evaluated? && !p.disableVertexVelocity && e.end - e.start <= 3 && !e.futureConvertible
  }

  /** A rebuild produces a level set. */
  predicate LevelsetBuilt(inRenderMode: bool, p: Params, e: MeshEval)
  {
    LevelsetRequested(inRenderMode, p) && e.Evaluated? && !VelocityBlocked(p, e)
  }

  /** A rebuild at t leaves the mesh validity at [t, t] unless the world state was evaluated. */
  function ValidityAfterRebuild(t: int, inRenderMode: bool, p: Params, e: MeshEval): (v: Validity)
    ensures InInterval(v, t) || (LevelsetRequested(inRenderMode, p) && e.Evaluated? && !(e.start <= t <= e.end))
    ensures !LevelsetRequested(inRenderMode, p) || e.NotConvertible? ==> v == Span(t, t)
  {
    if LevelsetRequested(inRenderMode, p) && e.Evaluated? then Span(e.start, e.end) else Span(t, t)
  }

  // ---------------------------------------------------------------------------
  // GetInternalStream
  // ---------------------------------------------------------------------------

  /** The shell: off gives outer 0 and inner FLT_MAX; on gives outer = ShellStart and inner = ShellStart + ShellThickness. */
  function ShellDistances(useShell: bool, shellStart: real, shellThickness: real): (r: (real, real))
    ensures !useShell ==> r.0 == 0.0 && r.1 == FloatMax
    ensures useShell ==> r.0 == shellStart && r.1 - r.0 == shellThickness
  {
    if useShell then (shellStart, shellStart + shellThickness) else (0.0, FloatMax)
  }

  /** The viewport fraction and limit of the fractional stream. */
  datatype Fraction = Fraction(fraction: real, limit: int)

  function ViewportFraction(p: Params): (f: Fraction)
    ensures f.fraction == if p.viewportUsePercentage then p.viewportPercentage else 1.0
    ensures !p.viewportUseLimit ==> f.limit == Int64Max
    ensures p.viewportUseLimit && p.viewportLimit >= 0.0 ==>
      f.limit >= 0 && f.limit as real <= 1000.0 * p.viewportLimit < f.limit as real + 1.0
    ensures p.viewportUseLimit && p.viewportLimit < 0.0 ==>
      f.limit <= 0 && f.limit as real - 1.0 < 1000.0 * p.viewportLimit <= f.limit as real
  {
    Fraction(if p.viewportUsePercentage then p.viewportPercentage else 1.0,
             if p.viewportUseLimit then TruncReal(1000.0 * p.viewportLimit) else Int64Max)
  }

  /** What `GetInternalStream` returns. */
  datatype VolumeStream =
    | EmptyVolume
    | LevelsetStream(levelset: nat, sampler: nat, minDistance: real, maxDistance: real,
                     densityCompensation: bool, fraction: Option<Fraction>)

  // ---------------------------------------------------------------------------
  // PostLoadCallback
  // ---------------------------------------------------------------------------

  /**
   * The sampling values after migrating an older parameter block: RandomCount
   * becomes 1024; in regular-grid mode one level is taken off the subdivision
   * count (disabling subdivision when none is left) and jitter and multiple
   * samples are turned off; in random mode the count loses one level (at
   * least 1 remains), subdivision is disabled and jitter and multiple samples
   * are turned on.
   */
  function MigratedSampling(mode: int, s: FumeFXObject.Sampling): (q: FumeFXObject.Sampling)
    ensures q.randomCount == 1024
    ensures q.viewportDisableSubdivision == s.viewportDisableSubdivision && q.multipleCount == s.multipleCount
    ensures mode == SeedingModeRegularGrid ==>
      (q.subdivideEnabled <==> s.subdivideCount - 1 > 0) &&
      q.subdivideCount == (if s.subdivideCount - 1 > 0 then s.subdivideCount - 1 else 1) &&
      !q.jitterSample && !q.multiplePerRegion
    ensures mode == SeedingModeRandom ==>
      !q.subdivideEnabled &&
      q.subdivideCount == (if s.subdivideCount - 1 > 1 then s.subdivideCount - 1 else 1) &&
      q.jitterSample && q.multiplePerRegion
    ensures mode != SeedingModeRegularGrid && mode != SeedingModeRandom ==> q == s.(randomCount := 1024)
  {
    var r := s.(randomCount := 1024);
    if mode == SeedingModeRegularGrid then
      var c := s.subdivideCount - 1;
      r.(subdivideEnabled := c > 0, subdivideCount := if c <= 0 then 1 else c,
         jitterSample := false, multiplePerRegion := false)
    else if mode == SeedingModeRandom then
      var c := if 1 > s.subdivideCount - 1 then 1 else s.subdivideCount - 1;
      r.(subdivideCount := c, subdivideEnabled := false, jitterSample := true, multiplePerRegion := true)
    else
      r
  }

  /**
   * The parameter values after migrating an older parameter block: the
   * sampling values as above, well-distributed jitter off in regular-grid
   * mode and on in random mode. Nothing else changes.
   */
  function Migrated(p: Params): (q: Params)
    ensures q.sampling == MigratedSampling(p.seedingMode, p.sampling)
    ensures q == p.(sampling := q.sampling, jitterWellDistributed := q.jitterWellDistributed)
    ensures p.seedingMode == SeedingModeRegularGrid ==> !q.jitterWellDistributed
    ensures p.seedingMode == SeedingModeRandom ==> q.jitterWellDistributed
    ensures p.seedingMode != SeedingModeRegularGrid && p.seedingMode != SeedingModeRandom ==>
      q.jitterWellDistributed == p.jitterWellDistributed
  {
    p.(sampling := MigratedSampling(p.seedingMode, p.sampling),
       jitterWellDistributed :=
         if p.seedingMode == SeedingModeRegularGrid then false
         else if p.seedingMode == SeedingModeRandom then true
         else p.jitterWellDistributed)
  }

  /**
   * A migrated regular-grid block subdivides each voxel one level less than
   * its old count (none when it had one level or fewer, or where subdivision
   * is not allowed) and takes a single unjittered sample per voxel.
   */
  lemma MigratedRegularGridSampling(inRenderMode: bool, p: Params)
    requires p.seedingMode == SeedingModeRegularGrid
    ensures FumeFXObject.SubdivCount(inRenderMode, Migrated(p).sampling) ==
      (if p.sampling.subdivideCount > 1 && FumeFXObject.SubdivisionAllowed(inRenderMode, p.sampling)
       then p.sampling.subdivideCount - 1 else 0)
    ensures FumeFXObject.NumPerVoxel(inRenderMode, Migrated(p).sampling) == 1
    ensures !Migrated(p).sampling.jitterSample
  {
    var q := Migrated(p).sampling;
    assert FumeFXObject.SubdivisionAllowed(inRenderMode, q) == FumeFXObject.SubdivisionAllowed(inRenderMode, p.sampling);
  }

  /**
   * A migrated random-mode block is not subdivided and takes jittered,
   * well-distributed samples, several per voxel wherever multi-sampling is
   * allowed.
   */
  lemma MigratedRandomSampling(inRenderMode: bool, p: Params)
    requires p.seedingMode == SeedingModeRandom
    ensures FumeFXObject.SubdivCount(inRenderMode, Migrated(p).sampling) == 0
    ensures Migrated(p).sampling.jitterSample && Migrated(p).jitterWellDistributed
    ensures FumeFXObject.NumPerVoxel(inRenderMode, Migrated(p).sampling) ==
      (if FumeFXObject.SubdivisionAllowed(inRenderMode, p.sampling)
       then (if p.sampling.multipleCount > 2 then p.sampling.multipleCount else 2) else 1)
  {
    var q := Migrated(p).sampling;
    assert FumeFXObject.SubdivisionAllowed(inRenderMode, q) == FumeFXObject.SubdivisionAllowed(inRenderMode, p.sampling);
  }

  // ---------------------------------------------------------------------------
  // The object
  // ---------------------------------------------------------------------------

  class KrakatoaVolume {
    var params: Params

    // The cached level set and the key it was built for.
    var hasLevelset: bool
    var levelsetBuilds: nat
    var voxelSpacing: real
    var meshValidity: Validity

    // The cached voxel sampler, its subdivisions and the key it was built for.
    var hasSampler: bool
    var samplerBuilds: nat
    var samplerSubdivs: int
    var samplerPerVoxel: int
    var doJitter: bool
    var randomSeed: nat
    var randomCount: nat
    var jitterWellDistributed: bool

    /** A new object starts with density compensation on; a loaded one keeps the values it is about to read. */
    constructor (loading: bool)
      ensures params == if loading then DefaultParams else DefaultParams.(useDensityCompensation := true)
      ensures !hasLevelset && !hasSampler && meshValidity == NoTime && voxelSpacing == 0.0
      ensures !doJitter && randomSeed == 0 && randomCount == 0 && !jitterWellDistributed
    {
      params := if loading then DefaultParams else DefaultParams.(useDensityCompensation := true);
      hasLevelset, levelsetBuilds, voxelSpacing, meshValidity := false, 0, 0.0, NoTime;
      hasSampler, samplerBuilds, samplerSubdivs, samplerPerVoxel := false, 0, 0, 1;
      doJitter, randomSeed, randomCount, jitterWellDistributed := false, 0, 0, false;
    }

    /** The cached level set can be reused at t: it exists, the spacing is unchanged and the mesh is still valid. */
    predicate LevelsetReusable(t: int, inRenderMode: bool)
      reads this
    {
      hasLevelset && VoxelSpacing(inRenderMode, params) == voxelSpacing && InInterval(meshValidity, t)
    }

    /** `CacheLevelset`: reuse the cached level set, or rebuild it and record its key. */
    method CacheLevelset(t: int, inRenderMode: bool, e: MeshEval) returns (reused: bool)
      modifies this`hasLevelset, this`levelsetBuilds, this`voxelSpacing, this`meshValidity
      ensures reused <==> old(LevelsetReusable(t, inRenderMode))
      ensures reused ==> (hasLevelset && levelsetBuilds == old(levelsetBuilds) &&
        voxelSpacing == old(voxelSpacing) && meshValidity == old(meshValidity))
      ensures !reused ==> (voxelSpacing == VoxelSpacing(inRenderMode, params) &&
        (hasLevelset <==> LevelsetBuilt(inRenderMode, params, e)) &&
        meshValidity == ValidityAfterRebuild(t, inRenderMode, params, e) &&
        levelsetBuilds == old(levelsetBuilds) + (if hasLevelset then 1 else 0))
    {
      var spacing: real;
      if inRenderMode || !params.useViewportVoxelLength {
        spacing := params.voxelLength;
      } else {
        spacing := params.viewportVoxelLength;
      }
      if hasLevelset && spacing == voxelSpacing && InInterval(meshValidity, t) {
        return true;
      }
      reused := false;
      voxelSpacing := spacing;
      hasLevelset := false;
      meshValidity := Span(t, t);
      if !params.hasTargetNode {
        return;
      }
      if (!inRenderMode && !params.viewportEnabled) || voxelSpacing <= 0.0 {
        return;
      }
      if e.NotConvertible? {
        return;
      }
      meshValidity := Span(e.start, e.end);
      if !params.disableVertexVelocity && meshValidity.end - meshValidity.start <= 3 && !e.futureConvertible {
        return;
      }
      hasLevelset := true;
      levelsetBuilds := levelsetBuilds + 1;
    }

    /** The cached sampler's key matches the parameters, so only its subdivisions need updating. */
    predicate SamplerReusable()
      reads this
    {
      hasSampler && params.sampling.jitterSample == doJitter &&
      (!doJitter ||
       (AsUInt32(params.randomSeed) == randomSeed && AsSizeT(params.sampling.randomCount) == randomCount &&
        params.jitterWellDistributed == jitterWellDistributed))
    }

    /**
     * `CacheVoxelSampler`: the subdivisions always follow the parameters; the
     * sampler is rebuilt (and its key recorded) only when none is cached, the
     * jitter flag changed, or jitter is on and seed, count or distribution
     * changed. Afterwards the cache is reusable.
     */
    method CacheVoxelSampler(inRenderMode: bool) returns (rebuilt: bool)
      modifies this`hasSampler, this`samplerBuilds, this`samplerSubdivs, this`samplerPerVoxel,
        this`doJitter, this`randomSeed, this`randomCount, this`jitterWellDistributed
      ensures rebuilt <==> !old(SamplerReusable())
      ensures hasSampler && SamplerReusable()
      ensures samplerSubdivs == FumeFXObject.SubdivCount(inRenderMode, params.sampling)
      ensures samplerPerVoxel == FumeFXObject.NumPerVoxel(inRenderMode, params.sampling)
      ensures !rebuilt ==> (samplerBuilds == old(samplerBuilds) && doJitter == old(doJitter) &&
        randomSeed == old(randomSeed) && randomCount == old(randomCount) &&
        jitterWellDistributed == old(jitterWellDistributed))
      ensures rebuilt ==> (samplerBuilds == old(samplerBuilds) + 1 && doJitter == params.sampling.jitterSample &&
        randomSeed == AsUInt32(params.randomSeed) && randomCount == AsSizeT(params.sampling.randomCount) &&
        jitterWellDistributed == params.jitterWellDistributed)
    {
      var subdivCount := FumeFXObject.SubdivCount(inRenderMode, params.sampling);
      var jitter := params.sampling.jitterSample;
      var numPerVoxel := FumeFXObject.NumPerVoxel(inRenderMode, params.sampling);
      var seed := AsUInt32(params.randomSeed);
      var count := AsSizeT(params.sampling.randomCount);
      var wellDistributed := params.jitterWellDistributed;
      if hasSampler && jitter == doJitter {
        if !jitter || (seed == randomSeed && count == randomCount && wellDistributed == jitterWellDistributed) {
          samplerSubdivs, samplerPerVoxel := subdivCount, numPerVoxel;
          return false;
        }
      }
      hasSampler := true;
      samplerBuilds := samplerBuilds + 1;
      samplerSubdivs, samplerPerVoxel := subdivCount, numPerVoxel;
      doJitter, randomSeed, randomCount, jitterWellDistributed := jitter, seed, count, wellDistributed;
      rebuilt := true;
    }

    /**
     * `GetInternalStream`: refresh both caches; no level set gives an empty
     * stream, otherwise a level-set stream over the shell (distances negated)
     * with the viewport fraction applied outside a render. A request the
     * level set cannot satisfy (no target, viewport disabled, spacing not
     * positive) yields the empty stream unless the old level set was reusable.
     */
    method GetInternalStream(t: int, inRenderMode: bool, e: MeshEval) returns (s: VolumeStream)
      modifies this`hasLevelset, this`levelsetBuilds, this`voxelSpacing, this`meshValidity,
        this`hasSampler, this`samplerBuilds, this`samplerSubdivs, this`samplerPerVoxel,
        this`doJitter, this`randomSeed, this`randomCount, this`jitterWellDistributed
      ensures s.EmptyVolume? <==> !hasLevelset
      ensures !old(LevelsetReusable(t, inRenderMode)) && !LevelsetRequested(inRenderMode, params) ==> s.EmptyVolume?
      ensures s.LevelsetStream? ==>
        s.levelset == levelsetBuilds && s.sampler == samplerBuilds && SamplerReusable() &&
        s.minDistance == -ShellDistances(params.useShell, params.shellStart, params.shellThickness).1 &&
        s.maxDistance == -ShellDistances(params.useShell, params.shellStart, params.shellThickness).0 &&
        s.densityCompensation == params.useDensityCompensation &&
        s.fraction == if inRenderMode then None else Some(ViewportFraction(params))
    {
      var _ := CacheLevelset(t, inRenderMode, e);
      var _ := CacheVoxelSampler(inRenderMode);
      if !hasLevelset {
        return EmptyVolume;
      }
      var outerDistance := params.shellStart;
      var innerDistance := outerDistance + params.shellThickness;
      if !params.useShell {
        outerDistance := 0.0;
        innerDistance := FloatMax;
      }
      var fraction: Option<Fraction> := None;
      if !inRenderMode {
        var viewFraction := 1.0;
        var viewLimit := Int64Max;
        if params.viewportUsePercentage {
          viewFraction := params.viewportPercentage;
        }
        if params.viewportUseLimit {
          viewLimit := TruncReal(1000.0 * params.viewportLimit);
        }
        fraction := Some(Fraction(viewFraction, viewLimit));
      }
      s := LevelsetStream(levelsetBuilds, samplerBuilds, -innerDistance, -outerDistance,
                          params.useDensityCompensation, fraction);
    }

    /** The per-mode migration steps of `PostLoadCallback`. */
    static method MigrateSampling(mode: int, old_sampling: FumeFXObject.Sampling, old_jitter: bool)
      returns (sampling: FumeFXObject.Sampling, jitterWellDistributed: bool)
      ensures sampling == MigratedSampling(mode, old_sampling)
      ensures jitterWellDistributed ==
        if mode == SeedingModeRegularGrid then false
        else if mode == SeedingModeRandom then true
        else old_jitter
    {
      sampling := old_sampling.(randomCount := 1024);
      jitterWellDistributed := old_jitter;
      if mode == SeedingModeRegularGrid {
        var subdivCount := sampling.subdivideCount - 1;
        if subdivCount <= 0 {
          sampling := sampling.(subdivideEnabled := false);
          sampling := sampling.(subdivideCount := 1);
        } else {
          sampling := sampling.(subdivideEnabled := true);
          sampling := sampling.(subdivideCount := subdivCount);
        }
        sampling := sampling.(jitterSample := false);
        jitterWellDistributed := false;
        sampling := sampling.(multiplePerRegion := false);
      } else if mode == SeedingModeRandom {
        var subdivCount := if 1 > sampling.subdivideCount - 1 then 1 else sampling.subdivideCount - 1;
        sampling := sampling.(subdivideCount := subdivCount);
        sampling := sampling.(subdivideEnabled := false);
        sampling := sampling.(jitterSample := true);
        jitterWellDistributed := true;
        sampling := sampling.(multiplePerRegion := true);
      }
    }

    /**
     * `PostLoadCallback`: a parameter block of another version is migrated
     * and the load marked obsolete; a current one (or none to inspect) is
     * left as it is.
     */
    method PostLoadCallback(hasPostLoadInfo: bool, version: int) returns (obsolete: bool)
      modifies this`params
      ensures obsolete <==> hasPostLoadInfo && version != CurrentVersion
      ensures params == if obsolete then Migrated(old(params)) else old(params)
    {
      obsolete := false;
      if hasPostLoadInfo && version != CurrentVersion {
        var sampling, jitterWellDistributed := MigrateSampling(params.seedingMode, params.sampling,
                                                               params.jitterWellDistributed);
        params := params.(sampling := sampling, jitterWellDistributed := jitterWellDistributed);
        obsolete := true;
      }
    }
  }
}
