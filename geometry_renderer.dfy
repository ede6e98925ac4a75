/**
 * The 3ds Max matte primitive (`MaxMattePrimitive`): a scene node rendered
 * as a holdout. It drops the matte/shadow materials, caches the node's mesh
 * and transform at the two ends of the current motion-blur segment
 * (reusing the right sample when time moves to the next segment), and
 * reports full opacity whenever the material tree has a missing material
 * or texture map, which it finds once and remembers.
 *
 * The node is given by its name, its material and two functions from a
 * time in ticks to its mesh and its object transform.
 */
module GeometryRenderer {
  import opened Common

  const MissingMaterialClass: string := "Missing Material"
  const MissingTexmapClass: string := "Missing TextureMap"

  /** A texture map: its class name and its sub-texture slots, which may be empty. */
  datatype Texmap = Texmap(className: string, subTexmaps: seq<Option<Texmap>>)

  /** A material: its class name and id, its sub-material slots and its sub-texture slots. */
  datatype Mtl = Mtl(className: string, classId: ClassId, subMtls: seq<Option<Mtl>>, subTexmaps: seq<Option<Texmap>>)

  /** The parts of a mesh the primitive looks at. */
  datatype Mesh = Mesh(vertexCount: nat, faceCount: nat)

  /** A node's object transform, as its sixteen entries. */
  datatype Transform = Transform(entries: seq<real>)

  /** The transform for the current time: sampled directly or blended between the segment's ends. */
  datatype CurrentTransform = SampledTM(tm: Transform) | BlendedTM(left: Transform, right: Transform, alpha: real)

  /** `m_currentSegment` before the first `set_time`: `INT_MAX`. */
  const NoSegment: int := 0x7FFF_FFFF

  const Identity: Transform :=
    Transform([1.0, 0.0, 0.0, 0.0, 0.0, 1.0, 0.0, 0.0, 0.0, 0.0, 1.0, 0.0, 0.0, 0.0, 0.0, 1.0])

  // ---------------------------------------------------------------------------
  // The matte/shadow materials
  // ---------------------------------------------------------------------------

  /**
   * The classes of the 3ds Max, finalRender and mental ray matte/shadow
   * materials; the first is `Class_ID(MATTE_CLASS_ID, 0)`, whose first part
   * the SDK defines.
   */
  predicate IsMatteShadow(c: ClassId, matteClassId: bv32)
  {
    c == ClassId(matteClassId, 0) || c == ClassId(0x04C0_2C53, 0x0852_6E62) || c == ClassId(0x7773_160F, 0xAF2D_513F)
  }

  /** The material the primitive shades with: the node's, unless it has none or is a matte/shadow material. */
  function EffectiveMaterial(nodeMtl: Option<Mtl>, matteClassId: bv32): (m: Option<Mtl>)
    ensures m.None? <==> nodeMtl.None? || IsMatteShadow(nodeMtl.value.classId, matteClassId)
    ensures m.Some? ==> m == nodeMtl
  {
    if nodeMtl.Some? && IsMatteShadow(nodeMtl.value.classId, matteClassId) then None else nodeMtl
  }

  // ---------------------------------------------------------------------------
  // Missing materials and texture maps
  // ---------------------------------------------------------------------------

  /** The texture map is of the missing class, or some non-null texture map below it is. */
  predicate TexmapMissing(t: Texmap)
    decreases t
  {
    t.className == MissingTexmapClass ||
    exists i :: 0 <= i < |t.subTexmaps| && t.subTexmaps[i].Some? && TexmapMissing(t.subTexmaps[i].value)
  }

  /** Some non-null slot holds a texture map that is missing or has a missing one below it. */
  predicate AnyTexmapMissing(slots: seq<Option<Texmap>>)
  {
    exists i :: 0 <= i < |slots| && slots[i].Some? && TexmapMissing(slots[i].value)
  }

  /** The material is of the missing class, has a missing texture map, or some non-null sub-material is missing. */
  predicate MtlMissing(m: Mtl)
    decreases m
  {
    m.className == MissingMaterialClass || AnyTexmapMissing(m.subTexmaps) ||
    exists i :: 0 <= i < |m.subMtls| && m.subMtls[i].Some? && MtlMissing(m.subMtls[i].value)
  }

  /** `missing_texturemap_recursive`: scans the sub-texture slots, stopping at the first missing one. */
  method MissingTexturemapRecursive(t: Texmap) returns (r: bool)
    ensures r == AnyTexmapMissing(t.subTexmaps)
    decreases t
  {
    for i := 0 to |t.subTexmaps|
      invariant forall k :: 0 <= k < i ==> !(t.subTexmaps[k].Some? && TexmapMissing(t.subTexmaps[k].value))
    {
      var sub := t.subTexmaps[i];
      if sub.Some? {
        var missing := sub.value.className == MissingTexmapClass;
        if !missing {
          missing := MissingTexturemapRecursive(sub.value);
        }
        if missing {
          return true;
        }
      }
    }
    return false;
  }

  /** `missing_texturemap`: the same scan over a material's sub-texture slots. */
  method MissingTexturemap(m: Mtl) returns (r: bool)
    ensures r == AnyTexmapMissing(m.subTexmaps)
  {
    for i := 0 to |m.subTexmaps|
      invariant forall k :: 0 <= k < i ==> !(m.subTexmaps[k].Some? && TexmapMissing(m.subTexmaps[k].value))
    {
      var sub := m.subTexmaps[i];
      if sub.Some? {
        var missing := sub.value.className == MissingTexmapClass;
        if !missing {
          missing := MissingTexturemapRecursive(sub.value);
        }
        if missing {
          return true;
        }
      }
    }
    return false;
  }

  /** `missing_material_recursive`: the class, then the texture maps, then each non-null sub-material in turn. */
  method MissingMaterialRecursive(m: Mtl) returns (r: bool)
    ensures r == MtlMissing(m)
    decreases m
  {
    var texmapMissing := false;
    if m.className != MissingMaterialClass {
      texmapMissing := MissingTexturemap(m);
    }
    if m.className == MissingMaterialClass || texmapMissing {
      return true;
    }
    for i := 0 to |m.subMtls|
      invariant forall k :: 0 <= k < i ==> !(m.subMtls[k].Some? && MtlMissing(m.subMtls[k].value))
    {
      var sub := m.subMtls[i];
      if sub.Some? {
        var missing := MissingMaterialRecursive(sub.value);
        if missing {
          return true;
        }
      }
    }
    return false;
  }

  /** The texture map reached from `t` by following the slot indices of `path`, if they all hold one. */
  function TexmapAt(t: Texmap, path: seq<nat>): Option<Texmap>
    decreases |path|
  {
    if path == [] then Some(t)
    else if path[0] < |t.subTexmaps| && t.subTexmaps[path[0]].Some? then TexmapAt(t.subTexmaps[path[0]].value, path[1..])
    else None
  }

  /** The material reached from `m` by following the sub-material indices of `path`, if they all hold one. */
  function MtlAt(m: Mtl, path: seq<nat>): Option<Mtl>
    decreases |path|
  {
    if path == [] then Some(m)
    else if path[0] < |m.subMtls| && m.subMtls[path[0]].Some? then MtlAt(m.subMtls[path[0]].value, path[1..])
    else None
  }

  lemma {:induction false} TexmapMissingHasPath(t: Texmap)
    requires TexmapMissing(t)
    ensures exists path :: TexmapAt(t, path).Some? && TexmapAt(t, path).value.className == MissingTexmapClass
    decreases t
  {
    if t.className == MissingTexmapClass {
      assert TexmapAt(t, []) == Some(t);
    } else {
      var i :| 0 <= i < |t.subTexmaps| && t.subTexmaps[i].Some? && TexmapMissing(t.subTexmaps[i].value);
      var sub := t.subTexmaps[i].value;
      TexmapMissingHasPath(sub);
      var path :| TexmapAt(sub, path).Some? && TexmapAt(sub, path).value.className == MissingTexmapClass;
      assert ([i as nat] + path)[1..] == path;
      assert TexmapAt(t, [i as nat] + path) == TexmapAt(sub, path);
    }
  }

  lemma {:induction false} PathMakesTexmapMissing(t: Texmap, path: seq<nat>)
    requires TexmapAt(t, path).Some? && TexmapAt(t, path).value.className == MissingTexmapClass
    ensures TexmapMissing(t)
    decreases |path|
  {
    if path != [] {
      var sub := t.subTexmaps[path[0]].value;
      PathMakesTexmapMissing(sub, path[1..]);
      assert t.subTexmaps[path[0]].Some? && TexmapMissing(t.subTexmaps[path[0]].value);
    }
  }

  /** A texture map is missing exactly when some texture map in its tree has the missing class. */
  lemma TexmapMissingIffSomeDescendant(t: Texmap)
    ensures TexmapMissing(t) <==>
      exists path :: TexmapAt(t, path).Some? && TexmapAt(t, path).value.className == MissingTexmapClass
  {
    if TexmapMissing(t) {
      TexmapMissingHasPath(t);
    }
    if path :| TexmapAt(t, path).Some? && TexmapAt(t, path).value.className == MissingTexmapClass {
      PathMakesTexmapMissing(t, path);
    }
  }

  /** A material that is itself of the missing class or holds a missing texture map. */
  predicate LocallyMissing(m: Mtl)
  {
    m.className == MissingMaterialClass || AnyTexmapMissing(m.subTexmaps)
  }

  lemma {:induction false} MtlMissingHasPath(m: Mtl)
    requires MtlMissing(m)
    ensures exists path :: MtlAt(m, path).Some? && LocallyMissing(MtlAt(m, path).value)
    decreases m
  {
    if LocallyMissing(m) {
      assert MtlAt(m, []) == Some(m);
    } else {
      var i :| 0 <= i < |m.subMtls| && m.subMtls[i].Some? && MtlMissing(m.subMtls[i].value);
      var sub := m.subMtls[i].value;
      MtlMissingHasPath(sub);
      var path :| MtlAt(sub, path).Some? && LocallyMissing(MtlAt(sub, path).value);
      assert ([i as nat] + path)[1..] == path;
      assert MtlAt(m, [i as nat] + path) == MtlAt(sub, path);
    }
  }

  lemma {:induction false} PathMakesMtlMissing(m: Mtl, path: seq<nat>)
    requires MtlAt(m, path).Some? && LocallyMissing(MtlAt(m, path).value)
    ensures MtlMissing(m)
    decreases |path|
  {
    if path != [] {
      var sub := m.subMtls[path[0]].value;
      PathMakesMtlMissing(sub, path[1..]);
      assert m.subMtls[path[0]].Some? && MtlMissing(m.subMtls[path[0]].value);
    }
  }

  /** A material is missing exactly when some material in its tree is of the missing class or holds a missing texture map. */
  lemma MtlMissingIffSomeDescendant(m: Mtl)
    ensures MtlMissing(m) <==> exists path :: MtlAt(m, path).Some? && LocallyMissing(MtlAt(m, path).value)
  {
    if MtlMissing(m) {
      MtlMissingHasPath(m);
    }
    if path :| MtlAt(m, path).Some? && LocallyMissing(MtlAt(m, path).value) {
      PathMakesMtlMissing(m, path);
    }
  }

  // ---------------------------------------------------------------------------
  // Motion segments
  // ---------------------------------------------------------------------------

  /** The segment of the motion-segment time `t` out of `n`: floor(t·n), with the end of the last segment moved into it. */
  function SegmentOf(t: real, n: nat): (s: int)
    requires n > 0 && 0.0 <= t <= 1.0
    ensures 0 <= s < n
    ensures s as real <= t * n as real && (t * n as real < (s + 1) as real || (t == 1.0 && s == n - 1))
  {
    var segment := (t * n as real).Floor;
    assert segment <= n by {
      assert t * n as real <= n as real;
    }
    if segment == n then n - 1 else segment
  }

  /** The tick at fraction `f` of the motion interval, truncated like `TimeValue(float)`. */
  function TimeAt(motion: Interval, f: real): int
  {
    TruncReal(motion.start as real + f * (motion.end - motion.start) as real)
  }

  function SegmentStart(motion: Interval, segment: int, n: nat): int
    requires n > 0
  {
    TimeAt(motion, segment as real / n as real)
  }

  function SegmentEnd(motion: Interval, segment: int, n: nat): int
    requires n > 0
  {
    TimeAt(motion, (segment + 1) as real / n as real)
  }

  /** The end of a segment is the start of the next one, so its sample can be reused. */
  lemma {:induction false} SegmentsMeet(motion: Interval, segment: int, n: nat)
    requires n > 0
    ensures SegmentEnd(motion, segment, n) == SegmentStart(motion, segment + 1, n)
  {
    assert (segment + 1) as real == (segment + 1) as real;
  }

  /** The vertex-count error `set_time` raises. */
  function VertexCountError(nodeName: string, leftCount: nat, tStart: int, rightCount: nat, tEnd: int): string
  {
    "The node: \"" + nodeName + "\" had " + Decimal(leftCount) + " vertices at time (in ticks): " + SignedDecimal(tStart) +
    " and " + Decimal(rightCount) + " vertices at time (in ticks): " + SignedDecimal(tEnd) +
    " so interpolation of the mesh for motion blur is not possible."
  }

  // ---------------------------------------------------------------------------
  // The primitive
  // ---------------------------------------------------------------------------

  class MattePrimitive {
    const nodeName: string
    const meshAt: int -> Mesh
    const tmAt: int -> Transform
    const motion: Interval
    const sampleGeometry: bool
    const numSegments: nat
    const mtl: Option<Mtl>

    /** `m_missingMaterial`; None is the indeterminate value. */
    var missingMaterial: Option<bool>
    var currentSegment: int
    var alpha: real
    var leftMesh: Mesh
    var rightMesh: Mesh
    var currentMesh: Mesh
    var leftTM: Transform
    var rightTM: Transform
    var currentTM: CurrentTransform

    /**
     * The cached samples are the node's at the two ends of the current
     * segment, and a known missing-material flag is that of the material.
     */
    predicate Valid()
      reads this
    {
      numSegments < 0x8000_0000 &&
      (numSegments > 0 && currentSegment != NoSegment ==>
        0 <= currentSegment < numSegments &&
        leftTM == tmAt(SegmentStart(motion, currentSegment, numSegments)) &&
        rightTM == tmAt(SegmentEnd(motion, currentSegment, numSegments)) &&
        (sampleGeometry ==> leftMesh == meshAt(SegmentStart(motion, currentSegment, numSegments)) &&
                            rightMesh == meshAt(SegmentEnd(motion, currentSegment, numSegments)))) &&
      (missingMaterial.Some? ==> mtl.Some? && missingMaterial.value == MtlMissing(mtl.value))
    }

    /**
     * The constructor: a negative segment count becomes 1, a matte/shadow
     * material counts as none, no segment is cached and the
     * missing-material flag is indeterminate.
     */
    constructor (nodeName: string, nodeMtl: Option<Mtl>, motion: Interval, sampleGeometry: bool, numSegments: int,
                 matteClassId: bv32, meshAt: int -> Mesh, tmAt: int -> Transform)
      requires -0x8000_0000 <= numSegments < 0x8000_0000
      ensures this.numSegments == if numSegments < 0 then 1 else numSegments
      ensures mtl == EffectiveMaterial(nodeMtl, matteClassId)
      ensures this.nodeName == nodeName && this.motion == motion && this.sampleGeometry == sampleGeometry
      ensures this.meshAt == meshAt && this.tmAt == tmAt
      ensures currentSegment == NoSegment && alpha == 0.0 && missingMaterial.None?
      ensures leftMesh == Mesh(0, 0) && rightMesh == Mesh(0, 0) && currentMesh == Mesh(0, 0)
      ensures Valid()
    {
      this.nodeName := nodeName;
      this.motion := motion;
      this.sampleGeometry := sampleGeometry;
      this.numSegments := if numSegments < 0 then 1 else numSegments;
      this.meshAt := meshAt;
      this.tmAt := tmAt;
      missingMaterial := None;
      currentSegment := NoSegment;
      alpha := 0.0;
      mtl := EffectiveMaterial(nodeMtl, matteClassId);
      leftMesh, rightMesh, currentMesh := Mesh(0, 0), Mesh(0, 0), Mesh(0, 0);
      leftTM, rightTM := Identity, Identity;
      currentTM := SampledTM(Identity);
    }

    /**
     * `set_time` with segments: on a new segment, the left sample is the
     * previous right one when the segment is the next, and is fetched
     * otherwise; the right sample is fetched, and meshes with different
     * vertex counts raise an error before the segment is recorded.
     */
    method MoveToSegment(segment: int) returns (err: Option<string>)
      requires Valid() && numSegments > 0 && 0 <= segment < numSegments
      modifies this
      ensures missingMaterial == old(missingMaterial) && alpha == old(alpha) && currentMesh == old(currentMesh)
      ensures currentTM == old(currentTM)
      ensures segment == old(currentSegment) ==> (err.None? && leftMesh == old(leftMesh) &&
        rightMesh == old(rightMesh) && leftTM == old(leftTM) && rightTM == old(rightTM))
      ensures sampleGeometry && segment == old(currentSegment) + 1 ==> leftMesh == old(rightMesh)
      ensures !sampleGeometry ==> err.None? && leftMesh == old(leftMesh) && rightMesh == old(rightMesh)
      ensures err.None? ==> currentSegment == segment && Valid()
      ensures err.None? && sampleGeometry && segment != old(currentSegment) ==> leftMesh.vertexCount == rightMesh.vertexCount
      ensures err.Some? ==> (currentSegment == old(currentSegment) && sampleGeometry &&
        leftMesh == meshAt(SegmentStart(motion, segment, numSegments)) &&
        rightMesh == meshAt(SegmentEnd(motion, segment, numSegments)) &&
        leftMesh.vertexCount != rightMesh.vertexCount &&
        err.value == VertexCountError(nodeName, leftMesh.vertexCount, SegmentStart(motion, segment, numSegments),
                                      rightMesh.vertexCount, SegmentEnd(motion, segment, numSegments)))
    {
      if segment != currentSegment {
        LoadLeft(segment);
        var tStart := SegmentStart(motion, segment, numSegments);
        var tEnd := SegmentEnd(motion, segment, numSegments);
        if sampleGeometry {
          rightMesh := meshAt(tEnd);
          if leftMesh.vertexCount != rightMesh.vertexCount {
            return Some(VertexCountError(nodeName, leftMesh.vertexCount, tStart, rightMesh.vertexCount, tEnd));
          }
        }
        rightTM := tmAt(tEnd);
      }
      currentSegment := segment;
      return None;
    }

    /**
     * The left sample of a new segment: the previous right sample when the
     * segment is the next one, the node's at the segment start otherwise.
     */
    method LoadLeft(segment: int)
      requires Valid() && numSegments > 0 && 0 <= segment < numSegments && segment != currentSegment
      modifies this
      ensures missingMaterial == old(missingMaterial) && alpha == old(alpha) && currentMesh == old(currentMesh)
      ensures currentTM == old(currentTM) && currentSegment == old(currentSegment) && rightTM == old(rightTM)
      ensures leftTM == tmAt(SegmentStart(motion, segment, numSegments))
      ensures sampleGeometry ==> leftMesh == meshAt(SegmentStart(motion, segment, numSegments))
      ensures sampleGeometry && segment == old(currentSegment) + 1 ==> leftMesh == old(rightMesh)
      ensures !sampleGeometry ==> leftMesh == old(leftMesh) && rightMesh == old(rightMesh)
    {
      var tStart := SegmentStart(motion, segment, numSegments);
      if segment == currentSegment + 1 {
        SegmentsMeet(motion, currentSegment, numSegments);
        if sampleGeometry {
          leftMesh, rightMesh := rightMesh, leftMesh;
        }
        leftTM := rightTM;
      } else {
        if sampleGeometry {
          leftMesh := meshAt(tStart);
        }
        leftTM := tmAt(tStart);
      }
    }

    /**
     * `set_time`: with segments, moves to the segment of `t` and blends the
     * transforms by the fraction of the segment elapsed; without, samples
     * the node at `t`. A primitive that does not sample geometry fetches its
     * mesh once, at the middle of the motion interval.
     */
    method SetTime(t: real) returns (err: Option<string>)
      requires Valid() && 0.0 <= t <= 1.0
      modifies this
      ensures missingMaterial == old(missingMaterial)
      ensures err.None? ==> Valid()
      ensures numSegments > 0 && err.None? ==> (
        var segment := SegmentOf(t, numSegments);
        var s0 := segment as real / numSegments as real;
        var s1 := (segment + 1) as real / numSegments as real;
        currentSegment == segment && alpha == (t - s0) / (s1 - s0) && currentTM == BlendedTM(leftTM, rightTM, alpha))
      ensures numSegments > 0 && sampleGeometry ==>
        (err.Some? <==> (SegmentOf(t, numSegments) != old(currentSegment) &&
          meshAt(SegmentStart(motion, SegmentOf(t, numSegments), numSegments)).vertexCount !=
          meshAt(SegmentEnd(motion, SegmentOf(t, numSegments), numSegments)).vertexCount))
      ensures numSegments > 0 && sampleGeometry && SegmentOf(t, numSegments) == old(currentSegment) + 1 ==>
        leftMesh == old(rightMesh)
      ensures numSegments == 0 ==> (err.None? && currentSegment == old(currentSegment) &&
        currentTM == SampledTM(tmAt(TimeAt(motion, t))) &&
        (sampleGeometry ==> currentMesh == meshAt(TimeAt(motion, t))))
      ensures !sampleGeometry ==> (err.None? && currentMesh ==
        if old(currentMesh).vertexCount == 0 then meshAt(TruncDiv(motion.start + motion.end, 2)) else old(currentMesh))
      ensures numSegments > 0 && sampleGeometry ==> currentMesh == old(currentMesh)
    {
      if numSegments > 0 {
        err := MoveToSegment(SegmentOf(t, numSegments));
        if err.Some? {
          return;
        }
        Blend(t);
      } else {
        err := None;
        SampleAt(t);
      }
      EnsureMesh();
    }

    /** The blend of the segment's transforms by the fraction of the segment elapsed at `t`. */
    method Blend(t: real)
      requires numSegments > 0 && 0.0 <= t <= 1.0
      modifies this`alpha, this`currentTM
      ensures var segment := SegmentOf(t, numSegments);
        var s0 := segment as real / numSegments as real;
        var s1 := (segment + 1) as real / numSegments as real;
        alpha == (t - s0) / (s1 - s0) && currentTM == BlendedTM(leftTM, rightTM, alpha)
    {
      var segment := SegmentOf(t, numSegments);
      var s0 := segment as real / numSegments as real;
      var s1 := (segment + 1) as real / numSegments as real;
      assert s0 < s1 by {
        assert segment as real < (segment + 1) as real;
      }
      alpha := (t - s0) / (s1 - s0);
      currentTM := BlendedTM(leftTM, rightTM, alpha);
    }

    /** Without segments: the node's mesh (when sampling geometry) and transform at `t`. */
    method SampleAt(t: real)
      modifies this`currentMesh, this`currentTM
      ensures currentTM == SampledTM(tmAt(TimeAt(motion, t)))
      ensures currentMesh == if sampleGeometry then meshAt(TimeAt(motion, t)) else old(currentMesh)
    {
      var time := TimeAt(motion, t);
      if sampleGeometry {
        currentMesh := meshAt(time);
      }
      currentTM := SampledTM(tmAt(time));
    }

    /** A primitive that does not sample geometry fetches its mesh once, at the middle of the motion interval. */
    method EnsureMesh()
      modifies this`currentMesh
      ensures currentMesh == if !sampleGeometry && old(currentMesh).vertexCount == 0
        then meshAt(TruncDiv(motion.start + motion.end, 2)) else old(currentMesh)
    {
      if !sampleGeometry && currentMesh.vertexCount == 0 {
        currentMesh := meshAt(TruncDiv(motion.start + motion.end, 2));
      }
    }

    /** `get_triangle_count`: the left mesh's faces when sampling geometry over segments, else the current mesh's. */
    function TriangleCount(): (n: nat)
      reads this
      ensures Valid() && sampleGeometry && numSegments > 0 && currentSegment != NoSegment ==>
        n == meshAt(SegmentStart(motion, currentSegment, numSegments)).faceCount
      ensures !(sampleGeometry && numSegments > 0) ==> n == currentMesh.faceCount
    {
      if sampleGeometry && numSegments > 0 then leftMesh.faceCount else currentMesh.faceCount
    }

    /** `missing_material`: computed on the first call and remembered. */
    method MissingMaterial() returns (r: bool)
      requires Valid() && mtl.Some?
      modifies this
      ensures r == MtlMissing(mtl.value) && missingMaterial == Some(r) && Valid()
      ensures currentSegment == old(currentSegment) && alpha == old(alpha) && currentTM == old(currentTM)
      ensures leftMesh == old(leftMesh) && rightMesh == old(rightMesh) && currentMesh == old(currentMesh)
      ensures leftTM == old(leftTM) && rightTM == old(rightTM)
    {
      if missingMaterial.None? {
        var missing := MissingMaterialRecursive(mtl.value);
        missingMaterial := Some(missing);
      }
      r := missingMaterial.value;
    }

    /**
     * `get_opacity`: 1 without a material or when the material tree has a
     * missing part; otherwise one minus the intensity of the transparency
     * the material shades, which is given.
     */
    method GetOpacity(shadedTransparency: real) returns (opacity: real)
      requires Valid()
      modifies this
      ensures Valid()
      ensures mtl.None? ==> opacity == 1.0 && missingMaterial == old(missingMaterial)
      ensures mtl.Some? ==> (missingMaterial == Some(MtlMissing(mtl.value)) &&
        opacity == if MtlMissing(mtl.value) then 1.0 else 1.0 - shadedTransparency)
      ensures currentSegment == old(currentSegment) && alpha == old(alpha) && currentTM == old(currentTM)
      ensures leftMesh == old(leftMesh) && rightMesh == old(rightMesh) && currentMesh == old(currentMesh)
    {
      if mtl.None? {
        return 1.0;
      }
      var missing := MissingMaterial();
      if missing {
        return 1.0;
      }
      return 1.0 - shadedTransparency;
    }
  }
}
