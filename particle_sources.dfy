/**
 * How the renderer finds its particle sources: the ordered list of source
 * factories built from the renderer's properties, each factory's claim on
 * a scene node, and the recursive walk over the scene that gives every
 * eligible node to the factories in order until one claims it.
 *
 * Scene nodes are values: their flags, what their object is (as far as the
 * factories ask), and their children. Particle streams are left abstract;
 * a source records the node it renders and the kind of factory that made it.
 */
module ParticleSources {
  import opened Common
  import opened KrakatoaHeader

  /** The Particle Flow render operator types. */
  datatype PFRenderType = NoneType | BoundingBoxes | GeometryType | Phantom

  /** The factories compiled in only with their third-party SDKs. */
  datatype Sdk = ThinkingParticles | FumeFX | PhoenixFD

  /** Which of the SDK factories are compiled in. */
  datatype CompiledSdks = CompiledSdks(thinking: bool, fumeFX: bool, phoenix: bool)

  function SdkCount(c: CompiledSdks): nat
  {
    (if c.thinking then 1 else 0) + (if c.fumeFX then 1 else 0) + (if c.phoenix then 1 else 0)
  }

  /** A particle group connected to a Particle Flow node; `renderType` is None without a render operator. */
  datatype PFGroup = PFGroup(node: nat, renderType: Option<PFRenderType>)

  /** What the factories find out about a node's object. */
  datatype SceneObject = SceneObject(
    isPrtLoader: bool,                  // the base object is a PRT Loader
    prtObjectClass: Option<ClassId>,    // the evaluated object is a PRT object of this class
    isParticleGroup: bool,              // the node is a Particle Flow particle group
    groupRenderType: Option<PFRenderType>,
    connectedGroups: seq<PFGroup>,      // the groups of the Particle Flow system the node belongs to
    sdkObjects: set<Sdk>,               // the SDK object kinds the node is
    isLegacyParticles: bool,            // the base object is a simple (legacy) particle system
    convertsToPoly: bool)               // the base object can convert to a poly object

  datatype Node = Node(id: nat, hidden: bool, renderable: bool, primaryVisible: bool, frozen: bool,
                       obj: SceneObject, children: seq<Node>)

  datatype SourceKind = LoaderSource | PrtObjectSource | PFlowSource(noneType: bool) | SdkSource(sdk: Sdk)
                      | LegacySource | GeometrySource

  /** A particle source: the node it renders and the factory kind that created it. */
  datatype Source = Source(node: nat, kind: SourceKind)

  datatype Factory =
    | LoaderFactory(enabled: bool)
    | PrtObjectFactory(enabled: bool, classId: ClassId)
    | PFlowFactory(enabledTypes: set<PFRenderType>)
    | SdkFactory(sdk: Sdk, enabled: bool)
    | LegacyFactory(enabled: bool)
    | GeometryFactory(enabled: bool)

  /** A factory's answer for one node: whether it claims the node, and the sources it adds. */
  datatype Claim = Claim(claimed: bool, sources: seq<Source>)

  // ---------------------------------------------------------------------------
  // The factories
  // ---------------------------------------------------------------------------

  const VolumeObjectClass: ClassId := ClassId(0x5dca3970, 0x6b502d65)
  const HairObjectClass: ClassId := ClassId(0x16b1d56, 0x2264727c)
  const PrtMakerClass: ClassId := ClassId(0x71e803f8, 0x5d227184)
  const PrtSourceClass: ClassId := ClassId(0x766a7a0d, 0x311b4fbd)
  const PrtSurfaceClass: ClassId := ClassId(0x4f39184b, 0x4af218d7)
  const PrtEmberClass: ClassId := ClassId(0x34d96c50, 0x7f532d01)
  const StokeClass: ClassId := ClassId(0x2cf34591, 0x38e6602)
  /** The class id (0, 0) makes a PRT object factory accept every PRT object. */
  const AnyClass: ClassId := ClassId(0, 0)

  /** The boolean properties `create_particle_factories` reads, in the order it reads them. */
  const FactoryProperties: seq<string> := [
    "RenderKrakatoaLoaders", "RenderGeometryVolumes", "RenderPRTHair", "RenderPRTCreator",
    "RenderPRTSource", "RenderPRTSurface", "RenderPRTField", "RenderStoke",
    "RenderParticleFlowGeometry", "RenderParticleFlowBBox", "RenderParticleFlowPhantom",
    "RenderThinkingParticles", "RenderFumeFX", "RenderPhoenixFD",
    "RenderMaxParticles", "RenderGeometryVertices"]

  /** The bool values of `names`, read in order; the first failing read is the error. */
  function ReadFlags(props: map<string, PropValue>, names: seq<string>): (r: Result<seq<bool>>)
    ensures r.Ok? <==> forall k :: 0 <= k < |names| ==> GetBoolProp(props, names[k]).Ok?
    ensures r.Ok? ==>
      |r.value| == |names| && forall k :: 0 <= k < |names| ==> GetBoolProp(props, names[k]) == Ok(r.value[k])
  {
    if |names| == 0 then Ok([])
    else
      match GetBoolProp(props, names[0])
      case Err(e) => Err(e)
      case Ok(b) =>
        match ReadFlags(props, names[1..])
        case Err(e) => Err(e)
        case Ok(bs) =>
          assert forall k :: 1 <= k < |names| ==> names[k] == names[1..][k - 1];
          Ok([b] + bs)
  }

  /** Whether a factory adds sources for the nodes it claims. */
  predicate Enabled(f: Factory)
  {
    match f
    case LoaderFactory(e) => e
    case PrtObjectFactory(e, _) => e
    case PFlowFactory(_) => true
    case SdkFactory(_, e) => e
    case LegacyFactory(e) => e
    case GeometryFactory(e) => e
  }

  /** The Particle Flow factory's enabled render types: the 'none' type always. */
  function PFlowTypes(doBBox: bool, doGeom: bool, doPhantom: bool): (types: set<PFRenderType>)
    ensures NoneType in types
    ensures BoundingBoxes in types <==> doBBox
    ensures GeometryType in types <==> doGeom
    ensures Phantom in types <==> doPhantom
  {
    {NoneType} + (if doBBox then {BoundingBoxes} else {}) + (if doGeom then {GeometryType} else {}) +
    (if doPhantom then {Phantom} else {})
  }

  /** The SDK factories present, in their fixed order. */
  function SdkFactories(sdks: CompiledSdks, flags: seq<bool>): (fs: seq<Factory>)
    requires |flags| == 16
    ensures |fs| == SdkCount(sdks)
    ensures forall k :: 0 <= k < |fs| ==> fs[k].SdkFactory?
  {
    (if sdks.thinking then [SdkFactory(ThinkingParticles, flags[11])] else []) +
    (if sdks.fumeFX then [SdkFactory(FumeFX, flags[12])] else []) +
    (if sdks.phoenix then [SdkFactory(PhoenixFD, flags[13])] else [])
  }

  /** The factory list for the given flag values (indexed as `FactoryProperties`). */
  function FactoriesOf(flags: seq<bool>, sdks: CompiledSdks): (fs: seq<Factory>)
    requires |flags| == 16
    ensures |fs| == 12 + SdkCount(sdks)
    ensures fs[..9] == ClassFactories(flags) && fs[9..9 + SdkCount(sdks)] == SdkFactories(sdks, flags)
    ensures fs[9 + SdkCount(sdks)..] == FallbackFactories(flags)
  {
    ClassFactories(flags) + SdkFactories(sdks, flags) + FallbackFactories(flags)
  }

  /** The factories before the SDK ones: the PRT Loader, the PRT objects by class, Particle Flow. */
  function ClassFactories(flags: seq<bool>): (fs: seq<Factory>)
    requires |flags| == 16
    ensures |fs| == 9
  {
    [LoaderFactory(flags[0]),
     PrtObjectFactory(flags[1], VolumeObjectClass),
     PrtObjectFactory(flags[2], HairObjectClass),
     PrtObjectFactory(flags[3], PrtMakerClass),
     PrtObjectFactory(flags[4], PrtSourceClass),
     PrtObjectFactory(flags[5], PrtSurfaceClass),
     PrtObjectFactory(flags[6], PrtEmberClass),
     PrtObjectFactory(flags[7], StokeClass),
     PFlowFactory(PFlowTypes(flags[9], flags[8], flags[10]))]
  }

  /** The factories after the SDK ones: any PRT object, legacy particles, geometry vertices. */
  function FallbackFactories(flags: seq<bool>): (fs: seq<Factory>)
    requires |flags| == 16
    ensures |fs| == 3
  {
    [PrtObjectFactory(true, AnyClass), LegacyFactory(flags[14]), GeometryFactory(flags[15])]
  }

  /** Every flag on, as without a renderer. */
  const AllEnabled: seq<bool> := [true, true, true, true, true, true, true, true,
                                  true, true, true, true, true, true, true, true]

  /**
   * `create_particle_factories`: without a renderer every factory is
   * enabled; with one, each flag is its boolean property, and a failed read
   * is the error. `sdks` are the SDK factories compiled in.
   */
  function CreateParticleFactories(renderer: Option<map<string, PropValue>>, sdks: CompiledSdks): Result<seq<Factory>>
  {
    if renderer.None? then Ok(FactoriesOf(AllEnabled, sdks))
    else
      match ReadFlags(renderer.value, FactoryProperties)
      case Err(e) => Err(e)
      case Ok(flags) => Ok(FactoriesOf(flags, sdks))
  }

  /**
   * The factory order: the PRT Loader, the seven PRT objects by class, the
   * Particle Flow factory, the SDK factories, then the wildcard PRT object
   * factory (always enabled), legacy particles and geometry vertices.
   */
  lemma FactoryOrder(renderer: Option<map<string, PropValue>>, sdks: CompiledSdks)
    requires CreateParticleFactories(renderer, sdks).Ok?
    ensures FactoryLayout(CreateParticleFactories(renderer, sdks).value, sdks)
  {
    var flags := if renderer.None? then AllEnabled else ReadFlags(renderer.value, FactoryProperties).value;
    FactoriesOfLayout(flags, sdks);
  }

  /** The shape of the factory list; see `FactoryOrder`. */
  predicate FactoryLayout(fs: seq<Factory>, sdks: CompiledSdks)
  {
    |fs| == 12 + SdkCount(sdks) &&
    fs[0].LoaderFactory? &&
    (forall k :: 1 <= k <= 7 ==> fs[k].PrtObjectFactory? && fs[k].classId != AnyClass) &&
    fs[8].PFlowFactory? && NoneType in fs[8].enabledTypes &&
    (forall k :: 9 <= k < 9 + SdkCount(sdks) ==> fs[k].SdkFactory?) &&
    fs[|fs| - 3] == PrtObjectFactory(true, AnyClass) &&
    fs[|fs| - 2].LegacyFactory? && fs[|fs| - 1].GeometryFactory?
  }

  lemma FactoriesOfLayout(flags: seq<bool>, sdks: CompiledSdks)
    requires |flags| == 16
    ensures FactoryLayout(FactoriesOf(flags, sdks), sdks)
  {
    var fs := FactoriesOf(flags, sdks);
    var head := ClassFactories(flags);
    var m := 9 + SdkCount(sdks);
    assert fs[0] == head[0] && fs[8] == head[8];
    forall k | 1 <= k <= 7 ensures fs[k].PrtObjectFactory? && fs[k].classId != AnyClass {
      assert fs[k] == head[k];
    }
    forall k | 9 <= k < m ensures fs[k].SdkFactory? {
      assert fs[k] == fs[9..m][k - 9];
    }
    assert fs[|fs| - 3] == fs[m..][0] && fs[|fs| - 2] == fs[m..][1] && fs[|fs| - 1] == fs[m..][2];
  }

  /** Without a renderer every factory adds the sources it claims, and every Particle Flow type renders. */
  lemma NullRendererEnablesAll(sdks: CompiledSdks)
    ensures CreateParticleFactories(None, sdks).Ok?
    ensures var fs := CreateParticleFactories(None, sdks).value;
      (forall k :: 0 <= k < |fs| ==> Enabled(fs[k])) &&
      fs[8] == PFlowFactory({NoneType, BoundingBoxes, GeometryType, Phantom})
  {
    assert forall k :: 0 <= k < 16 ==> AllEnabled[k];
    FlagsOnEnableAll(AllEnabled, sdks);
  }

  /** With every flag on, every factory is enabled and Particle Flow renders every type. */
  lemma FlagsOnEnableAll(flags: seq<bool>, sdks: CompiledSdks)
    requires |flags| == 16 && forall k :: 0 <= k < 16 ==> flags[k]
    ensures var fs := FactoriesOf(flags, sdks);
      (forall k :: 0 <= k < |fs| ==> Enabled(fs[k])) &&
      fs[8] == PFlowFactory({NoneType, BoundingBoxes, GeometryType, Phantom})
  {
    var fs := FactoriesOf(flags, sdks);
    var m := 9 + SdkCount(sdks);
    assert flags[8] && flags[9] && flags[10];
    assert PFlowTypes(true, true, true) == {NoneType, BoundingBoxes, GeometryType, Phantom};
    assert fs[8] == ClassFactories(flags)[8];
    forall k | 0 <= k < |fs| ensures Enabled(fs[k]) {
      if k < 9 {
        assert fs[k] == ClassFactories(flags)[k];
      } else if k < m {
        assert fs[k] == fs[9..m][k - 9];
      } else {
        assert fs[k] == FallbackFactories(flags)[k - m];
      }
    }
  }

  /** With a renderer, each factory is enabled by its own property. */
  lemma RendererFlagsEnable(props: map<string, PropValue>, sdks: CompiledSdks)
    requires CreateParticleFactories(Some(props), sdks).Ok?
    ensures var fs := CreateParticleFactories(Some(props), sdks).value;
      (Enabled(fs[0]) <==> props["RenderKrakatoaLoaders"] == BoolValue(true)) &&
      (Enabled(fs[1]) <==> props["RenderGeometryVolumes"] == BoolValue(true)) &&
      (Enabled(fs[|fs| - 2]) <==> props["RenderMaxParticles"] == BoolValue(true)) &&
      (Enabled(fs[|fs| - 1]) <==> props["RenderGeometryVertices"] == BoolValue(true)) &&
      (GeometryType in fs[8].enabledTypes <==> props["RenderParticleFlowGeometry"] == BoolValue(true))
  {
    var flags := ReadFlags(props, FactoryProperties).value;
    assert GetBoolProp(props, FactoryProperties[0]) == Ok(flags[0]);
    assert GetBoolProp(props, FactoryProperties[1]) == Ok(flags[1]);
    assert GetBoolProp(props, FactoryProperties[8]) == Ok(flags[8]);
    assert GetBoolProp(props, FactoryProperties[14]) == Ok(flags[14]);
    assert GetBoolProp(props, FactoryProperties[15]) == Ok(flags[15]);
  }

  // ---------------------------------------------------------------------------
  // Claims
  // ---------------------------------------------------------------------------

  /** The source of one particle group, when its render type is enabled. */
  function GroupSources(g: PFGroup, types: set<PFRenderType>): (s: seq<Source>)
    ensures |s| <= 1
    ensures |s| == 1 <==> g.renderType.Some? && g.renderType.value in types
    ensures |s| == 1 ==> s[0] == Source(g.node, PFlowSource(g.renderType.value == NoneType))
  {
    if g.renderType.Some? && g.renderType.value in types
    then [Source(g.node, PFlowSource(g.renderType.value == NoneType))]
    else []
  }

  /** The sources of the connected groups, in order. */
  function ConnectedSources(groups: seq<PFGroup>, types: set<PFRenderType>): (s: seq<Source>)
    ensures |s| <= |groups|
    ensures |s| > 0 <==> exists k :: 0 <= k < |groups| && |GroupSources(groups[k], types)| == 1
  {
    if |groups| == 0 then []
    else
      var rest := ConnectedSources(groups[1..], types);
      assert forall k :: 1 <= k < |groups| ==> groups[k] == groups[1..][k - 1];
      GroupSources(groups[0], types) + rest
  }

  /**
   * One factory's `Process` for a node. The PRT object factory matches its
   * class exactly, or every PRT object with the class id (0, 0).
   */
  function Process(f: Factory, n: Node): (c: Claim)
    ensures !c.claimed ==> c.sources == []
    ensures !Enabled(f) ==> c.sources == []
    ensures !f.PFlowFactory? ==> forall k :: 0 <= k < |c.sources| ==> c.sources[k].node == n.id
  {
    match f
    case LoaderFactory(e) =>
      if n.obj.isPrtLoader then Claim(true, if e then [Source(n.id, LoaderSource)] else [])
      else Claim(false, [])
    case PrtObjectFactory(e, cid) =>
      if n.obj.prtObjectClass.Some? && (n.obj.prtObjectClass.value == cid || cid == AnyClass)
      then Claim(true, if e then [Source(n.id, PrtObjectSource)] else [])
      else Claim(false, [])
    case PFlowFactory(types) =>
      if n.obj.isParticleGroup then Claim(true, GroupSources(PFGroup(n.id, n.obj.groupRenderType), types))
      else
        var s := ConnectedSources(n.obj.connectedGroups, types);
        Claim(|s| > 0, s)
    case SdkFactory(sdk, e) =>
      if sdk in n.obj.sdkObjects then Claim(true, if e then [Source(n.id, SdkSource(sdk))] else [])
      else Claim(false, [])
    case LegacyFactory(e) =>
      if n.obj.isLegacyParticles then Claim(true, if e then [Source(n.id, LegacySource)] else [])
      else Claim(false, [])
    case GeometryFactory(e) =>
      if n.obj.convertsToPoly then Claim(true, if e then [Source(n.id, GeometrySource)] else [])
      else Claim(false, [])
  }

  /**
   * The Particle Flow factory always claims a particle group (adding its
   * source only for an enabled render type, the 'none' type always), and
   * claims any other node exactly when one of its connected groups yields a
   * source.
   */
  lemma PFlowClaims(types: set<PFRenderType>, n: Node)
    requires NoneType in types
    ensures n.obj.isParticleGroup ==> Process(PFlowFactory(types), n).claimed
    ensures n.obj.isParticleGroup && n.obj.groupRenderType == Some(NoneType) ==>
      Process(PFlowFactory(types), n).sources == [Source(n.id, PFlowSource(true))]
    ensures !n.obj.isParticleGroup ==>
      (Process(PFlowFactory(types), n).claimed <==>
       exists k :: 0 <= k < |n.obj.connectedGroups| && n.obj.connectedGroups[k].renderType.Some? &&
         n.obj.connectedGroups[k].renderType.value in types)
  {
    if !n.obj.isParticleGroup {
      var gs := n.obj.connectedGroups;
      if exists k :: 0 <= k < |gs| && gs[k].renderType.Some? && gs[k].renderType.value in types {
        var k :| 0 <= k < |gs| && gs[k].renderType.Some? && gs[k].renderType.value in types;
        assert |GroupSources(gs[k], types)| == 1;
      }
    }
  }

  /** The wildcard factory claims every PRT object. */
  lemma WildcardClaimsPrtObjects(enabled: bool, n: Node)
    ensures Process(PrtObjectFactory(enabled, AnyClass), n).claimed <==> n.obj.prtObjectClass.Some?
  {
  }

  /** Some factory of `fs` claims `n`. */
  predicate Claimed(fs: seq<Factory>, n: Node)
  {
    exists k :: 0 <= k < |fs| && Process(fs[k], n).claimed
  }

  /** The sources of the first factory that claims the node; none when no factory does. */
  function FirstClaim(fs: seq<Factory>, n: Node): seq<Source>
  {
    if |fs| == 0 then []
    else
      var c := Process(fs[0], n);
      if c.claimed then c.sources else FirstClaim(fs[1..], n)
  }

  /** The first claiming factory alone decides the node's sources. */
  lemma {:induction false} FirstClaimAt(fs: seq<Factory>, n: Node, k: nat)
    requires k < |fs| && Process(fs[k], n).claimed
    requires forall j :: 0 <= j < k ==> !Process(fs[j], n).claimed
    ensures FirstClaim(fs, n) == Process(fs[k], n).sources
  {
    if k > 0 {
      var rest := fs[1..];
      assert !Process(fs[0], n).claimed && rest[k - 1] == fs[k];
      forall j | 0 <= j < k - 1 ensures !Process(rest[j], n).claimed {
        assert rest[j] == fs[j + 1];
      }
      FirstClaimAt(rest, n, k - 1);
    }
  }

  /** A node no factory claims has no sources. */
  lemma {:induction false} FirstClaimNone(fs: seq<Factory>, n: Node)
    requires !Claimed(fs, n)
    ensures FirstClaim(fs, n) == []
  {
    if |fs| > 0 {
      assert !Process(fs[0], n).claimed;
      assert !Claimed(fs[1..], n) by {
        forall j | 0 <= j < |fs[1..]| ensures !Process(fs[1..][j], n).claimed {
          assert fs[1..][j] == fs[j + 1];
        }
      }
      FirstClaimNone(fs[1..], n);
    }
  }

  /**
   * A disabled factory that claims a node first suppresses every later
   * factory: the node gets no sources at all.
   */
  lemma DisabledClaimSuppresses(fs: seq<Factory>, n: Node, k: nat)
    requires k < |fs| && Process(fs[k], n).claimed && !Enabled(fs[k])
    requires forall j :: 0 <= j < k ==> !Process(fs[j], n).claimed
    ensures FirstClaim(fs, n) == []
  {
    FirstClaimAt(fs, n, k);
  }

  /**
   * No PRT object reaches the legacy or geometry factories: with the
   * factories of `create_particle_factories`, every PRT object is claimed.
   */
  lemma PrtObjectsAlwaysClaimed(renderer: Option<map<string, PropValue>>, sdks: CompiledSdks, n: Node)
    requires CreateParticleFactories(renderer, sdks).Ok? && n.obj.prtObjectClass.Some?
    ensures Claimed(CreateParticleFactories(renderer, sdks).value, n)
  {
    var fs := CreateParticleFactories(renderer, sdks).value;
    FactoryOrder(renderer, sdks);
    assert Process(fs[|fs| - 3], n).claimed;
  }

  /**
   * The factory loop of `collect_particle_objects`: each factory in turn,
   * stopping at the first that claims the node.
   */
  method ProcessNode(fs: seq<Factory>, n: Node, out: seq<Source>) returns (out': seq<Source>)
    ensures out' == out + FirstClaim(fs, n)
  {
    out' := out;
    var i := 0;
    while i < |fs|
      invariant 0 <= i <= |fs|
      invariant out' == out && FirstClaim(fs, n) == FirstClaim(fs[i..], n)
      decreases |fs| - i
    {
      assert fs[i..][0] == fs[i] && fs[i..][1..] == fs[i + 1..];
      var c := Process(fs[i], n);
      if c.claimed {
        out' := out' + c.sources;
        return;
      }
      i := i + 1;
    }
    assert out' + [] == out';
  }

  // ---------------------------------------------------------------------------
  // The scene walk
  // ---------------------------------------------------------------------------

  /**
   * A node is given to the factories when it is not hidden, renderable,
   * visible to the camera, not frozen while frozen objects are hidden, and
   * not already taken as geometry.
   */
  predicate Eligible(n: Node, hideFrozen: bool, geomNodes: set<nat>)
  {
    !n.hidden && n.renderable && n.primaryVisible && (!n.frozen || !hideFrozen) && n.id !in geomNodes
  }

  /**
   * The sources `collect_particle_objects` adds for the subtree at `n`. The
   * two node sets are passed by value, so each child sees its ancestors'
   * insertions and never a sibling's.
   */
  function Collected(n: Node, hideFrozen: bool, fs: seq<Factory>, geomNodes: set<nat>, doneNodes: set<nat>)
    : seq<Source>
    decreases n, |n.children| + 1
  {
    if n.id in doneNodes then []
    else
      var eligible := Eligible(n, hideFrozen, geomNodes);
      (if eligible then FirstClaim(fs, n) else []) +
      ChildrenCollected(n, 0, hideFrozen, fs, if eligible then geomNodes + {n.id} else geomNodes, doneNodes + {n.id})
  }

  /** The sources of the subtrees of `n`'s children from the `i`-th one on. */
  function ChildrenCollected(n: Node, i: nat, hideFrozen: bool, fs: seq<Factory>, geomNodes: set<nat>,
                             doneNodes: set<nat>): seq<Source>
    decreases n, |n.children| - i
  {
    if i >= |n.children| then []
    else Collected(n.children[i], hideFrozen, fs, geomNodes, doneNodes) +
         ChildrenCollected(n, i + 1, hideFrozen, fs, geomNodes, doneNodes)
  }

  /** `collect_particle_objects`: appends the sources of the subtree at `root` to `out`. */
  method CollectParticleObjects(root: Node, hideFrozen: bool, fs: seq<Factory>, geomNodes: set<nat>,
                                doneNodes: set<nat>, out: seq<Source>)
    returns (out': seq<Source>)
    ensures out' == out + Collected(root, hideFrozen, fs, geomNodes, doneNodes)
    decreases root
  {
    if root.id in doneNodes {
      return out;
    }
    var done := doneNodes + {root.id};
    var geom := geomNodes;
    out' := out;
    if Eligible(root, hideFrozen, geomNodes) {
      geom := geom + {root.id};
      out' := ProcessNode(fs, root, out');
    }
    ghost var mid := out';
    var i := 0;
    while i < |root.children|
      invariant 0 <= i <= |root.children|
      invariant out' + ChildrenCollected(root, i, hideFrozen, fs, geom, done) ==
        mid + ChildrenCollected(root, 0, hideFrozen, fs, geom, done)
      decreases |root.children| - i
    {
      var before := out';
      out' := CollectParticleObjects(root.children[i], hideFrozen, fs, geom, done, out');
      assert before + ChildrenCollected(root, i, hideFrozen, fs, geom, done) ==
        out' + ChildrenCollected(root, i + 1, hideFrozen, fs, geom, done);
      i := i + 1;
    }
    assert out' + [] == out';
  }

  /** A node already visited on the way down adds nothing, not even its children's sources. */
  lemma DoneNodeSkipped(n: Node, hideFrozen: bool, fs: seq<Factory>, geomNodes: set<nat>, doneNodes: set<nat>)
    requires n.id in doneNodes
    ensures Collected(n, hideFrozen, fs, geomNodes, doneNodes) == []
  {
  }

  /** A node that is not eligible adds nothing of its own, but its children are still walked. */
  lemma IneligibleNodeOnlyChildren(n: Node, hideFrozen: bool, fs: seq<Factory>, geomNodes: set<nat>,
                                   doneNodes: set<nat>)
    requires n.id !in doneNodes && !Eligible(n, hideFrozen, geomNodes)
    ensures Collected(n, hideFrozen, fs, geomNodes, doneNodes) ==
      ChildrenCollected(n, 0, hideFrozen, fs, geomNodes, doneNodes + {n.id})
  {
    assert [] + ChildrenCollected(n, 0, hideFrozen, fs, geomNodes, doneNodes + {n.id}) ==
      ChildrenCollected(n, 0, hideFrozen, fs, geomNodes, doneNodes + {n.id});
  }

  /** An eligible node's own sources come first: those of its first claiming factory. */
  lemma EligibleNodeFirst(n: Node, hideFrozen: bool, fs: seq<Factory>, geomNodes: set<nat>, doneNodes: set<nat>,
                          k: nat)
    requires n.id !in doneNodes && Eligible(n, hideFrozen, geomNodes)
    requires k < |fs| && Process(fs[k], n).claimed
    requires forall j :: 0 <= j < k ==> !Process(fs[j], n).claimed
    ensures Process(fs[k], n).sources <= Collected(n, hideFrozen, fs, geomNodes, doneNodes)
  {
    FirstClaimAt(fs, n, k);
  }

  /** With no factories nothing is ever collected. */
  lemma {:induction false} NoFactoriesNoSources(n: Node, hideFrozen: bool, geomNodes: set<nat>, doneNodes: set<nat>)
    ensures Collected(n, hideFrozen, [], geomNodes, doneNodes) == []
    decreases n, |n.children| + 1
  {
    if n.id !in doneNodes {
      var eligible := Eligible(n, hideFrozen, geomNodes);
      NoChildSources(n, 0, hideFrozen, if eligible then geomNodes + {n.id} else geomNodes, doneNodes + {n.id});
    }
  }

  lemma {:induction false} NoChildSources(n: Node, i: nat, hideFrozen: bool, geomNodes: set<nat>, doneNodes: set<nat>)
    ensures ChildrenCollected(n, i, hideFrozen, [], geomNodes, doneNodes) == []
    decreases n, |n.children| - i
  {
    if i < |n.children| {
      NoFactoriesNoSources(n.children[i], hideFrozen, geomNodes, doneNodes);
      NoChildSources(n, i + 1, hideFrozen, geomNodes, doneNodes);
    }
  }
}
