/**
 * The renderer plugin's entry points: which host requirements it reports,
 * which render-dialog tabs it keeps, its `Open` and `Render` calls (cache
 * invalidation and the dispatch on the particle mode), the channel list
 * and compression level used when particles are saved to files, and the
 * lookup of the active Krakatoa renderer.
 */
module Krakatoa {
  import opened Common
  import opened KrakatoaHeader

  // ---------------------------------------------------------------------------
  // GetMaxKrakatoa
  // ---------------------------------------------------------------------------

  const NotKrakatoaError: string := "Current renderer must be set to Krakatoa to access its properties."

  /**
   * `GetMaxKrakatoa`: the renderer of the render in progress if there is
   * one, else the host's current renderer when it is Krakatoa, else an
   * error. Renderers are identified by handles.
   */
  function GetMaxKrakatoa(rendering: Option<nat>, current: nat, currentIsKrakatoa: bool): (r: Result<nat>)
    ensures r.Ok? <==> rendering.Some? || currentIsKrakatoa
    ensures r.Ok? ==> r.value == (if rendering.Some? then rendering.value else current)
    ensures r.Err? ==> r.error == NotKrakatoaError
  {
    if rendering.Some? then Ok(rendering.value)
    else if currentIsKrakatoa then Ok(current)
    else Err(NotKrakatoaError)
  }

  // ---------------------------------------------------------------------------
  // HasRequirement
  // ---------------------------------------------------------------------------

  /** The host requirements the renderer is asked about (3ds Max 2017 and later). */
  datatype Requirement = NoVFB | DontSaveRenderOutput | Wants32bitFPOutput | OtherRequirement(id: int)

  const SaveToXml: string := "Save To XML"
  const SaveParticlesToFiles: string := "Save Particles To File Sequence"

  /** Both string properties `HasRequirement` reads are present with string values. */
  predicate TargetReadable(props: map<string, PropValue>)
  {
    "RenderTarget" in props && props["RenderTarget"].StringValue? &&
    "ParticleMode" in props && props["ParticleMode"].StringValue?
  }

  /** The render writes an XML scene description or particle files instead of an image. */
  predicate SavesElsewhere(props: map<string, PropValue>)
    requires TargetReadable(props)
  {
    props["RenderTarget"].s == SaveToXml || props["ParticleMode"].s == SaveParticlesToFiles
  }

  /**
   * Whether the frame buffer is used: neither the XML target nor the
   * particle-saving mode. A failed property read is the error.
   */
  function UsingFramebuffer(props: map<string, PropValue>): (r: Result<bool>)
    ensures r.Ok? <==> TargetReadable(props)
    ensures r.Ok? ==> (r.value <==> !SavesElsewhere(props))
  {
    match GetString(props, "RenderTarget")
    case Err(e) => Err(e)
    case Ok(target) =>
      match GetString(props, "ParticleMode")
      case Err(e) => Err(e)
      case Ok(mode) => Ok(target != SaveToXml && mode != SaveParticlesToFiles)
  }

  /**
   * `HasRequirement`: no frame buffer and no saved render output exactly
   * when the render saves elsewhere; 32-bit float output exactly when it
   * does not; false for every other requirement and whenever reading the
   * properties fails.
   */
  function HasRequirement(props: map<string, PropValue>, req: Requirement): (b: bool)
    ensures req.OtherRequirement? ==> !b
    ensures (req == NoVFB || req == DontSaveRenderOutput) ==>
      (b <==> TargetReadable(props) && SavesElsewhere(props))
    ensures req == Wants32bitFPOutput ==> (b <==> TargetReadable(props) && !SavesElsewhere(props))
  {
    match UsingFramebuffer(props)
    case Err(_) => false
    case Ok(usingFramebuffer) =>
      match req
      case NoVFB => !usingFramebuffer
      case DontSaveRenderOutput => !usingFramebuffer
      case Wants32bitFPOutput => usingFramebuffer
      case OtherRequirement(_) => false
  }

  /**
   * With readable properties exactly one of "no frame buffer" and "32-bit
   * output" is reported; with unreadable ones neither is.
   */
  lemma RequirementsExclusive(props: map<string, PropValue>)
    ensures HasRequirement(props, NoVFB) == HasRequirement(props, DontSaveRenderOutput)
    ensures TargetReadable(props) ==> HasRequirement(props, NoVFB) != HasRequirement(props, Wants32bitFPOutput)
    ensures !TargetReadable(props) ==> !HasRequirement(props, NoVFB) && !HasRequirement(props, Wants32bitFPOutput)
  {
  }

  // ---------------------------------------------------------------------------
  // AcceptTab
  // ---------------------------------------------------------------------------

  /** The class of the raytracer's render-dialog tab. */
  const RaytraceTabClass: ClassId := ClassId(0x4fa95e9b, 0x9a26e66)

  datatype TabAction = RemoveTab | AddTab

  /**
   * `AcceptTab`: the radiosity tabs (identified by their super class) and
   * the raytracer tab are removed; every other tab is added.
   */
  function AcceptTab(isRadiosityTab: bool, classId: ClassId): (a: TabAction)
    ensures a == RemoveTab <==> isRadiosityTab || classId == RaytraceTabClass
    ensures a == AddTab <==> !isRadiosityTab && classId != RaytraceTabClass
  {
    if isRadiosityTab then RemoveTab
    else if classId == RaytraceTabClass then RemoveTab
    else AddTab
  }

  // ---------------------------------------------------------------------------
  // Open
  // ---------------------------------------------------------------------------

  const OpenError: string :=
    "MaxKrakatoa::Open Internal Error: Attempting to open renderer without calling InitRenderer()"

  /**
   * `Open`: an error (logged, result 0) unless `InitRenderer` has run;
   * otherwise 1 when collecting the scene succeeds and 0 when it throws.
   * The scene collection itself is the `collected` parameter.
   */
  method Open(r: Renderer, collected: bool) returns (res: int, error: Option<string>)
    ensures res == 1 <==> r.doneInitRenderer && collected
    ensures res == 0 <==> !(r.doneInitRenderer && collected)
    ensures error == Some(OpenError) <==> !r.doneInitRenderer
  {
    if !r.doneInitRenderer {
      return 0, Some(OpenError);
    }
    if !collected {
      return 0, None;
    }
    return 1, None;
  }

  // ---------------------------------------------------------------------------
  // Render
  // ---------------------------------------------------------------------------

  /** What a frame's render does after the caches are prepared. */
  datatype RenderAction = MaterialEditor | SceneParticles | SceneToXml | ParticlesToFiles

  /** Which cache is dropped at the start of a frame. */
  datatype Invalidation = ParticleCache | LightingCache | NoInvalidation

  /** The message logged when `Render` is given no framebuffer. */
  const NullBitmapError: string := "Render() function was passed a NULL framebuffer parameter."

  /**
   * The particle mode of the frame: that of the ParticleMode property,
   * overridden by an XML render target.
   */
  function EffectiveMode(props: map<string, PropValue>): (r: Result<string>)
    ensures r.Ok? <==> TargetReadable(props)
    ensures r.Ok? && props["RenderTarget"].s == SaveToXml ==> r.value == SaveToXml
    ensures r.Ok? && props["RenderTarget"].s != SaveToXml ==> r.value == props["ParticleMode"].s
  {
    match GetString(props, "ParticleMode")
    case Err(e) => Err(e)
    case Ok(mode) =>
      match GetString(props, "RenderTarget")
      case Err(e) => Err(e)
      case Ok(target) => Ok(if target == SaveToXml then SaveToXml else mode)
  }

  /**
   * The cache dropped at the start of a frame: the particle cache when
   * particle caching is off, or on a network render server that does not
   * cache in worker mode; otherwise the lighting cache when lighting
   * caching is off. A failed property read is the error; the worker-mode
   * property is read only on a render server with particle caching on.
   */
  function CacheInvalidation(props: map<string, PropValue>, isNetworkServer: bool): (r: Result<Invalidation>)
    ensures r == Ok(ParticleCache) <==>
      GetBoolProp(props, "EnableParticleCache") == Ok(false) ||
      (GetBoolProp(props, "EnableParticleCache") == Ok(true) && isNetworkServer &&
       GetBoolProp(props, "UseCacheInWorkerMode") == Ok(false))
    ensures r.Ok? && r.value != ParticleCache ==>
      GetBoolProp(props, "EnableParticleCache") == Ok(true) &&
      (isNetworkServer ==> GetBoolProp(props, "UseCacheInWorkerMode") == Ok(true)) &&
      (r.value == LightingCache <==> GetBoolProp(props, "EnableLightingCache") == Ok(false))
  {
    match GetBoolProp(props, "EnableParticleCache")
    case Err(e) => Err(e)
    case Ok(particleCaching) =>
      if !particleCaching then Ok(ParticleCache)
      else
        var workerCaching := if isNetworkServer then GetBoolProp(props, "UseCacheInWorkerMode") else Ok(true);
        match workerCaching
        case Err(e) => Err(e)
        case Ok(w) =>
          if !w then Ok(ParticleCache)
          else
            match GetBoolProp(props, "EnableLightingCache")
            case Err(e) => Err(e)
            case Ok(lightingCaching) => Ok(if lightingCaching then NoInvalidation else LightingCache)
  }

  /**
   * The dispatch: the material editor first, then the particle modes; an
   * unknown mode is an error naming it.
   */
  function Dispatch(inMtlEdit: bool, mode: string): (r: Result<RenderAction>)
    ensures inMtlEdit ==> r == Ok(MaterialEditor)
    ensures !inMtlEdit && (mode == "Render Scene Particles" || mode == "Light Scene Particles") ==>
      r == Ok(SceneParticles)
    ensures !inMtlEdit && mode == SaveToXml ==> r == Ok(SceneToXml)
    ensures !inMtlEdit && mode == SaveParticlesToFiles ==> r == Ok(ParticlesToFiles)
    ensures r.Err? <==> !inMtlEdit && mode !in {"Render Scene Particles", "Light Scene Particles",
                                                SaveToXml, SaveParticlesToFiles}
    ensures r.Err? ==> r.error == "Unknown render mode: \"" + mode + "\""
  {
    if inMtlEdit then Ok(MaterialEditor)
    else if mode == "Render Scene Particles" || mode == "Light Scene Particles" then Ok(SceneParticles)
    else if mode == SaveToXml then Ok(SceneToXml)
    else if mode == SaveParticlesToFiles then Ok(ParticlesToFiles)
    else Err("Unknown render mode: \"" + mode + "\"")
  }

  /** The cache a frame drops: none when the bitmap is missing or a read fails first. */
  function StartInvalidation(props: map<string, PropValue>, hasBitmap: bool, isNetworkServer: bool): Invalidation
  {
    if !hasBitmap then NoInvalidation
    else
      match EffectiveMode(props)
      case Err(_) => NoInvalidation
      case Ok(_) =>
        match CacheInvalidation(props, isNetworkServer)
        case Err(_) => NoInvalidation
        case Ok(inv) => inv
  }

  /** The sub-render a frame reaches, if no error is raised before it. */
  function Dispatched(props: map<string, PropValue>, hasBitmap: bool, inMtlEdit: bool,
                      isNetworkServer: bool): Option<RenderAction>
  {
    if !hasBitmap then None
    else
      match EffectiveMode(props)
      case Err(_) => None
      case Ok(mode) =>
        match CacheInvalidation(props, isNetworkServer)
        case Err(_) => None
        case Ok(_) =>
          match Dispatch(inMtlEdit, mode)
          case Err(_) => None
          case Ok(action) => Some(action)
  }

  /** The caches after `inv` has been applied to the caches `cacheValid`, `particles` of the map `channels`. */
  ghost predicate CachesAfter(inv: Invalidation, channels: seq<Channel>, cacheBefore: seq<bool>,
                              particlesBefore: seq<Particle>, cacheAfter: seq<bool>, particlesAfter: seq<Particle>)
    requires |cacheBefore| == 4
  {
    match inv
    case ParticleCache =>
      cacheAfter == cacheBefore[ParticleFlag := false][LightingFlag := false] && particlesAfter == []
    case LightingCache =>
      cacheAfter == cacheBefore[LightingFlag := false] && LightingCleared(channels, particlesBefore, particlesAfter)
    case NoInvalidation =>
      cacheAfter == cacheBefore && particlesAfter == particlesBefore
  }

  /** The invalidation step of `Render`: one of the renderer's two cache invalidations, or none. */
  method ApplyInvalidation(r: Renderer, inv: Invalidation)
    requires r.Valid()
    modifies r
    ensures r.Valid()
    ensures CachesAfter(inv, r.channels, old(r.cacheValid), old(r.particles), r.cacheValid, r.particles)
    ensures r.channels == old(r.channels) && r.apmVolume == old(r.apmVolume) && r.properties == old(r.properties)
    ensures r.saveRequired == old(r.saveRequired) && r.doneInitRenderer == old(r.doneInitRenderer)
    ensures r.setDirtyBit == old(r.setDirtyBit) && r.progressCallback == old(r.progressCallback)
  {
    if inv == ParticleCache {
      r.InvalidateParticleCache();
    } else if inv == LightingCache {
      r.InvalidateLightingCache();
    }
  }

  /**
   * `Render`: a missing bitmap is logged and the call returns at once;
   * otherwise the progress callback is installed for the frame and removed
   * afterwards. A failed property read or an unknown mode raise an error
   * before anything is rendered, which makes the result FALSE, as does a
   * sub-render that is cancelled or throws (`completes`). The cache
   * invalidation happens before the dispatch, so it survives an unknown
   * mode.
   */
  method Render(r: Renderer, prog: Option<nat>, hasBitmap: bool, inMtlEdit: bool, isNetworkServer: bool,
                completes: RenderAction -> bool)
    returns (result: bool, action: Option<RenderAction>, log: Option<string>)
    requires r.Valid()
    modifies r
    ensures r.Valid()
    ensures log == if hasBitmap then None else Some(NullBitmapError)
    ensures hasBitmap ==> r.progressCallback.None?
    ensures !hasBitmap ==> r.progressCallback == old(r.progressCallback)
    ensures action == Dispatched(old(r.properties), hasBitmap, inMtlEdit, isNetworkServer)
    ensures result <==> action.Some? && completes(action.value)
    ensures CachesAfter(StartInvalidation(old(r.properties), hasBitmap, isNetworkServer), r.channels,
                        old(r.cacheValid), old(r.particles), r.cacheValid, r.particles)
    ensures r.channels == old(r.channels) && r.apmVolume == old(r.apmVolume) && r.properties == old(r.properties)
    ensures r.saveRequired == old(r.saveRequired) && r.doneInitRenderer == old(r.doneInitRenderer)
    ensures r.setDirtyBit == old(r.setDirtyBit)
  {
    result, action, log := false, None, None;
    var inv := NoInvalidation;
    if !hasBitmap {
      log := Some(NullBitmapError);
    } else {
      r.progressCallback := prog;
      var mode := EffectiveMode(r.properties);
      if mode.Ok? {
        var caches := CacheInvalidation(r.properties, isNetworkServer);
        if caches.Ok? {
          inv := caches.value;
          ApplyInvalidation(r, inv);
          var dispatch := Dispatch(inMtlEdit, mode.value);
          if dispatch.Ok? {
            action := Some(dispatch.value);
            result := completes(dispatch.value);
          }
        }
      }
      r.progressCallback := None;
    }
    assert inv == StartInvalidation(old(r.properties), hasBitmap, isNetworkServer);
  }

  /** The XML render target wins over any particle mode outside the material editor. */
  lemma XmlTargetOverridesMode(props: map<string, PropValue>, isNetworkServer: bool)
    requires TargetReadable(props) && props["RenderTarget"] == StringValue(SaveToXml)
    requires CacheInvalidation(props, isNetworkServer).Ok?
    ensures Dispatched(props, true, false, isNetworkServer) == Some(SceneToXml)
    ensures Dispatched(props, true, true, isNetworkServer) == Some(MaterialEditor)
  {
  }

  /** A frame reaches no sub-render without a bitmap or with an unknown mode. */
  lemma RenderFailures(props: map<string, PropValue>, inMtlEdit: bool, isNetworkServer: bool)
    ensures Dispatched(props, false, inMtlEdit, isNetworkServer).None?
    ensures StartInvalidation(props, false, isNetworkServer) == NoInvalidation
    ensures (TargetReadable(props) && !inMtlEdit && props["RenderTarget"].s != SaveToXml &&
             props["ParticleMode"].s !in {"Render Scene Particles", "Light Scene Particles",
                                          SaveToXml, SaveParticlesToFiles}) ==>
      Dispatched(props, true, inMtlEdit, isNetworkServer).None?
  {
  }

  /** Whenever a sub-render is reached, the caches were prepared first. */
  lemma DispatchAfterInvalidation(props: map<string, PropValue>, hasBitmap: bool, inMtlEdit: bool,
                                  isNetworkServer: bool)
    requires Dispatched(props, hasBitmap, inMtlEdit, isNetworkServer).Some?
    ensures hasBitmap && TargetReadable(props)
    ensures CacheInvalidation(props, isNetworkServer) == Ok(StartInvalidation(props, hasBitmap, isNetworkServer))
  {
    assert hasBitmap && EffectiveMode(props).Ok?;
    assert CacheInvalidation(props, isNetworkServer).Ok?;
  }

  // ---------------------------------------------------------------------------
  // RenderSceneParticlesToFile: the saved channels and the compression level
  // ---------------------------------------------------------------------------

  const NoChannelError: string :=
    "MaxKrakatoa::RenderSceneParticlesToFile() - Could not save particles to file. You must specify at least 1 channel to save."

  /**
   * The channel given by the triple that ends at `items[i]`: the name, then
   * the data type, then the arity. The two conversions are parameters; when
   * both fail the data type's error is reported.
   */
  function TripleChannel(items: seq<string>, i: nat, typeOf: string -> Result<DataType>,
                         castInt: string -> Result<int>): (r: Result<Channel>)
    requires 2 <= i < |items|
    ensures r.Ok? <==> typeOf(items[i - 1]).Ok? && castInt(items[i]).Ok?
    ensures r.Ok? ==> r.value == Channel(items[i - 2], castInt(items[i]).value, typeOf(items[i - 1]).value)
  {
    match typeOf(items[i - 1])
    case Err(e) => Err(e)
    case Ok(t) =>
      match castInt(items[i])
      case Err(e) => Err(e)
      case Ok(arity) => Ok(Channel(items[i - 2], arity, t))
  }

  /** The channels of the triples ending at `i`, `i + 3`, ...; the first failing conversion is the error. */
  function ChannelsFrom(items: seq<string>, i: nat, typeOf: string -> Result<DataType>,
                        castInt: string -> Result<int>): Result<seq<Channel>>
    requires 2 <= i
    decreases |items| - i
  {
    if i >= |items| then Ok([])
    else
      match TripleChannel(items, i, typeOf, castInt)
      case Err(e) => Err(e)
      case Ok(c) =>
        match ChannelsFrom(items, i + 3, typeOf, castInt)
        case Err(e) => Err(e)
        case Ok(cs) => Ok([c] + cs)
  }

  /** `cs` followed by the channels of `r`, or the error of `r`. */
  function Prepended(cs: seq<Channel>, r: Result<seq<Channel>>): Result<seq<Channel>>
  {
    if r.Ok? then Ok(cs + r.value) else r
  }

  /**
   * The channel map saved to particle files, from the comma-separated
   * ActiveParticleChannels value: an error when it splits into fewer than
   * two items, otherwise one channel per complete triple, a trailing
   * incomplete triple being ignored.
   */
  function SavingChannels(spec: string, typeOf: string -> Result<DataType>,
                          castInt: string -> Result<int>): Result<seq<Channel>>
  {
    var items := Split(spec, ',');
    if |items| < 2 then Err(NoChannelError) else ChannelsFrom(items, 2, typeOf, castInt)
  }

  lemma ChannelsFromStep(items: seq<string>, i: nat, pcm: seq<Channel>, c: Channel,
                         typeOf: string -> Result<DataType>, castInt: string -> Result<int>)
    requires 2 <= i < |items| && TripleChannel(items, i, typeOf, castInt) == Ok(c)
    ensures Prepended(pcm, ChannelsFrom(items, i, typeOf, castInt)) ==
      Prepended(pcm + [c], ChannelsFrom(items, i + 3, typeOf, castInt))
  {
    var rest := ChannelsFrom(items, i + 3, typeOf, castInt);
    if rest.Ok? {
      assert pcm + ([c] + rest.value) == pcm + [c] + rest.value;
    }
  }

  /**
   * The channel-definition loop of `RenderSceneParticlesToFile`: split the
   * value on ',' and define one channel for each i = 2, 5, 8, ... below the
   * item count.
   */
  method ParseSavingChannels(spec: string, typeOf: string -> Result<DataType>, castInt: string -> Result<int>)
    returns (r: Result<seq<Channel>>)
    ensures r == SavingChannels(spec, typeOf, castInt)
  {
    var items := Split(spec, ',');
    if |items| < 2 {
      return Err(NoChannelError);
    }
    var pcm: seq<Channel> := [];
    var i := 2;
    var all := ChannelsFrom(items, 2, typeOf, castInt);
    if all.Ok? {
      assert pcm + all.value == all.value;
    }
    while i < |items|
      invariant 2 <= i
      invariant Prepended(pcm, ChannelsFrom(items, i, typeOf, castInt)) == ChannelsFrom(items, 2, typeOf, castInt)
      decreases |items| - i
    {
      var c := TripleChannel(items, i, typeOf, castInt);
      if c.Err? {
        return Err(c.error);
      }
      ChannelsFromStep(items, i, pcm, c.value, typeOf, castInt);
      pcm := pcm + [c.value];
      i := i + 3;
    }
    assert pcm + [] == pcm;
    r := Ok(pcm);
  }

  /** The triples from `i` on give one channel each, in order. */
  lemma {:induction false} ChannelsFromContents(items: seq<string>, i: nat, typeOf: string -> Result<DataType>,
                                                castInt: string -> Result<int>)
    requires 2 <= i && ChannelsFrom(items, i, typeOf, castInt).Ok?
    ensures var cs := ChannelsFrom(items, i, typeOf, castInt).value;
      |cs| == (if i < |items| then (|items| - 1 - i) / 3 + 1 else 0) &&
      forall k :: 0 <= k < |cs| ==>
        i + 3 * k < |items| && TripleChannel(items, i + 3 * k, typeOf, castInt) == Ok(cs[k])
    decreases |items| - i
  {
    if i < |items| {
      ChannelsFromContents(items, i + 3, typeOf, castInt);
      var cs := ChannelsFrom(items, i, typeOf, castInt).value;
      var rest := ChannelsFrom(items, i + 3, typeOf, castInt).value;
      assert cs == [cs[0]] + rest;
      forall k | 0 <= k < |cs|
        ensures i + 3 * k < |items| && TripleChannel(items, i + 3 * k, typeOf, castInt) == Ok(cs[k])
      {
        if k > 0 {
          assert cs[k] == rest[k - 1];
          assert i + 3 + 3 * (k - 1) == i + 3 * k;
        }
      }
    }
  }

  /** A conversion failing at the triple ending at `i`, or later, fails the whole list. */
  lemma {:induction false} ChannelsFromFails(items: seq<string>, i: nat, j: nat, typeOf: string -> Result<DataType>,
                                             castInt: string -> Result<int>)
    requires 2 <= i <= j < |items| && (j - i) % 3 == 0 && TripleChannel(items, j, typeOf, castInt).Err?
    ensures ChannelsFrom(items, i, typeOf, castInt).Err?
    decreases j - i
  {
    if i < j {
      ChannelsFromFails(items, i + 3, j, typeOf, castInt);
    }
  }

  /**
   * A successful parse has one channel per complete triple: channel k is
   * named by item 3k, typed by item 3k+1 and sized by item 3k+2.
   */
  lemma SavingChannelsContents(spec: string, typeOf: string -> Result<DataType>, castInt: string -> Result<int>)
    requires SavingChannels(spec, typeOf, castInt).Ok?
    ensures var items := Split(spec, ',');
      var cs := SavingChannels(spec, typeOf, castInt).value;
      |items| >= 2 && |cs| == |items| / 3 &&
      forall k :: 0 <= k < |cs| ==>
        (3 * k + 2 < |items| && typeOf(items[3 * k + 1]).Ok? && castInt(items[3 * k + 2]).Ok? &&
         cs[k] == Channel(items[3 * k], castInt(items[3 * k + 2]).value, typeOf(items[3 * k + 1]).value))
  {
    var items := Split(spec, ',');
    ChannelsFromContents(items, 2, typeOf, castInt);
    var cs := SavingChannels(spec, typeOf, castInt).value;
    forall k | 0 <= k < |cs|
      ensures 3 * k + 2 < |items| && typeOf(items[3 * k + 1]).Ok? && castInt(items[3 * k + 2]).Ok? &&
        cs[k] == Channel(items[3 * k], castInt(items[3 * k + 2]).value, typeOf(items[3 * k + 1]).value)
    {
      assert 2 + 3 * k == 3 * k + 2;
    }
  }

  /** The parse fails exactly when the split is too short or some complete triple does not convert. */
  lemma SavingChannelsFails(spec: string, typeOf: string -> Result<DataType>, castInt: string -> Result<int>, j: nat)
    requires var items := Split(spec, ',');
      |items| >= 2 && 2 <= j < |items| && j % 3 == 2 && TripleChannel(items, j, typeOf, castInt).Err?
    ensures SavingChannels(spec, typeOf, castInt).Err?
  {
    ChannelsFromFails(Split(spec, ','), 2, j, typeOf, castInt);
  }

  /**
   * Two items pass the "at least 1 channel" check although they make no
   * complete triple: "Position,float32" saves no channel at all.
   */
  lemma TwoItemsSaveNoChannel(typeOf: string -> Result<DataType>, castInt: string -> Result<int>)
    ensures SavingChannels("Position,float32", typeOf, castInt) == Ok([])
  {
    var spec := "Position,float32";
    assert spec == "Position" + [','] + "float32";
    SplitOneSeparator("Position", "float32", ',');
  }

  /** A split at one separator between two separator-free strings. */
  lemma SplitOneSeparator(a: string, b: string, sep: char)
    requires sep !in a && sep !in b
    ensures Split(a + [sep] + b, sep) == [a, b]
  {
    SplitPlain(b, sep);
    SplitPrefix(a, [sep] + b, sep);
    assert a + [sep] + b == a + ([sep] + b);
    assert ([sep] + b)[1..] == b;
  }

  /** Text without the separator splits into itself. */
  lemma {:induction false} SplitPlain(s: string, sep: char)
    requires sep !in s
    ensures Split(s, sep) == [s]
    decreases |s|
  {
    if |s| > 0 {
      SplitPlain(s[1..], sep);
      assert [s[0]] + s[1..] == s;
    }
  }

  /** Separator-free text in front of a separator joins the first part. */
  lemma {:induction false} SplitPrefix(a: string, rest: string, sep: char)
    requires sep !in a && |rest| > 0 && rest[0] == sep
    ensures Split(a + rest, sep) == [a] + Split(rest[1..], sep)
    decreases |a|
  {
    if |a| == 0 {
      assert a + rest == rest;
      assert rest == [rest[0]] + rest[1..];
    } else {
      SplitPrefix(a[1..], rest, sep);
      assert (a + rest)[1..] == a[1..] + rest;
      assert [a[0]] + a[1..] == a;
    }
  }

  /**
   * The check as its error message intends it: fewer than three items (no
   * complete triple) is the error.
   */
  function CorrectedSavingChannels(spec: string, typeOf: string -> Result<DataType>,
                                   castInt: string -> Result<int>): Result<seq<Channel>>
  {
    var items := Split(spec, ',');
    if |items| < 3 then Err(NoChannelError) else ChannelsFrom(items, 2, typeOf, castInt)
  }

  /** With the corrected check a successful parse always saves at least one channel. */
  lemma CorrectedSavesAChannel(spec: string, typeOf: string -> Result<DataType>, castInt: string -> Result<int>)
    requires CorrectedSavingChannels(spec, typeOf, castInt).Ok?
    ensures |CorrectedSavingChannels(spec, typeOf, castInt).value| >= 1
    ensures CorrectedSavingChannels(spec, typeOf, castInt) == SavingChannels(spec, typeOf, castInt)
  {
    ChannelsFromContents(Split(spec, ','), 2, typeOf, castInt);
  }

  /**
   * The PRT compression level: -1 when the optional PRTCompressionLevel
   * property is absent, otherwise its value clamped to [-1, 9]; a
   * non-integer value is the error of the read.
   */
  function CompressionLevel(props: map<string, PropValue>): (r: Result<int>)
    ensures "PRTCompressionLevel" !in props ==> r == Ok(-1)
    ensures "PRTCompressionLevel" in props ==> (r.Ok? <==> props["PRTCompressionLevel"].IntValue?)
    ensures r.Ok? ==> -1 <= r.value <= 9
    ensures r.Ok? && "PRTCompressionLevel" in props ==>
      var v := props["PRTCompressionLevel"].i;
      r.value == (if v < -1 then -1 else if v > 9 then 9 else v)
  {
    if "PRTCompressionLevel" !in props then Ok(-1)
    else
      match GetIntProp(props, "PRTCompressionLevel")
      case Err(e) => Err(e)
      case Ok(v) =>
        var lowered := if 9 < v then 9 else v;
        Ok(if -1 < lowered then lowered else -1)
  }
}
