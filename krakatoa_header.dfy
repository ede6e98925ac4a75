/**
 * The renderer object's own state (include/MaxKrakatoa.h): the four
 * cache-valid flags, the particle cache with its channel map, the volume
 * cache, the property container with its save-required ("dirty") bit, the
 * typed property getter, and the construction / reset of that state
 * (src/MaxKrakatoa.cpp).
 *
 * Host pointers (the volume collection, the progress callback) are opaque
 * ids; the host's "save required" flag is the field `saveRequired`.
 */
module KrakatoaHeader {
  import opened Common

  /** A renderer property value, as stored in the property container. */
  datatype PropValue = BoolValue(b: bool) | IntValue(i: int) | FloatValue(f: real) | StringValue(s: string)

  /** The C++ types `get_property<T>` is instantiated with. */
  datatype PropType = BoolType | IntType | FloatType | StringType

  function TypeOf(v: PropValue): PropType
  {
    match v
    case BoolValue(_) => BoolType
    case IntValue(_) => IntType
    case FloatValue(_) => FloatType
    case StringValue(_) => StringType
  }

  /** The typed getters of the property container. */
  datatype Getter = GetBool | GetInt | GetFloat | Get

  /** The type a getter returns. */
  function Returns(g: Getter): PropType
  {
    match g
    case GetBool => BoolType
    case GetInt => IntType
    case GetFloat => FloatType
    case Get => StringType
  }

  /** `property_helper<T>::get`: the getter `get_property<T>` forwards to. */
  function GetterOf(t: PropType): (g: Getter)
    ensures Returns(g) == t
  {
    match t
    case BoolType => GetBool
    case IntType => GetInt
    case FloatType => GetFloat
    case StringType => Get
  }

  /** Every getter is the getter of exactly one type. */
  lemma GetterOfOneToOne(s: PropType, t: PropType)
    ensures GetterOf(s) == GetterOf(t) <==> s == t
  {
    assert Returns(GetterOf(s)) == s && Returns(GetterOf(t)) == t;
  }

  /**
   * A typed read of the container: a missing name, or a value of another
   * type, raises an error.
   */
  function Read(props: map<string, PropValue>, name: string, g: Getter): (r: Result<PropValue>)
    ensures r.Ok? <==> name in props && TypeOf(props[name]) == Returns(g)
    ensures r.Ok? ==> r.value == props[name]
  {
    if name !in props then Err("missing property \"" + name + "\"")
    else if TypeOf(props[name]) != Returns(g) then Err("property \"" + name + "\" has another type")
    else Ok(props[name])
  }

  /** `get_property<T>`: the property read through T's getter. */
  function GetProperty(props: map<string, PropValue>, name: string, t: PropType): (r: Result<PropValue>)
    ensures r.Ok? <==> name in props && TypeOf(props[name]) == t
    ensures r.Ok? ==> r.value == props[name]
  {
    Read(props, name, GetterOf(t))
  }

  /** Typed convenience reads used by the renderer's own code. */
  function GetString(props: map<string, PropValue>, name: string): (r: Result<string>)
    ensures r.Ok? <==> name in props && props[name].StringValue?
    ensures r.Ok? ==> props[name] == StringValue(r.value)
  {
    match GetProperty(props, name, StringType)
    case Ok(v) => Ok(v.s)
    case Err(e) => Err(e)
  }

  function GetBoolProp(props: map<string, PropValue>, name: string): (r: Result<bool>)
    ensures r.Ok? <==> name in props && props[name].BoolValue?
    ensures r.Ok? ==> props[name] == BoolValue(r.value)
  {
    match GetProperty(props, name, BoolType)
    case Ok(v) => Ok(v.b)
    case Err(e) => Err(e)
  }

  function GetIntProp(props: map<string, PropValue>, name: string): (r: Result<int>)
    ensures r.Ok? <==> name in props && props[name].IntValue?
    ensures r.Ok? ==> props[name] == IntValue(r.value)
  {
    match GetProperty(props, name, IntType)
    case Ok(v) => Ok(v.i)
    case Err(e) => Err(e)
  }

  // ---------------------------------------------------------------------------
  // Channel maps and cached particles
  // ---------------------------------------------------------------------------

  datatype DataType =
    | Int8 | Int16 | Int32 | Int64
    | UInt8 | UInt16 | UInt32 | UInt64
    | Float16 | Float32 | Float64

  /** One channel of a channel map. */
  datatype Channel = Channel(name: string, arity: int, dataType: DataType)

  /** The value one particle holds in one channel. */
  datatype ChannelValue = ChannelValue(components: seq<real>)

  /** A particle: one value per channel of its channel map, in channel order. */
  type Particle = seq<ChannelValue>

  /** `color3f(0)` written through a channel accessor. */
  const ZeroColor: ChannelValue := ChannelValue([0.0, 0.0, 0.0])

  predicate HasChannel(channels: seq<Channel>, name: string)
  {
    exists i :: 0 <= i < |channels| && channels[i].name == name
  }

  /** The position of the first channel called `name`. */
  function ChannelIndex(channels: seq<Channel>, name: string): (i: nat)
    requires HasChannel(channels, name)
    ensures i < |channels| && channels[i].name == name
    ensures forall k :: 0 <= k < i ==> channels[k].name != name
  {
    if channels[0].name == name then 0
    else
      assert HasChannel(channels[1..], name) by {
        var j :| 0 <= j < |channels| && channels[j].name == name;
        assert channels[1..][j - 1].name == name;
      }
      1 + ChannelIndex(channels[1..], name)
  }

  /**
   * `after` is `before` with every particle's Lighting value zeroed, when
   * the channel map has a Lighting channel; otherwise the same particles.
   */
  ghost predicate LightingCleared(channels: seq<Channel>, before: seq<Particle>, after: seq<Particle>)
  {
    |after| == |before| &&
    (!HasChannel(channels, "Lighting") ==> after == before) &&
    (HasChannel(channels, "Lighting") ==> forall k :: 0 <= k < |after| ==>
      ChannelIndex(channels, "Lighting") < |before[k]| &&
      after[k] == before[k][ChannelIndex(channels, "Lighting") := ZeroColor])
  }

  /** The default channel map of a new renderer: Position only. */
  const DefaultChannels: seq<Channel> := [Channel("Position", 3, Float32)]

  /** Indices of the cache-valid bitset. */
  const ParticleFlag: nat := 0
  const LightingFlag: nat := 1
  const ApmFlag: nat := 2
  const MatteFlag: nat := 3

  /** The renderer object's caches and properties. */
  class Renderer {
    /** `m_cacheValid`, a `std::bitset<4>`. */
    var cacheValid: seq<bool>
    /** The channel map of `m_particleCache`. */
    var channels: seq<Channel>
    /** The particles of `m_particleCache`. */
    var particles: seq<Particle>
    /** `m_apmVolumeCache`. */
    var apmVolume: Option<nat>
    /** `m_properties`. */
    var properties: map<string, PropValue>
    /** `m_setDirtyBit`. */
    var setDirtyBit: bool
    /** The host scene's save-required flag. */
    var saveRequired: bool
    /** `m_doneInitRenderer`. */
    var doneInitRenderer: bool
    /** `m_progressCallback`. */
    var progressCallback: Option<nat>

    predicate Valid()
      reads this
    {
      |cacheValid| == 4 && forall k :: 0 <= k < |particles| ==> |particles[k]| == |channels|
    }

    /**
     * The constructor: every cache flag clear, an empty Position-only
     * particle cache, no volume. `InitRenderer()` is run (and recorded as
     * done when it succeeds) except during ActiveShade initialisation; the
     * MAXScript function fills the property map, and `scriptProps` is what it
     * has set when it returns or fails. The dirty bit is off while
     * constructing and on after, so the host's save-required flag
     * (`hostSaveRequired`) is left as it was.
     */
    constructor (inActiveShadeInit: bool, initRendererSucceeds: bool, scriptProps: map<string, PropValue>,
                 hostSaveRequired: bool)
      ensures Valid()
      ensures cacheValid == [false, false, false, false]
      ensures channels == DefaultChannels && particles == [] && apmVolume.None?
      ensures properties == (if inActiveShadeInit then map[] else scriptProps)
      ensures setDirtyBit && saveRequired == hostSaveRequired && progressCallback.None?
      ensures doneInitRenderer <==> !inActiveShadeInit && initRendererSucceeds
    {
      cacheValid := [false, false, false, false];
      channels := DefaultChannels;
      particles := [];
      apmVolume := None;
      properties := map[];
      saveRequired := hostSaveRequired;
      progressCallback := None;
      doneInitRenderer := false;
      setDirtyBit := false;
      if !inActiveShadeInit {
        properties := scriptProps;
        if initRendererSucceeds {
          doneInitRenderer := true;
        }
      }
      setDirtyBit := true;
    }

    /**
     * `ResetParams`: properties emptied and `InitRenderer()` re-run (always,
     * ActiveShade or not), so the properties become those the script sets;
     * caches are left as they are.
     */
    method ResetParams(initRendererSucceeds: bool, scriptProps: map<string, PropValue>)
      modifies this
      ensures properties == scriptProps && progressCallback.None? && setDirtyBit
      ensures doneInitRenderer == initRendererSucceeds
      ensures cacheValid == old(cacheValid) && channels == old(channels) && particles == old(particles)
      ensures apmVolume == old(apmVolume) && saveRequired == old(saveRequired)
    {
      setDirtyBit := false;
      doneInitRenderer := false;
      progressCallback := None;
      properties := scriptProps;  // cleared, then filled by the script
      if initRendererSucceeds {
        doneInitRenderer := true;
      }
      setDirtyBit := true;
    }

    /** `InvalidateParticleCache`: particle and lighting flags cleared, cache emptied. */
    method InvalidateParticleCache()
      requires Valid()
      modifies this
      ensures Valid()
      ensures cacheValid == old(cacheValid)[ParticleFlag := false][LightingFlag := false]
      ensures particles == [] && channels == old(channels)
      ensures apmVolume == old(apmVolume) && properties == old(properties)
      ensures saveRequired == old(saveRequired) && doneInitRenderer == old(doneInitRenderer)
      ensures progressCallback == old(progressCallback) && setDirtyBit == old(setDirtyBit)
    {
      cacheValid := cacheValid[ParticleFlag := false];
      cacheValid := cacheValid[LightingFlag := false];
      particles := [];
    }

    /**
     * `InvalidateLightingCache`: only the lighting flag is cleared; when the
     * cache has a Lighting channel, every cached particle's Lighting value
     * becomes zero and nothing else in it changes.
     */
    method InvalidateLightingCache()
      requires Valid()
      modifies this
      ensures Valid()
      ensures cacheValid == old(cacheValid)[LightingFlag := false]
      ensures channels == old(channels) && LightingCleared(channels, old(particles), particles)
      ensures apmVolume == old(apmVolume) && properties == old(properties)
      ensures saveRequired == old(saveRequired) && doneInitRenderer == old(doneInitRenderer)
      ensures progressCallback == old(progressCallback) && setDirtyBit == old(setDirtyBit)
    {
      cacheValid := cacheValid[LightingFlag := false];
      if HasChannel(channels, "Lighting") {
        var lighting := ChannelIndex(channels, "Lighting");
        var cached := particles;
        var p := 0;
        while p < |cached|
          invariant 0 <= p <= |cached| == |particles|
          invariant forall k :: 0 <= k < p ==> cached[k] == particles[k][lighting := ZeroColor]
          invariant forall k :: p <= k < |cached| ==> cached[k] == particles[k]
        {
          cached := cached[p := cached[p][lighting := ZeroColor]];
          p := p + 1;
        }
        particles := cached;
      }
    }

    /** `InvalidateAPMVolumeCache`: the APM flag cleared and the volume dropped. */
    method InvalidateAPMVolumeCache()
      requires Valid()
      modifies this
      ensures Valid()
      ensures cacheValid == old(cacheValid)[ApmFlag := false]
      ensures apmVolume.None?
      ensures channels == old(channels) && particles == old(particles) && properties == old(properties)
      ensures saveRequired == old(saveRequired) && doneInitRenderer == old(doneInitRenderer)
      ensures progressCallback == old(progressCallback) && setDirtyBit == old(setDirtyBit)
    {
      cacheValid := cacheValid[ApmFlag := false];
      apmVolume := None;
    }

    /** `set_property`: stored, and the scene marked save-required only when the dirty bit is on. */
    method SetProperty(name: string, value: PropValue)
      modifies this
      ensures properties == old(properties)[name := value]
      ensures saveRequired <==> old(saveRequired) || setDirtyBit
      ensures setDirtyBit == old(setDirtyBit) && cacheValid == old(cacheValid)
      ensures channels == old(channels) && particles == old(particles) && apmVolume == old(apmVolume)
      ensures doneInitRenderer == old(doneInitRenderer) && progressCallback == old(progressCallback)
    {
      properties := properties[name := value];
      if setDirtyBit {
        saveRequired := true;
      }
    }

    /** `erase_property`: removed, with the same dirty-bit rule. */
    method EraseProperty(name: string)
      modifies this
      ensures properties == old(properties) - {name}
      ensures saveRequired <==> old(saveRequired) || setDirtyBit
      ensures setDirtyBit == old(setDirtyBit) && cacheValid == old(cacheValid)
      ensures channels == old(channels) && particles == old(particles) && apmVolume == old(apmVolume)
      ensures doneInitRenderer == old(doneInitRenderer) && progressCallback == old(progressCallback)
    {
      properties := properties - {name};
      if setDirtyBit {
        saveRequired := true;
      }
    }
  }
}
