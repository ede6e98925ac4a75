/**
 * The particle-object extension that exposes a PRT object's particles to
 * 3ds Max through the `IParticleObjectExt` interface
 * (SDK/src/PRTParticleObjectExt.cpp): a cache of the particles at one
 * time, a set of valid channel accessors, and the "current" particle the
 * interface's argument-free calls refer to.
 *
 * A particle is a map from the interface's channels to values; a channel
 * accessor is valid exactly when its channel is in `accessors`. The
 * per-channel getters and setters of the interface are the generic
 * `GetByIndex`, `GetById`, `SetByIndex` and `SetById` with the channel as
 * argument, plus the calls with their own defaults or conversions.
 */
module PRTObjectExt {
  import opened Common

  /** The channels the interface reads and writes. */
  datatype PChannel = PositionCh | VelocityCh | OrientationCh | SpinCh | SelectionCh | IdCh | AgeCh
                    | LifeSpanCh | ScaleCh | ScaleXYZCh

  datatype Point3 = Point3(x: real, y: real, z: real)

  datatype Value = VecValue(p: Point3) | RealValue(r: real) | IntValue(i: int) | AngAxisValue(angle: real, axis: Point3)

  /** The C++ type of each channel's accessor. */
  predicate HasKind(v: Value, c: PChannel)
  {
    match c
    case PositionCh => v.VecValue?
    case VelocityCh => v.VecValue?
    case OrientationCh => v.VecValue?
    case ScaleXYZCh => v.VecValue?
    case SpinCh => v.AngAxisValue?
    case SelectionCh => v.RealValue?
    case ScaleCh => v.RealValue?
    case IdCh => v.IntValue?
    case AgeCh => v.IntValue?
    case LifeSpanCh => v.IntValue?
  }

  type Particle = map<PChannel, Value>

  /** Every valid accessor finds a value of its type in the particle. */
  predicate Conforms(p: Particle, accessors: set<PChannel>)
  {
    forall c :: c in accessors ==> c in p && HasKind(p[c], c)
  }

  /** 3ds Max's `TIME_PosInfinity` and `TIME_NegInfinity` ticks. */
  const TimePosInfinity: int := 0x7fff_ffff
  const TimeNegInfinity: int := -0x8000_0000

  /** The channel names `UpdateParticles` looks for; any other name is `OtherName`. */
  datatype ChannelName = Position | Velocity | VelocityTicks | Scale | Orientation | OrientationXYZ | Selection
                       | ID | Age | AgeTicks | LifeSpan | LifeSpanTicks | Spin | OtherName(name: string)

  /** A channel of the stream's native channel map: its arity and whether its type is floating point. */
  datatype NativeChannel = NativeChannel(arity: int, isFloat: bool)

  /** The names `UpdateParticles` may define in the cache's channel map. */
  const CacheNames: set<ChannelName> :=
    {Position, VelocityTicks, Scale, OrientationXYZ, Selection, ID, AgeTicks, Age, LifeSpanTicks, LifeSpan}

  /**
   * Whether the cache's channel map defines `n`, given the stream's native
   * map: Position always; the tick-based velocity for either velocity
   * channel; the XYZ orientation for either orientation channel; a native
   * AgeTicks, or Age in ticks when it is floating point and as itself
   * otherwise; LifeSpan likewise, but only from a native LifeSpan.
   */
  predicate InCache(n: ChannelName, native: map<ChannelName, NativeChannel>)
  {
    match n
    case Position => true
    case VelocityTicks => VelocityTicks in native || Velocity in native
    case Scale => Scale in native
    case OrientationXYZ => OrientationXYZ in native || Orientation in native
    case Selection => Selection in native
    case ID => ID in native
    case AgeTicks => AgeTicks in native || (Age in native && native[Age].isFloat)
    case Age => AgeTicks !in native && Age in native && !native[Age].isFloat
    case LifeSpanTicks => LifeSpan in native && native[LifeSpan].isFloat
    case LifeSpan => LifeSpan in native && !native[LifeSpan].isFloat
    case _ => false
  }

  /** The channels of the cache, built from the stream's native map in `UpdateParticles`. */
  function CacheChannels(native: map<ChannelName, NativeChannel>): (names: set<ChannelName>)
    ensures Position in names
  {
    set n | n in CacheNames && InCache(n, native)
  }

  const AllChannels: set<PChannel> :=
    {PositionCh, VelocityCh, OrientationCh, SpinCh, SelectionCh, IdCh, AgeCh, LifeSpanCh, ScaleCh, ScaleXYZCh}

  /**
   * Whether the accessor of `c` is set up from the cache's channels. No
   * Spin channel is ever defined, so the spin accessor is never valid; a
   * three-component Scale gets the XYZ accessor and any other Scale the
   * scalar one.
   */
  predicate AccessorValid(c: PChannel, names: set<ChannelName>, scaleArity3: bool)
  {
    match c
    case PositionCh => true
    case VelocityCh => VelocityTicks in names
    case OrientationCh => OrientationXYZ in names
    case SpinCh => Spin in names
    case SelectionCh => Selection in names
    case IdCh => ID in names
    case AgeCh => AgeTicks in names || Age in names
    case LifeSpanCh => LifeSpanTicks in names || LifeSpan in names
    case ScaleXYZCh => Scale in names && scaleArity3
    case ScaleCh => Scale in names && !scaleArity3
  }

  /** The accessors set up from the cache's channels. */
  function AccessorsFor(names: set<ChannelName>, scaleArity3: bool): set<PChannel>
  {
    set c | c in AllChannels && AccessorValid(c, names, scaleArity3)
  }

  /** The accessors `UpdateParticles` validates for a native channel map. */
  function NativeAccessors(native: map<ChannelName, NativeChannel>): set<PChannel>
  {
    AccessorsFor(CacheChannels(native), Scale in native && native[Scale].arity == 3)
  }

  /**
   * Which accessors become valid: velocity from Velocity or VelocityTicks,
   * orientation from Orientation or OrientationXYZ, age from Age or
   * AgeTicks, lifespan only from a native LifeSpan channel; never spin.
   */
  lemma NativeAccessorsFrom(native: map<ChannelName, NativeChannel>)
    ensures var a := NativeAccessors(native);
      PositionCh in a && SpinCh !in a &&
      (VelocityCh in a <==> Velocity in native || VelocityTicks in native) &&
      (OrientationCh in a <==> Orientation in native || OrientationXYZ in native) &&
      (SelectionCh in a <==> Selection in native) &&
      (IdCh in a <==> ID in native) &&
      (AgeCh in a <==> Age in native || AgeTicks in native) &&
      (LifeSpanCh in a <==> LifeSpan in native) &&
      (ScaleXYZCh in a <==> Scale in native && native[Scale].arity == 3) &&
      (ScaleCh in a <==> Scale in native && native[Scale].arity != 3)
  {
    var names := CacheChannels(native);
    CacheChannelsMembers(native);
    AccessorsForMembers(names, Scale in native && native[Scale].arity == 3);
  }

  lemma AccessorsForMembers(names: set<ChannelName>, scaleArity3: bool)
    ensures var a := AccessorsFor(names, scaleArity3);
      PositionCh in a &&
      (VelocityCh in a <==> VelocityTicks in names) &&
      (OrientationCh in a <==> OrientationXYZ in names) &&
      (SpinCh in a <==> Spin in names) &&
      (SelectionCh in a <==> Selection in names) &&
      (IdCh in a <==> ID in names) &&
      (AgeCh in a <==> AgeTicks in names || Age in names) &&
      (LifeSpanCh in a <==> LifeSpanTicks in names || LifeSpan in names) &&
      (ScaleXYZCh in a <==> Scale in names && scaleArity3) &&
      (ScaleCh in a <==> Scale in names && !scaleArity3)
  {
    forall c: PChannel
      ensures c in AllChannels
    {
      match c
      case PositionCh =>
      case VelocityCh =>
      case OrientationCh =>
      case SpinCh =>
      case SelectionCh =>
      case IdCh =>
      case AgeCh =>
      case LifeSpanCh =>
      case ScaleCh =>
      case ScaleXYZCh =>
    }
  }

  lemma CacheChannelsMembers(native: map<ChannelName, NativeChannel>)
    ensures var names := CacheChannels(native);
      Spin !in names &&
      (VelocityTicks in names <==> Velocity in native || VelocityTicks in native) &&
      (OrientationXYZ in names <==> Orientation in native || OrientationXYZ in native) &&
      (Selection in names <==> Selection in native) &&
      (ID in names <==> ID in native) &&
      (AgeTicks in names || Age in names <==> Age in native || AgeTicks in native) &&
      (LifeSpanTicks in names || LifeSpan in names <==> LifeSpan in native) &&
      (Scale in names <==> Scale in native)
  {
  }

  /** The channels of the cache after the set-up fails: the non-null default map. */
  const FallbackChannels: set<ChannelName> := {Position, Velocity, Selection, ID}

  /** The native map of the empty stream used when the object gives no stream or its creation fails. */
  const DefaultNative: map<ChannelName, NativeChannel> :=
    map[Position := NativeChannel(3, true), Velocity := NativeChannel(3, true),
        Selection := NativeChannel(1, true), ID := NativeChannel(1, false)]

  /** Without a stream the cache keeps Position, the tick velocity, Selection and ID. */
  lemma DefaultNativeChannels()
    ensures CacheChannels(DefaultNative) == {Position, VelocityTicks, Selection, ID}
  {
    CacheChannelsMembers(DefaultNative);
  }

  class ParticleObjectExt {
    /** `m_particles`: the cached particles and the names in their channel map. */
    var particles: seq<Particle>
    var channelNames: set<ChannelName>
    /** The channels whose accessor in `m_accessors` is valid. */
    var accessors: set<PChannel>
    /** `m_currentParticle`, `m_currentTime`, and the current node's handle (0 for none). */
    var currentParticle: int
    var currentTime: int
    var currentNode: nat

    predicate Valid()
      reads this
    {
      forall k :: 0 <= k < |particles| ==> Conforms(particles[k], accessors)
    }

    /** A new extension: no particles, no valid accessor, no node, time at negative infinity. */
    constructor ()
      ensures Valid()
      ensures particles == [] && channelNames == {} && accessors == {}
      ensures currentParticle == 0 && currentTime == TimeNegInfinity && currentNode == 0
    {
      particles := [];
      channelNames := {};
      accessors := {};
      currentParticle := 0;
      currentTime := TimeNegInfinity;
      currentNode := 0;
    }

    /** `NumParticles`. */
    function NumParticles(): (n: nat)
      reads this
      ensures n == |particles|
    {
      |particles|
    }

    /** An index the by-index calls accept. */
    predicate Addressable(c: PChannel, index: int)
      reads this
    {
      c in accessors && 0 <= index < |particles|
    }

    /** `ps` with channel `c` of particle `index` set to `v`, when the accessor is valid and the index in range. */
    function Stored(ps: seq<Particle>, c: PChannel, index: int, v: Value): seq<Particle>
      reads this
    {
      if c in accessors && 0 <= index < |ps| then ps[index := ps[index][c := v]] else ps
    }

    /** Storing one value changes that one value only: no other particle and no other channel. */
    lemma StoredChangesOneValue(ps: seq<Particle>, c: PChannel, index: int, v: Value, k: int, c': PChannel)
      requires 0 <= k < |ps| && (k != index || c' != c) && c' in ps[k]
      ensures |Stored(ps, c, index, v)| == |ps|
      ensures c' in Stored(ps, c, index, v)[k] && Stored(ps, c, index, v)[k][c'] == ps[k][c']
    {
    }

    /** `get_by_index`: the channel's value for a valid accessor and an index in range, else the default. */
    function GetByIndex(c: PChannel, index: int, default: Value): (v: Value)
      reads this
      requires Valid()
      ensures Addressable(c, index) ==> HasKind(v, c)
      ensures !Addressable(c, index) ==> v == default
    {
      if Addressable(c, index) then particles[index][c] else default
    }

    /** `get_ptr_by_index`: a reference to the value, or null. */
    function GetPtrByIndex(c: PChannel, index: int): (v: Option<Value>)
      reads this
      requires Valid()
      ensures v.Some? <==> Addressable(c, index)
      ensures v.Some? ==> v.value == GetByIndex(c, index, v.value)
    {
      if Addressable(c, index) then Some(particles[index][c]) else None
    }

    /**
     * `get_particle_by_id`: the first particle whose ID is `id`; none when
     * no particle has it or there is no ID channel.
     */
    function ParticleById(id: int): (r: Option<nat>)
      reads this
      requires Valid()
      ensures r.Some? ==>
        IdCh in accessors && r.value < |particles| && particles[r.value][IdCh] == IntValue(id) &&
        forall j :: 0 <= j < r.value ==> particles[j][IdCh] != IntValue(id)
      ensures r.None? ==> IdCh !in accessors || forall j :: 0 <= j < |particles| ==> particles[j][IdCh] != IntValue(id)
    {
      if IdCh !in accessors then None else FirstWithId(particles, id, 0)
    }

    /** `get_by_id`: the channel's value in the particle with that ID, else the default. */
    function GetById(c: PChannel, id: int, default: Value): (v: Value)
      reads this
      requires Valid()
      ensures ParticleById(id).Some? ==> v == GetByIndex(c, ParticleById(id).value, default)
      ensures ParticleById(id).None? ==> v == default
    {
      var p := ParticleById(id);
      if c in accessors && p.Some? then particles[p.value][c] else default
    }

    /** `set_by_index`: stores the value for a valid accessor and an index in range, else does nothing. */
    method SetByIndex(c: PChannel, index: int, v: Value)
      requires Valid() && HasKind(v, c)
      modifies this
      ensures Valid()
      ensures particles == (if old(Addressable(c, index)) then old(particles[index := particles[index][c := v]])
                            else old(particles))
      ensures accessors == old(accessors) && channelNames == old(channelNames)
      ensures currentParticle == old(currentParticle) && currentTime == old(currentTime)
      ensures currentNode == old(currentNode)
    {
      if Addressable(c, index) {
        particles := particles[index := particles[index][c := v]];
      }
    }

    /** `set_by_id`: stores the value in the particle with that ID, if any. */
    method SetById(c: PChannel, id: int, v: Value)
      requires Valid() && HasKind(v, c)
      modifies this
      ensures Valid()
      ensures old(ParticleById(id)).None? || c !in accessors ==> particles == old(particles)
      ensures old(ParticleById(id)).Some? && c in accessors ==>
        var i := old(ParticleById(id)).value;
        particles == old(particles)[i := old(particles)[i][c := v]]
      ensures accessors == old(accessors) && channelNames == old(channelNames)
      ensures currentParticle == old(currentParticle) && currentTime == old(currentTime)
      ensures currentNode == old(currentNode)
    {
      var p := ParticleById(id);
      if p.Some? {
        SetByIndex(c, p.value, v);
      }
    }

    /**
     * `HasParticleBornIndex`: the index of the first particle with that ID;
     * not found without an ID channel. `prior` is what the caller's output
     * variable held, returned unchanged when nothing is found.
     */
    method HasParticleBornIndex(bornIndex: int, prior: int) returns (found: bool, index: int)
      requires Valid()
      ensures found <==> ParticleById(bornIndex).Some?
      ensures found ==> index == ParticleById(bornIndex).value
      ensures !found ==> index == prior
    {
      if IdCh !in accessors {
        return false, prior;
      }
      var counter := 0;
      while counter < |particles|
        invariant 0 <= counter <= |particles|
        invariant FirstWithId(particles, bornIndex, 0) == FirstWithId(particles, bornIndex, counter)
        decreases |particles| - counter
      {
        if particles[counter][IdCh] == IntValue(bornIndex) {
          return true, counter;
        }
        counter := counter + 1;
      }
      return false, prior;
    }

    /** `GetParticleIndex`: the index of the first particle with that ID, or -1. */
    method GetParticleIndex(bornIndex: int) returns (r: int)
      requires Valid()
      ensures r == (if ParticleById(bornIndex).Some? then ParticleById(bornIndex).value else -1)
    {
      var found, index := HasParticleBornIndex(bornIndex, 0);
      if found {
        return index;
      }
      return -1;
    }

    /** `SetCurrentParticleBornIndex`: the particle with that ID becomes current, or -1 when there is none. */
    method SetCurrentParticleBornIndex(bornIndex: int)
      requires Valid()
      modifies this
      ensures Valid() && particles == old(particles) && accessors == old(accessors)
      ensures currentParticle == (if ParticleById(bornIndex).Some? then ParticleById(bornIndex).value else -1)
      ensures particles == old(particles) && accessors == old(accessors) && channelNames == old(channelNames)
      ensures currentTime == old(currentTime) && currentNode == old(currentNode)
    {
      var found, index := HasParticleBornIndex(bornIndex, currentParticle);
      currentParticle := index;
      if !found {
        currentParticle := -1;
      }
    }

    /** `SetCurrentParticleIndex` stores its argument without checking it. */
    method SetCurrentParticleIndex(index: int)
      modifies this
      ensures currentParticle == index
      ensures particles == old(particles) && accessors == old(accessors) && channelNames == old(channelNames)
      ensures currentTime == old(currentTime) && currentNode == old(currentNode)
    {
      currentParticle := index;
    }

    /** `GetParticleBornIndex`: the ID of the particle at `index`, or -1. */
    function GetParticleBornIndex(index: int): (id: int)
      reads this
      requires Valid()
      ensures Addressable(IdCh, index) ==> particles[index][IdCh] == IntValue(id)
      ensures !Addressable(IdCh, index) ==> id == -1
    {
      GetByIndex(IdCh, index, IntValue(-1)).i
    }

    /** `GetCurrentParticleBornIndex`: the ID of the current particle, or -1. */
    function GetCurrentParticleBornIndex(): (id: int)
      reads this
      requires Valid()
      ensures id == GetParticleBornIndex(currentParticle)
    {
      GetByIndex(IdCh, currentParticle, IntValue(-1)).i
    }

    /** `GetParticleAgeByIndex` (and the group time): 0 without an age value. */
    function GetParticleAgeByIndex(index: int): (age: int)
      reads this
      requires Valid()
      ensures Addressable(AgeCh, index) ==> particles[index][AgeCh] == IntValue(age)
      ensures !Addressable(AgeCh, index) ==> age == 0
    {
      GetByIndex(AgeCh, index, IntValue(0)).i
    }

    /** `GetParticleLifeSpanByIndex`: infinite without a lifespan value. */
    function GetParticleLifeSpanByIndex(index: int): (life: int)
      reads this
      requires Valid()
      ensures Addressable(LifeSpanCh, index) ==> particles[index][LifeSpanCh] == IntValue(life)
      ensures !Addressable(LifeSpanCh, index) ==> life == TimePosInfinity
    {
      GetByIndex(LifeSpanCh, index, IntValue(TimePosInfinity)).i
    }

    /** `GetParticleLifeSpanByBornIndex`: infinite when no particle has the ID. */
    function GetParticleLifeSpanByBornIndex(id: int): (life: int)
      reads this
      requires Valid()
      ensures ParticleById(id).None? ==> life == TimePosInfinity
      ensures ParticleById(id).Some? ==> life == GetParticleLifeSpanByIndex(ParticleById(id).value)
    {
      GetById(LifeSpanCh, id, IntValue(TimePosInfinity)).i
    }

    /**
     * `GetParticleScaleByIndex`: the x of the XYZ scale when that accessor
     * is valid, else the scalar scale; 1 without a value.
     */
    function GetParticleScaleByIndex(index: int): (s: real)
      reads this
      requires Valid()
      ensures Addressable(ScaleXYZCh, index) ==>
        particles[index][ScaleXYZCh].VecValue? && s == particles[index][ScaleXYZCh].p.x
      ensures ScaleXYZCh !in accessors && Addressable(ScaleCh, index) ==> particles[index][ScaleCh] == RealValue(s)
      ensures !Addressable(ScaleXYZCh, index) && !Addressable(ScaleCh, index) ==> s == 1.0
    {
      if ScaleXYZCh in accessors then GetByIndex(ScaleXYZCh, index, VecValue(Point3(1.0, 1.0, 1.0))).p.x
      else GetByIndex(ScaleCh, index, RealValue(1.0)).r
    }

    /** `SetParticleScaleByIndex`: the XYZ scale (all three components) when valid, then the scalar scale. */
    method SetParticleScaleByIndex(index: int, scale: real)
      requires Valid()
      modifies this
      ensures Valid()
      ensures (Addressable(ScaleXYZCh, index) || Addressable(ScaleCh, index)) ==> GetParticleScaleByIndex(index) == scale
      ensures particles == Stored(Stored(old(particles), ScaleXYZCh, index, VecValue(Point3(scale, scale, scale))),
                                  ScaleCh, index, RealValue(scale))
      ensures accessors == old(accessors) && channelNames == old(channelNames)
      ensures currentParticle == old(currentParticle) && currentTime == old(currentTime)
      ensures currentNode == old(currentNode)
    {
      if ScaleXYZCh in accessors {
        SetByIndex(ScaleXYZCh, index, VecValue(Point3(scale, scale, scale)));
      }
      SetByIndex(ScaleCh, index, RealValue(scale));
    }

    /** `GetParticleSelectedByIndex`: selected when the stored selection is not 0. */
    function GetParticleSelectedByIndex(index: int): (selected: bool)
      reads this
      requires Valid()
      ensures selected <==> Addressable(SelectionCh, index) && particles[index][SelectionCh] != RealValue(0.0)
    {
      GetByIndex(SelectionCh, index, RealValue(0.0)).r != 0.0
    }

    /** `SetParticleSelectedByIndex`: stores 1 or 0; reading it back gives the flag. */
    method SetParticleSelectedByIndex(index: int, selected: bool)
      requires Valid()
      modifies this
      ensures Valid()
      ensures Addressable(SelectionCh, index) ==>
        particles[index][SelectionCh] == RealValue(if selected then 1.0 else 0.0) &&
        GetParticleSelectedByIndex(index) == selected
      ensures particles == Stored(old(particles), SelectionCh, index, RealValue(if selected then 1.0 else 0.0))
      ensures accessors == old(accessors) && channelNames == old(channelNames)
      ensures currentParticle == old(currentParticle) && currentTime == old(currentTime)
      ensures currentNode == old(currentNode)
    {
      SetByIndex(SelectionCh, index, RealValue(if selected then 1.0 else 0.0));
    }

    /** `GetParticleSelected`: the selection of the current particle. */
    function GetParticleSelected(): (selected: bool)
      reads this
      requires Valid()
      ensures selected == GetParticleSelectedByIndex(currentParticle)
    {
      GetByIndex(SelectionCh, currentParticle, RealValue(0.0)).r != 0.0
    }

    /**
     * `UpdateParticles`: the cache is rebuilt for `node` (0 for none) at
     * time `t` and the first particle becomes current. Without a node the
     * cache is an empty Position-only container and the accessors are left
     * as they were. Otherwise the channels follow the stream's native map:
     * when the object gives no stream or creating it fails (`streamOpens`
     * false) an empty stream over the default map stands in; a stream that
     * cannot be read, or whose particles do not fit the channels, gives an
     * empty cache. When the set-up before the stream
     * fails, the cache is empty with the default channels and only the
     * position accessor is valid.
     */
    method UpdateParticles(node: nat, t: int, streamOpens: bool, native: map<ChannelName, NativeChannel>,
                           stream: Result<seq<Particle>>, setupFails: bool)
      modifies this
      ensures Valid()
      ensures currentTime == t && currentParticle == 0 && currentNode == node
      ensures node == 0 ==> particles == [] && channelNames == {Position} && accessors == old(accessors)
      ensures node != 0 && setupFails ==>
        particles == [] && channelNames == FallbackChannels && accessors == {PositionCh}
      ensures node != 0 && !setupFails && !streamOpens ==>
        channelNames == CacheChannels(DefaultNative) && accessors == NativeAccessors(DefaultNative) &&
        particles == []
      ensures node != 0 && !setupFails && streamOpens ==>
        channelNames == CacheChannels(native) && accessors == NativeAccessors(native) &&
        particles == (if stream.Ok? && AllConform(stream.value, NativeAccessors(native)) then stream.value else [])
    {
      particles := [];
      currentTime := t;
      currentParticle := 0;
      currentNode := node;
      if node == 0 {
        channelNames := {Position};
        return;
      }
      if setupFails {
        channelNames := FallbackChannels;
        accessors := {PositionCh};
        return;
      }
      if !streamOpens {
        channelNames := CacheChannels(DefaultNative);
        accessors := NativeAccessors(DefaultNative);
        return;
      }
      channelNames := CacheChannels(native);
      accessors := NativeAccessors(native);
      if stream.Ok? && AllConform(stream.value, accessors) {
        particles := stream.value;
      }
    }
  }

  /** Every particle of `ps` fits the accessors. */
  predicate AllConform(ps: seq<Particle>, accessors: set<PChannel>)
  {
    forall k :: 0 <= k < |ps| ==> Conforms(ps[k], accessors)
  }

  /** The first particle from `k` on whose ID value is `id`. */
  function FirstWithId(ps: seq<Particle>, id: int, k: nat): (r: Option<nat>)
    requires AllConform(ps, {IdCh})
    decreases |ps| - k
    ensures r.Some? ==>
      k <= r.value < |ps| && ps[r.value][IdCh] == IntValue(id) &&
      forall j :: k <= j < r.value ==> ps[j][IdCh] != IntValue(id)
    ensures r.None? ==> forall j :: k <= j < |ps| ==> ps[j][IdCh] != IntValue(id)
  {
    if k >= |ps| then None
    else if ps[k][IdCh] == IntValue(id) then Some(k)
    else FirstWithId(ps, id, k + 1)
  }
}
