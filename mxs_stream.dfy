/**
 * The MAXScript particle streams (src/Misc/MaxKrakatoaMXSParticleStream.cpp):
 * `KrakatoaParticleOStream` writes particles given as MAXScript arrays to a
 * particle file, and `KrakatoaParticleIStream` reads a particle stream back
 * as MAXScript arrays. Each picks one converter per channel by the
 * channel's data type when it is created.
 *
 * A particle is its channels' components: reals for a floating-point
 * channel, integers for an integer channel. The MAXScript values are a
 * datatype; the conversions MAXScript itself performs (`to_float`,
 * `to_point3`, ...) are a fixed table here.
 */
module MXSStream {
  import opened Common
  import opened KrakatoaHeader
  import Krakatoa

  // ---------------------------------------------------------------------------
  // Channels, values and converters
  // ---------------------------------------------------------------------------

  /** A channel's data type: one of the numeric types, or another frantic type with its type string. */
  datatype StreamType = Numeric(t: DataType) | OtherType(typeStr: string)

  datatype StreamChannel = StreamChannel(name: string, arity: nat, streamType: StreamType)

  /** The MAXScript values a stream reads and writes; `OtherValue` is any other kind (a string, a node, ...). */
  datatype MxsValue =
    | Undefined
    | Float(f: real)
    | Integer(i: int)
    | Integer64(i64: int)
    | Point2(x: real, y: real)
    | Point3(x: real, y: real, z: real)
    | Point4(x: real, y: real, z: real, w: real)
    | Color(r: real, g: real, b: real, a: real)
    | Quat(x: real, y: real, z: real, w: real)
    | AngAxis(angle: real, ax: real, ay: real, az: real)
    | Array(items: seq<MxsValue>)
    | OtherValue

  /** The components of one channel of one particle. */
  datatype Components = Floats(f: seq<real>) | Ints(n: seq<int>)

  type Particle = seq<Components>

  /**
   * The converter picked for a channel: the floating-point writer or
   * reader for a float type, the integer one for an integer type.
   */
  datatype Codec = FloatCodec(t: DataType) | IntCodec(t: DataType)

  predicate IsFloatType(t: DataType)
  {
    t == Float16 || t == Float32 || t == Float64
  }

  /** The converter for a channel type; any type that is not numeric raises an error. */
  function CodecFor(st: StreamType): (r: Result<Codec>)
    ensures r.Ok? <==> st.Numeric?
    ensures r.Ok? ==> r.value.t == st.t && (r.value.FloatCodec? <==> IsFloatType(st.t))
  {
    match st
    case Numeric(t) => if IsFloatType(t) then Ok(FloatCodec(t)) else Ok(IntCodec(t))
    case OtherType(s) => Err("Invalid data type \"" + s + "\"")
  }

  /** The converters of the channels, in order, or the error of the first unsupported channel. */
  function CodecsFor(cs: seq<StreamChannel>): Result<seq<Codec>>
  {
    if |cs| == 0 then Ok([])
    else
      match CodecsFor(cs[..|cs| - 1])
      case Err(e) => Err(e)
      case Ok(init) =>
        match CodecFor(cs[|cs| - 1].streamType)
        case Err(e) => Err(e)
        case Ok(c) => Ok(init + [c])
  }

  /** Whether every converter is the one for its channel's type. */
  predicate CodecsMatch(cs: seq<StreamChannel>, codecs: seq<Codec>)
  {
    |codecs| == |cs| && forall i :: 0 <= i < |cs| ==> cs[i].streamType.Numeric? && CodecFor(cs[i].streamType) == Ok(codecs[i])
  }

  /**
   * The converters are found exactly when every channel is numeric, one
   * per channel and matching its type; otherwise the error names the type
   * of the first channel that is not.
   */
  lemma {:induction false} CodecsForChannels(cs: seq<StreamChannel>)
    ensures CodecsFor(cs).Ok? <==> forall i :: 0 <= i < |cs| ==> cs[i].streamType.Numeric?
    ensures CodecsFor(cs).Ok? ==> CodecsMatch(cs, CodecsFor(cs).value)
    ensures CodecsFor(cs).Err? ==>
      (exists i :: 0 <= i < |cs| && cs[i].streamType.OtherType? &&
        (forall j :: 0 <= j < i ==> cs[j].streamType.Numeric?) &&
        CodecsFor(cs).error == "Invalid data type \"" + cs[i].streamType.typeStr + "\"")
  {
    if |cs| > 0 {
      var init := cs[..|cs| - 1];
      CodecsForChannels(init);
      assert forall i :: 0 <= i < |init| ==> init[i] == cs[i];
    }
  }

  // ---------------------------------------------------------------------------
  // Integer casts
  // ---------------------------------------------------------------------------

  /** `x` cast to a signed integer of modulus `m` (two's complement wrap-around). */
  function WrapSigned(x: int, m: nat): int
    requires m >= 2
  {
    var r := x % m;
    if r >= m / 2 then r - m else r
  }

  /** `static_cast` of an integer to an integer channel type. */
  function WrapTo(t: DataType, x: int): int
  {
    match t
    case Int8 => WrapSigned(x, 0x100)
    case Int16 => WrapSigned(x, 0x1_0000)
    case Int32 => WrapSigned(x, 0x1_0000_0000)
    case Int64 => WrapSigned(x, 0x1_0000_0000_0000_0000)
    case UInt8 => x % 0x100
    case UInt16 => x % 0x1_0000
    case UInt32 => x % 0x1_0000_0000
    case UInt64 => x % 0x1_0000_0000_0000_0000
    case _ => x
  }

  /** `static_cast<int>`: to a 32-bit `int`. */
  function ToCInt(x: int): int
  {
    WrapSigned(x, 0x1_0000_0000)
  }

  /** The values an integer channel type holds. */
  predicate InRange(t: DataType, x: int)
  {
    match t
    case Int8 => -0x80 <= x < 0x80
    case Int16 => -0x8000 <= x < 0x8000
    case Int32 => -0x8000_0000 <= x < 0x8000_0000
    case Int64 => -0x8000_0000_0000_0000 <= x < 0x8000_0000_0000_0000
    case UInt8 => 0 <= x < 0x100
    case UInt16 => 0 <= x < 0x1_0000
    case UInt32 => 0 <= x < 0x1_0000_0000
    case UInt64 => 0 <= x < 0x1_0000_0000_0000_0000
    case _ => true
  }

  lemma WrapSignedInRange(x: int, m: nat)
    requires m >= 2 && m % 2 == 0 && -(m / 2) <= x < m / 2
    ensures WrapSigned(x, m) == x
  {
    if x >= 0 {
      ModUnique(x, m, 0, x);
    } else {
      ModUnique(x, m, -1, x + m);
    }
  }

  /** A cast lands in the range of its type. */
  lemma WrapToFits(t: DataType, x: int)
    ensures InRange(t, WrapTo(t, x))
  {
  }

  /** Casting a value a type holds to that type leaves it unchanged. */
  lemma WrapToInRange(t: DataType, x: int)
    requires !IsFloatType(t) && InRange(t, x)
    ensures WrapTo(t, x) == x
  {
    match t
    case Int8 => WrapSignedInRange(x, 0x100);
    case Int16 => WrapSignedInRange(x, 0x1_0000);
    case Int32 => WrapSignedInRange(x, 0x1_0000_0000);
    case Int64 => WrapSignedInRange(x, 0x1_0000_0000_0000_0000);
    case UInt8 => ModUnique(x, 0x100, 0, x);
    case UInt16 => ModUnique(x, 0x1_0000, 0, x);
    case UInt32 => ModUnique(x, 0x1_0000_0000, 0, x);
    case UInt64 => ModUnique(x, 0x1_0000_0000_0000_0000, 0, x);
  }

  // ---------------------------------------------------------------------------
  // Writing: MAXScript values to components (`write_float_value`, `write_int_value`)
  // ---------------------------------------------------------------------------

  /** The error a failed MAXScript conversion raises; its text comes from MAXScript. */
  const ConversionError: string := "MAXScript conversion error"

  /** MAXScript `to_float`. */
  function ToFloat(v: MxsValue): Result<real>
  {
    match v
    case Float(f) => Ok(f)
    case Integer(i) => Ok(i as real)
    case Integer64(i) => Ok(i as real)
    case _ => Err(ConversionError)
  }

  /** MAXScript `to_int`: an `int`. */
  function ToInt(v: MxsValue): Result<int>
  {
    match v
    case Integer(i) => Ok(ToCInt(i))
    case Integer64(i) => Ok(ToCInt(i))
    case Float(f) => Ok(ToCInt(TruncReal(f)))
    case _ => Err(ConversionError)
  }

  function ToFloats(items: seq<MxsValue>): Result<seq<real>>
  {
    if |items| == 0 then Ok([])
    else
      match ToFloats(items[..|items| - 1])
      case Err(e) => Err(e)
      case Ok(init) =>
        match ToFloat(items[|items| - 1])
        case Err(e) => Err(e)
        case Ok(f) => Ok(init + [f])
  }

  function ToInts(items: seq<MxsValue>): Result<seq<int>>
  {
    if |items| == 0 then Ok([])
    else
      match ToInts(items[..|items| - 1])
      case Err(e) => Err(e)
      case Ok(init) =>
        match ToInt(items[|items| - 1])
        case Err(e) => Err(e)
        case Ok(n) => Ok(init + [n])
  }

  /**
   * The components a floating-point channel of `arity` takes from a
   * value: an array of exactly `arity` numbers element by element;
   * otherwise, by arity, a number, a Point2, a colour's RGB or a Point3, a
   * colour's RGB with a zero fourth component (the colour goes through a
   * Point3, which drops its alpha), a quaternion, an angle-axis as axis and negated angle,
   * or a Point4. Any other arity or value raises an error.
   */
  function FloatComponents(v: MxsValue, arity: nat): Result<seq<real>>
  {
    if v.Array? && |v.items| == arity then ToFloats(v.items)
    else if arity == 1 then
      (match ToFloat(v) case Ok(f) => Ok([f]) case Err(e) => Err(e))
    else if arity == 2 then
      (if v.Point2? then Ok([v.x, v.y]) else Err(ConversionError))
    else if arity == 3 then
      (if v.Color? then Ok([v.r, v.g, v.b])
       else if v.Point3? then Ok([v.x, v.y, v.z])
       else Err(ConversionError))
    else if arity == 4 then
      (if v.Color? then Ok([v.r, v.g, v.b, 0.0])
       else if v.Quat? then Ok([v.x, v.y, v.z, v.w])
       else if v.AngAxis? then Ok([v.ax, v.ay, v.az, -v.angle])
       else if v.Point4? then Ok([v.x, v.y, v.z, v.w])
       else Err(ConversionError))
    else Err(ConversionError)
  }

  /**
   * The components an integer channel of `arity` takes: an array of
   * exactly `arity` values element by element, else an integer, a 2- or a
   * 3-component integer point by arity; any other arity raises an error.
   */
  function IntComponents(v: MxsValue, arity: nat): Result<seq<int>>
  {
    if v.Array? && |v.items| == arity then ToInts(v.items)
    else if arity == 1 then
      (match ToInt(v) case Ok(n) => Ok([n]) case Err(e) => Err(e))
    else if arity == 2 then
      (if v.Point2? then Ok([ToCInt(TruncReal(v.x)), ToCInt(TruncReal(v.y))]) else Err(ConversionError))
    else if arity == 3 then
      (if v.Point3? then Ok([ToCInt(TruncReal(v.x)), ToCInt(TruncReal(v.y)), ToCInt(TruncReal(v.z))]) else Err(ConversionError))
    else Err(ConversionError)
  }

  /** The components of a channel decoded with its converter, integer ones cast to the channel type. */
  function WriteValue(c: Codec, v: MxsValue, arity: nat): (r: Result<Components>)
    ensures r.Ok? ==> Fits(c, r.value, arity)
  {
    match c
    case FloatCodec(_) =>
      (match FloatComponents(v, arity)
       case Ok(fs) => FloatComponentsLength(v, arity); Ok(Floats(fs))
       case Err(e) => Err(e))
    case IntCodec(t) =>
      (match IntComponents(v, arity)
       case Ok(ns) => IntComponentsLength(v, arity); Ok(Ints(WrapAll(t, ns)))
       case Err(e) => Err(e))
  }

  /** Each integer cast to the channel type. */
  function WrapAll(t: DataType, ns: seq<int>): (r: seq<int>)
    ensures |r| == |ns| && forall i :: 0 <= i < |ns| ==> r[i] == WrapTo(t, ns[i]) && InRange(t, r[i])
  {
    seq(|ns|, i requires 0 <= i < |ns| => WrapToFits(t, ns[i]); WrapTo(t, ns[i]))
  }

  /** Components of the converter's kind, one per element of the channel, each a value of an integer type. */
  predicate Fits(c: Codec, comps: Components, arity: nat)
  {
    match c
    case FloatCodec(_) => comps.Floats? && |comps.f| == arity
    case IntCodec(t) => comps.Ints? && |comps.n| == arity && forall i :: 0 <= i < arity ==> InRange(t, comps.n[i])
  }

  lemma {:induction false} ToFloatsLength(items: seq<MxsValue>)
    ensures ToFloats(items).Ok? ==> |ToFloats(items).value| == |items|
  {
    if |items| > 0 {
      ToFloatsLength(items[..|items| - 1]);
    }
  }

  lemma {:induction false} ToIntsLength(items: seq<MxsValue>)
    ensures ToInts(items).Ok? ==> |ToInts(items).value| == |items|
  {
    if |items| > 0 {
      ToIntsLength(items[..|items| - 1]);
    }
  }

  lemma FloatComponentsLength(v: MxsValue, arity: nat)
    ensures FloatComponents(v, arity).Ok? ==> |FloatComponents(v, arity).value| == arity
  {
    if v.Array? && |v.items| == arity {
      ToFloatsLength(v.items);
    }
  }

  lemma IntComponentsLength(v: MxsValue, arity: nat)
    ensures IntComponents(v, arity).Ok? ==> |IntComponents(v, arity).value| == arity
  {
    if v.Array? && |v.items| == arity {
      ToIntsLength(v.items);
    }
  }

  // ---------------------------------------------------------------------------
  // Reading: components to MAXScript values (`read_float_to_maxscript`, `read_int_to_maxscript`)
  // ---------------------------------------------------------------------------

  /** An integer component as a MAXScript value: an `Integer64` for int64, else an `Integer` of its `int` cast. */
  function IntValue(t: DataType, x: int): MxsValue
  {
    if t == Int64 then Integer64(x) else Integer(ToCInt(x))
  }

  /**
   * A channel's components as a MAXScript value: a floating-point
   * channel gives a Float for one component, a Point3 for three and an
   * array of Floats otherwise; an integer channel gives one integer value
   * for one component and an array of them otherwise.
   */
  function ReadValue(c: Codec, comps: Components, arity: nat): (v: MxsValue)
    requires Fits(c, comps, arity)
    ensures arity != 1 && !(c.FloatCodec? && arity == 3) ==> v.Array? && |v.items| == arity
  {
    match c
    case FloatCodec(_) =>
      var f := comps.f;
      if arity == 1 then Float(f[0])
      else if arity == 3 then Point3(f[0], f[1], f[2])
      else Array(seq(arity, i requires 0 <= i < arity => Float(f[i])))
    case IntCodec(t) =>
      var n := comps.n;
      if arity == 1 then IntValue(t, n[0])
      else Array(seq(arity, i requires 0 <= i < arity => IntValue(t, n[i])))
  }

  /**
   * The integer values that survive being read and written back: every
   * value of the 8-, 16- and 32-bit types, and the 64-bit values an `int`
   * holds, since writing goes through MAXScript's `to_int`.
   */
  predicate ReadsBack(t: DataType, x: int)
  {
    InRange(t, x) && (t == Int64 || t == UInt64 ==> -0x8000_0000 <= x < 0x8000_0000)
  }

  lemma IntValueReadsBack(t: DataType, x: int)
    requires !IsFloatType(t) && ReadsBack(t, x)
    ensures ToInt(IntValue(t, x)).Ok? && WrapTo(t, ToInt(IntValue(t, x)).value) == x
  {
    if t == UInt32 && x >= 0x8000_0000 {
      ModUnique(x, 0x1_0000_0000, 0, x);
      assert ToCInt(x) == x - 0x1_0000_0000;
      WrapSignedInRange(x - 0x1_0000_0000, 0x1_0000_0000);
      ModUnique(x - 0x1_0000_0000, 0x1_0000_0000, -1, x);
    } else {
      WrapSignedInRange(x, 0x1_0000_0000);
      WrapToInRange(t, x);
    }
  }

  lemma {:induction false} FloatsReadBack(f: seq<real>)
    ensures ToFloats(seq(|f|, i requires 0 <= i < |f| => Float(f[i]))) == Ok(f)
  {
    if |f| > 0 {
      var items := seq(|f|, i requires 0 <= i < |f| => Float(f[i]));
      var init := f[..|f| - 1];
      FloatsReadBack(init);
      assert items[..|items| - 1] == seq(|init|, i requires 0 <= i < |init| => Float(init[i]));
      assert f == init + [f[|f| - 1]];
    }
  }

  lemma {:induction false} IntsReadBack(t: DataType, n: seq<int>)
    requires !IsFloatType(t) && forall i :: 0 <= i < |n| ==> ReadsBack(t, n[i])
    ensures var r := ToInts(seq(|n|, i requires 0 <= i < |n| => IntValue(t, n[i])));
      r.Ok? && |r.value| == |n| && forall i :: 0 <= i < |n| ==> WrapTo(t, r.value[i]) == n[i]
  {
    if |n| > 0 {
      var items := seq(|n|, i requires 0 <= i < |n| => IntValue(t, n[i]));
      var init := n[..|n| - 1];
      IntsReadBack(t, init);
      assert items[..|items| - 1] == seq(|init|, i requires 0 <= i < |init| => IntValue(t, init[i]));
      IntValueReadsBack(t, n[|n| - 1]);
    }
  }

  /**
   * Writing back what was read gives the same components: every float
   * channel, and every integer channel whose values read back.
   */
  lemma ReadWriteRoundTrip(c: Codec, comps: Components, arity: nat)
    requires Fits(c, comps, arity)
    requires c.IntCodec? ==> !IsFloatType(c.t) && forall i :: 0 <= i < arity ==> ReadsBack(c.t, comps.n[i])
    ensures WriteValue(c, ReadValue(c, comps, arity), arity) == Ok(comps)
  {
    var v := ReadValue(c, comps, arity);
    match c
    case FloatCodec(_) =>
      if arity != 1 && arity != 3 {
        assert comps.f == seq(|comps.f|, i requires 0 <= i < |comps.f| => comps.f[i]);
        FloatsReadBack(comps.f);
      } else if arity == 3 {
        assert comps.f == [comps.f[0], comps.f[1], comps.f[2]];
      } else {
        assert comps.f == [comps.f[0]];
      }
    case IntCodec(t) =>
      var n := comps.n;
      if arity == 1 {
        IntValueReadsBack(t, n[0]);
        var x := ToInt(v).value;
        assert IntComponents(v, 1) == Ok([x]);
        assert WrapAll(t, [x]) == n;
      } else {
        IntsReadBack(t, n);
        var ns := IntComponents(v, arity).value;
        assert WrapAll(t, ns) == n;
      }
  }

  /** A uint64 value of 2^32 reads back as the `Integer` 0 and is written back as 0. */
  lemma UInt64LosesHighBits()
    ensures InRange(UInt64, 0x1_0000_0000)
    ensures ReadValue(IntCodec(UInt64), Ints([0x1_0000_0000]), 1) == Integer(0)
    ensures WriteValue(IntCodec(UInt64), Integer(0), 1) == Ok(Ints([0]))
  {
    ModUnique(0x1_0000_0000, 0x1_0000_0000, 1, 0);
    ModUnique(0, 0x1_0000_0000, 0, 0);
    ModUnique(0, 0x1_0000_0000_0000_0000, 0, 0);
    assert IntComponents(Integer(0), 1) == Ok([0]);
    assert WrapAll(UInt64, [0]) == [0];
  }

  // ---------------------------------------------------------------------------
  // Whole particles
  // ---------------------------------------------------------------------------

  /** One channel's components fit the channel's type and arity (any components for an unsupported type). */
  predicate ComponentsFit(ch: StreamChannel, comps: Components)
  {
    match CodecFor(ch.streamType)
    case Ok(c) => Fits(c, comps, ch.arity)
    case Err(_) => true
  }

  /** A particle of a channel map: one fitting entry per channel. */
  predicate ParticleFits(cs: seq<StreamChannel>, p: Particle)
  {
    |p| == |cs| && forall i :: 0 <= i < |cs| ==> ComponentsFit(cs[i], p[i])
  }

  const ClosedWriteError: string := "WriteParticle cannot be called on a closed stream"
  const NotArrayError: string := "WriteParticle expected an array argument"

  /** The first `n` channels of a particle array written with their converters, or the first channel's error. */
  function EncodeChannels(ws: seq<Codec>, cs: seq<StreamChannel>, items: seq<MxsValue>, n: nat): (r: Result<Particle>)
    requires n <= |cs| && |ws| == |cs| && |items| == |cs|
    ensures r.Ok? ==> |r.value| == n && forall i :: 0 <= i < n ==> Fits(ws[i], r.value[i], cs[i].arity)
  {
    if n == 0 then Ok([])
    else
      match EncodeChannels(ws, cs, items, n - 1)
      case Err(e) => Err(e)
      case Ok(init) =>
        match WriteValue(ws[n - 1], items[n - 1], cs[n - 1].arity)
        case Err(e) => Err(e)
        case Ok(c) => Ok(init + [c])
  }

  /**
   * `write_particle`: the particle a value gives, or the error raised: a
   * closed stream, a value that is not an array, an array whose size is not
   * the channel count, or the first channel that does not convert.
   */
  function EncodeParticle(ws: seq<Codec>, cs: seq<StreamChannel>, isOpen: bool, v: MxsValue): Result<Particle>
    requires |ws| == |cs|
  {
    if !isOpen then Err(ClosedWriteError)
    else if !v.Array? then Err(NotArrayError)
    else if |v.items| != |cs| then Err("WriteParticle an array of size " + Decimal(|cs|))
    else EncodeChannels(ws, cs, v.items, |cs|)
  }

  /** `read_particle` of a particle: an array of one value per channel. */
  function DecodeParticle(rs: seq<Codec>, cs: seq<StreamChannel>, p: Particle): (v: MxsValue)
    requires CodecsMatch(cs, rs) && ParticleFits(cs, p)
    ensures v.Array? && |v.items| == |cs|
  {
    Array(seq(|cs|, i requires 0 <= i < |cs| && CodecsMatch(cs, rs) && ParticleFits(cs, p) =>
      ReadValue(rs[i], p[i], cs[i].arity)))
  }

  /** What the output stream writes fits its channel map. */
  lemma EncodedFits(ws: seq<Codec>, cs: seq<StreamChannel>, isOpen: bool, v: MxsValue)
    requires CodecsMatch(cs, ws)
    ensures EncodeParticle(ws, cs, isOpen, v).Ok? ==> ParticleFits(cs, EncodeParticle(ws, cs, isOpen, v).value)
    ensures !isOpen ==> EncodeParticle(ws, cs, isOpen, v) == Err(ClosedWriteError)
    ensures isOpen && !v.Array? ==> EncodeParticle(ws, cs, isOpen, v) == Err(NotArrayError)
  {
    var r := EncodeParticle(ws, cs, isOpen, v);
    if r.Ok? {
      forall i | 0 <= i < |cs|
        ensures ComponentsFit(cs[i], r.value[i])
      {
        assert CodecFor(cs[i].streamType) == Ok(ws[i]);
      }
    }
  }

  /** The values a particle's integer components take read back. */
  predicate ParticleReadsBack(cs: seq<StreamChannel>, p: Particle)
    requires |p| == |cs|
  {
    forall i, k ::
      (0 <= i < |cs| && cs[i].streamType.Numeric? && !IsFloatType(cs[i].streamType.t) &&
       p[i].Ints? && 0 <= k < |p[i].n|) ==> ReadsBack(cs[i].streamType.t, p[i].n[k])
  }

  lemma {:induction false} EncodeDecoded(cs: seq<StreamChannel>, codecs: seq<Codec>, p: Particle, n: nat)
    requires CodecsMatch(cs, codecs) && ParticleFits(cs, p) && ParticleReadsBack(cs, p) && n <= |cs|
    ensures EncodeChannels(codecs, cs, DecodeParticle(codecs, cs, p).items, n) == Ok(p[..n])
  {
    if n > 0 {
      EncodeDecoded(cs, codecs, p, n - 1);
      ChannelReadsBack(cs, codecs, p, n - 1);
      assert p[..n] == p[..n - 1] + [p[n - 1]];
    }
  }

  /** One channel of a decoded particle is written back as it was read. */
  lemma ChannelReadsBack(cs: seq<StreamChannel>, codecs: seq<Codec>, p: Particle, i: nat)
    requires CodecsMatch(cs, codecs) && ParticleFits(cs, p) && ParticleReadsBack(cs, p) && i < |cs|
    ensures WriteValue(codecs[i], DecodeParticle(codecs, cs, p).items[i], cs[i].arity) == Ok(p[i])
  {
    var c := codecs[i];
    assert CodecFor(cs[i].streamType) == Ok(c);
    ReadWriteRoundTrip(c, p[i], cs[i].arity);
  }

  /**
   * A particle read by an input stream is written back unchanged by an
   * open output stream with the same channels, if its integer values read
   * back.
   */
  lemma ReadThenWrite(cs: seq<StreamChannel>, codecs: seq<Codec>, p: Particle)
    requires CodecsMatch(cs, codecs) && ParticleFits(cs, p) && ParticleReadsBack(cs, p)
    ensures EncodeParticle(codecs, cs, true, DecodeParticle(codecs, cs, p)) == Ok(p)
  {
    EncodeDecoded(cs, codecs, p, |cs|);
    assert p[..|cs|] == p;
  }

  // ---------------------------------------------------------------------------
  // Channel strings
  // ---------------------------------------------------------------------------

  /** frantic's `channel_data_type_str`. */
  function TypeString(st: StreamType): string
  {
    match st
    case OtherType(s) => s
    case Numeric(t) =>
      match t
      case Int8 => "int8"
      case Int16 => "int16"
      case Int32 => "int32"
      case Int64 => "int64"
      case UInt8 => "uint8"
      case UInt16 => "uint16"
      case UInt32 => "uint32"
      case UInt64 => "uint64"
      case Float16 => "float16"
      case Float32 => "float32"
      case Float64 => "float64"
  }

  /** The string `get_channels` reports for a channel: "name type[arity]". */
  function ChannelString(ch: StreamChannel): string
  {
    ch.name + " " + TypeString(ch.streamType) + "[" + Decimal(ch.arity) + "]"
  }

  /**
   * A channel string of a name without spaces splits at its one space
   * into the name and "type[arity]", closed by ']'.
   */
  lemma ChannelStringParts(ch: StreamChannel)
    requires ' ' !in ch.name && ch.streamType.Numeric?
    ensures var parts := Split(ChannelString(ch), ' ');
      parts == [ch.name, TypeString(ch.streamType) + "[" + Decimal(ch.arity) + "]"]
    ensures ChannelString(ch)[|ChannelString(ch)| - 1] == ']'
  {
    var tail := TypeString(ch.streamType) + "[" + Decimal(ch.arity) + "]";
    assert ' ' !in tail by {
      var d := Decimal(ch.arity);
      forall i | 0 <= i < |tail|
        ensures tail[i] != ' '
      {
        var ts := TypeString(ch.streamType);
        if i >= |ts| + 1 && i < |ts| + 1 + |d| {
          assert tail[i] == d[i - |ts| - 1];
        }
      }
    }
    assert ChannelString(ch) == ch.name + [' '] + tail;
    Krakatoa.SplitOneSeparator(ch.name, tail, ' ');
  }

  // ---------------------------------------------------------------------------
  // The streams
  // ---------------------------------------------------------------------------

  /** The constructors' loop: one converter per channel, or the error of the first unsupported type. */
  method BuildCodecs(cs: seq<StreamChannel>) returns (r: Result<seq<Codec>>)
    ensures r == CodecsFor(cs)
  {
    var codecs: seq<Codec> := [];
    var i := 0;
    while i < |cs|
      invariant 0 <= i <= |cs|
      invariant CodecsFor(cs[..i]) == Ok(codecs)
    {
      assert cs[..i + 1][..i] == cs[..i];
      var st := cs[i].streamType;
      if st.OtherType? {
        CodecsErrorStays(cs, i + 1);
        return Err("Invalid data type \"" + st.typeStr + "\"");
      }
      codecs := codecs + [if IsFloatType(st.t) then FloatCodec(st.t) else IntCodec(st.t)];
      i := i + 1;
    }
    assert cs[..i] == cs;
    return Ok(codecs);
  }

  /** Once a prefix of the channels fails, all of them fail with its error. */
  lemma {:induction false} CodecsErrorStays(cs: seq<StreamChannel>, n: nat)
    requires n <= |cs| && CodecsFor(cs[..n]).Err?
    ensures CodecsFor(cs) == CodecsFor(cs[..n])
    decreases |cs| - n
  {
    if n < |cs| {
      assert cs[..n + 1][..n] == cs[..n];
      CodecsErrorStays(cs, n + 1);
    } else {
      assert cs[..n] == cs;
    }
  }

  /** `KrakatoaParticleOStream`: the particles it has put to the file so far. */
  class ParticleOStream {
    var channels: seq<StreamChannel>
    var writers: seq<Codec>
    var isOpen: bool
    var written: seq<Particle>

    predicate Valid()
      reads this
    {
      CodecsMatch(channels, writers) && forall k :: 0 <= k < |written| ==> ParticleFits(channels, written[k])
    }

    constructor (channels: seq<StreamChannel>, writers: seq<Codec>)
      requires CodecsMatch(channels, writers)
      ensures Valid() && isOpen && written == []
      ensures this.channels == channels && this.writers == writers
    {
      this.channels := channels;
      this.writers := writers;
      isOpen := true;
      written := [];
    }

    /** `close`: only on an open stream, since closing twice dereferences a released pointer. */
    method Close()
      modifies this
      requires isOpen
      ensures !isOpen && channels == old(channels) && writers == old(writers) && written == old(written)
    {
      isOpen := false;
    }

    /** `write_particle`: puts the particle `v` gives, or returns the error raised. */
    method WriteParticle(v: MxsValue) returns (err: Option<string>)
      modifies this
      requires Valid()
      ensures channels == old(channels) && writers == old(writers) && isOpen == old(isOpen)
      ensures var e := EncodeParticle(writers, channels, isOpen, v);
        (err.None? <==> e.Ok?) && (e.Err? ==> err == Some(e.error)) &&
        written == old(written) + (if e.Ok? then [e.value] else [])
      ensures Valid()
    {
      EncodedFits(writers, channels, isOpen, v);
      if !isOpen {
        return Some(ClosedWriteError);
      }
      if !v.Array? {
        return Some(NotArrayError);
      }
      if |v.items| != |channels| {
        return Some("WriteParticle an array of size " + Decimal(|channels|));
      }
      var r := EncodeItems(writers, channels, v.items);
      if r.Err? {
        return Some(r.error);
      }
      written := written + [r.value];
      return None;
    }
  }

  /** The conversion loop of `write_particle`: the channels' components in order, or the first error. */
  method EncodeItems(ws: seq<Codec>, cs: seq<StreamChannel>, items: seq<MxsValue>) returns (r: Result<Particle>)
    requires |ws| == |cs| && |items| == |cs|
    ensures r == EncodeChannels(ws, cs, items, |cs|)
  {
    var buffer: Particle := [];
    var i := 0;
    while i < |cs|
      invariant 0 <= i <= |cs|
      invariant EncodeChannels(ws, cs, items, i) == Ok(buffer)
    {
      var c := WriteValue(ws[i], items[i], cs[i].arity);
      if c.Err? {
        EncodeErrorStays(ws, cs, items, i + 1);
        return Err(c.error);
      }
      buffer := buffer + [c.value];
      i := i + 1;
    }
    return Ok(buffer);
  }

  lemma {:induction false} EncodeErrorStays(ws: seq<Codec>, cs: seq<StreamChannel>, items: seq<MxsValue>, n: nat)
    requires n <= |cs| && |ws| == |cs| && |items| == |cs| && EncodeChannels(ws, cs, items, n).Err?
    ensures EncodeChannels(ws, cs, items, |cs|) == EncodeChannels(ws, cs, items, n)
    decreases |cs| - n
  {
    if n < |cs| {
      EncodeErrorStays(ws, cs, items, n + 1);
    }
  }

  /** Opening an output stream: it fails on the first channel of an unsupported type. */
  method OpenOStream(channels: seq<StreamChannel>) returns (r: Result<ParticleOStream>)
    ensures r.Ok? <==> CodecsFor(channels).Ok?
    ensures r.Err? ==> r.error == CodecsFor(channels).error
    ensures r.Ok? ==> (fresh(r.value) && r.value.Valid() && r.value.isOpen && r.value.written == [] &&
      r.value.channels == channels && r.value.writers == CodecsFor(channels).value)
  {
    var codecs := BuildCodecs(channels);
    CodecsForChannels(channels);
    if codecs.Err? {
      return Err(codecs.error);
    }
    var s := new ParticleOStream(channels, codecs.value);
    return Ok(s);
  }

  /** `KrakatoaParticleIStream` over a stream's remaining particles. */
  class ParticleIStream {
    var channels: seq<StreamChannel>
    var readers: seq<Codec>
    var channelStrings: seq<string>
    var isOpen: bool
    /** The underlying stream: its particles, the position of the next one, and its `particle_count`. */
    var particles: seq<Particle>
    var pos: nat
    var count: int

    predicate Valid()
      reads this
    {
      CodecsMatch(channels, readers) && |channelStrings| == |channels| &&
      (forall i :: 0 <= i < |channels| ==> channelStrings[i] == ChannelString(channels[i])) &&
      pos <= |particles| && forall k :: 0 <= k < |particles| ==> ParticleFits(channels, particles[k])
    }

    constructor (channels: seq<StreamChannel>, readers: seq<Codec>, particles: seq<Particle>, count: int)
      requires CodecsMatch(channels, readers)
      requires forall k :: 0 <= k < |particles| ==> ParticleFits(channels, particles[k])
      ensures Valid() && isOpen && pos == 0
      ensures this.channels == channels && this.readers == readers && this.particles == particles
      ensures this.count == count
    {
      this.channels := channels;
      this.readers := readers;
      this.particles := particles;
      this.count := count;
      isOpen := true;
      pos := 0;
      channelStrings := seq(|channels|, i requires 0 <= i < |channels| => ChannelString(channels[i]));
    }

    /** `get_count`: the stream's count, 0 once closed. */
    function GetCount(): (n: int)
      reads this
      ensures !isOpen ==> n == 0
      ensures isOpen ==> n == count
    {
      if !isOpen then 0 else count
    }

    /** `get_channels`: one "name type[arity]" string per channel, none once closed. */
    function GetChannels(): (r: seq<string>)
      reads this
      requires Valid()
      ensures !isOpen ==> r == []
      ensures isOpen ==> |r| == |channels| && forall i :: 0 <= i < |r| ==> r[i] == ChannelString(channels[i])
    {
      if isOpen then channelStrings else []
    }

    /** `close`: closes an open stream and does nothing to a closed one. */
    method Close()
      modifies this
      ensures !isOpen
      ensures channels == old(channels) && readers == old(readers) && channelStrings == old(channelStrings)
      ensures particles == old(particles) && pos == old(pos) && count == old(count)
    {
      if isOpen {
        isOpen := false;
      }
    }

    /** `skip_particles`: reads and drops up to `n` particles, counting only those actually read. */
    method SkipParticles(n: int)
      modifies this
      requires Valid()
      ensures Valid()
      ensures var left := |particles| - old(pos);
        pos == old(pos) + if !isOpen || n <= 0 then 0 else if n <= left then n else left
      ensures channels == old(channels) && readers == old(readers) && channelStrings == old(channelStrings)
      ensures particles == old(particles) && isOpen == old(isOpen) && count == old(count)
    {
      if isOpen {
        var toSkip := n;
        var p := pos;
        while toSkip > 0 && p < |particles|
          invariant pos <= p <= |particles|
          invariant toSkip == n - (p - pos)
          invariant n <= 0 ==> p == pos
          invariant n > 0 ==> toSkip >= 0
          decreases |particles| - p
        {
          p := p + 1;
          toSkip := toSkip - 1;
        }
        pos := p;
      }
    }

    /** `read_particle`: the next particle as an array of one value per channel, undefined at the end or once closed. */
    method ReadParticle() returns (v: MxsValue)
      modifies this
      requires Valid()
      ensures channels == old(channels) && readers == old(readers) && channelStrings == old(channelStrings)
      ensures particles == old(particles) && isOpen == old(isOpen) && count == old(count)
      ensures Valid()
      ensures if !old(isOpen) || old(pos) == |particles| then v == Undefined && pos == old(pos)
              else v == DecodeParticle(readers, channels, particles[old(pos)]) && pos == old(pos) + 1
    {
      if !isOpen || pos == |particles| {
        return Undefined;
      }
      var p := particles[pos];
      pos := pos + 1;
      var items: seq<MxsValue> := [];
      for i := 0 to |channels|
        invariant |items| == i
        invariant forall k :: 0 <= k < i ==> items[k] == ReadValue(readers[k], p[k], channels[k].arity)
      {
        assert CodecFor(channels[i].streamType) == Ok(readers[i]);
        items := items + [ReadValue(readers[i], p[i], channels[i].arity)];
      }
      v := Array(items);
    }
  }

  /** Opening an input stream: it fails on the first channel of an unsupported type. */
  method OpenIStream(channels: seq<StreamChannel>, particles: seq<Particle>, count: int)
    returns (r: Result<ParticleIStream>)
    requires forall k :: 0 <= k < |particles| ==> ParticleFits(channels, particles[k])
    ensures r.Ok? <==> CodecsFor(channels).Ok?
    ensures r.Err? ==> r.error == CodecsFor(channels).error
    ensures r.Ok? ==> (fresh(r.value) && r.value.Valid() && r.value.isOpen && r.value.pos == 0 &&
      r.value.channels == channels && r.value.readers == CodecsFor(channels).value &&
      r.value.particles == particles && r.value.count == count)
  {
    var codecs := BuildCodecs(channels);
    CodecsForChannels(channels);
    if codecs.Err? {
      return Err(codecs.error);
    }
    var s := new ParticleIStream(channels, codecs.value, particles, count);
    return Ok(s);
  }
}
