/**
 * The PRT Cloner modifier (src/Misc/MaxKrakatoaPRTClonerMod.cpp): it
 * replaces every particle of its input (the "delegate" stream) with a copy
 * of the particles of one of its clone sources, transformed to the
 * delegate particle, or, in sphere mode, with a random number of points in
 * a sphere around it.
 *
 * A channel map is a map from channel name to arity and data type. A clone
 * source is its particle count and channel map. The transforms, colours,
 * velocities and normals written into each output particle are floating
 * point work and are not modelled: an output particle is identified by the
 * delegate particle, the source and the source particle it was made from,
 * and carries its density factor.
 */
module ClonerMod {
  import opened Common
  import opened KrakatoaHeader

  // ---------------------------------------------------------------------------
  // The native channel map: the sources' channels, then the delegate's
  // ---------------------------------------------------------------------------

  datatype ChannelDef = ChannelDef(arity: int, dataType: DataType)

  type ChannelMap = map<string, ChannelDef>

  const SourcePrefix: string := "Source_"

  predicate StartsWithSource(name: string)
  {
    |SourcePrefix| <= |name| && name[..|SourcePrefix|] == SourcePrefix
  }

  /** The name a delegate channel takes when a source already has a channel of its name. */
  function SourceName(name: string): (r: string)
    ensures |r| == |SourcePrefix| + |name|
    ensures r[..|SourcePrefix|] == SourcePrefix && r[|SourcePrefix|..] == name
  {
    SourcePrefix + name
  }

  /** `union_channel_map` of the source maps in order: a name keeps the definition of its first source. */
  function UnionOf(maps: seq<ChannelMap>): ChannelMap
  {
    if |maps| == 0 then map[] else maps[|maps| - 1] + UnionOf(maps[..|maps| - 1])
  }

  /** The native map and the record of renamed delegate channels being built by `init_native_map`. */
  datatype NativeState = NativeState(native: ChannelMap, renamed: map<string, string>)

  /**
   * One delegate channel added to the native map: a `Source_` channel is
   * skipped; a name the map already has is added once as `Source_` + name
   * and the rename is recorded; any other name is added as it is.
   */
  function AddDelegateChannel(s: NativeState, c: Channel): NativeState
  {
    if StartsWithSource(c.name) then s
    else if c.name in s.native then
      var newName := SourceName(c.name);
      NativeState(if newName in s.native then s.native else s.native[newName := ChannelDef(c.arity, c.dataType)],
                  s.renamed[c.name := newName])
    else
      NativeState(s.native[c.name := ChannelDef(c.arity, c.dataType)], s.renamed)
  }

  function AddDelegateChannels(s: NativeState, cs: seq<Channel>): NativeState
  {
    if |cs| == 0 then s else AddDelegateChannel(AddDelegateChannels(s, cs[..|cs| - 1]), cs[|cs| - 1])
  }

  /** What `init_native_map` builds from the source maps and the delegate's native channels. */
  function NativeMapOf(sources: seq<ChannelMap>, delegate: seq<Channel>): NativeState
  {
    AddDelegateChannels(NativeState(UnionOf(sources), map[]), delegate)
  }

  /**
   * The two loops of `init_native_map`: the union of the source maps, then
   * the delegate's native channels added one by one.
   */
  method BuildNativeMap(maps: seq<ChannelMap>, delegate: seq<Channel>) returns (m: ChannelMap, r: map<string, string>)
    ensures NativeState(m, r) == NativeMapOf(maps, delegate)
  {
    m := map[];
    var i := 0;
    while i < |maps|
      invariant 0 <= i <= |maps|
      invariant m == UnionOf(maps[..i])
    {
      assert maps[..i + 1][..i] == maps[..i];
      m := maps[i] + m;
      i := i + 1;
    }
    assert maps[..i] == maps;
    r := map[];
    var j := 0;
    while j < |delegate|
      invariant 0 <= j <= |delegate|
      invariant NativeState(m, r) == AddDelegateChannels(NativeState(UnionOf(maps), map[]), delegate[..j])
    {
      var c := delegate[j];
      assert delegate[..j + 1][..j] == delegate[..j];
      if !StartsWithSource(c.name) {
        if c.name in m {
          var newName := SourcePrefix + c.name;
          r := r[c.name := newName];
          if newName !in m {
            m := m[newName := ChannelDef(c.arity, c.dataType)];
          }
        } else {
          m := m[c.name := ChannelDef(c.arity, c.dataType)];
        }
      }
      j := j + 1;
    }
    assert delegate[..j] == delegate;
  }

  /** The union has exactly the names of the sources, each with the definition of the first source that has it. */
  lemma {:induction false} UnionOfFirst(maps: seq<ChannelMap>, n: string)
    ensures n in UnionOf(maps) <==> exists i :: 0 <= i < |maps| && n in maps[i]
    ensures forall i :: 0 <= i < |maps| && n in maps[i] && (forall j :: 0 <= j < i ==> n !in maps[j]) ==>
              UnionOf(maps)[n] == maps[i][n]
  {
    if |maps| > 0 {
      var init := maps[..|maps| - 1];
      UnionOfFirst(init, n);
      assert forall i :: 0 <= i < |init| ==> init[i] == maps[i];
    }
  }

  /** Adding delegate channels never changes a channel already in the map. */
  lemma {:induction false} DelegateKeepsChannels(s: NativeState, cs: seq<Channel>, n: string)
    requires n in s.native
    ensures var r := AddDelegateChannels(s, cs); n in r.native && r.native[n] == s.native[n]
  {
    if |cs| > 0 {
      DelegateKeepsChannels(s, cs[..|cs| - 1], n);
    }
  }

  /** Every recorded rename maps a name that does not start with `Source_` to `Source_` + name. */
  lemma {:induction false} RenamesArePrefixed(s: NativeState, cs: seq<Channel>)
    requires forall k :: k in s.renamed ==> !StartsWithSource(k) && s.renamed[k] == SourceName(k)
    ensures var r := AddDelegateChannels(s, cs);
      forall k :: k in r.renamed ==> !StartsWithSource(k) && r.renamed[k] == SourceName(k)
  {
    if |cs| > 0 {
      RenamesArePrefixed(s, cs[..|cs| - 1]);
    }
  }

  /** Splitting the delegate channels in two: the second part is added to what the first built. */
  lemma {:induction false} AddDelegateChannelsAppend(s: NativeState, a: seq<Channel>, b: seq<Channel>)
    ensures AddDelegateChannels(s, a + b) == AddDelegateChannels(AddDelegateChannels(s, a), b)
  {
    if |b| == 0 {
      assert a + b == a;
    } else {
      assert (a + b)[..|a + b| - 1] == a + b[..|b| - 1];
      AddDelegateChannelsAppend(s, a, b[..|b| - 1]);
    }
  }

  /** A recorded rename stays recorded. */
  lemma {:induction false} RenameKept(s: NativeState, cs: seq<Channel>, k: string)
    requires k in s.renamed && s.renamed[k] == SourceName(k)
    ensures var r := AddDelegateChannels(s, cs); k in r.renamed && r.renamed[k] == s.renamed[k]
  {
    if |cs| > 0 {
      RenameKept(s, cs[..|cs| - 1], k);
    }
  }

  /** A name no delegate channel has is never recorded as renamed. */
  lemma {:induction false} NotRenamed(s: NativeState, cs: seq<Channel>, n: string)
    requires n !in s.renamed
    requires forall i :: 0 <= i < |cs| ==> cs[i].name != n
    ensures n !in AddDelegateChannels(s, cs).renamed
  {
    if |cs| > 0 {
      NotRenamed(s, cs[..|cs| - 1], n);
    }
  }

  /** A name without the `Source_` prefix that no delegate channel has is never added. */
  lemma {:induction false} NotAdded(s: NativeState, cs: seq<Channel>, n: string)
    requires n !in s.native && !StartsWithSource(n)
    requires forall i :: 0 <= i < |cs| ==> cs[i].name != n
    ensures n !in AddDelegateChannels(s, cs).native
  {
    if |cs| > 0 {
      NotAdded(s, cs[..|cs| - 1], n);
      var c := cs[|cs| - 1];
      assert SourceName(c.name) != n;
    }
  }

  /** The names of a channel map are distinct. */
  predicate DistinctNames(cs: seq<Channel>)
  {
    forall i, j :: 0 <= i < j < |cs| ==> cs[i].name != cs[j].name
  }

  /**
   * Where a delegate channel lands in the native map, for delegate
   * channels with distinct names: one without the `Source_` prefix is in
   * the map; it is renamed exactly when a source has a channel of its
   * name, then `Source_` + name is in the map too; otherwise it keeps its
   * own arity and type.
   */
  lemma DelegateChannelLands(sources: seq<ChannelMap>, cs: seq<Channel>, j: nat)
    requires DistinctNames(cs) && j < |cs| && !StartsWithSource(cs[j].name)
    ensures var u := UnionOf(sources); var r := NativeMapOf(sources, cs); var n := cs[j].name;
      n in r.native &&
      (n in r.renamed <==> n in u) &&
      (n in u ==> r.renamed[n] == SourceName(n) && SourceName(n) in r.native && r.native[n] == u[n]) &&
      (n !in u ==> r.native[n] == ChannelDef(cs[j].arity, cs[j].dataType))
  {
    var u := UnionOf(sources);
    var s0 := NativeState(u, map[]);
    var c := cs[j];
    var n := c.name;
    var before := AddDelegateChannels(s0, cs[..j]);
    assert cs[..j + 1][..j] == cs[..j];
    var after := AddDelegateChannels(s0, cs[..j + 1]);
    assert after == AddDelegateChannel(before, c);
    assert cs == cs[..j + 1] + cs[j + 1..];
    AddDelegateChannelsAppend(s0, cs[..j + 1], cs[j + 1..]);
    var rest := cs[j + 1..];
    assert forall i :: 0 <= i < |rest| ==> rest[i].name != n by {
      forall i | 0 <= i < |rest|
        ensures rest[i].name != n
      {
        assert rest[i] == cs[j + 1 + i];
      }
    }
    if n in u {
      DelegateKeepsChannels(s0, cs[..j], n);
      assert SourceName(n) in after.native && n in after.renamed;
      RenameKept(after, rest, n);
      DelegateKeepsChannels(after, rest, n);
      DelegateKeepsChannels(after, rest, SourceName(n));
      DelegateKeepsChannels(s0, cs, n);
    } else {
      assert forall i :: 0 <= i < |cs[..j]| ==> cs[..j][i].name != n;
      NotAdded(s0, cs[..j], n);
      NotRenamed(s0, cs[..j], n);
      assert n !in after.renamed;
      NotRenamed(after, rest, n);
      DelegateKeepsChannels(after, rest, n);
    }
  }

  /** The native map holds every source channel with the definition of the first source that has it. */
  lemma NativeKeepsSources(sources: seq<ChannelMap>, cs: seq<Channel>, n: string, i: nat)
    requires i < |sources| && n in sources[i] && forall j :: 0 <= j < i ==> n !in sources[j]
    ensures var r := NativeMapOf(sources, cs); n in r.native && r.native[n] == sources[i][n]
  {
    UnionOfFirst(sources, n);
    DelegateKeepsChannels(NativeState(UnionOf(sources), map[]), cs, n);
  }

  /** Every rename `init_native_map` records is from a delegate name to `Source_` + that name. */
  lemma NativeRenamesPrefixed(sources: seq<ChannelMap>, cs: seq<Channel>)
    ensures var r := NativeMapOf(sources, cs);
      forall k :: k in r.renamed ==> !StartsWithSource(k) && r.renamed[k] == SourceName(k)
  {
    RenamesArePrefixed(NativeState(UnionOf(sources), map[]), cs);
  }

  // ---------------------------------------------------------------------------
  // Choosing the source for each delegate particle
  // ---------------------------------------------------------------------------

  /** A C++ `int`. */
  type Int32 = x: int | -0x8000_0000 <= x < 0x8000_0000

  /**
   * `m_objIndexAccessor`: no accessor (round-robin selection), a default
   * index, or the delegate's ShapeIndex channel.
   */
  datatype IndexAccessor = NoAccessor | DefaultIndex(index: Int32) | ShapeIndexChannel

  /**
   * The source `prepare_next_source` moves to from `cur` (`n` meaning the
   * end of the sources) with `n` sources: the one after `cur`, wrapping to
   * the first, without an accessor; otherwise |index| mod `n` of the
   * accessor's index, the delegate particle's ShapeIndex for a channel
   * accessor.
   */
  function NextSource(acc: IndexAccessor, cur: nat, n: nat, shapeIndex: Int32): nat
    requires 0 < n && cur <= n
  {
    match acc
    case NoAccessor => if cur == n || cur + 1 == n then 0 else cur + 1
    case DefaultIndex(v) => Abs(v) % n
    case ShapeIndexChannel => Abs(shapeIndex) % n
  }

  function Abs(v: int): nat
  {
    if v < 0 then -v else v
  }

  /** The source of the `k`+1-th delegate particle in round-robin selection, from the end position. */
  function RoundRobin(n: nat, k: nat): (cur: nat)
    requires 0 < n
    ensures cur <= n
  {
    if k == 0 then n else NextSource(NoAccessor, RoundRobin(n, k - 1), n, 0)
  }

  /** Round-robin selection gives the `k`-th delegate particle (from 0) source `k` mod `n`. */
  lemma {:induction false} RoundRobinCycles(n: nat, k: nat)
    requires 0 < n
    ensures RoundRobin(n, k + 1) == k % n
  {
    if k > 0 {
      RoundRobinCycles(n, k - 1);
      assert RoundRobin(n, k + 1) == NextSource(NoAccessor, (k - 1) % n, n, 0);
      if (k - 1) % n + 1 == n {
        assert k % n == 0 by { ModStep(n, k); }
      } else {
        assert k % n == (k - 1) % n + 1 by { ModStep(n, k); }
      }
    }
  }

  lemma ModStep(n: nat, k: nat)
    requires 0 < n && 0 < k
    ensures (k - 1) % n + 1 == n ==> k % n == 0
    ensures (k - 1) % n + 1 < n ==> k % n == (k - 1) % n + 1
  {
    var q, r := (k - 1) / n, (k - 1) % n;
    if r + 1 == n {
      ModUnique(k, n, q + 1, 0);
    } else {
      ModUnique(k, n, q, r + 1);
    }
  }

  /**
   * With an accessor the choice does not depend on the previous source:
   * it is |index| mod `n`, a valid source, and an index and its negation
   * choose the same source.
   */
  lemma ShapeIndexChoice(acc: IndexAccessor, cur: nat, cur2: nat, n: nat, v: Int32)
    requires 0 < n && cur <= n && cur2 <= n && !acc.NoAccessor?
    ensures var k := NextSource(acc, cur, n, v);
      k < n && k == NextSource(acc, cur2, n, v) &&
      (acc.ShapeIndexChannel? ==> k == Abs(v) % n) &&
      (acc.ShapeIndexChannel? && v != -0x8000_0000 ==> k == NextSource(acc, cur, n, -v as Int32))
  {
  }

  /** Every selection gives a valid source. */
  lemma NextSourceValid(acc: IndexAccessor, cur: nat, n: nat, v: Int32)
    requires 0 < n && cur <= n
    ensures NextSource(acc, cur, n, v) < n
  {
  }

  /** C++ `std::abs` on an `int`, whose negation of the least `int` wraps back to itself. */
  function CAbs(v: Int32): Int32
  {
    if v == -0x8000_0000 then v else if v < 0 then -v else v
  }

  /** C++ `%`, which truncates toward zero. */
  function TruncMod(a: int, b: int): int
    requires b > 0
  {
    a - TruncDiv(a, b) * b
  }

  /** The shape-index choice as written: `std::abs` of the index, then C++ `%` by the source count. */
  function ShapeIndexAsWritten(v: Int32, n: nat): int
    requires 0 < n
  {
    TruncMod(CAbs(v), n)
  }

  /** The choice as written agrees with |index| mod `n` on every index but the least `int`. */
  lemma ShapeIndexAsWrittenAgrees(v: Int32, n: nat)
    requires 0 < n && v != -0x8000_0000
    ensures ShapeIndexAsWritten(v, n) == NextSource(ShapeIndexChannel, 0, n, v)
  {
  }

  /** With three sources, a ShapeIndex of -2147483648 selects the source at offset -2, before the first. */
  lemma LeastIndexSelectsBeforeFirst()
    ensures ShapeIndexAsWritten(-0x8000_0000, 3) == -2
  {
    assert TruncDiv(-0x8000_0000, 3) == -715827882;
  }

  // ---------------------------------------------------------------------------
  // The instancing stream
  // ---------------------------------------------------------------------------

  /** A clone source: its particles in the source's own space, as a count, and their channel map. */
  datatype SourceData = SourceData(count: nat, channels: ChannelMap)

  /** The values of a delegate particle that decide its replacement. */
  datatype DelegateParticle = DelegateParticle(shapeIndex: Int32, density: real)

  /**
   * A particle of the instancing stream: the delegate particle passed
   * through when its source is empty, or a copy of one source particle
   * placed at the delegate particle, with the factor its density is
   * scaled by.
   */
  datatype Emitted =
    | PassThrough(delegateIndex: nat)
    | Clone(delegateIndex: nat, source: nat, sourceParticle: nat, densityFactor: real)

  function SourceMaps(sources: seq<SourceData>): (maps: seq<ChannelMap>)
    ensures |maps| == |sources| && forall i :: 0 <= i < |sources| ==> maps[i] == sources[i].channels
  {
    if |sources| == 0 then [] else SourceMaps(sources[..|sources| - 1]) + [sources[|sources| - 1].channels]
  }

  /**
   * The accessor `init_delegate` sets up: none unless the ShapeIndex
   * selection is used; then the delegate's ShapeIndex channel, or a
   * default 0 when the delegate has none.
   */
  function InitialIndexAccessor(useShapeIndex: bool, hasShapeIndex: bool): IndexAccessor
  {
    if !useShapeIndex then NoAccessor else if hasShapeIndex then ShapeIndexChannel else DefaultIndex(0)
  }

  /**
   * The accessor after `set_wants_shapeindex(enabled)`: none when
   * disabled; when enabled, a channel accessor stays and anything else
   * becomes the default 0.
   */
  function WantedIndexAccessor(acc: IndexAccessor, enabled: bool): IndexAccessor
  {
    if !enabled then NoAccessor else if acc.ShapeIndexChannel? then ShapeIndexChannel else DefaultIndex(0)
  }

  /**
   * Disabling leaves round-robin selection, enabling always leaves an
   * accessor, and asking for what the stream was built with changes
   * nothing.
   */
  lemma WantedIndexAccessorMeets(acc: IndexAccessor, useShapeIndex: bool, hasShapeIndex: bool)
    ensures WantedIndexAccessor(acc, false) == NoAccessor
    ensures WantedIndexAccessor(acc, true) != NoAccessor
    ensures var init := InitialIndexAccessor(useShapeIndex, hasShapeIndex);
      WantedIndexAccessor(init, useShapeIndex) == init
    ensures WantedIndexAccessor(WantedIndexAccessor(acc, true), true) == WantedIndexAccessor(acc, true)
  {
  }

  /**
   * The factor a delegate particle's density is scaled by in each of the
   * `count` copies: the delegate's density (1 without a Density channel),
   * divided by the count when density compensation is on.
   */
  function DensityFactor(hasDensity: bool, density: real, compensate: bool, count: nat): real
    requires count > 0
  {
    var d := if hasDensity then density else 1.0;
    if compensate then d / (count as real) else d
  }

  /**
   * With compensation the copies of one delegate particle together carry
   * its density; without it each copy carries it whole.
   */
  lemma DensityCompensated(hasDensity: bool, density: real, count: nat)
    requires count > 0
    ensures (count as real) * DensityFactor(hasDensity, density, true, count) == (if hasDensity then density else 1.0)
    ensures DensityFactor(hasDensity, density, false, count) == (if hasDensity then density else 1.0)
  {
  }

  /** What reading particles never changes: the sources, the delegate and the stream's settings. */
  datatype StreamSettings = StreamSettings(
    sources: seq<SourceData>, delegateChannels: seq<Channel>, delegate: seq<DelegateParticle>,
    nativeMap: ChannelMap, renamed: map<string, string>, useShapeIndex: bool, indexAccessor: IndexAccessor,
    hasDensity: bool, compensateDensity: bool)

  /** Where reading has got to: the delegate position, the current source and particle, the density factor. */
  datatype ReadPosition = ReadPosition(
    delegatePos: nat, currentSrc: nat, particleIt: nat, particleEnd: nat, densityFactor: real, particleIndex: int)

  /** The whole state of an `instancing_particle_istream`, as a value. */
  datatype InstancingState = InstancingState(settings: StreamSettings, pos: ReadPosition)

  /**
   * The current source is one of the sources or the end; the current
   * particle lies within it; an unread source particle belongs to a
   * delegate particle already read.
   */
  predicate StateValid(st: InstancingState)
  {
    st.pos.currentSrc <= |st.settings.sources| && st.pos.particleIt <= st.pos.particleEnd && st.pos.delegatePos <= |st.settings.delegate| &&
    (st.pos.currentSrc < |st.settings.sources| ==> st.pos.particleEnd == st.settings.sources[st.pos.currentSrc].count) &&
    (st.pos.currentSrc == |st.settings.sources| ==> st.pos.particleEnd == 0) &&
    (st.pos.particleIt < st.pos.particleEnd ==> 0 < st.pos.delegatePos) &&
    st.pos.particleIndex >= -1
  }

  /** Every delegate particle is read and every copy of the last one emitted. */
  predicate StateExhausted(st: InstancingState)
  {
    st.pos.delegatePos == |st.settings.delegate| && st.pos.particleIt == st.pos.particleEnd
  }

  /** The parts of the state that reading particles never changes. */
  predicate SameSettings(a: InstancingState, b: InstancingState)
  {
    a.settings == b.settings
  }

  /**
   * `get_particle` on a state: the next copy of the current source's
   * particles; once they are used up, the next delegate particle picks its
   * source and, if that source is empty, passes through unchanged. None, and
   * no change, once the delegate is exhausted.
   */
  function NextParticle(st: InstancingState): (r: (Option<Emitted>, InstancingState))
    requires StateValid(st) && 0 < |st.settings.sources|
    ensures StateValid(r.1) && SameSettings(r.1, st)
    ensures r.0.None? <==> StateExhausted(st)
    ensures r.0.Some? ==> r.1.pos.particleIndex == st.pos.particleIndex + 1
  {
    if st.pos.particleIt < st.pos.particleEnd then
      (Some(Clone(st.pos.delegatePos - 1, st.pos.currentSrc, st.pos.particleIt, st.pos.densityFactor)),
       st.(pos := st.pos.(particleIt := st.pos.particleIt + 1, particleIndex := st.pos.particleIndex + 1)))
    else if st.pos.delegatePos == |st.settings.delegate| then (None, st)
    else
      var p := st.settings.delegate[st.pos.delegatePos];
      var src := NextSource(st.settings.indexAccessor, st.pos.currentSrc, |st.settings.sources|, p.shapeIndex);
      var end := st.settings.sources[src].count;
      var moved := st.pos.(delegatePos := st.pos.delegatePos + 1, currentSrc := src, particleIt := 0, particleEnd := end,
                           particleIndex := st.pos.particleIndex + 1);
      if end == 0 then (Some(PassThrough(st.pos.delegatePos)), st.(pos := moved))
      else
        var d := DensityFactor(st.settings.hasDensity, p.density, st.settings.compensateDensity, end);
        (Some(Clone(st.pos.delegatePos, src, 0, d)), st.(pos := moved.(particleIt := 1, densityFactor := d)))
  }

  /**
   * One `get_particle` from `st`, field by field, to the reading position
   * given: None, with no move, exactly when the delegate is exhausted; a copy
   * of the current source particle while the current source has particles
   * left; otherwise the next delegate particle picks its source and passes
   * through unchanged when that source is empty, else gives the first copy
   * with the density factor of the new source.
   */
  predicate ReadStep(st: InstancingState, out: Option<Emitted>, delegatePos: nat, currentSrc: nat,
                     particleIt: nat, particleEnd: nat, densityFactor: real, particleIndex: int)
    requires StateValid(st)
  {
    (out.None? <==> StateExhausted(st)) &&
    (out.None? ==>
       delegatePos == st.pos.delegatePos && currentSrc == st.pos.currentSrc && particleIt == st.pos.particleIt &&
       particleEnd == st.pos.particleEnd && densityFactor == st.pos.densityFactor && particleIndex == st.pos.particleIndex) &&
    (out.Some? ==> particleIndex == st.pos.particleIndex + 1) &&
    (st.pos.particleIt < st.pos.particleEnd ==>
       delegatePos == st.pos.delegatePos &&
       out == Some(Clone(st.pos.delegatePos - 1, currentSrc, st.pos.particleIt, densityFactor)) &&
       particleIt == st.pos.particleIt + 1 && currentSrc == st.pos.currentSrc && particleEnd == st.pos.particleEnd &&
       densityFactor == st.pos.densityFactor) &&
    (st.pos.particleIt == st.pos.particleEnd && out.Some? ==>
       var p := st.settings.delegate[st.pos.delegatePos];
       delegatePos == st.pos.delegatePos + 1 &&
       0 < |st.settings.sources| && currentSrc == NextSource(st.settings.indexAccessor, st.pos.currentSrc, |st.settings.sources|, p.shapeIndex) &&
       currentSrc < |st.settings.sources| && particleEnd == st.settings.sources[currentSrc].count &&
       if particleEnd == 0 then
         out == Some(PassThrough(st.pos.delegatePos)) && particleIt == 0 && densityFactor == st.pos.densityFactor
       else
         densityFactor == DensityFactor(st.settings.hasDensity, p.density, st.settings.compensateDensity, particleEnd) &&
         out == Some(Clone(st.pos.delegatePos, currentSrc, 0, densityFactor)) && particleIt == 1)
  }

  /**
   * The step `ReadStep` describes is the step `NextParticle` makes: the
   * settings stay and the reading position moves to the given one.
   */
  lemma StepIsNextParticle(st: InstancingState, out: Option<Emitted>, delegatePos: nat, currentSrc: nat,
                           particleIt: nat, particleEnd: nat, densityFactor: real, particleIndex: int)
    requires StateValid(st) && 0 < |st.settings.sources|
    requires ReadStep(st, out, delegatePos, currentSrc, particleIt, particleEnd, densityFactor, particleIndex)
    ensures NextParticle(st) ==
      (out, st.(pos := ReadPosition(delegatePos, currentSrc, particleIt, particleEnd, densityFactor, particleIndex)))
  {
  }

  /**
   * What one `get_particle` does: a copy of the current source particle
   * while the current source has particles left; otherwise the next
   * delegate particle is read and picks its source, passing through
   * unchanged when that source is empty and else giving the first copy
   * with the density factor of the new source; nothing, with no change,
   * once the delegate is exhausted. Every particle emitted belongs to a
   * delegate particle already read, and every copy to an existing particle
   * of an existing source.
   */
  lemma NextParticleCases(st: InstancingState)
    requires StateValid(st) && 0 < |st.settings.sources|
    ensures var r := NextParticle(st);
      r.0.None? ==> r.1 == st
    ensures var r := NextParticle(st);
      st.pos.particleIt < st.pos.particleEnd ==>
        r.0 == Some(Clone(st.pos.delegatePos - 1, st.pos.currentSrc, st.pos.particleIt, st.pos.densityFactor)) &&
        r.1 == st.(pos := st.pos.(particleIt := st.pos.particleIt + 1, particleIndex := st.pos.particleIndex + 1))
    ensures var r := NextParticle(st);
      st.pos.particleIt == st.pos.particleEnd && r.0.Some? ==>
        var p := st.settings.delegate[st.pos.delegatePos];
        var end := r.1.pos.particleEnd;
        r.1.pos.delegatePos == st.pos.delegatePos + 1 &&
        r.1.pos.currentSrc == NextSource(st.settings.indexAccessor, st.pos.currentSrc, |st.settings.sources|, p.shapeIndex) &&
        end == st.settings.sources[r.1.pos.currentSrc].count &&
        if end == 0 then
          r.0 == Some(PassThrough(st.pos.delegatePos)) && r.1.pos.particleIt == 0 && r.1.pos.densityFactor == st.pos.densityFactor
        else
          r.1.pos.densityFactor == DensityFactor(st.settings.hasDensity, p.density, st.settings.compensateDensity, end) &&
          r.0 == Some(Clone(st.pos.delegatePos, r.1.pos.currentSrc, 0, r.1.pos.densityFactor)) && r.1.pos.particleIt == 1
    ensures var r := NextParticle(st);
      r.0.Some? ==>
        r.0.value.delegateIndex < r.1.pos.delegatePos &&
        (r.0.value.Clone? ==>
           r.0.value.source < |st.settings.sources| && r.0.value.sourceParticle < st.settings.sources[r.0.value.source].count)
  {
  }

  /**
   * `get_particles` on a state: up to `num` particles, stopping early only
   * when the stream is exhausted.
   */
  function ReadParticles(st: InstancingState, num: nat): (r: (seq<Emitted>, InstancingState))
    requires StateValid(st) && 0 < |st.settings.sources|
    ensures StateValid(r.1) && SameSettings(r.1, st) && |r.0| <= num
    ensures |r.0| < num ==> StateExhausted(r.1)
    ensures r.1.pos.particleIndex == st.pos.particleIndex + |r.0|
    decreases num
  {
    if num == 0 then ([], st)
    else
      var next := NextParticle(st);
      if next.0.None? then ([], next.1)
      else
        var rest := ReadParticles(next.1, num - 1);
        ([next.0.value] + rest.0, rest.1)
  }

  /** One step of `ReadParticles`: the particle `NextParticle` gives, then the rest. */
  lemma ReadParticlesStep(st: InstancingState, num: nat)
    requires StateValid(st) && 0 < |st.settings.sources| && num > 0
    ensures var next := NextParticle(st);
      ReadParticles(st, num) ==
        if next.0.None? then ([], next.1)
        else ([next.0.value] + ReadParticles(next.1, num - 1).0, ReadParticles(next.1, num - 1).1)
  {
  }

  /** Reading one more particle after `i` appends the one `NextParticle` gives. */
  lemma {:induction false} ReadParticlesSnoc(st: InstancingState, i: nat)
    requires StateValid(st) && 0 < |st.settings.sources|
    requires NextParticle(ReadParticles(st, i).1).0.Some?
    ensures var before := ReadParticles(st, i); var next := NextParticle(before.1);
      ReadParticles(st, i + 1) == (before.0 + [next.0.value], next.1)
    decreases i
  {
    var next := NextParticle(st);
    if i == 0 {
      ReadParticlesStep(st, 1);
      assert [next.0.value] + ReadParticles(next.1, 0).0 == [] + [next.0.value];
    } else {
      var before := ReadParticles(next.1, i - 1);
      assert ReadParticles(st, i) == ([next.0.value] + before.0, before.1);
      ReadParticlesSnoc(next.1, i - 1);
      var last := NextParticle(before.1);
      assert [next.0.value] + (before.0 + [last.0.value]) == ([next.0.value] + before.0) + [last.0.value];
    }
  }

  /** Once the stream is exhausted, reading on gives nothing more and changes nothing. */
  lemma {:induction false} ReadParticlesStops(st: InstancingState, i: nat, num: nat)
    requires StateValid(st) && 0 < |st.settings.sources| && i <= num
    requires StateExhausted(ReadParticles(st, i).1)
    ensures ReadParticles(st, num) == ReadParticles(st, i)
    decreases i
  {
    var next := NextParticle(st);
    if i == 0 {
      if num > 0 {
        ReadParticlesStep(st, num);
      }
    } else {
      ReadParticlesStep(st, i);
      ReadParticlesStep(st, num);
      if next.0.Some? {
        ReadParticlesStops(next.1, i - 1, num - 1);
      }
    }
  }

  /**
   * The k-th particle that `get_particles` returns is the one a single
   * `get_particle` gives after k particles have been read.
   */
  lemma {:induction false} ReadParticlesOneByOne(st: InstancingState, num: nat, k: nat)
    requires StateValid(st) && 0 < |st.settings.sources| && k < |ReadParticles(st, num).0|
    ensures var before := ReadParticles(st, k);
      |before.0| == k && NextParticle(before.1).0 == Some(ReadParticles(st, num).0[k])
    decreases k
  {
    var next := NextParticle(st);
    if k > 0 {
      ReadParticlesOneByOne(next.1, num - 1, k - 1);
    }
  }

  /** `instancing_particle_istream`. */
  class InstancingStream {
    var sources: seq<SourceData>
    /** The delegate's native channel map, and its particles with the position of the next one to read. */
    var delegateChannels: seq<Channel>
    var delegate: seq<DelegateParticle>
    var delegatePos: nat
    /** `m_nativeMap` and `m_renamedChannels`. */
    var nativeMap: ChannelMap
    var renamed: map<string, string>
    var useShapeIndex: bool
    var indexAccessor: IndexAccessor
    /** Whether the delegate has a Density channel (else its density accessor gives 1). */
    var hasDensity: bool
    var compensateDensity: bool
    var densityFactor: real
    /** `m_currentSrc` (`|sources|` for the end) and the current source particle and end. */
    var currentSrc: nat
    var particleIt: nat
    var particleEnd: nat
    var particleIndex: int

    /** The stream's fields as one value. */
    function State(): InstancingState
      reads this
    {
      InstancingState(
        StreamSettings(sources, delegateChannels, delegate, nativeMap, renamed, useShapeIndex, indexAccessor,
                       hasDensity, compensateDensity),
        ReadPosition(delegatePos, currentSrc, particleIt, particleEnd, densityFactor, particleIndex))
    }

    predicate Valid()
      reads this
    {
      currentSrc <= |sources| && particleIt <= particleEnd && delegatePos <= |delegate| &&
      (currentSrc < |sources| ==> particleEnd == sources[currentSrc].count) &&
      (currentSrc == |sources| ==> particleEnd == 0) &&
      (particleIt < particleEnd ==> 0 < delegatePos) &&
      particleIndex >= -1
    }

    predicate Exhausted()
      reads this
    {
      delegatePos == |delegate| && particleIt == particleEnd
    }

    /** `Valid` and `Exhausted` are `StateValid` and `StateExhausted` of the stream's state. */
    lemma StateOfStream()
      ensures Valid() <==> StateValid(State())
      ensures Exhausted() <==> StateExhausted(State())
    {
    }

    constructor (delegateChannels: seq<Channel>, delegate: seq<DelegateParticle>, sources: seq<SourceData>,
                 useShapeIndex: bool)
      ensures Valid()
      ensures this.delegateChannels == delegateChannels && this.delegate == delegate && this.sources == sources
      ensures this.useShapeIndex == useShapeIndex
      ensures var st := NativeMapOf(SourceMaps(sources), delegateChannels);
        nativeMap == st.native && renamed == st.renamed
      ensures indexAccessor == InitialIndexAccessor(useShapeIndex, HasChannel(delegateChannels, "ShapeIndex"))
      ensures hasDensity == HasChannel(delegateChannels, "Density")
      ensures delegatePos == 0 && currentSrc == |sources| && particleIt == 0 && particleEnd == 0
      ensures particleIndex == -1 && compensateDensity && densityFactor == 1.0
    {
      this.delegateChannels := delegateChannels;
      this.delegate := delegate;
      this.sources := sources;
      this.useShapeIndex := useShapeIndex;
      delegatePos := 0;
      currentSrc := |sources|;
      particleIt := 0;
      particleEnd := 0;
      particleIndex := -1;
      compensateDensity := true;
      densityFactor := 1.0;
      hasDensity := HasChannel(delegateChannels, "Density");
      indexAccessor := InitialIndexAccessor(useShapeIndex, HasChannel(delegateChannels, "ShapeIndex"));
      nativeMap := map[];
      renamed := map[];
      new;
      InitNativeMap();
    }

    /** `init_native_map`: the union of the source maps, then the delegate's channels. */
    method InitNativeMap()
      modifies this
      requires Valid()
      ensures Valid()
      ensures var st := NativeMapOf(SourceMaps(sources), delegateChannels);
        nativeMap == st.native && renamed == st.renamed
      ensures sources == old(sources) && delegateChannels == old(delegateChannels) && delegate == old(delegate)
      ensures delegatePos == old(delegatePos) && useShapeIndex == old(useShapeIndex)
      ensures indexAccessor == old(indexAccessor) && hasDensity == old(hasDensity)
      ensures compensateDensity == old(compensateDensity) && densityFactor == old(densityFactor)
      ensures currentSrc == old(currentSrc) && particleIt == old(particleIt) && particleEnd == old(particleEnd)
      ensures particleIndex == old(particleIndex)
    {
      var m, r := BuildNativeMap(SourceMaps(sources), delegateChannels);
      nativeMap := m;
      renamed := r;
    }

    /** `set_compensate_density`. */
    method SetCompensateDensity(enabled: bool)
      modifies this
      ensures State() == old(State()).(settings := old(State()).settings.(compensateDensity := enabled))
      ensures Valid() == old(Valid())
    {
      compensateDensity := enabled;
    }

    /** `set_wants_shapeindex`. */
    method SetWantsShapeIndex(enabled: bool)
      modifies this
      ensures State() ==
        old(State()).(settings := old(State()).settings.(indexAccessor := WantedIndexAccessor(old(indexAccessor), enabled)))
      ensures Valid() == old(Valid())
    {
      if !enabled {
        indexAccessor := NoAccessor;
      } else if !indexAccessor.ShapeIndexChannel? {
        indexAccessor := DefaultIndex(0);
      }
    }

    /** `particle_count` and `particle_count_left`: unknown, -1. */
    function ParticleCount(): (c: int)
      ensures c == -1
    {
      -1
    }

    /** `prepare_next_source`: the source for the delegate particle just read. */
    method PrepareNextSource(shapeIndex: Int32)
      modifies this
      requires Valid() && 0 < |sources| && 0 < delegatePos
      ensures sources == old(sources) && delegate == old(delegate) && delegatePos == old(delegatePos)
      ensures Valid()
      ensures currentSrc == NextSource(old(indexAccessor), old(currentSrc), |sources|, shapeIndex)
      ensures particleIt == 0 && particleEnd == sources[currentSrc].count
      ensures indexAccessor == old(indexAccessor) && particleIndex == old(particleIndex)
      ensures compensateDensity == old(compensateDensity) && densityFactor == old(densityFactor)
      ensures hasDensity == old(hasDensity) && delegateChannels == old(delegateChannels)
      ensures nativeMap == old(nativeMap) && renamed == old(renamed) && useShapeIndex == old(useShapeIndex)
    {
      if indexAccessor.NoAccessor? {
        if currentSrc == |sources| || currentSrc + 1 == |sources| {
          currentSrc := 0;
        } else {
          currentSrc := currentSrc + 1;
        }
      } else {
        var index := if indexAccessor.DefaultIndex? then indexAccessor.index else shapeIndex;
        currentSrc := (if index < 0 then -index else index) % |sources|;
      }
      particleIt := 0;
      particleEnd := sources[currentSrc].count;
    }

    /**
     * The part of `get_particle` that runs once the current source's copies
     * are used up: the next delegate particle is read and picks its source;
     * it passes through unchanged when that source is empty, and otherwise
     * the first copy is given, with the density factor of the new source.
     */
    method NextDelegateParticle() returns (out: Emitted)
      modifies this
      requires Valid() && 0 < |sources| && particleIt == particleEnd && delegatePos < |delegate|
      ensures Valid()
      ensures sources == old(sources) && delegateChannels == old(delegateChannels) && delegate == old(delegate)
      ensures nativeMap == old(nativeMap) && renamed == old(renamed) && useShapeIndex == old(useShapeIndex)
      ensures indexAccessor == old(indexAccessor) && hasDensity == old(hasDensity)
      ensures compensateDensity == old(compensateDensity)
      ensures ReadStep(old(State()), Some(out), delegatePos, currentSrc, particleIt, particleEnd, densityFactor, particleIndex)
    {
      var p := delegate[delegatePos];
      delegatePos := delegatePos + 1;
      PrepareNextSource(p.shapeIndex);
      particleIndex := particleIndex + 1;
      if particleIt == particleEnd {
        return PassThrough(delegatePos - 1);
      }
      densityFactor := if hasDensity then p.density else 1.0;
      if compensateDensity {
        densityFactor := densityFactor / (sources[currentSrc].count as real);
      }
      out := Clone(delegatePos - 1, currentSrc, particleIt, densityFactor);
      particleIt := particleIt + 1;
    }

    /**
     * `get_particle`: the next copy of the current source's particles;
     * once they are used up, the next delegate particle picks its source
     * and, if that source is empty, passes through unchanged. None once
     * the delegate is exhausted.
     */
    method GetParticle() returns (out: Option<Emitted>)
      modifies this
      requires Valid() && 0 < |sources|
      ensures Valid()
      ensures sources == old(sources) && delegateChannels == old(delegateChannels) && delegate == old(delegate)
      ensures nativeMap == old(nativeMap) && renamed == old(renamed) && useShapeIndex == old(useShapeIndex)
      ensures indexAccessor == old(indexAccessor) && hasDensity == old(hasDensity)
      ensures compensateDensity == old(compensateDensity)
      ensures ReadStep(old(State()), out, delegatePos, currentSrc, particleIt, particleEnd, densityFactor, particleIndex)
    {
      if particleIt == particleEnd {
        if delegatePos == |delegate| {
          return None;
        }
        var first := NextDelegateParticle();
        return Some(first);
      }
      out := Some(Clone(delegatePos - 1, currentSrc, particleIt, densityFactor));
      particleIt := particleIt + 1;
      particleIndex := particleIndex + 1;
    }

    /**
     * `get_particles`: up to `num` particles; false when the stream runs
     * out first, with only the particles actually read.
     */
    method GetParticles(num: nat) returns (ok: bool, outs: seq<Emitted>)
      modifies this
      requires Valid() && 0 < |sources|
      ensures Valid()
      ensures (outs, State()) == ReadParticles(old(State()), num)
      ensures ok <==> |outs| == num
      ensures !ok ==> Exhausted()
    {
      ghost var start := State();
      outs := [];
      var i := 0;
      while i < num
        invariant 0 <= i <= num && |outs| == i
        invariant Valid() && sources == start.settings.sources
        invariant ReadParticles(start, i) == (outs, State())
      {
        ghost var cur := State();
        StateOfStream();
        var out := GetParticle();
        StepIsNextParticle(cur, out, delegatePos, currentSrc, particleIt, particleEnd, densityFactor, particleIndex);
        if out.None? {
          ReadParticlesStops(start, i, num);
          StateOfStream();
          return false, outs;
        }
        ReadParticlesSnoc(start, i);
        outs := outs + [out.value];
        i := i + 1;
      }
      return true, outs;
    }
  }

  // ---------------------------------------------------------------------------
  // The sphere stream (`randomizing_particle_istream`)
  // ---------------------------------------------------------------------------

  /** `m_numParticlesChannel`: a fixed count, or the delegate's Count channel. */
  datatype CountAccessor = FixedCount(count: int) | CountChannel

  /** The number of sphere points a delegate particle gets from a count: a negative count gives none. */
  function SphereCount(acc: CountAccessor, countChannel: int): (n: nat)
    ensures acc.FixedCount? ==> (n == 0 <==> acc.count <= 0) && (acc.count >= 0 ==> n == acc.count)
    ensures acc.CountChannel? ==> (n == 0 <==> countChannel <= 0) && (countChannel >= 0 ==> n == countChannel)
  {
    var c := if acc.FixedCount? then acc.count else countChannel;
    if c < 0 then 0 else c
  }

  /**
   * `particle_count_guess`: unknown (-1) when the delegate's guess is
   * unknown, else the delegate's guess times the default count.
   */
  function CountGuess(delegateGuess: int, defaultCount: int): (g: int)
    ensures delegateGuess < 0 ==> g == -1
    ensures delegateGuess >= 0 && defaultCount >= 0 ==> g >= 0 && (delegateGuess > 0 ==> g >= defaultCount)
  {
    if delegateGuess < 0 then -1 else delegateGuess * defaultCount
  }

  /** The points `n` delegate particles get when every one uses the fixed count `count`. */
  function FixedTotal(n: nat, count: int): nat
  {
    if n == 0 then 0 else FixedTotal(n - 1, count) + SphereCount(FixedCount(count), 0)
  }

  /** With a known delegate count and a count that is not negative, the guess is exact for the default count. */
  lemma {:induction false} GuessIsFixedTotal(n: nat, count: int)
    requires count >= 0
    ensures CountGuess(n, count) == FixedTotal(n, count)
  {
    if n > 0 {
      GuessIsFixedTotal(n - 1, count);
      assert n * count == (n - 1) * count + count;
    }
  }

  /** One accepted sample of `get_random_point_in_sphere`'s rejection loop: a point of the [-1, 1] cube. */
  datatype Sample = Sample(x: real, y: real, z: real)

  function MagnitudeSquared(s: Sample): real
  {
    s.x * s.x + s.y * s.y + s.z * s.z
  }

  /** A generated particle: its Position and its Density. */
  datatype SpherePoint = SpherePoint(x: real, y: real, z: real, density: real)

  /**
   * The particle made from one sample: the sample scaled by the radius, with
   * the density `pow(1 - sqrt(m), falloff)` of its squared magnitude m, here
   * the parameter `shade`.
   */
  function SpherePointOf(radius: real, falloff: real, s: Sample, shade: (real, real) -> real): SpherePoint
  {
    SpherePoint(radius * s.x, radius * s.y, radius * s.z, shade(MagnitudeSquared(s), falloff))
  }

  function PointMagnitudeSquared(p: SpherePoint): real
  {
    p.x * p.x + p.y * p.y + p.z * p.z
  }

  /** A sample in the unit ball, scaled by the radius, lies in the ball of that radius. */
  lemma ScaledSampleInBall(radius: real, falloff: real, s: Sample, shade: (real, real) -> real)
    requires MagnitudeSquared(s) <= 1.0
    ensures PointMagnitudeSquared(SpherePointOf(radius, falloff, s, shade)) <= radius * radius
  {
    var p := SpherePointOf(radius, falloff, s, shade);
    var r2 := radius * radius;
    assert p.x * p.x == r2 * (s.x * s.x);
    assert p.y * p.y == r2 * (s.y * s.y);
    assert p.z * p.z == r2 * (s.z * s.z);
    assert PointMagnitudeSquared(p) == r2 * MagnitudeSquared(s);
    assert r2 >= 0.0;
    assert r2 * MagnitudeSquared(s) <= r2 * 1.0;
  }

  /** `randomizing_particle_istream`'s settings and its one source. */
  class SphereStream {
    var countAccessor: CountAccessor
    var defaultCount: int
    var forceDefault: bool
    var radius: real
    var falloff: real
    /** The size compensated for: the sphere's diameter. */
    var sourceSize: real
    /** The one source's particles: the random points of the current delegate particle. */
    var points: seq<SpherePoint>

    /** One point per delegate particle, in a sphere of radius 1. */
    constructor ()
      ensures countAccessor == FixedCount(1) && defaultCount == 1 && !forceDefault && radius == 1.0
      ensures points == []
    {
      countAccessor := FixedCount(1);
      defaultCount := 1;
      forceDefault := false;
      radius := 1.0;
      falloff := 0.0;
      sourceSize := 1.0;
      points := [];
    }

    /** `set_default_count`: also the count used unless the Count channel is. */
    method SetDefaultCount(count: int)
      modifies this
      ensures defaultCount == count
      ensures countAccessor == if old(countAccessor).FixedCount? then FixedCount(count) else CountChannel
      ensures forceDefault == old(forceDefault) && radius == old(radius) && falloff == old(falloff)
      ensures sourceSize == old(sourceSize) && points == old(points)
    {
      defaultCount := count;
      if countAccessor.FixedCount? {
        countAccessor := FixedCount(defaultCount);
      }
    }

    /**
     * `enable_count_channel`: read counts from the delegate's Count channel,
     * or go back to the default count. Asking for the channel when the
     * delegate has none throws (`ok` is false) after the force flag is
     * already cleared, leaving the count accessor as it was.
     */
    method EnableCountChannel(enabled: bool, delegateHasCount: bool) returns (ok: bool)
      modifies this
      ensures ok <==> !enabled || delegateHasCount
      ensures forceDefault == !enabled
      ensures countAccessor == if !ok then old(countAccessor) else if enabled then CountChannel else FixedCount(defaultCount)
      ensures defaultCount == old(defaultCount) && radius == old(radius) && falloff == old(falloff)
      ensures sourceSize == old(sourceSize) && points == old(points)
    {
      forceDefault := !enabled;
      ok := true;
      if enabled {
        if !delegateHasCount {
          ok := false;
          return;
        }
        countAccessor := CountChannel;
      } else {
        countAccessor := FixedCount(defaultCount);
      }
    }

    /** `set_radius`: the source's size becomes the sphere's diameter. */
    method SetRadius(r: real)
      modifies this
      ensures radius == r && sourceSize == 2.0 * r
      ensures countAccessor == old(countAccessor) && defaultCount == old(defaultCount)
      ensures forceDefault == old(forceDefault) && falloff == old(falloff) && points == old(points)
    {
      radius := r;
      sourceSize := 2.0 * radius;
    }

    /** `set_falloff`: a negative falloff becomes 0. */
    method SetFalloff(f: real)
      modifies this
      ensures falloff >= 0.0 && (f >= 0.0 ==> falloff == f) && (f < 0.0 ==> falloff == 0.0)
      ensures countAccessor == old(countAccessor) && defaultCount == old(defaultCount)
      ensures forceDefault == old(forceDefault) && radius == old(radius) && sourceSize == old(sourceSize) && points == old(points)
    {
      falloff := if f < 0.0 then 0.0 else f;
    }

    /**
     * `prepare_next_source`: the source's particles are replaced by as many
     * random points as the count rule gives for the delegate particle whose
     * Count channel holds `countChannel`. Point i is the i-th accepted sample
     * of the random generator, scaled by the radius, with the density `shade`
     * gives its squared magnitude and the falloff.
     */
    method PrepareNextSource(countChannel: int, sample: nat -> Sample, shade: (real, real) -> real)
      requires forall i: nat :: MagnitudeSquared(sample(i)) < 1.0
      modifies this
      ensures |points| == SphereCount(countAccessor, countChannel)
      ensures forall i :: 0 <= i < |points| ==> points[i] == SpherePointOf(radius, falloff, sample(i), shade)
      ensures forall i :: 0 <= i < |points| ==> PointMagnitudeSquared(points[i]) <= radius * radius
      ensures countAccessor == old(countAccessor) && defaultCount == old(defaultCount)
      ensures forceDefault == old(forceDefault) && radius == old(radius) && falloff == old(falloff)
      ensures sourceSize == old(sourceSize)
    {
      var numParticles := if countAccessor.FixedCount? then countAccessor.count else countChannel;
      if numParticles < 0 {
        numParticles := 0;
      }
      points := [];
      var i := 0;
      while i < numParticles
        invariant 0 <= i <= numParticles && |points| == i
        invariant forall k :: 0 <= k < i ==> points[k] == SpherePointOf(radius, falloff, sample(k), shade)
        invariant countAccessor == old(countAccessor) && defaultCount == old(defaultCount)
        invariant forceDefault == old(forceDefault) && radius == old(radius) && falloff == old(falloff)
        invariant sourceSize == old(sourceSize)
      {
        points := points + [SpherePointOf(radius, falloff, sample(i), shade)];
        i := i + 1;
      }
      forall k | 0 <= k < |points|
        ensures PointMagnitudeSquared(points[k]) <= radius * radius
      {
        ScaledSampleInBall(radius, falloff, sample(k), shade);
      }
    }

    function ParticleCountGuess(delegateGuess: int): (g: int)
      reads this
      ensures g == CountGuess(delegateGuess, defaultCount)
    {
      CountGuess(delegateGuess, defaultCount)
    }
  }

  // ---------------------------------------------------------------------------
  // Clone mode of `ApplyModifier`
  // ---------------------------------------------------------------------------

  /** An entry of the clone-node list: missing, not a PRT object, or a PRT object's particles. */
  datatype CloneNode = MissingNode | NotPrtObject | PrtNode(source: SourceData)

  /** The stream clone mode gives: its input, or an instancing stream over the sources. */
  datatype CloneResult = InputStream | Instancing(sources: seq<SourceData>, useShapeIndex: bool)

  /** The particles of the usable clone nodes, in order. */
  function CloneSources(nodes: seq<CloneNode>): seq<SourceData>
  {
    if |nodes| == 0 then []
    else CloneSources(nodes[..|nodes| - 1]) +
         (if nodes[|nodes| - 1].PrtNode? then [nodes[|nodes| - 1].source] else [])
  }

  /**
   * Clone mode: without a usable clone node the input stream itself is
   * returned, without the neighbour-distance scaling even when that is on.
   */
  function CloneMode(nodes: seq<CloneNode>, shapeIndexSelection: bool): CloneResult
  {
    var sources := CloneSources(nodes);
    if |sources| == 0 then InputStream else Instancing(sources, shapeIndexSelection)
  }

  /** The sources are exactly the particles of the PRT clone nodes. */
  lemma {:induction false} CloneSourcesExact(nodes: seq<CloneNode>, src: SourceData)
    ensures src in CloneSources(nodes) <==> PrtNode(src) in nodes
    ensures |CloneSources(nodes)| <= |nodes|
  {
    if |nodes| > 0 {
      var init := nodes[..|nodes| - 1];
      CloneSourcesExact(init, src);
      assert nodes == init + [nodes[|nodes| - 1]];
    }
  }

  /**
   * Clone mode gives the input stream exactly when no clone node is a PRT
   * object, and otherwise an instancing stream over a nonempty list of
   * sources, as the stream's source selection needs.
   */
  lemma CloneModeInput(nodes: seq<CloneNode>, shapeIndexSelection: bool)
    ensures CloneMode(nodes, shapeIndexSelection) == InputStream <==> forall i :: 0 <= i < |nodes| ==> !nodes[i].PrtNode?
    ensures CloneMode(nodes, shapeIndexSelection).Instancing? ==>
      0 < |CloneMode(nodes, shapeIndexSelection).sources| &&
      CloneMode(nodes, shapeIndexSelection).useShapeIndex == shapeIndexSelection
  {
    var sources := CloneSources(nodes);
    if |sources| == 0 {
      forall i | 0 <= i < |nodes|
        ensures !nodes[i].PrtNode?
      {
        if nodes[i].PrtNode? {
          CloneSourcesExact(nodes, nodes[i].source);
          assert false;
        }
      }
    } else {
      CloneSourcesExact(nodes, sources[0]);
    }
  }
}
