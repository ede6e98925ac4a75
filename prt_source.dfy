/**
 * The PRT Source object (src/Objects/MaxKrakatoaPRTSource.cpp): its list of
 * Particle Flow events (add, clear, remove by index, names), the SELECTED
 * event filter, the viewport subset parameters, and `seekoff` of the stream
 * buffer adaptor over a source's byte stream.
 *
 * Scene nodes are opaque ids; a tab slot can also hold a null node.
 */
module PRTSource {
  import opened Common

  /** A slot of the `kPFEventList` tab. */
  datatype NodeRef = Null | Node(id: nat)

  predicate Distinct<T(==)>(s: seq<T>)
  {
    forall i, j :: 0 <= i < |s| && 0 <= j < |s| && i != j ==> s[i] != s[j]
  }

  // ---------------------------------------------------------------------------
  // Removing events by index
  // ---------------------------------------------------------------------------

  predicate SortedDescending(s: seq<int>)
  {
    forall i, j :: 0 <= i < j < |s| ==> s[i] >= s[j]
  }

  function InsertDescending(x: int, s: seq<int>): (r: seq<int>)
    requires SortedDescending(s)
    ensures SortedDescending(r) && multiset(r) == multiset(s) + multiset{x}
    ensures |r| > 0 && (r[0] == x || (|s| > 0 && r[0] == s[0]))
  {
    if |s| == 0 || x >= s[0] then [x] + s
    else
      var tail := InsertDescending(x, s[1..]);
      assert s == [s[0]] + s[1..];
      assert s[0] >= tail[0];
      [s[0]] + tail
  }

  /** `std::sort(..., std::greater<int>())`: the indices in descending order. */
  function SortDescending(s: seq<int>): (r: seq<int>)
    ensures SortedDescending(r) && multiset(r) == multiset(s)
  {
    if |s| == 0 then []
    else
      assert s == [s[0]] + s[1..];
      InsertDescending(s[0], SortDescending(s[1..]))
  }

  function RemoveAt<T>(s: seq<T>, i: nat): seq<T>
    requires i < |s|
  {
    s[..i] + s[i + 1..]
  }

  /** The deletion loop: each index in order removes that position when it is in range, and is ignored otherwise. */
  function RemoveEach<T>(s: seq<T>, indices: seq<int>): seq<T>
  {
    if |indices| == 0 then s
    else
      var i := indices[0];
      RemoveEach(if 0 <= i < |s| then RemoveAt(s, i) else s, indices[1..])
  }

  /** The elements of `s` whose positions are not in `drop`, in order. */
  function KeepOthers<T>(s: seq<T>, drop: set<int>): seq<T>
  {
    if |s| == 0 then []
    else KeepOthers(s[..|s| - 1], drop) + (if |s| - 1 in drop then [] else [s[|s| - 1]])
  }

  /** Only the positions of `s` matter to `KeepOthers`. */
  lemma {:induction false} KeepOthersPositions<T>(s: seq<T>, a: set<int>, b: set<int>)
    requires forall k :: 0 <= k < |s| ==> (k in a <==> k in b)
    ensures KeepOthers(s, a) == KeepOthers(s, b)
  {
    if |s| > 0 {
      KeepOthersPositions(s[..|s| - 1], a, b);
    }
  }

  /** Dropping no position keeps everything. */
  lemma {:induction false} KeepAll<T>(s: seq<T>, drop: set<int>)
    requires forall k :: 0 <= k < |s| ==> k !in drop
    ensures KeepOthers(s, drop) == s
  {
    if |s| > 0 {
      KeepAll(s[..|s| - 1], drop);
      assert s[..|s| - 1] + [s[|s| - 1]] == s;
    }
  }

  /** Removing position i, when every other dropped position is below it, is dropping i as well. */
  lemma {:induction false} RemoveAtKeep<T>(s: seq<T>, i: nat, drop: set<int>)
    requires i < |s|
    requires forall k :: k in drop ==> k < i
    ensures KeepOthers(RemoveAt(s, i), drop) == KeepOthers(s, drop + {i})
    decreases |s|
  {
    var L := |s| - 1;
    if i == L {
      assert RemoveAt(s, i) == s[..L];
      KeepOthersPositions(s[..L], drop, drop + {i});
    } else {
      var t := RemoveAt(s, i);
      assert t[..|t| - 1] == RemoveAt(s[..L], i);
      assert t[|t| - 1] == s[L];
      RemoveAtKeep(s[..L], i, drop);
    }
  }

  predicate StrictlyDescending(s: seq<int>)
  {
    forall i, j :: 0 <= i < j < |s| ==> s[i] > s[j]
  }

  /** Deleting strictly descending indices one by one drops exactly those positions. */
  lemma {:induction false} RemoveEachDescending<T>(s: seq<T>, indices: seq<int>)
    requires StrictlyDescending(indices)
    ensures RemoveEach(s, indices) == KeepOthers(s, set k | k in indices)
    decreases |indices|
  {
    if |indices| > 0 {
      var i := indices[0];
      var rest := indices[1..];
      assert StrictlyDescending(rest);
      var R := set k | k in rest;
      assert forall k :: k in R ==> k < i;
      assert (set k | k in indices) == R + {i};
      if 0 <= i < |s| {
        assert RemoveEach(s, indices) == RemoveEach(RemoveAt(s, i), rest);
        RemoveEachDescending(RemoveAt(s, i), rest);
        RemoveAtKeep(s, i, R);
      } else {
        assert RemoveEach(s, indices) == RemoveEach(s, rest);
        RemoveEachDescending(s, rest);
        KeepOthersPositions(s, R, R + {i});
      }
      assert KeepOthers(s, R + {i}) == KeepOthers(s, set k | k in indices);
    } else {
      KeepAll(s, set k | k in indices);
    }
  }

  /** A value occurring twice in a sequence counts twice in its multiset. */
  lemma RepeatCounts(s: seq<int>, k: nat)
    requires k + 1 < |s| && s[k] == s[k + 1]
    ensures multiset(s)[s[k]] >= 2
  {
    assert s == s[..k] + [s[k], s[k + 1]] + s[k + 2..];
  }

  lemma {:induction false} DistinctCounts(s: seq<int>, v: int)
    requires Distinct(s)
    ensures multiset(s)[v] <= 1
  {
    if |s| > 0 {
      assert s == [s[0]] + s[1..];
      assert Distinct(s[1..]);
      DistinctCounts(s[1..], v);
      if s[0] == v {
        assert v !in s[1..];
      }
    }
  }

  /** Sorting distinct indices gives a strictly descending sequence of the same indices. */
  lemma SortDistinct(s: seq<int>)
    requires Distinct(s)
    ensures StrictlyDescending(SortDescending(s))
    ensures (set k | k in SortDescending(s)) == (set k | k in s)
  {
    SortDistinctStrict(s);
    SortKeepsElements(s);
  }

  lemma SortDistinctStrict(s: seq<int>)
    requires Distinct(s)
    ensures StrictlyDescending(SortDescending(s))
  {
    var r := SortDescending(s);
    forall i, j | 0 <= i < j < |r|
      ensures r[i] > r[j]
    {
      NoTie(r, s, i, j);
    }
  }

  /** A sorted permutation of distinct values has no two equal entries. */
  lemma NoTie(r: seq<int>, s: seq<int>, i: nat, j: nat)
    requires SortedDescending(r) && multiset(r) == multiset(s) && Distinct(s)
    requires i < j < |r|
    ensures r[i] > r[j]
  {
    if r[i] == r[j] {
      assert r[i] >= r[i + 1] >= r[j];
      RepeatCounts(r, i);
      DistinctCounts(s, r[i]);
    }
  }

  lemma SortKeepsElements(s: seq<int>)
    ensures (set k | k in SortDescending(s)) == (set k | k in s)
  {
    var r := SortDescending(s);
    forall k
      ensures k in r <==> k in s
    {
      assert k in r <==> k in multiset(r);
      assert k in s <==> k in multiset(s);
    }
  }

  /**
   * For distinct indices, `RemoveParticleFlowEvents` removes exactly the
   * listed positions that are in range, and the other events keep their
   * order.
   */
  lemma RemoveDistinctIndices<T>(s: seq<T>, indices: seq<int>)
    requires Distinct(indices)
    ensures RemoveEach(s, SortDescending(indices)) == KeepOthers(s, set k | k in indices)
  {
    SortDistinct(indices);
    RemoveEachDescending(s, SortDescending(indices));
  }

  // ---------------------------------------------------------------------------
  // The event list
  // ---------------------------------------------------------------------------

  /** The object's `kPFEventList` tab. */
  class EventList {
    var events: seq<NodeRef>

    constructor ()
      ensures events == []
    {
      events := [];
    }

    /** `IsAcceptablePFlowEvent`: a non-null particle-group node that is not already listed. */
    method IsAcceptable(node: NodeRef, isParticleGroup: nat -> bool) returns (ok: bool)
      ensures ok <==> node.Node? && isParticleGroup(node.id) && node !in events
    {
      if node.Node? && isParticleGroup(node.id) {
        var i := 0;
        while i < |events|
          invariant 0 <= i <= |events|
          invariant node !in events[..i]
        {
          if node == events[i] {
            return false;
          }
          assert events[..i + 1] == events[..i] + [events[i]];
          i := i + 1;
        }
        assert events[..i] == events;
        return true;
      }
      return false;
    }

    /** `AddParticleFlowEvent`: append the node only when it is acceptable; so the list stays duplicate-free. */
    method AddParticleFlowEvent(node: NodeRef, isParticleGroup: nat -> bool)
      modifies this
      ensures events == if node.Node? && isParticleGroup(node.id) && node !in old(events)
        then old(events) + [node] else old(events)
      ensures Distinct(old(events)) ==> Distinct(events)
    {
      var ok := IsAcceptable(node, isParticleGroup);
      if ok {
        events := events + [node];
      }
    }

    /** `ClearParticleFlowEvents`. */
    method ClearParticleFlowEvents()
      modifies this
      ensures events == []
    {
      events := [];
    }

    /** `RemoveParticleFlowEvents`: sort the indices descending, then delete each one that is in range. */
    method RemoveParticleFlowEvents(indicesIn: seq<int>)
      modifies this
      ensures events == RemoveEach(old(events), SortDescending(indicesIn))
    {
      var indexList := SortDescending(indicesIn);
      var k := 0;
      while k < |indexList|
        invariant 0 <= k <= |indexList|
        invariant RemoveEach(events, indexList[k..]) == RemoveEach(old(events), indexList)
      {
        var index := indexList[k];
        assert indexList[k..][1..] == indexList[k + 1..];
        if index >= 0 && index < |events| {
          events := events[..index] + events[index + 1..];
        }
        k := k + 1;
      }
    }

    /**
     * `GetParticleFlowEventNames`: one name per slot, in order: the node's
     * name, "<deleted>" for a null node, "<error>" when the slot cannot be read.
     */
    method GetParticleFlowEventNames(readable: nat -> bool, nameOf: nat -> string) returns (names: seq<string>)
      ensures |names| == |events|
      ensures forall i :: 0 <= i < |events| ==>
        names[i] == if !readable(i) then "<error>" else if events[i].Null? then "<deleted>" else nameOf(events[i].id)
    {
      names := [];
      var i := 0;
      while i < |events|
        invariant 0 <= i <= |events| && |names| == i
        invariant forall k :: 0 <= k < i ==>
          names[k] == if !readable(k) then "<error>" else if events[k].Null? then "<deleted>" else nameOf(events[k].id)
      {
        if readable(i) {
          if events[i].Node? {
            names := names + [nameOf(events[i].id)];
          } else {
            names := names + ["<deleted>"];
          }
        } else {
          names := names + ["<error>"];
        }
        i := i + 1;
      }
    }
  }

  // ---------------------------------------------------------------------------
  // CacheInternal: the SELECTED event filter and the viewport subset
  // ---------------------------------------------------------------------------

  /**
   * What `CacheInternal` does first: a time inside the object's validity
   * keeps the cache as it is; any other time empties it, and it is rebuilt
   * only when the viewport is not disabled (or in render mode) and the
   * target node evaluates to an object.
   */
  datatype CacheAction = KeepCache | ClearOnly | Rebuild

  function CacheInternalAction(validity: Interval, t: int, inRenderMode: bool, viewportDisable: bool,
                               hasTargetNode: bool, hasObject: bool): (a: CacheAction)
    ensures a.KeepCache? <==> validity.start <= t <= validity.end
    ensures a.Rebuild? <==>
      !(validity.start <= t <= validity.end) && (inRenderMode || !viewportDisable) && hasTargetNode && hasObject
  {
    if validity.start <= t <= validity.end then KeepCache
    else if !inRenderMode && viewportDisable then ClearOnly
    else if !hasTargetNode || !hasObject then ClearOnly
    else Rebuild
  }

  /**
   * The particle-group part of the stream `CacheInternal` builds:
   * the concatenated groups, the empty stream with an ID channel, or, for a
   * node without groups, the node's own stream from the general factory.
   */
  datatype FlowStream = Concatenated(groups: set<NodeRef>) | EmptyWithId | FactoryStream

  /**
   * In SELECTED mode only the node's groups that are in the event list are
   * used; when there were groups but none survives, an empty stream with an
   * ID channel stands in; a node with no group at all takes the factory
   * branch.
   */
  function FlowStreamFor(selectedMode: bool, groups: set<NodeRef>, eventList: seq<NodeRef>): (r: FlowStream)
    ensures selectedMode ==> (r.EmptyWithId? <==> |groups| > 0 && groups * (set e | e in eventList) == {})
    ensures r.Concatenated? ==> (r.groups != {} &&
      r.groups == (if selectedMode then groups * (set e | e in eventList) else groups))
    ensures !selectedMode ==> (r.Concatenated? <==> |groups| > 0)
  {
    var allowlist := set e | e in eventList;
    var accepted := if selectedMode then groups * allowlist else groups;
    var allFilteredOut := selectedMode && |groups| > 0 && |accepted| == 0;
    if |accepted| > 0 then Concatenated(accepted)
    else if allFilteredOut then EmptyWithId
    else FactoryStream
  }

  const Int64Max: int := 0x7FFF_FFFF_FFFF_FFFF

  function Ceil(x: real): int
  {
    -((-x).Floor)
  }

  /** The viewport fraction, clamped to [0, 1]. */
  function ViewFraction(raw: real): (f: real)
    ensures 0.0 <= f <= 1.0
    ensures 0.0 <= raw <= 1.0 ==> f == raw
    ensures raw < 0.0 ==> f == 0.0
    ensures raw > 1.0 ==> f == 1.0
  {
    if raw < 0.0 then 0.0 else if raw > 1.0 then 1.0 else raw
  }

  /** The viewport limit: unlimited unless enabled, then 1000 times the raw limit rounded up, never negative. */
  function ViewLimit(useViewLimit: bool, rawViewLimit: real): (n: int)
    ensures !useViewLimit ==> n == Int64Max
    ensures useViewLimit ==> n >= 0 && (n > 0 ==> (n - 1) as real < 1000.0 * rawViewLimit <= n as real)
    ensures useViewLimit ==> (n == 0 <==> 1000.0 * rawViewLimit <= 0.0)
  {
    if useViewLimit then
      var v := Ceil(1000.0 * rawViewLimit);
      if v < 0 then 0 else v
    else Int64Max
  }

  /**
   * The viewport subset put around the stream outside render mode: by ID
   * when the stream has an ID channel, otherwise evenly.
   */
  datatype ViewportSubset = WholeStream | FractionalById(fraction: real, limit: int) | FractionalEvenly(fraction: real, limit: int)

  function ViewportStream(inRenderMode: bool, hasIdChannel: bool, rawFraction: real,
                          useViewLimit: bool, rawViewLimit: real): (s: ViewportSubset)
    ensures s.WholeStream? <==> inRenderMode
    ensures s.FractionalById? <==> !inRenderMode && hasIdChannel
    ensures !s.WholeStream? ==>
      s.fraction == ViewFraction(rawFraction) && s.limit == ViewLimit(useViewLimit, rawViewLimit)
  {
    if inRenderMode then WholeStream
    else if hasIdChannel then FractionalById(ViewFraction(rawFraction), ViewLimit(useViewLimit, rawViewLimit))
    else FractionalEvenly(ViewFraction(rawFraction), ViewLimit(useViewLimit, rawViewLimit))
  }

  // ---------------------------------------------------------------------------
  // IMaxKrakatoaPRTSourceStreamAdaptor
  // ---------------------------------------------------------------------------

  /** `std::ios_base::seekdir` and `openmode`. */
  datatype SeekDir = Beg | Cur | End
  datatype OpenMode = In | Out | InOut

  /**
   * The stream buffer over a source's byte stream: `pos` is `m_streamPos`,
   * `remaining` the bytes the source can still deliver.
   */
  class StreamAdaptor {
    var pos: int
    var remaining: nat

    constructor (available: nat)
      ensures pos == 0 && remaining == available
    {
      pos := 0;
      remaining := available;
    }

    /** `uflow` through `sbumpc`: one byte, or end of file. */
    method Bump() returns (eof: bool)
      modifies this
      ensures eof <==> old(remaining) == 0
      ensures eof ==> pos == old(pos) && remaining == old(remaining)
      ensures !eof ==> pos == old(pos) + 1 && remaining == old(remaining) - 1
    {
      if remaining == 0 {
        return true;
      }
      remaining := remaining - 1;
      pos := pos + 1;
      return false;
    }

    /**
     * `seekoff`: only input seeks from the start or the current position
     * are supported; a seek from the start is made relative, a backward
     * seek fails, and a forward one reads bytes until it arrives or the
     * source ends. The result is the new position, or -1.
     */
    method SeekOff(off: int, way: SeekDir, which: OpenMode) returns (ret: int)
      modifies this
      ensures var rel := if way == Beg then off - old(pos) else off;
        if which != In || way == End || rel < 0 then
          ret == -1 && pos == old(pos) && remaining == old(remaining)
        else
          var moved := if rel <= old(remaining) then rel else old(remaining);
          pos == old(pos) + moved && remaining == old(remaining) - moved && ret == pos
    {
      if which == In && way != End {
        var rel := off;
        if way == Beg {
          rel := rel - pos;
        }
        if rel < 0 {
          return -1;
        }
        var i := 0;
        while i < rel
          invariant 0 <= i <= rel
          invariant i <= old(remaining)
          invariant pos == old(pos) + i && remaining == old(remaining) - i
        {
          var eof := Bump();
          if eof {
            return pos;
          }
          i := i + 1;
        }
        return pos;
      }
      return -1;
    }
  }
}
