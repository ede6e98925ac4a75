/**
 * Renderer utilities (src/MaxKrakatoaUtils.cpp): defaulted property reads,
 * the two string-to-enum parsers, the in-place removal of particles with
 * a non-finite position, the participating-medium object filter, the
 * render channel map, the particle-cache refresh and the matte
 * motion-blur segment count.
 *
 * Scene queries (is a node hidden, renderable; is a position finite) are
 * function parameters.
 */
module KrakatoaUtils {
  import opened Common
  import opened KrakatoaHeader

  // ---------------------------------------------------------------------------
  // try_get_bool / try_get_int / try_get_float
  // ---------------------------------------------------------------------------

  /**
   * `try_get_*`: the stored value read through the typed getter when the
   * property exists, else the default (of the getter's own type).
   */
  function TryGet(props: map<string, PropValue>, name: string, t: PropType, default: PropValue): (r: Result<PropValue>)
    requires TypeOf(default) == t
    ensures name !in props ==> r == Ok(default)
    ensures name in props ==> r == GetProperty(props, name, t)
    ensures r.Ok? ==> TypeOf(r.value) == t
  {
    if name in props then GetProperty(props, name, t) else Ok(default)
  }

  /**
   * The nested reads of the hair-shader settings, where the newer property
   * name is read with the older one's value as its default: the newer
   * name wins, then the older one, then the literal default.
   */
  lemma FallbackRead(props: map<string, PropValue>, newer: string, older: string, t: PropType, default: PropValue)
    requires TypeOf(default) == t
    requires TryGet(props, older, t, default).Ok?
    ensures TryGet(props, newer, t, TryGet(props, older, t, default).value) ==
      if newer in props then GetProperty(props, newer, t)
      else if older in props then Ok(props[older])
      else Ok(default)
  {
  }

  // ---------------------------------------------------------------------------
  // from_string parsers
  // ---------------------------------------------------------------------------

  datatype DensityMethod = VolumetricDensity | AdditiveDensity | ConstantAlpha

  function DensityMethodName(m: DensityMethod): string
  {
    match m
    case VolumetricDensity => "Volumetric Density"
    case AdditiveDensity => "Additive Density"
    case ConstantAlpha => "Constant Alpha"
  }

  /** `particle_density_method::from_string`. */
  function DensityMethodFromString(str: string): (r: Result<DensityMethod>)
    ensures r.Ok? ==> DensityMethodName(r.value) == str
    ensures r.Err? ==> r.error == "particle_density_method_enum::from_string(): Invalid density mode: \"" + str + "\""
  {
    if str == "Volumetric Density" then Ok(VolumetricDensity)
    else if str == "Additive Density" then Ok(AdditiveDensity)
    else if str == "Constant Alpha" then Ok(ConstantAlpha)
    else Err("particle_density_method_enum::from_string(): Invalid density mode: \"" + str + "\"")
  }

  /** Exactly the three names parse, each to its own mode. */
  lemma DensityMethodRoundTrip(m: DensityMethod, str: string)
    ensures DensityMethodFromString(DensityMethodName(m)) == Ok(m)
    ensures DensityMethodFromString(str).Ok? <==>
      str == "Volumetric Density" || str == "Additive Density" || str == "Constant Alpha"
  {
  }

  datatype MatteDepthMapMethod = CameraSpace | NormalizedCameraSpace | NormalizedCameraSpaceInverted

  function MatteDepthMapMethodName(m: MatteDepthMapMethod): string
  {
    match m
    case CameraSpace => "Camera Space Z Depth"
    case NormalizedCameraSpace => "Normalized Z Depth"
    case NormalizedCameraSpaceInverted => "Inverted Normalized Z Depth"
  }

  /** `matte_depth_map_method::from_string`. */
  function MatteDepthMapMethodFromString(str: string): (r: Result<MatteDepthMapMethod>)
    ensures r.Ok? ==> MatteDepthMapMethodName(r.value) == str
    ensures r.Err? ==> r.error == "matte_depth_map_method::from_string() received an invalid string: \"" + str + "\""
  {
    if str == "Camera Space Z Depth" then Ok(CameraSpace)
    else if str == "Normalized Z Depth" then Ok(NormalizedCameraSpace)
    else if str == "Inverted Normalized Z Depth" then Ok(NormalizedCameraSpaceInverted)
    else Err("matte_depth_map_method::from_string() received an invalid string: \"" + str + "\"")
  }

  lemma MatteDepthMapMethodRoundTrip(m: MatteDepthMapMethod, str: string)
    ensures MatteDepthMapMethodFromString(MatteDepthMapMethodName(m)) == Ok(m)
    ensures MatteDepthMapMethodFromString(str).Ok? <==>
      str == "Camera Space Z Depth" || str == "Normalized Z Depth" || str == "Inverted Normalized Z Depth"
  {
  }

  // ---------------------------------------------------------------------------
  // Swap-remove filtering
  // ---------------------------------------------------------------------------

  /** The elements of `s` that satisfy `keep`, in order. */
  function Kept<T>(s: seq<T>, keep: T -> bool): (r: seq<T>)
    ensures |r| <= |s|
    ensures forall k :: 0 <= k < |r| ==> keep(r[k])
    decreases |s|
  {
    if |s| == 0 then [] else (if keep(s[0]) then [s[0]] else []) + Kept(s[1..], keep)
  }

  lemma {:induction false} KeptSubset<T>(s: seq<T>, keep: T -> bool, x: T)
    requires x in Kept(s, keep)
    ensures x in s
    decreases |s|
  {
    if x != s[0] {
      KeptSubset(s[1..], keep, x);
    }
  }

  function Not<T>(keep: T -> bool): T -> bool
  {
    x => !keep(x)
  }

  lemma {:induction false} KeptAppend<T>(a: seq<T>, b: seq<T>, keep: T -> bool)
    ensures Kept(a + b, keep) == Kept(a, keep) + Kept(b, keep)
    decreases |a|
  {
    if |a| == 0 {
      assert a + b == b;
    } else {
      assert (a + b)[1..] == a[1..] + b;
      KeptAppend(a[1..], b, keep);
    }
  }

  lemma KeptSingle<T>(x: T, keep: T -> bool)
    ensures Kept([x], keep) == if keep(x) then [x] else []
  {
    assert [x][1..] == [];
  }

  /** Every element is kept by exactly one of `keep` and its negation. */
  lemma {:induction false} KeptPartition<T>(s: seq<T>, keep: T -> bool)
    ensures |Kept(s, keep)| + |Kept(s, Not(keep))| == |s|
    decreases |s|
  {
    if |s| > 0 {
      KeptPartition(s[1..], keep);
      assert Not(keep)(s[0]) == !keep(s[0]);
    }
  }

  /** Moving the last element of a window to its front does not change what is kept from it. */
  lemma SwapKept<T>(x: T, mid: seq<T>, y: T, keep: T -> bool)
    requires !keep(x)
    ensures multiset(Kept([x] + mid + [y], keep)) == multiset(Kept([y] + mid, keep))
  {
    KeptAppend([x] + mid, [y], keep);
    KeptAppend([x], mid, keep);
    KeptAppend([y], mid, keep);
    KeptSingle(x, keep);
    KeptSingle(y, keep);
  }

  /**
   * The state of a swap-remove pass over `s` that started from `orig`:
   * `s[..i]` has been accepted and `s[i..e]` is still to be examined.
   */
  ghost predicate SwapRemoveState<T>(s: seq<T>, i: nat, e: nat, orig: seq<T>, keep: T -> bool)
  {
    i <= e <= |s| &&
    (forall k :: 0 <= k < i ==> keep(s[k])) &&
    multiset(s[..i]) + multiset(Kept(s[i..e], keep)) == multiset(Kept(orig, keep))
  }

  lemma SwapRemoveStart<T>(s: seq<T>, keep: T -> bool)
    ensures SwapRemoveState(s, 0, |s|, s, keep)
  {
    assert s[0..|s|] == s;
  }

  /**
   * A rejected `s[i]` is overwritten by the last element of the window,
   * which then shrinks by one: the same elements remain to be kept.
   */
  lemma SwapRemoveReject<T>(s: seq<T>, t: seq<T>, i: nat, e: nat, orig: seq<T>, keep: T -> bool)
    requires SwapRemoveState(s, i, e, orig, keep) && i < e && !keep(s[i])
    requires t == s[i := s[e - 1]] || (e - 1 == i && t == s)
    ensures SwapRemoveState(t, i, e - 1, orig, keep)
  {
    assert t[..i] == s[..i];
    if e - 1 != i {
      assert s[i..e] == s[i..e - 1] + [s[e - 1]];
      assert s[i..e - 1] == [s[i]] + s[i + 1..e - 1];
      assert t[i..e - 1] == [s[e - 1]] + s[i + 1..e - 1];
      SwapKept(s[i], s[i + 1..e - 1], s[e - 1], keep);
    } else {
      assert s[i..e] == [s[i]];
      KeptSingle(s[i], keep);
    }
  }

  /** An accepted `s[i]` moves from the window to the accepted prefix. */
  lemma SwapRemoveAccept<T>(s: seq<T>, i: nat, e: nat, orig: seq<T>, keep: T -> bool)
    requires SwapRemoveState(s, i, e, orig, keep) && i < e && keep(s[i])
    ensures SwapRemoveState(s, i + 1, e, orig, keep)
  {
    assert s[i..e] == [s[i]] + s[i + 1..e];
    KeptAppend([s[i]], s[i + 1..e], keep);
    KeptSingle(s[i], keep);
    assert s[..i + 1] == s[..i] + [s[i]];
  }

  /** The state only depends on the first `e` elements. */
  lemma SwapRemoveTruncate<T>(s: seq<T>, i: nat, e: nat, orig: seq<T>, keep: T -> bool)
    requires SwapRemoveState(s, i, e, orig, keep)
    ensures SwapRemoveState(s[..e], i, e, orig, keep)
  {
    assert s[..e][..i] == s[..i] && s[..e][i..e] == s[i..e];
  }

  /** With an empty window, the accepted prefix is exactly what is kept from `orig`. */
  lemma SwapRemoveEnd<T>(s: seq<T>, e: nat, orig: seq<T>, keep: T -> bool)
    requires SwapRemoveState(s, e, e, orig, keep)
    ensures forall k :: 0 <= k < e ==> keep(s[k])
    ensures multiset(s[..e]) == multiset(Kept(orig, keep))
    ensures e == |Kept(orig, keep)| == |orig| - |Kept(orig, Not(keep))|
  {
    assert s[e..e] == [];
    assert |multiset(s[..e])| == e;
    KeptPartition(orig, keep);
  }

  /** The state of a swap-remove pass: the sequence and the window `[i, e)`. */
  datatype Pass<T> = Pass(s: seq<T>, i: nat, e: nat)

  /**
   * One step of a swap-remove pass: a rejected `s[i]` is overwritten by the
   * window's last element (unless it is that element) and the window
   * shrinks; an accepted one is passed over.
   */
  ghost function SwapStep<T>(s: seq<T>, i: nat, e: nat, keep: T -> bool): (p: Pass<T>)
    requires i < e <= |s|
    ensures p.i <= p.e <= |p.s| && p.e - p.i == e - i - 1
  {
    if !keep(s[i]) then
      (if e - 1 != i then Pass(s[i := s[e - 1]], i, e - 1) else Pass(s, i, e - 1))
    else Pass(s, i + 1, e)
  }

  /** What a swap-remove pass leaves of `s` when it resumes at slot `i` with the window ending at `e`. */
  ghost function SwapRemoved<T>(s: seq<T>, i: nat, e: nat, keep: T -> bool): seq<T>
    requires i <= e <= |s|
    decreases e - i
  {
    if i == e then s[..e]
    else
      var p := SwapStep(s, i, e, keep);
      SwapRemoved(p.s, p.i, p.e, keep)
  }

  /** A step keeps the state of the pass. */
  lemma SwapStepKeepsState<T>(s: seq<T>, i: nat, e: nat, orig: seq<T>, keep: T -> bool)
    requires SwapRemoveState(s, i, e, orig, keep) && i < e
    ensures var p := SwapStep(s, i, e, keep); SwapRemoveState(p.s, p.i, p.e, orig, keep)
  {
    if keep(s[i]) {
      SwapStepAccepts(s, i, e, orig, keep);
    } else {
      SwapStepRejects(s, i, e, orig, keep);
    }
  }

  /** `SwapStepKeepsState` for an accepted `s[i]`. */
  lemma SwapStepAccepts<T>(s: seq<T>, i: nat, e: nat, orig: seq<T>, keep: T -> bool)
    requires SwapRemoveState(s, i, e, orig, keep) && i < e && keep(s[i])
    ensures var p := SwapStep(s, i, e, keep); SwapRemoveState(p.s, p.i, p.e, orig, keep)
  {
    SwapRemoveAccept(s, i, e, orig, keep);
  }

  /** `SwapStepKeepsState` for a rejected `s[i]`. */
  lemma SwapStepRejects<T>(s: seq<T>, i: nat, e: nat, orig: seq<T>, keep: T -> bool)
    requires SwapRemoveState(s, i, e, orig, keep) && i < e && !keep(s[i])
    ensures var p := SwapStep(s, i, e, keep); SwapRemoveState(p.s, p.i, p.e, orig, keep)
  {
    SwapRemoveReject(s, SwapStep(s, i, e, keep).s, i, e, orig, keep);
  }

  /** `r` holds exactly what `keep` accepts from `orig`, as a multiset. */
  ghost predicate KeepsExactly<T>(r: seq<T>, orig: seq<T>, keep: T -> bool)
  {
    (forall k :: 0 <= k < |r| ==> keep(r[k])) &&
    multiset(r) == multiset(Kept(orig, keep)) &&
    |r| == |Kept(orig, keep)|
  }

  lemma {:induction false} SwapRemovedKeeps<T>(s: seq<T>, i: nat, e: nat, orig: seq<T>, keep: T -> bool)
    requires SwapRemoveState(s, i, e, orig, keep)
    ensures KeepsExactly(SwapRemoved(s, i, e, keep), orig, keep)
    decreases e - i
  {
    if i == e {
      SwapRemoveEnd(s, e, orig, keep);
      assert SwapRemoved(s, i, e, keep) == s[..e];
    } else {
      var p := SwapStep(s, i, e, keep);
      SwapStepKeepsState(s, i, e, orig, keep);
      SwapRemovedKeeps(p.s, p.i, p.e, orig, keep);
    }
  }

  /**
   * The non-finite filter of `RetrieveParticles`: a particle whose position
   * is not finite is overwritten by the last particle and the container
   * shrinks by one; the same slot is then examined again. The particles
   * left are exactly the finite ones (as a multiset, since order is not
   * kept), so the count drops by the number of non-finite particles.
   */
  method RemoveNonFinite<T>(a: array<T>, finite: T -> bool) returns (size: nat)
    modifies a
    ensures size <= a.Length
    ensures a[..size] == SwapRemoved(old(a[..]), 0, a.Length, finite)
  {
    var it := 0;
    var itEnd := a.Length;
    while it != itEnd
      invariant 0 <= it <= itEnd <= a.Length
      invariant SwapRemoved(a[..], it, itEnd, finite) == SwapRemoved(old(a[..]), 0, a.Length, finite)
      decreases itEnd - it
    {
      if !finite(a[it]) {
        itEnd := itEnd - 1;
        if itEnd != it {
          a[it] := a[itEnd];
        }
      } else {
        it := it + 1;
      }
    }
    size := itEnd;
    assert a[..size] == SwapRemoved(a[..], it, itEnd, finite);
  }

  /**
   * A whole swap-remove pass keeps every accepted element and only those
   * (as a multiset: the order is not kept), so the count drops by the
   * number of rejected elements.
   */
  lemma SwapRemoveFilters<T>(s: seq<T>, keep: T -> bool)
    ensures KeepsExactly(SwapRemoved(s, 0, |s|, keep), s, keep)
    ensures |SwapRemoved(s, 0, |s|, keep)| == |s| - |Kept(s, Not(keep))|
  {
    SwapRemoveStart(s, keep);
    SwapRemovedKeeps(s, 0, |s|, s, keep);
    KeptPartition(s, keep);
  }

  /**
   * `RetrieveParticles`: the scene's particles inserted into the container,
   * then the non-finite filter.
   */
  method RetrieveParticles(sceneParticles: seq<Particle>, finite: Particle -> bool) returns (ps: seq<Particle>)
    ensures multiset(ps) == multiset(Kept(sceneParticles, finite))
    ensures forall k :: 0 <= k < |ps| ==> finite(ps[k])
    ensures |ps| == |sceneParticles| - |Kept(sceneParticles, Not(finite))|
  {
    var a := new Particle[|sceneParticles|](k requires 0 <= k < |sceneParticles| => sceneParticles[k]);
    assert a[..] == sceneParticles;
    var size := RemoveNonFinite(a, finite);
    ps := a[..size];
    SwapRemoveFilters(sceneParticles, finite);
  }

  // ---------------------------------------------------------------------------
  // GetPMESceneObjects
  // ---------------------------------------------------------------------------

  /** A participating-medium node is used when visible, renderable and not already done. */
  function Usable(hidden: nat -> bool, renderable: nat -> bool, done: set<nat>): nat -> bool
  {
    (n: nat) => !hidden(n) && renderable(n) && n !in done
  }

  /** Overwriting `s[i]` with the last element and dropping the last loses only `s[i]` from the elements. */
  /** The nodes of a list, as a set. */
  function Elems(s: seq<nat>): set<nat>
    decreases |s|
  {
    if |s| == 0 then {} else {s[0]} + Elems(s[1..])
  }

  lemma {:induction false} InElems(s: seq<nat>, n: nat)
    ensures n in Elems(s) <==> n in s
    decreases |s|
  {
    if |s| > 0 {
      InElems(s[1..], n);
      assert n in s <==> n == s[0] || n in s[1..];
    }
  }

  lemma ElementsAfterPop(s: seq<nat>, u: seq<nat>, i: nat)
    requires i < |s| && u == s[i := s[|s| - 1]][..|s| - 1]
    ensures Elems(s) == Elems(u) + {s[i]}
  {
    var last := |s| - 1;
    forall n: nat
      ensures n in Elems(s) <==> n in Elems(u) + {s[i]}
    {
      InElems(s, n);
      InElems(u, n);
      if n in s && n != s[i] {
        var k :| 0 <= k < |s| && s[k] == n;
        if k != i && k != last {
          assert u[k] == n;
        } else if k == last && i != last {
          assert u[i] == n;
        }
      }
    }
  }

  lemma DoneStep(done: set<nat>, node: nat, before: set<nat>, after: set<nat>, target: set<nat>)
    requires done + before == target && before == after + {node}
    ensures (done + {node}) + after == target
  {
  }

  /**
   * The done set of `GetPMESceneObjects` while its loop runs: it has grown
   * by rejected nodes only, and every node of the union is either still in
   * the list `g` or already done.
   */
  ghost predicate DoneState(g: seq<nat>, done: set<nat>, doneNodes: set<nat>, union: seq<nat>,
                            hidden: nat -> bool, renderable: nat -> bool)
  {
    doneNodes <= done &&
    (forall n :: n in done && n !in doneNodes ==> hidden(n) || !renderable(n)) &&
    done + Elems(g) == doneNodes + Elems(union)
  }

  /**
   * The loop state of `GetPMESceneObjects`: a swap-remove pass over the
   * union keeping the usable nodes, with the done set as above.
   */
  ghost predicate PMEState(g: seq<nat>, i: nat, done: set<nat>, doneNodes: set<nat>, union: seq<nat>,
                           hidden: nat -> bool, renderable: nat -> bool)
  {
    SwapRemoveState(g, i, |g|, union, Usable(hidden, renderable, doneNodes)) &&
    DoneState(g, done, doneNodes, union, hidden, renderable)
  }

  lemma PMEStart(doneNodes: set<nat>, union: seq<nat>, hidden: nat -> bool, renderable: nat -> bool)
    ensures PMEState(union, 0, doneNodes, doneNodes, union, hidden, renderable)
  {
    SwapRemoveStart(union, Usable(hidden, renderable, doneNodes));
  }

  /** Overwriting a rejected element with the last one and popping the last keeps the pass state. */
  lemma SwapPop<T>(g: seq<T>, u: seq<T>, i: nat, union: seq<T>, keep: T -> bool)
    requires SwapRemoveState(g, i, |g|, union, keep) && i < |g| && !keep(g[i])
    requires u == g[i := g[|g| - 1]][..|g| - 1]
    ensures SwapRemoveState(u, i, |u|, union, keep)
  {
    var last := |g| - 1;
    var t := g[i := g[last]];
    SwapRemoveReject(g, t, i, |g|, union, keep);
    SwapRemoveTruncate(t, i, last, union, keep);
    assert u == t[..last] && |u| == last;
  }

  /** A rejected node moves from the list to the done set. */
  lemma DoneReject(g: seq<nat>, u: seq<nat>, i: nat, done: set<nat>, doneNodes: set<nat>, union: seq<nat>,
                   hidden: nat -> bool, renderable: nat -> bool)
    requires DoneState(g, done, doneNodes, union, hidden, renderable) && i < |g|
    requires hidden(g[i]) || !renderable(g[i]) || g[i] in done
    requires u == g[i := g[|g| - 1]][..|g| - 1]
    ensures DoneState(u, done + {g[i]}, doneNodes, union, hidden, renderable)
  {
    ElementsAfterPop(g, u, i);
    DoneStep(done, g[i], Elems(g), Elems(u), doneNodes + Elems(union));
  }

  /** A hidden, non-renderable or done node is marked done and swap-removed. */
  lemma PMEReject(g: seq<nat>, u: seq<nat>, i: nat, done: set<nat>, doneNodes: set<nat>, union: seq<nat>,
                  hidden: nat -> bool, renderable: nat -> bool)
    requires PMEState(g, i, done, doneNodes, union, hidden, renderable) && i < |g|
    requires hidden(g[i]) || !renderable(g[i]) || g[i] in done
    requires u == g[i := g[|g| - 1]][..|g| - 1]
    ensures PMEState(u, i, done + {g[i]}, doneNodes, union, hidden, renderable)
  {
    var usable := Usable(hidden, renderable, doneNodes);
    assert !usable(g[i]);
    SwapPop(g, u, i, union, usable);
    DoneReject(g, u, i, done, doneNodes, union, hidden, renderable);
  }

  /** A usable node stays where it is. */
  lemma PMEAccept(g: seq<nat>, i: nat, done: set<nat>, doneNodes: set<nat>, union: seq<nat>,
                  hidden: nat -> bool, renderable: nat -> bool)
    requires PMEState(g, i, done, doneNodes, union, hidden, renderable) && i < |g|
    requires !(hidden(g[i]) || !renderable(g[i]) || g[i] in done)
    ensures PMEState(g, i + 1, done, doneNodes, union, hidden, renderable)
  {
    var usable := Usable(hidden, renderable, doneNodes);
    assert usable(g[i]);
    SwapRemoveAccept(g, i, |g|, union, usable);
  }

  lemma PMEEnd(g: seq<nat>, done: set<nat>, doneNodes: set<nat>, union: seq<nat>,
               hidden: nat -> bool, renderable: nat -> bool)
    requires PMEState(g, |g|, done, doneNodes, union, hidden, renderable)
    ensures multiset(g) == multiset(Kept(union, Usable(hidden, renderable, doneNodes)))
    ensures done + Elems(g) == doneNodes + Elems(union)
  {
    SwapRemoveEnd(g, |g|, union, Usable(hidden, renderable, doneNodes));
    assert g[..|g|] == g;
  }

  /**
   * `GetPMESceneObjects`: when the extinction is non-zero and enabled, the
   * object list becomes the union of the named selection sets with every
   * hidden, non-renderable or already-done node swap-removed, and all of
   * the union's nodes (removed or surviving) are added to `doneNodes`;
   * otherwise both are left as they are.
   */
  method GetPMESceneObjects(extinctionEnabled: bool, namedSetUnion: seq<nat>, geomObjects: seq<nat>,
                            doneNodes: set<nat>, hidden: nat -> bool, renderable: nat -> bool)
    returns (outGeom: seq<nat>, outDone: set<nat>)
    ensures !extinctionEnabled ==> outGeom == geomObjects && outDone == doneNodes
    ensures extinctionEnabled ==>
      multiset(outGeom) == multiset(Kept(namedSetUnion, Usable(hidden, renderable, doneNodes))) &&
      outDone == doneNodes + Elems(namedSetUnion)
  {
    if !extinctionEnabled {
      return geomObjects, doneNodes;
    }
    var g := namedSetUnion;
    var done := doneNodes;
    var i := 0;
    PMEStart(doneNodes, namedSetUnion, hidden, renderable);
    while i < |g|
      invariant PMEState(g, i, done, doneNodes, namedSetUnion, hidden, renderable)
      decreases |g| - i
    {
      if hidden(g[i]) || !renderable(g[i]) || g[i] in done {
        var u := g[i := g[|g| - 1]][..|g| - 1];
        PMEReject(g, u, i, done, doneNodes, namedSetUnion, hidden, renderable);
        done, g := done + {g[i]}, u;
      } else {
        PMEAccept(g, i, done, doneNodes, namedSetUnion, hidden, renderable);
        i := i + 1;
      }
    }
    PMEEnd(g, done, doneNodes, namedSetUnion, hidden, renderable);
    outGeom := g;
    outDone := done + Elems(g);
  }

  // ---------------------------------------------------------------------------
  // GetRenderParticleChannels
  // ---------------------------------------------------------------------------

  /** The renderer settings `GetRenderParticleChannels` reads. */
  datatype ChannelSettings = ChannelSettings(
    ignoreSceneLights: bool,
    renderingMethod: string,
    enableMotionBlur: bool,
    jitteredMotionBlur: bool,
    useFilterColor: bool,
    useEmissionColor: bool,
    useEnvironmentReflections: bool,
    allocateReflectionStrength: bool,
    enableDepthOfField: bool,
    allocateBokehBlendInfluence: bool)

  /** A channel to define and whether the settings call for it. */
  datatype Request = Request(channel: Channel, wanted: bool)

  /** The channels the renderer can ask for, in the order it defines them, with their conditions. */
  function RenderRequests(s: ChannelSettings): seq<Request>
  {
    [ Request(Channel("Position", 3, Float32), true),
      Request(Channel("Color", 3, Float16), true),
      Request(Channel("Density", 1, Float16), true),
      Request(Channel("Lighting", 3, Float16), !s.ignoreSceneLights && s.renderingMethod != "Voxel Rendering"),
      Request(Channel("Velocity", 3, Float16), s.enableMotionBlur),
      Request(Channel("MBlurTime", 1, Float16), s.enableMotionBlur && s.jitteredMotionBlur),
      Request(Channel("Absorption", 3, Float16), s.useFilterColor),
      Request(Channel("Emission", 3, Float16), s.useEmissionColor),
      Request(Channel("Normal", 3, Float16), s.useEnvironmentReflections),
      Request(Channel("ReflectionStrength", 1, Float16),
              s.allocateReflectionStrength && (s.useEnvironmentReflections || s.useEmissionColor)),
      Request(Channel("BokehBlendInfluence", 1, Float16), s.enableDepthOfField && s.allocateBokehBlendInfluence) ]
  }

  /** Each request in turn: a wanted channel is defined unless the map already has one of that name. */
  function DefineMissing(pcm: seq<Channel>, rs: seq<Request>): (r: seq<Channel>)
    ensures |pcm| <= |r| && r[..|pcm|] == pcm
    decreases |rs|
  {
    if |rs| == 0 then pcm
    else
      var next := if rs[0].wanted && !HasChannel(pcm, rs[0].channel.name) then pcm + [rs[0].channel] else pcm;
      var r := DefineMissing(next, rs[1..]);
      assert r[..|pcm|] == r[..|next|][..|pcm|];
      r
  }

  /** `GetRenderParticleChannels` on the channel map it is given. */
  function RenderParticleChannels(pcm: seq<Channel>, s: ChannelSettings): seq<Channel>
  {
    DefineMissing(pcm, RenderRequests(s))
  }

  predicate Requested(rs: seq<Request>, name: string)
  {
    exists j :: 0 <= j < |rs| && rs[j].wanted && rs[j].channel.name == name
  }

  /** A name is in the result iff it was already in the map or some request wanted it. */
  lemma {:induction false} DefineMissingHas(pcm: seq<Channel>, rs: seq<Request>, name: string)
    ensures HasChannel(DefineMissing(pcm, rs), name) <==> HasChannel(pcm, name) || Requested(rs, name)
    decreases |rs|
  {
    if |rs| > 0 {
      var next := if rs[0].wanted && !HasChannel(pcm, rs[0].channel.name) then pcm + [rs[0].channel] else pcm;
      DefineMissingHas(next, rs[1..], name);
      assert HasChannel(next, name) <==> HasChannel(pcm, name) || (rs[0].wanted && rs[0].channel.name == name) by {
        if rs[0].wanted && !HasChannel(pcm, rs[0].channel.name) {
          assert next[|pcm|].name == rs[0].channel.name;
          if HasChannel(next, name) && !HasChannel(pcm, name) {
            var i :| 0 <= i < |next| && next[i].name == name;
            assert i == |pcm|;
          }
          if HasChannel(pcm, name) {
            var i :| 0 <= i < |pcm| && pcm[i].name == name;
            assert next[i].name == name;
          }
        }
      }
      assert Requested(rs, name) <==> (rs[0].wanted && rs[0].channel.name == name) || Requested(rs[1..], name) by {
        if Requested(rs, name) && !(rs[0].wanted && rs[0].channel.name == name) {
          var j :| 0 <= j < |rs| && rs[j].wanted && rs[j].channel.name == name;
          assert rs[1..][j - 1] == rs[j];
        }
        if Requested(rs[1..], name) {
          var j :| 0 <= j < |rs[1..]| && rs[1..][j].wanted && rs[1..][j].channel.name == name;
          assert rs[j + 1] == rs[1..][j];
        }
      }
    }
  }

  /** A map that already has every wanted channel is left as it is. */
  lemma {:induction false} DefineMissingComplete(pcm: seq<Channel>, rs: seq<Request>)
    requires forall j :: 0 <= j < |rs| && rs[j].wanted ==> HasChannel(pcm, rs[j].channel.name)
    ensures DefineMissing(pcm, rs) == pcm
    decreases |rs|
  {
    if |rs| > 0 {
      assert rs[0].wanted ==> HasChannel(pcm, rs[0].channel.name);
      forall j | 0 <= j < |rs[1..]| && rs[1..][j].wanted
        ensures HasChannel(pcm, rs[1..][j].channel.name)
      {
        assert rs[1..][j] == rs[j + 1];
      }
      DefineMissingComplete(pcm, rs[1..]);
    }
  }

  /**
   * Only missing channels are defined, so the channels already in the map
   * come first and unchanged, and a second call changes nothing.
   */
  lemma RenderParticleChannelsIdempotent(pcm: seq<Channel>, s: ChannelSettings)
    ensures RenderParticleChannels(pcm, s)[..|pcm|] == pcm
    ensures RenderParticleChannels(RenderParticleChannels(pcm, s), s) == RenderParticleChannels(pcm, s)
  {
    var rs := RenderRequests(s);
    var once := RenderParticleChannels(pcm, s);
    forall j | 0 <= j < |rs| && rs[j].wanted
      ensures HasChannel(once, rs[j].channel.name)
    {
      DefineMissingHas(pcm, rs, rs[j].channel.name);
    }
    DefineMissingComplete(once, rs);
  }

  /** A name requested in exactly one place is requested iff that request is wanted. */
  lemma RequestedOnlyAt(rs: seq<Request>, name: string, j: nat)
    requires j < |rs| && rs[j].channel.name == name
    requires forall k :: 0 <= k < |rs| && k != j ==> rs[k].channel.name != name
    ensures Requested(rs, name) <==> rs[j].wanted
  {
  }

  /** Position, Color and Density are always in the render map. */
  lemma RenderParticleChannelsAlways(pcm: seq<Channel>, s: ChannelSettings)
    ensures HasChannel(RenderParticleChannels(pcm, s), "Position")
    ensures HasChannel(RenderParticleChannels(pcm, s), "Color")
    ensures HasChannel(RenderParticleChannels(pcm, s), "Density")
  {
    var rs := RenderRequests(s);
    assert rs[0].wanted && rs[0].channel.name == "Position";
    assert rs[1].wanted && rs[1].channel.name == "Color";
    assert rs[2].wanted && rs[2].channel.name == "Density";
    DefineMissingHas(pcm, rs, "Position");
    DefineMissingHas(pcm, rs, "Color");
    DefineMissingHas(pcm, rs, "Density");
  }

  /**
   * The lighting channel is in the render map iff it was already there or
   * scene lights are used outside voxel rendering.
   */
  lemma RenderParticleChannelsLighting(pcm: seq<Channel>, s: ChannelSettings)
    ensures HasChannel(RenderParticleChannels(pcm, s), "Lighting") <==>
      HasChannel(pcm, "Lighting") || (!s.ignoreSceneLights && s.renderingMethod != "Voxel Rendering")
  {
    var rs := RenderRequests(s);
    DefineMissingHas(pcm, rs, "Lighting");
    RequestedOnlyAt(rs, "Lighting", 3);
  }

  /**
   * The motion-blur channels are in the render map iff they were already
   * there or motion blur (jittered, for the blur time) asks for them.
   */
  lemma RenderParticleChannelsMotionBlur(pcm: seq<Channel>, s: ChannelSettings)
    ensures HasChannel(RenderParticleChannels(pcm, s), "Velocity") <==>
      HasChannel(pcm, "Velocity") || s.enableMotionBlur
    ensures HasChannel(RenderParticleChannels(pcm, s), "MBlurTime") <==>
      HasChannel(pcm, "MBlurTime") || (s.enableMotionBlur && s.jitteredMotionBlur)
  {
    var rs := RenderRequests(s);
    DefineMissingHas(pcm, rs, "Velocity");
    DefineMissingHas(pcm, rs, "MBlurTime");
    RequestedOnlyAt(rs, "Velocity", 4);
    RequestedOnlyAt(rs, "MBlurTime", 5);
  }

  // ---------------------------------------------------------------------------
  // CacheParticles
  // ---------------------------------------------------------------------------

  /** Every desired channel is present in the cached channel map. */
  predicate Covers(cached: seq<Channel>, desired: seq<Channel>)
  {
    forall i :: 0 <= i < |desired| ==> HasChannel(cached, desired[i].name)
  }

  /** Particles drawn from a scene of `n`-channel particles have `n` channels. */
  lemma KeptLengths(scene: seq<Particle>, finite: Particle -> bool, ps: seq<Particle>, n: nat)
    requires forall k :: 0 <= k < |scene| ==> |scene[k]| == n
    requires multiset(ps) == multiset(Kept(scene, finite))
    ensures forall k :: 0 <= k < |ps| ==> |ps[k]| == n
  {
    forall k | 0 <= k < |ps|
      ensures |ps[k]| == n
    {
      assert ps[k] in multiset(ps);
      assert ps[k] in Kept(scene, finite);
      KeptSubset(scene, finite, ps[k]);
    }
  }

  /**
   * The channel check of `CacheParticles`: the desired channels are looked
   * up in order until one is missing from the cached map.
   */
  method StillCovers(cached: seq<Channel>, desired: seq<Channel>) returns (valid: bool)
    ensures valid <==> Covers(cached, desired)
  {
    valid := true;
    var i := 0;
    while i < |desired| && valid
      invariant 0 <= i <= |desired|
      invariant valid <==> Covers(cached, desired[..i])
    {
      if !HasChannel(cached, desired[i].name) {
        valid := false;
      }
      assert desired[..i + 1][..i] == desired[..i] && desired[..i + 1][i] == desired[i];
      i := i + 1;
    }
    if valid {
      assert desired[..i] == desired;
    } else {
      assert !Covers(cached, desired) by {
        var j :| 0 <= j < i && !HasChannel(cached, desired[..i][j].name);
        assert desired[..i][j] == desired[j];
      }
    }
  }

  /**
   * `CacheParticles`: a valid cache is kept when caching is enabled and it
   * has every desired channel; otherwise it is reset to the desired
   * channel map and refilled from the scene (non-finite particles
   * removed), which sets the particle flag and clears the lighting flag.
   */
  method CacheParticles(r: Renderer, enableParticleCache: bool, desired: seq<Channel>,
                        sceneParticles: seq<Particle>, finite: Particle -> bool)
    requires r.Valid()
    requires forall k :: 0 <= k < |sceneParticles| ==> |sceneParticles[k]| == |desired|
    modifies r
    ensures r.Valid()
    ensures enableParticleCache && old(r.cacheValid[ParticleFlag]) && Covers(old(r.channels), desired) ==>
      r.cacheValid == old(r.cacheValid) && r.channels == old(r.channels) && r.particles == old(r.particles)
    ensures !(enableParticleCache && old(r.cacheValid[ParticleFlag]) && Covers(old(r.channels), desired)) ==>
      r.cacheValid == old(r.cacheValid)[ParticleFlag := false][LightingFlag := false][ParticleFlag := true] &&
      r.channels == desired &&
      multiset(r.particles) == multiset(Kept(sceneParticles, finite))
    ensures r.apmVolume == old(r.apmVolume) && r.properties == old(r.properties)
    ensures r.saveRequired == old(r.saveRequired) && r.doneInitRenderer == old(r.doneInitRenderer)
    ensures r.progressCallback == old(r.progressCallback) && r.setDirtyBit == old(r.setDirtyBit)
  {
    if enableParticleCache {
      if r.cacheValid[ParticleFlag] {
        var valid := StillCovers(r.channels, desired);
        r.cacheValid := r.cacheValid[ParticleFlag := valid];
      }
    } else {
      r.cacheValid := r.cacheValid[ParticleFlag := false];
    }

    if !r.cacheValid[ParticleFlag] {
      var ps := RetrieveParticles(sceneParticles, finite);
      KeptLengths(sceneParticles, finite, ps, |desired|);
      r.channels, r.particles := desired, ps;
      r.cacheValid := r.cacheValid[LightingFlag := false];
      r.cacheValid := r.cacheValid[ParticleFlag := true];
    }
  }

  // ---------------------------------------------------------------------------
  // Matte motion-blur segments (SetupRenderer)
  // ---------------------------------------------------------------------------

  /**
   * The segment count handed to the matte interface: 0 means "sample on
   * every time change" (or once, without motion blur). The explicit
   * MatteMotionBlurSegments value is used only with motion blur on and
   * UseMatteMotionBlurSegments set.
   */
  function MatteSegments(enableMotionBlur: bool, deformingBlur: bool, useMatteSegments: bool,
                         motionBlurSegments: int, matteMotionBlurSegments: int): int
  {
    if !enableMotionBlur then 0
    else if deformingBlur then (if !useMatteSegments then 0 else matteMotionBlurSegments)
    else if !useMatteSegments then (if motionBlurSegments > 1 then 1 else 0)
    else matteMotionBlurSegments
  }

  /**
   * The explicit matte segment count is passed on exactly when motion blur
   * is on and UseMatteMotionBlurSegments is set; otherwise the count is 0 or
   * 1, and it is 1 only for rigid motion blur over more than one segment.
   * Deformation blur therefore changes the count only in that one case.
   */
  lemma MatteSegmentsPolicy(enableMotionBlur: bool, deformingBlur: bool, useMatteSegments: bool,
                            motionBlurSegments: int, matteMotionBlurSegments: int)
    ensures var r := MatteSegments(enableMotionBlur, deformingBlur, useMatteSegments, motionBlurSegments,
                                   matteMotionBlurSegments);
      (enableMotionBlur && useMatteSegments ==> r == matteMotionBlurSegments) &&
      (!(enableMotionBlur && useMatteSegments) ==> 0 <= r <= 1) &&
      (!(enableMotionBlur && useMatteSegments) ==>
        (r == 1 <==> enableMotionBlur && !deformingBlur && motionBlurSegments > 1))
    ensures !enableMotionBlur ==>
      MatteSegments(enableMotionBlur, deformingBlur, useMatteSegments, motionBlurSegments, matteMotionBlurSegments) == 0
    ensures MatteSegments(enableMotionBlur, true, useMatteSegments, motionBlurSegments, matteMotionBlurSegments) !=
            MatteSegments(enableMotionBlur, false, useMatteSegments, motionBlurSegments, matteMotionBlurSegments)
            ==> enableMotionBlur && !useMatteSegments && motionBlurSegments > 1
  {
  }
}
