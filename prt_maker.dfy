/**
 * The PRT Maker object (src/Objects/MaxKrakatoaPRTMaker.cpp): the particle
 * count it generates, the split of that count over worker threads for the
 * IFS method, the `AffineTMCount` accessor that resizes the controller tab,
 * and which controller the per-transform `MakerController` accepts in each
 * sub-animation slot.
 *
 * The generated streams are described by their counts and seeds; the
 * affine transforms themselves are not modelled.
 */
module PRTMaker {

  function Max0(v: int): nat
  {
    if v > 0 then v else 0
  }

  /** `GetInternalStream`: the render count, unless the viewport count is in use outside a render; never negative. */
  function ParticleCount(inRenderMode: bool, useViewportCount: bool, count: int, viewportCount: int): nat
  {
    if inRenderMode || !useViewportCount then Max0(count) else Max0(viewportCount)
  }

  /**
   * The viewport settings never change a render's count, nor the count when the
   * viewport count is off; the count is always one of the two parameters
   * (a negative one read as none), and in the viewport with the viewport
   * count on the render count does not matter.
   */
  lemma ViewportCountOnlyInViewport(inRenderMode: bool, useViewportCount: bool, count: int, viewportCount: int,
                                    count': int, useViewportCount': bool, viewportCount': int)
    ensures ParticleCount(true, useViewportCount, count, viewportCount) ==
            ParticleCount(true, useViewportCount', count, viewportCount')
    ensures ParticleCount(inRenderMode, false, count, viewportCount) ==
            ParticleCount(inRenderMode, false, count, viewportCount')
    ensures ParticleCount(false, true, count, viewportCount) ==
            ParticleCount(false, true, count', viewportCount)
    ensures var n := ParticleCount(inRenderMode, useViewportCount, count, viewportCount);
      (n == count || n == viewportCount || n == 0) && (n == 0 <==> (if inRenderMode || !useViewportCount then count else viewportCount) <= 0)
  {
  }

  // ---------------------------------------------------------------------------
  // The per-thread split
  // ---------------------------------------------------------------------------

  function Sum(s: seq<nat>): nat
  {
    if |s| == 0 then 0 else Sum(s[..|s| - 1]) + s[|s| - 1]
  }

  /** The count thread j receives: the quotient, plus one for the first `n % threads` threads. */
  function ThreadShare(n: nat, threads: nat, j: nat): nat
    requires threads > 0
  {
    if j < n % threads then n / threads + 1 else n / threads
  }

  /** One thread's IFS stream of the split: its particle count and its seed. */
  datatype IfsStream = IfsStream(count: nat, seed: int)

  /** The particle counts of the streams, in order. */
  function Counts(pins: seq<IfsStream>): (c: seq<nat>)
    ensures |c| == |pins| && forall j :: 0 <= j < |pins| ==> c[j] == pins[j].count
  {
    if |pins| == 0 then [] else Counts(pins[..|pins| - 1]) + [pins[|pins| - 1].count]
  }

  /** The shares of the first j threads. */
  function Shares(n: nat, threads: nat, j: nat): (c: seq<nat>)
    requires threads > 0
    ensures |c| == j && forall k :: 0 <= k < j ==> c[k] == ThreadShare(n, threads, k)
  {
    if j == 0 then [] else Shares(n, threads, j - 1) + [ThreadShare(n, threads, j - 1)]
  }

  /** The first j shares add up to j quotients plus one for each of them below the remainder. */
  lemma {:induction false} SharesSum(n: nat, threads: nat, j: nat)
    requires threads > 0
    ensures Sum(Shares(n, threads, j)) == j * (n / threads) + (if j < n % threads then j else n % threads)
  {
    if j > 0 {
      SharesSum(n, threads, j - 1);
      var c := Shares(n, threads, j);
      assert c[..j - 1] == Shares(n, threads, j - 1);
      assert j * (n / threads) == (j - 1) * (n / threads) + n / threads;
    }
  }

  /** All the threads' shares add up to the particle count. */
  lemma SplitIsExact(n: nat, threads: nat)
    requires threads > 0
    ensures Sum(Shares(n, threads, threads)) == n
  {
    SharesSum(n, threads, threads);
    var q, r := n / threads, n % threads;
    assert n == threads * q + r;
  }

  /** No two threads' shares differ by more than one. */
  lemma SplitIsBalanced(n: nat, threads: nat, i: nat, j: nat)
    requires threads > 0
    ensures ThreadShare(n, threads, i) <= ThreadShare(n, threads, j) + 1
  {
  }

  /** Streams carrying the threads' shares in order have the shares as their counts. */
  lemma CountsAreShares(pins: seq<IfsStream>, n: nat, threads: nat)
    requires threads > 0 && |pins| == threads
    requires forall k :: 0 <= k < threads ==> pins[k].count == ThreadShare(n, threads, k)
    ensures Counts(pins) == Shares(n, threads, threads)
  {
  }

  /**
   * The per-thread loop: thread j generates its share of the particles with
   * seed `seed + 7j`.
   */
  method SplitAcrossThreads(n: nat, threads: nat, seed: int) returns (pins: seq<IfsStream>)
    requires threads > 0
    ensures |pins| == threads
    ensures forall j :: 0 <= j < threads ==> pins[j] == IfsStream(ThreadShare(n, threads, j), seed + 7 * j)
    ensures Counts(pins) == Shares(n, threads, threads)
  {
    var realParticleCount := n / threads;
    var leftOver := n % threads;
    pins := [];
    var j := 0;
    while j < threads
      invariant 0 <= j <= threads
      invariant |pins| == j
      invariant forall k :: 0 <= k < j ==> pins[k] == IfsStream(ThreadShare(n, threads, k), seed + 7 * k)
    {
      var share := if j < leftOver then realParticleCount + 1 else realParticleCount;
      assert share == ThreadShare(n, threads, j);
      pins := pins + [IfsStream(share, seed + 7 * j)];
      j := j + 1;
    }
    CountsAreShares(pins, n, threads);
  }

  /** What `GetInternalStream` builds. */
  datatype MakerStream =
    | Simple(count: nat, seed: int)
    | Ifs(pins: seq<IfsStream>, concatenated: bool)

  const MethodIFS: int := 1

  /**
   * The IFS method with at least one transform splits the count over the
   * worker threads (one outside a render) and concatenates the streams when
   * there is more than one; otherwise a single simple stream is built.
   */
  method InternalStream(inRenderMode: bool, defaultThreads: nat, useViewportCount: bool, count: int, viewportCount: int,
                        seed: int, makerMethod: int, numTMs: int)
    returns (r: MakerStream)
    requires defaultThreads > 0
    ensures r.Simple? <==> !(makerMethod == MethodIFS && numTMs > 0)
    ensures r.Simple? ==> r == Simple(ParticleCount(inRenderMode, useViewportCount, count, viewportCount), seed)
    ensures r.Ifs? ==> |r.pins| == (if inRenderMode then defaultThreads else 1) && (r.concatenated <==> |r.pins| > 1)
    ensures r.Ifs? ==> Sum(Counts(r.pins)) == ParticleCount(inRenderMode, useViewportCount, count, viewportCount)
  {
    var particleCount := ParticleCount(inRenderMode, useViewportCount, count, viewportCount);
    if makerMethod == MethodIFS && numTMs > 0 {
      var numThreads := if inRenderMode then defaultThreads else 1;
      var pins := SplitAcrossThreads(particleCount, numThreads, seed);
      SplitIsExact(particleCount, numThreads);
      r := Ifs(pins, |pins| > 1);
    } else {
      r := Simple(particleCount, seed);
    }
  }

  // ---------------------------------------------------------------------------
  // The AffineTMCount accessor
  // ---------------------------------------------------------------------------

  /** An entry of the `TMControllers` tab. */
  datatype TabEntry = Existing(id: nat) | Empty | NewMakerController

  /** The parameter block's `TMControllers` tab. */
  class TMControllerTab {
    var entries: seq<TabEntry>

    constructor (entries: seq<TabEntry>)
      ensures this.entries == entries
    {
      this.entries := entries;
    }

    /** `Get(kAffineTMCount)`: the tab's length. */
    function AffineTMCount(): nat
      reads this
    {
      |entries|
    }

    /**
     * `Set(kAffineTMCount, v)`: resize the tab to v entries (truncating or
     * growing with empty slots), then put a new controller in every slot from
     * the old count up to v.
     */
    method SetAffineTMCount(v: nat)
      modifies this
      ensures AffineTMCount() == v
      ensures forall i :: 0 <= i < v && i < |old(entries)| ==> entries[i] == old(entries)[i]
      ensures forall i :: |old(entries)| <= i < v ==> entries[i] == NewMakerController
    {
      var curCount := |entries|;
      if v <= curCount {
        entries := entries[..v];
      } else {
        entries := entries + seq(v - curCount, _ => Empty);
      }
      var i := curCount;
      while i < v
        invariant |entries| == v
        invariant curCount <= i
        invariant forall k :: 0 <= k < v && k < curCount ==> entries[k] == old(entries)[k]
        invariant forall k :: curCount <= k < i && k < v ==> entries[k] == NewMakerController
        decreases v - i
      {
        entries := entries[i := NewMakerController];
        i := i + 1;
      }
    }
  }

  // ---------------------------------------------------------------------------
  // MakerController
  // ---------------------------------------------------------------------------

  /** The controller super classes that matter here. */
  datatype SuperClass = Matrix3Control | RotationControl | FloatControl | OtherControl

  /** `CanAssignController`: sub-animations 1 to 4 accept a controller. */
  predicate CanAssignController(subAnim: int)
  {
    subAnim > 0 && subAnim < 5
  }

  /** The super class each assignable slot requires: the transform, the rotation and two float weights. */
  function RequiredSuperClass(subAnim: int): (r: SuperClass)
    requires 0 < subAnim < 5
    ensures r != OtherControl
  {
    if subAnim == 1 then Matrix3Control else if subAnim == 2 then RotationControl else FloatControl
  }

  /**
   * The cases of `AssignController`'s switch that replace a reference: slot 1
   * takes a transform controller, slot 2 a rotation controller, slots 3 and 4
   * float controllers; slot 0 and every other slot take nothing.
   */
  predicate Accepts(subAnim: int, c: SuperClass)
  {
    (subAnim == 1 && c == Matrix3Control) ||
    (subAnim == 2 && c == RotationControl) ||
    ((subAnim == 3 || subAnim == 4) && c == FloatControl)
  }

  /**
   * `CanAssignController` agrees with `AssignController`: it holds exactly for
   * the slots some controller can be assigned to, and such a slot accepts one
   * super class only, the one it requires.
   */
  lemma CanAssignIffSomeAccepted(subAnim: int)
    ensures CanAssignController(subAnim) <==> exists c :: Accepts(subAnim, c)
    ensures forall c :: Accepts(subAnim, c) <==> CanAssignController(subAnim) && c == RequiredSuperClass(subAnim)
  {
    if CanAssignController(subAnim) {
      assert Accepts(subAnim, RequiredSuperClass(subAnim));
    }
  }

  /** The controller references of one `MakerController`, by sub-animation number. */
  class MakerController {
    var refs: map<int, nat>

    constructor ()
      ensures refs == map[]
    {
      refs := map[];
    }

    /** `AssignController`: replace the reference only when the slot accepts the controller's super class. */
    method AssignController(control: nat, superClass: SuperClass, subAnim: int) returns (result: bool)
      modifies this
      ensures result <==> Accepts(subAnim, superClass)
      ensures result ==> refs == old(refs)[subAnim := control]
      ensures !result ==> refs == old(refs)
    {
      result := false;
      if subAnim == 1 && superClass == Matrix3Control {
        result := true;
      } else if subAnim == 2 && superClass == RotationControl {
        result := true;
      } else if (subAnim == 3 || subAnim == 4) && superClass == FloatControl {
        result := true;
      }
      if result {
        refs := refs[subAnim := control];
      }
    }
  }
}
