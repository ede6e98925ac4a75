/**
 * The FumeFX voxel particle stream (src/FumeFX/MaxKrakatoaFumeFXParticleIstream.cpp):
 * the voxel iterator that walks the grid with a one-voxel apron, the 2x2x2
 * neighbourhood cache that is shifted along z and refilled from the grid,
 * the channel mask of the lazy load, the fuel/fire split and the mapping from
 * scene time to the simulation frame to load.
 *
 * Voxel values are abstract `Sample`s (the floating-point trilinear
 * interpolation and the sample generator are not modelled).
 */
module FumeFXStream {
  import opened Common

  // ---------------------------------------------------------------------------
  // advance_iterator
  // ---------------------------------------------------------------------------

  /** Position of voxel (x, y, z) in the lexicographic (z fastest) order of [-1,nx) x [-1,ny) x [-1,nz). */
  function Rank(x: int, y: int, z: int, ny: nat, nz: nat): int
  {
    ((x + 1) * (ny + 1) + (y + 1)) * (nz + 1) + (z + 1)
  }

  /** `m_progressCount`: the number of positions the iterator passes through. */
  function ProgressCount(nx: nat, ny: nat, nz: nat): nat
  {
    (nx + 1) * (ny + 1) * (nz + 1)
  }

  /** Two digits a in [0, A] and b in [0, B] in radix B + 1. */
  lemma TwoDigits(a: int, b: int, A: nat, B: nat)
    requires 0 <= a <= A && 0 <= b <= B
    ensures 0 <= a * (B + 1) + b <= A * (B + 1) + B
    ensures a * (B + 1) + b == A * (B + 1) + B <==> a == A && b == B
  {
    if a < A {
      assert a * (B + 1) <= (A - 1) * (B + 1);
    } else {
      assert a * (B + 1) == A * (B + 1);
    }
  }

  lemma RankBounds(x: int, y: int, z: int, nx: nat, ny: nat, nz: nat)
    requires -1 <= x < nx && -1 <= y < ny && -1 <= z < nz
    ensures 0 <= Rank(x, y, z, ny, nz) < ProgressCount(nx, ny, nz)
    ensures Rank(x, y, z, ny, nz) == ProgressCount(nx, ny, nz) - 1 <==> x == nx - 1 && y == ny - 1 && z == nz - 1
  {
    var top := nx * (ny + 1) + ny;
    TwoDigits(x + 1, y + 1, nx, ny);
    TwoDigits((x + 1) * (ny + 1) + (y + 1), z + 1, top, nz);
    assert top + 1 == (nx + 1) * (ny + 1);
    assert top * (nz + 1) + nz + 1 == (top + 1) * (nz + 1);
  }

  /** `fumefx_particle_istream`'s voxel cursor over a grid of nx x ny x nz voxels. */
  class VoxelCursor {
    const nx: nat
    const ny: nat
    const nz: nat
    var x: int
    var y: int
    var z: int

    predicate Valid()
      reads this
    {
      -1 <= x < nx && -1 <= y < ny && -1 <= z < nz
    }

    function Position(): int
      reads this
    {
      Rank(x, y, z, ny, nz)
    }

    /** `init`: the cursor starts before the grid, at (-1, -1, -1). */
    constructor (nx: nat, ny: nat, nz: nat)
      ensures this.nx == nx && this.ny == ny && this.nz == nz
      ensures Valid() && Position() == 0
    {
      this.nx, this.ny, this.nz := nx, ny, nz;
      x, y, z := -1, -1, -1;
    }

    /**
     * `advance_iterator`: z runs fastest, then y, then x, each restarting at -1.
     * Every successful step moves to the next position in order; the walk
     * stops exactly after the last position, with every coordinate one past
     * its end.
     */
    method Advance() returns (ok: bool)
      requires Valid()
      modifies this
      ensures ok ==> Valid() && Position() == old(Position()) + 1
      ensures ok <==> old(Position()) < ProgressCount(nx, ny, nz) - 1
      ensures !ok ==> x == nx && y == ny && z == nz
    {
      RankBounds(x, y, z, nx, ny, nz);
      ghost var x0, y0, z0 := x, y, z;
      z := z + 1;
      if z >= nz {
        y := y + 1;
        if y >= ny {
          x := x + 1;
          if x >= nx {
            return false;
          }
          y := -1;
          assert Rank(x, y, -1, ny, nz) == Rank(x0, y0, z0, ny, nz) + 1 by {
            assert z0 + 1 == nz && y0 + 1 == ny;
            assert (x + 1) * (ny + 1) == (x0 + 1) * (ny + 1) + ny + 1;
            assert ((x0 + 1) * (ny + 1) + ny + 1) * (nz + 1) == ((x0 + 1) * (ny + 1) + ny) * (nz + 1) + nz + 1;
          }
        } else {
          assert Rank(x, y, -1, ny, nz) == Rank(x0, y0, z0, ny, nz) + 1 by {
            assert z0 + 1 == nz;
            assert ((x + 1) * (ny + 1) + y + 1) * (nz + 1) == ((x0 + 1) * (ny + 1) + y0 + 1) * (nz + 1) + nz + 1;
          }
        }
        z := -1;
      }
      ok := true;
      RankBounds(x, y, z, nx, ny, nz);
    }
  }

  /**
   * Driving the cursor from its start until `advance_iterator` fails visits
   * every position once, in order: it succeeds `m_progressCount - 1` times,
   * so together with the start it covers `(nx+1)(ny+1)(nz+1)` positions.
   */
  method CountPositions(nx: nat, ny: nat, nz: nat) returns (visited: nat)
    ensures visited == ProgressCount(nx, ny, nz)
  {
    var c := new VoxelCursor(nx, ny, nz);
    visited := 1;
    RankBounds(-1, -1, -1, nx, ny, nz);
    var more := true;
    while more
      invariant c.nx == nx && c.ny == ny && c.nz == nz
      invariant more ==> c.Valid() && c.Position() == visited - 1
      invariant !more ==> visited == ProgressCount(nx, ny, nz)
      invariant visited <= ProgressCount(nx, ny, nz)
      decreases ProgressCount(nx, ny, nz) - visited, more
    {
      RankBounds(c.x, c.y, c.z, nx, ny, nz);
      more := c.Advance();
      if more {
        visited := visited + 1;
        RankBounds(c.x, c.y, c.z, nx, ny, nz);
      }
    }
  }

  // ---------------------------------------------------------------------------
  // Channels (load_voxels)
  // ---------------------------------------------------------------------------

  /** The FumeFX output variables (`SIM_USE*` bits). */
  datatype SimChannel = Dens | Vel | Text | Color | Temp | Fuel

  /** `load_voxels`: whether the output channels (or a seeding option) call for simulation channel `c`. */
  predicate Wanted(c: SimChannel, outChannels: set<string>, seedDensity: bool, seedFire: bool)
  {
    match c
    case Dens => "Density" in outChannels || "DensityGradient" in outChannels || seedDensity
    case Vel => "Velocity" in outChannels || "Vorticity" in outChannels
    case Text => "TextureCoord" in outChannels
    case Color => "Color" in outChannels
    case Temp => "Temperature" in outChannels
    case Fuel => "Fuel" in outChannels || "Fire" in outChannels || seedFire
  }

  const AllSimChannels: set<SimChannel> := {Dens, Vel, Text, Color, Temp, Fuel}

  /** `load_voxels`: the simulation channels worth loading, those wanted and not disabled. */
  function RequestedChannels(disabled: set<SimChannel>, outChannels: set<string>, seedDensity: bool, seedFire: bool)
    : (r: set<SimChannel>)
    ensures r !! disabled
    ensures Dens in r <==> Dens !in disabled && ("Density" in outChannels || "DensityGradient" in outChannels || seedDensity)
    ensures Vel in r <==> Vel !in disabled && ("Velocity" in outChannels || "Vorticity" in outChannels)
    ensures Text in r <==> Text !in disabled && "TextureCoord" in outChannels
    ensures Color in r <==> Color !in disabled && "Color" in outChannels
    ensures Temp in r <==> Temp !in disabled && "Temperature" in outChannels
    ensures Fuel in r <==> Fuel !in disabled && ("Fuel" in outChannels || "Fire" in outChannels || seedFire)
  {
    set c | c in AllSimChannels && c !in disabled && Wanted(c, outChannels, seedDensity, seedFire)
  }

  /** `m_cachedChannels` after the load: what was requested and actually present in the file. */
  function CachedChannels(requested: set<SimChannel>, loaded: set<SimChannel>): (r: set<SimChannel>)
    ensures forall c :: c in r <==> c in requested && c in loaded
  {
    requested * loaded
  }

  /** `init_native_map`: the particle channels a file with the given output variables provides. */
  function NativeChannels(loaded: set<SimChannel>): (r: set<string>)
    ensures "Position" in r
    ensures "Density" in r <==> Dens in loaded
    ensures "Fire" in r <==> Fuel in loaded
    ensures ("Velocity" in r <==> Vel in loaded) && ("Vorticity" in r <==> Vel in loaded)
  {
    {"Position"} +
    (if Dens in loaded then {"Density", "DensityGradient"} else {}) +
    (if Vel in loaded then {"Velocity", "Vorticity"} else {}) +
    (if Text in loaded then {"TextureCoord"} else {}) +
    (if Color in loaded then {"Color"} else {}) +
    (if Temp in loaded then {"Temperature"} else {}) +
    (if Fuel in loaded then {"Fuel", "Fire"} else {})
  }

  // ---------------------------------------------------------------------------
  // The 2x2x2 neighbourhood cache (cache_voxel_values)
  // ---------------------------------------------------------------------------

  /** The cached values of one corner of the neighbourhood, one field per simulation channel. */
  datatype Sample = Sample(density: real, fuel: real, temp: real, velocity: real, textureCoord: real, color: real)

  /** `clear_voxel_value`: zero the cached channels, leave the others. */
  function Cleared(s: Sample, mask: set<SimChannel>): Sample
  {
    Sample(
      if Dens in mask then 0.0 else s.density, if Fuel in mask then 0.0 else s.fuel,
      if Temp in mask then 0.0 else s.temp, if Vel in mask then 0.0 else s.velocity,
      if Text in mask then 0.0 else s.textureCoord, if Color in mask then 0.0 else s.color)
  }

  /** `cache_voxel_value`: copy the cached channels of a grid voxel, leave the others. */
  function Loaded(s: Sample, v: Sample, mask: set<SimChannel>): Sample
  {
    Sample(
      if Dens in mask then v.density else s.density, if Fuel in mask then v.fuel else s.fuel,
      if Temp in mask then v.temp else s.temp, if Vel in mask then v.velocity else s.velocity,
      if Text in mask then v.textureCoord else s.textureCoord, if Color in mask then v.color else s.color)
  }

  /** The grid's linear index of voxel (x, y, z): `nyz*x + nz*y + z`. */
  function LinearIndex(x: int, y: int, z: int, ny: nat, nz: nat): int
  {
    ny * nz * x + nz * y + z
  }

  lemma MulAtMostPred(a: nat, b: nat, c: nat)
    requires b < c
    ensures a * b + a <= a * c
  {
    assert a * b + a == a * (b + 1);
    assert a * (b + 1) <= a * c;
  }

  lemma LinearIndexInGrid(x: int, y: int, z: int, nx: nat, ny: nat, nz: nat)
    requires 0 <= x < nx && 0 <= y < ny && 0 <= z < nz
    ensures 0 <= LinearIndex(x, y, z, ny, nz) < nx * ny * nz
  {
    var m := ny * nz;
    MulAtMostPred(nz, y, ny);
    assert nz * y + z < m;
    MulAtMostPred(m, x, nx);
    assert m * nx == nx * ny * nz;
  }

  /**
   * The new value of the corner that stands for voxel (vx, vy, vz): the
   * voxel's cached channels when it lies inside the grid, zero otherwise.
   */
  function Refill(s: Sample, vx: int, vy: int, vz: int, nx: nat, ny: nat, nz: nat, grid: seq<Sample>, mask: set<SimChannel>): Sample
    requires |grid| == nx * ny * nz
  {
    if 0 <= vx < nx && 0 <= vy < ny && 0 <= vz < nz then
      LinearIndexInGrid(vx, vy, vz, nx, ny, nz);
      Loaded(s, grid[LinearIndex(vx, vy, vz, ny, nz)], mask)
    else Cleared(s, mask)
  }

  /** The cache of the eight corners, in the order x fastest, then y, then z. */
  class NeighbourhoodCache {
    var mask: set<SimChannel>
    const slots: array<Sample>

    constructor (mask: set<SimChannel>)
      ensures this.mask == mask && slots.Length == 8 && fresh(slots)
    {
      this.mask := mask;
      slots := new Sample[8](_ => Sample(0.0, 0.0, 0.0, 0.0, 0.0, 0.0));
    }

    /** `shift_cached_values`: the upper four corners become the lower four. */
    method Shift()
      requires slots.Length == 8
      modifies slots
      ensures forall i :: 0 <= i < 4 ==> slots[i] == old(slots[i + 4])
      ensures forall i :: 4 <= i < 8 ==> slots[i] == old(slots[i])
    {
      var i := 0;
      while i < 4
        invariant 0 <= i <= 4
        invariant forall j :: 0 <= j < i ==> slots[j] == old(slots[j + 4])
        invariant forall j :: i <= j < 8 ==> slots[j] == old(slots[j])
      {
        slots[i] := slots[i + 4];
        i := i + 1;
      }
    }

    method ClearSlot(k: int)
      requires slots.Length == 8 && 0 <= k < 8
      modifies slots
      ensures slots[k] == Cleared(old(slots[k]), mask)
      ensures forall i :: 0 <= i < 8 && i != k ==> slots[i] == old(slots[i])
    {
      slots[k] := Cleared(slots[k], mask);
    }

    method LoadSlot(k: int, grid: seq<Sample>, index: int)
      requires slots.Length == 8 && 0 <= k < 8 && 0 <= index < |grid|
      modifies slots
      ensures slots[k] == Loaded(old(slots[k]), grid[index], mask)
      ensures forall i :: 0 <= i < 8 && i != k ==> slots[i] == old(slots[i])
    {
      slots[k] := Loaded(slots[k], grid[index], mask);
    }

    /** The lower four corners: shifted from the upper four, or cleared at the start of a z run. */
    method ShiftOrClear(z: int)
      requires slots.Length == 8
      modifies slots
      ensures forall i :: 0 <= i < 4 ==>
        slots[i] == if z > -1 then old(slots[i + 4]) else Cleared(old(slots[i]), mask)
      ensures forall i :: 4 <= i < 8 ==> slots[i] == old(slots[i])
    {
      if z > -1 {
        Shift();
      } else {
        var i := 0;
        while i < 4
          invariant 0 <= i <= 4
          invariant forall j :: 0 <= j < i ==> slots[j] == Cleared(old(slots[j]), mask)
          invariant forall j :: i <= j < 8 ==> slots[j] == old(slots[j])
        {
          ClearSlot(i);
          i := i + 1;
        }
      }
    }

    /**
     * One upper corner: the source tests x and y against the grid as
     * unsigned values and reads the voxel at `voxelIndex` plus the
     * corner's offset (`nz` per step in y, `nyz` per step in x).
     */
    method RefillCorner(k: int, vx: int, vy: int, vz: int, nx: nat, ny: nat, nz: nat, grid: seq<Sample>)
      requires slots.Length == 8 && 0 <= k < 8 && |grid| == nx * ny * nz
      modifies slots
      ensures slots[k] == Refill(old(slots[k]), vx, vy, vz, nx, ny, nz, grid, mask)
      ensures forall i :: 0 <= i < 8 && i != k ==> slots[i] == old(slots[i])
    {
      if 0 <= vz < nz && 0 <= vx < nx && 0 <= vy < ny {
        LinearIndexInGrid(vx, vy, vz, nx, ny, nz);
        LoadSlot(k, grid, ny * nz * vx + nz * vy + vz);
      } else {
        ClearSlot(k);
      }
    }

    /**
     * `cache_voxel_values` for the cursor at (x, y, z): the lower four corners
     * are shifted from the upper four when the cursor moved along z (z > -1)
     * and cleared at the start of a run; corner 4 + dx + 2*dy is refilled from
     * voxel (x+dx, y+dy, z+1) when that voxel lies inside the grid, and
     * cleared otherwise. Every grid read is in bounds.
     */
    method CacheVoxelValues(x: int, y: int, z: int, nx: nat, ny: nat, nz: nat, grid: seq<Sample>)
      requires slots.Length == 8 && |grid| == nx * ny * nz
      modifies slots
      ensures forall i :: 0 <= i < 4 ==>
        slots[i] == if z > -1 then old(slots[i + 4]) else Cleared(old(slots[i]), mask)
      ensures slots[4] == Refill(old(slots[4]), x, y, z + 1, nx, ny, nz, grid, mask)
      ensures slots[5] == Refill(old(slots[5]), x + 1, y, z + 1, nx, ny, nz, grid, mask)
      ensures slots[6] == Refill(old(slots[6]), x, y + 1, z + 1, nx, ny, nz, grid, mask)
      ensures slots[7] == Refill(old(slots[7]), x + 1, y + 1, z + 1, nx, ny, nz, grid, mask)
    {
      ShiftOrClear(z);
      RefillCorner(4, x, y, z + 1, nx, ny, nz, grid);
      RefillCorner(6, x, y + 1, z + 1, nx, ny, nz, grid);
      RefillCorner(5, x + 1, y, z + 1, nx, ny, nz, grid);
      RefillCorner(7, x + 1, y + 1, z + 1, nx, ny, nz, grid);
    }
  }

  // ---------------------------------------------------------------------------
  // get_particle: fuel and fire
  // ---------------------------------------------------------------------------

  /**
   * The interpolated fuel value feeds two channels: a negative value is
   * written to Fuel as its negation, a positive one to Fire; zero writes
   * neither.
   */
  function FuelAndFire(fuel: real): (r: (Option<real>, Option<real>))
    ensures r.0.Some? <==> fuel < 0.0
    ensures r.1.Some? <==> fuel > 0.0
    ensures r.0.Some? ==> r.0.value == -fuel && r.0.value > 0.0
    ensures r.1.Some? ==> r.1.value == fuel
  {
    (if fuel < 0.0 then Some(-fuel) else None, if fuel > 0.0 then Some(fuel) else None)
  }

  /** The stream's grid pointer: once closed (null), `get_particle` yields nothing. */
  class VoxelData {
    var present: bool

    constructor ()
      ensures present
    {
      present := true;
    }

    /** `close`: the voxel data is released. */
    method Close()
      modifies this
      ensures !present
    {
      present := false;
    }

    /** The guard at the top of `get_particle`. */
    method CanYield() returns (ok: bool)
      ensures ok == present
    {
      ok := present;
    }
  }

  // ---------------------------------------------------------------------------
  // get_fume_fx_particle_istream: which simulation frame to load
  // ---------------------------------------------------------------------------


  /**
   * The simulation frame to load at scene time `t`, or `None` for an empty
   * stream; cache types other than default, wavelet and retimer raise.
   */
  function SimulationFrame(t: int, ticksPerFrame: int, frameOffset: int, startFrame: int, endFrame: int, cacheType: int,
                           nodeName: string)
    : (r: Result<Option<int>>)
    requires ticksPerFrame > 0
    ensures r.Err? <==> cacheType < 0 || cacheType > 2
    ensures r.Ok? && r.value.Some? ==>
      TruncDiv(t, ticksPerFrame) >= frameOffset &&
      r.value.value == TruncDiv(t, ticksPerFrame) - frameOffset + startFrame && r.value.value <= endFrame
    ensures r.Ok? && r.value.None? ==>
      TruncDiv(t, ticksPerFrame) < frameOffset || TruncDiv(t, ticksPerFrame) - frameOffset + startFrame > endFrame
    ensures r.Ok? && r.value.Some? ==> startFrame <= r.value.value
  {
    if cacheType < 0 || cacheType > 2 then
      Err("Unexpected FumeFX cache type: " + SignedDecimal(cacheType) + " for node " + nodeName)
    else
      var curFrame := TruncDiv(t, ticksPerFrame);
      if curFrame < frameOffset then Ok(None)
      else
        var f := curFrame - frameOffset + startFrame;
        if f > endFrame then Ok(None) else Ok(Some(f))
  }
}
