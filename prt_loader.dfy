/**
 * The PRT Loader object (src/Objects/MaxKrakatoaPRTLoader.cpp): which files
 * of its list are loaded for a frame, the guard against saving over a file
 * that is being loaded, the frame-range hold/blank block of
 * `GetFileParticleStream`, the viewport-to-render load and colour mode
 * mappings, and how the per-file streams are combined.
 *
 * Particle streams are opaque values; the sequence-number substitution and
 * the filename-pattern test of the file library are function parameters.
 */
module PRTLoader {
  import opened Common

  /** `clamp_mode`: what happens to a frame outside the loader's range. */
  const Hold: int := 1
  const Blank: int := 2

  /** `enabled_mode`: the per-file flags. */
  const EnabledViewport: bv32 := 1
  const EnabledRender: bv32 := 2

  // ---------------------------------------------------------------------------
  // GetParticleFilenames
  // ---------------------------------------------------------------------------

  /** One entry of the file list: the filename and its enabled-mode flags. */
  datatype FileEntry = FileEntry(name: string, flags: bv32)

  /** An entry is used under `mask` when it has one of the mask's flags, or when the mask is empty. */
  predicate Keeps(e: FileEntry, mask: bv32)
  {
    e.flags & mask != 0 || mask == 0
  }

  /** The filenames loaded for a frame, in list order; `renumber` is the sequence-number substitution. */
  function Filenames(entries: seq<FileEntry>, mask: bv32, singleFrame: bool, renumber: string -> string): seq<string>
  {
    if |entries| == 0 then []
    else
      var e := entries[|entries| - 1];
      Filenames(entries[..|entries| - 1], mask, singleFrame, renumber) +
      (if Keeps(e, mask) then [if singleFrame then e.name else renumber(e.name)] else [])
  }

  /** The entries that pass the mask, in list order. */
  function KeptEntries(entries: seq<FileEntry>, mask: bv32): seq<FileEntry>
  {
    if |entries| == 0 then []
    else
      var e := entries[|entries| - 1];
      KeptEntries(entries[..|entries| - 1], mask) + (if Keeps(e, mask) then [e] else [])
  }

  /** One filename per kept entry, in order: the entry's name, renumbered unless loading a single frame. */
  lemma {:induction false} FilenamesOfKept(entries: seq<FileEntry>, mask: bv32, singleFrame: bool, renumber: string -> string)
    ensures var out := Filenames(entries, mask, singleFrame, renumber);
      var kept := KeptEntries(entries, mask);
      |out| == |kept| &&
      forall j :: 0 <= j < |out| ==> out[j] == if singleFrame then kept[j].name else renumber(kept[j].name)
  {
    if |entries| > 0 {
      FilenamesOfKept(entries[..|entries| - 1], mask, singleFrame, renumber);
    }
  }

  /** With an empty mask every entry is used, so there is one filename per entry. */
  lemma {:induction false} EmptyMaskKeepsAll(entries: seq<FileEntry>)
    ensures KeptEntries(entries, 0) == entries
  {
    if |entries| > 0 {
      EmptyMaskKeepsAll(entries[..|entries| - 1]);
      assert entries[..|entries| - 1] + [entries[|entries| - 1]] == entries;
    }
  }

  /** Every kept entry is an entry of the list that passes the mask. */
  lemma {:induction false} KeptAreListedAndMatch(entries: seq<FileEntry>, mask: bv32)
    ensures forall e :: e in KeptEntries(entries, mask) ==> e in entries && Keeps(e, mask)
  {
    if |entries| > 0 {
      KeptAreListedAndMatch(entries[..|entries| - 1], mask);
    }
  }

  /** Every entry that passes the mask is kept. */
  lemma {:induction false} MatchingAreKept(entries: seq<FileEntry>, mask: bv32)
    ensures forall e :: e in entries && Keeps(e, mask) ==> e in KeptEntries(entries, mask)
  {
    if |entries| > 0 {
      MatchingAreKept(entries[..|entries| - 1], mask);
      forall e | e in entries && Keeps(e, mask)
        ensures e in KeptEntries(entries, mask)
      {
        if e != entries[|entries| - 1] {
          var i :| 0 <= i < |entries| && entries[i] == e;
          assert entries[..|entries| - 1][i] == e;
        }
      }
    }
  }

  /** The filenames of one more entry: those of the shorter list, then the entry's if it is used. */
  lemma FilenamesStep(entries: seq<FileEntry>, i: nat, mask: bv32, singleFrame: bool, renumber: string -> string)
    requires i < |entries|
    ensures Filenames(entries[..i + 1], mask, singleFrame, renumber) ==
      Filenames(entries[..i], mask, singleFrame, renumber) +
      (if Keeps(entries[i], mask) then [if singleFrame then entries[i].name else renumber(entries[i].name)] else [])
  {
    assert entries[..i + 1][..i] == entries[..i];
  }

  /** `GetParticleFilenames`: appends the used filenames to `out0`. */
  method GetParticleFilenames(entries: seq<FileEntry>, mask: bv32, singleFrame: bool, renumber: string -> string, out0: seq<string>)
    returns (out: seq<string>)
    ensures out == out0 + Filenames(entries, mask, singleFrame, renumber)
  {
    out := out0;
    var i := 0;
    while i < |entries|
      invariant 0 <= i <= |entries|
      invariant out == out0 + Filenames(entries[..i], mask, singleFrame, renumber)
    {
      FilenamesStep(entries, i, mask, singleFrame, renumber);
      if entries[i].flags & mask != 0 || mask == 0 {
        var filename := entries[i].name;
        if !singleFrame {
          filename := renumber(filename);
        }
        out := out + [filename];
      }
      i := i + 1;
    }
    assert entries[..i] == entries;
  }

  // ---------------------------------------------------------------------------
  // AssertNotLoadingFrom
  // ---------------------------------------------------------------------------

  /** Some render-enabled entry satisfies `clash`. */
  predicate RenderEntryClashes(entries: seq<FileEntry>, clash: string -> bool)
  {
    exists i :: 0 <= i < |entries| && entries[i].flags & EnabledRender != 0 && clash(entries[i].name)
  }

  /**
   * `AssertNotLoadingFrom`: saving to `file` fails when the loader is enabled
   * in render and one of its render-enabled files is that exact file (single
   * frame) or a file of the same sequence (`samePattern`).
   */
  method AssertNotLoadingFrom(file: string, enabledInRender: bool, singleFrame: bool, entries: seq<FileEntry>,
                              samePattern: string -> bool)
    returns (error: Option<string>)
    ensures error.Some? <==> (enabledInRender &&
      if singleFrame then RenderEntryClashes(entries, name => name == file)
      else RenderEntryClashes(entries, samePattern))
    ensures error.Some? && singleFrame ==>
      error.value == "Cannot save to file: " + file + " since a PRTLoader is loading from there"
  {
    error := None;
    if enabledInRender {
      var i := 0;
      while i < |entries|
        invariant 0 <= i <= |entries|
        invariant forall j :: 0 <= j < i ==>
          !(entries[j].flags & EnabledRender != 0 && (if singleFrame then entries[j].name == file else samePattern(entries[j].name)))
      {
        if entries[i].flags & EnabledRender != 0 {
          if singleFrame && entries[i].name == file {
            return Some("Cannot save to file: " + file + " since a PRTLoader is loading from there");
          } else if !singleFrame && samePattern(entries[i].name) {
            return Some("Cannot save to file: " + file + " since a PRTLoader is loading from the file: \"" +
              entries[i].name + "\" which is from the same sequence");
          }
        }
        i := i + 1;
      }
    }
  }

  // ---------------------------------------------------------------------------
  // The frame-range block of GetFileParticleStream
  // ---------------------------------------------------------------------------

  /** The outcome of the range block: an empty stream, or the frames to load. */
  datatype RangeOutcome =
    | EmptyStream
    | Frames(frame: int, interpFrame: int, interpParam: real, blankInterpFrame: bool)

  /**
   * The range block: with the range limit on (and not loading a single
   * frame), a frame outside [start, end] gives an empty stream in blank
   * mode, or is held at the bound in hold mode (which also stops
   * interpolation); then an interpolation frame outside the range is marked
   * blank or held at the bound.
   */
  method ApplyRange(singleFrame: bool, limitToRange: bool, start: int, end: int, beforeMode: int, afterMode: int,
                    frame0: int, interpFrame0: int, interpParam0: real)
    returns (r: RangeOutcome)
    ensures singleFrame || !limitToRange ==> r == Frames(frame0, interpFrame0, interpParam0, false)
    ensures !singleFrame && limitToRange ==>
      (r.EmptyStream? <==> (frame0 < start && beforeMode == Blank) || (start <= frame0 && frame0 > end && afterMode == Blank))
    ensures r.Frames? && frame0 < start && beforeMode == Hold && !singleFrame && limitToRange ==>
      r.frame == start && r.interpParam == 0.0
    ensures r.Frames? && start <= frame0 && frame0 > end && afterMode == Hold && !singleFrame && limitToRange ==>
      r.frame == end && r.interpParam == 0.0
    ensures r.Frames? && start <= frame0 <= end ==> r.frame == frame0
    ensures r.Frames? && r.blankInterpFrame ==> r.interpParam == 0.0
    ensures r.Frames? && !singleFrame && limitToRange && start <= end && beforeMode in {Hold, Blank} && afterMode in {Hold, Blank} ==>
      start <= r.frame <= end && (r.blankInterpFrame || start <= r.interpFrame <= end)
  {
    var frame, interpFrame, interpParam := frame0, interpFrame0, interpParam0;
    var blankInterpFrame := false;
    if !singleFrame && limitToRange {
      if frame < start {
        if beforeMode == Blank {
          return EmptyStream;
        } else if beforeMode == Hold {
          frame, interpFrame := start, start;
          interpParam := 0.0;
        }
      } else if frame > end {
        if afterMode == Blank {
          return EmptyStream;
        } else if afterMode == Hold {
          frame, interpFrame := end, end;
          interpParam := 0.0;
        }
      }
      if interpFrame < start {
        if beforeMode == Blank {
          blankInterpFrame := true;
          interpParam := 0.0;
        } else if beforeMode == Hold {
          interpFrame := start;
        }
      } else if interpFrame > end {
        if afterMode == Blank {
          blankInterpFrame := true;
          interpParam := 0.0;
        } else if afterMode == Hold {
          interpFrame := end;
        }
      }
    }
    r := Frames(frame, interpFrame, interpParam, blankInterpFrame);
  }

  // ---------------------------------------------------------------------------
  // Load mode and colour mode mappings
  // ---------------------------------------------------------------------------

  /** `render::RENDER_LOAD_PARTICLE_MODE` values. */
  const RenderEvenly: int := 1
  const RenderFirstN: int := 2
  const RenderEvenlyIds: int := 3

  /** `viewport::RENDER_LOAD_PARTICLE_MODE` values. */
  const ViewUseRender: int := 1
  const ViewEvenly: int := 2
  const ViewFirstN: int := 3
  const ViewEvenlyIds: int := 4

  /** The load mode used in the viewport: the render setting, or the viewport value shifted down by one. */
  function ViewportLoadMode(viewMode: int, renderMode: int): (m: int)
    ensures viewMode == ViewUseRender ==> m == renderMode
    ensures viewMode == ViewEvenly ==> m == RenderEvenly
    ensures viewMode == ViewFirstN ==> m == RenderFirstN
    ensures viewMode == ViewEvenlyIds ==> m == RenderEvenlyIds
  {
    if viewMode == ViewUseRender then renderMode else viewMode - 1
  }

  /** `render::COLORMODE` and `viewport::COLORMODE` values. */
  const RenderColorFile: int := 1
  const RenderColorWireframe: int := 2
  const RenderColorMaterial: int := 3
  const ViewColorUseRender: int := 1
  const ViewColorFile: int := 2
  const ViewColorWireframe: int := 3
  const ViewColorMaterial: int := 4

  /** The colour mode used in the viewport: a named viewport mode overrides the render one. */
  function ViewportColorMode(viewMode: int, renderMode: int): (m: int)
    ensures viewMode == ViewColorFile ==> m == RenderColorFile
    ensures viewMode == ViewColorMaterial ==> m == RenderColorMaterial
    ensures viewMode == ViewColorWireframe ==> m == RenderColorWireframe
    ensures viewMode !in {ViewColorFile, ViewColorMaterial, ViewColorWireframe} ==> m == renderMode
  {
    if viewMode != ViewColorUseRender then
      if viewMode == ViewColorFile then RenderColorFile
      else if viewMode == ViewColorMaterial then RenderColorMaterial
      else if viewMode == ViewColorWireframe then RenderColorWireframe
      else renderMode
    else renderMode
  }

  // ---------------------------------------------------------------------------
  // Combining the per-file streams
  // ---------------------------------------------------------------------------

  /** The stream `GetFileParticleStream` returns, over opaque per-file streams. */
  datatype Combined<S> =
    | NoParticles
    | One(pin: S)
    | Concatenation(pins: seq<S>, parallel: bool)

  /** No stream gives an empty stream, one is returned as it is, several are concatenated (in parallel when rendering with threading). */
  function CombineStreams<S>(pins: seq<S>, mask: bv32, allowThreading: bool): (r: Combined<S>)
    ensures r.NoParticles? <==> |pins| == 0
    ensures r.One? <==> |pins| == 1
    ensures r.One? ==> r.pin == pins[0]
    ensures r.Concatenation? ==> (r.pins == pins && |pins| > 1 &&
      (r.parallel <==> mask & EnabledRender != 0 && allowThreading))
  {
    if |pins| > 0 then
      if |pins| > 1 then Concatenation(pins, mask & EnabledRender != 0 && allowThreading)
      else One(pins[0])
    else NoParticles
  }

  /** The stream `GetObjectSpaceParticleStream` first puts over the file stream. */
  datatype Fraction =
    | NothingToLoad                                           // an empty stream with the same channel maps
    | Fractional(percentage: real, limit: int, evenly: bool) // a fraction of the particles, spread out or the first ones
    | FractionalById(percentage: real, limit: int)          // a fraction chosen by particle ID
    | NoStream                                              // an unknown load mode leaves the stream null

  /**
   * `GetObjectSpaceParticleStream`: nothing to load, a zero percentage or a
   * zero limit gives an empty stream; otherwise the render load mode picks
   * the fractional stream, "evenly by ID" falling back to "evenly" when the
   * file has no native ID channel.
   */
  function ObjectSpaceFraction(particleCount: int, percentage: real, limit: int, loadMode: int, hasNativeId: bool): Fraction
  {
    if particleCount == 0 || percentage == 0.0 || limit == 0 then NothingToLoad
    else if loadMode == RenderEvenly then Fractional(percentage, limit, true)
    else if loadMode == RenderFirstN then Fractional(percentage, limit, false)
    else if loadMode == RenderEvenlyIds then
      (if hasNativeId then FractionalById(percentage, limit) else Fractional(percentage, limit, true))
    else NoStream
  }

  /**
   * The stream is empty exactly when there is nothing to load; a fractional
   * stream keeps the percentage and the limit; only "first N" takes the first
   * particles, only "evenly by ID" on a file with IDs selects by ID, and every
   * load mode the viewport can select yields a stream.
   */
  lemma ObjectSpaceFractionChoice(particleCount: int, percentage: real, limit: int, loadMode: int, hasNativeId: bool,
                                  viewMode: int)
    ensures var f := ObjectSpaceFraction(particleCount, percentage, limit, loadMode, hasNativeId);
      (f == NothingToLoad <==> particleCount == 0 || percentage == 0.0 || limit == 0) &&
      (f.Fractional? || f.FractionalById? ==> f.percentage == percentage && f.limit == limit) &&
      (f.Fractional? && !f.evenly <==> f != NothingToLoad && loadMode == RenderFirstN) &&
      (f.FractionalById? <==> f != NothingToLoad && loadMode == RenderEvenlyIds && hasNativeId) &&
      (f == NoStream <==> f != NothingToLoad && loadMode !in {RenderEvenly, RenderFirstN, RenderEvenlyIds})
    ensures ViewEvenly <= viewMode <= ViewEvenlyIds ==>
      ObjectSpaceFraction(particleCount, percentage, limit, ViewportLoadMode(viewMode, loadMode), hasNativeId) != NoStream
  {
  }
}
