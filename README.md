# Krakatoa for 3ds Max, modelled in Dafny

Krakatoa is a particle and voxel renderer for 3ds Max. This project models
the plugin's core in Dafny and proves properties of that model. Each
`.dfy` file is one module and follows one source file, or a small group of
them:

- `conan.dfy`, `sdk_conan.dfy`, `version_gen.dfy`: the build recipes
  (option coupling, compiler whitelist, third-party attribution and
  license files) and the version-file generator.
- `krakatoa_header.dfy`, `krakatoa.dfy`: the renderer object. This covers
  its cache flags, particle and volume caches, and property container.
  It also covers its `Open`/`Render` entry points and the particle-file
  channel list.
- `particle_sources.dfy`: the source factories and the scene walk that
  hands each node to them.
- `utils.dfy`: renderer utilities. These are property reads, enum
  parsers, removal of non-finite particles, the render channel map, the
  cache refresh and the matte motion-blur segments.
- `shadow_gen.dfy`: Krakatoa Shadows' save-path macro expansion and its
  delegate layout.
- `geometry_renderer.dfy`: the matte primitive and its mesh cache.
- The particle objects: `prt_loader.dfy`, `prt_maker.dfy`,
  `prt_source.dfy`, `hair_object.dfy`, `volume_object.dfy`,
  `fumefx_object.dfy`, `fumefx_stream.dfy`.
- `prt_object_ext.dfy`: the `IParticleObjectExt` extension over a
  particle cache.
- `cloner_mod.dfy`: the PRT Cloner modifier.
- `mxs_stream.dfy`: the MAXScript particle streams.
- `magma_parser.dfy`, `magma_modifier.dfy`: the Magma flow parser with
  its input-node factories, and the Magma modifiers' shared error and
  apply logic.
- `group_dlg_base.dfy`, `pflow_events_dlg.dfy`, `tp_groups_dlg.dfy`: the
  PRT Source's group dialog.
- `common.dfy`: shared value types (`Option`, `Result`, splitting a string
  on one separator).

Objects whose methods update their fields become classes with `modifies`
clauses, for example the renderer state, the PRT Source's event list and
the Magma modifier's error state. Computations become functions, and
their own properties are proved as lemmas. The model has these
conventions:

- Floating-point values are `real`.
- 32-bit integer behaviour is written out for the cloner's shape-index
  wrap and the casts to `size_t`; other integer arithmetic, such as the
  FumeFX frame offsets and the geometry renderer's tick times, is
  unbounded.
- Host objects (scene nodes, controllers, streams) are opaque ids or
  values.
- Parameter-block reads, scene queries, file I/O and MAXScript evaluation
  are parameters.

## Model

| member | source | states |
|---|---|---|
| Conan.CoupledInOrder | conanfile.py:115-122 | the options are coupled iff each of the four dependencies, in the order `validate` checks them, carries `max_version` |
| Conan.Validate | conanfile.py:114-128 | a variant is accepted iff all four coupled options equal `max_version` and the compiler pair is whitelisted and admits that 3ds Max version |
| Conan.ValidateReportsFirstMismatch | conanfile.py:115-122 | the error names the k-th coupled dependency iff it is the first whose option differs |
| Conan.MismatchBeatsCompiler | conanfile.py:115-128 | an uncoupled variant is rejected with a mismatch error, whatever the compiler |
| Conan.CompilerLookup | conanfile.py:123-128 | with the options coupled, an unlisted compiler pair fails on the lookup, and a listed one fails iff it does not admit the version |
| Conan.ConfigureThenValidate | conanfile.py:106-128 | after `configure` the option is set (to 2023 when it was unset), and `validate` can fail only on the compiler check |
| Conan.WhitelistPairs | conanfile.py:12-15 | Visual Studio 15 builds exactly 3ds Max 2022 and Visual Studio 16 exactly 2023 |
| Conan.Recipe.constructor | conanfile.py:68-104 | the recipe holds the given option, dependency options and compiler |
| Conan.Recipe.Configure | conanfile.py:106-112 | the recipe's state afterwards is `Configured` of its state before: the option defaulted, then copied to the four dependencies |
| Conan.ParseRef | conanfile.py:175-177 | unpacking `name/version` succeeds iff the reference has exactly one slash, and then name, slash and version rebuild it |
| Conan.AttributionsAppend | conanfile.py:174-188 | the document for two runs of dependencies is the first's followed by the second's, stopping at the first error |
| Conan.LicenseTextsAppend | conanfile.py:183-188 | the same for two runs of a license listing |
| Conan.AllowlistedAddsNothing | conanfile.py:43-52 | an allow-listed package adds nothing to the document, wherever it stands |
| Conan.MissingLicenseDirIsFatal | conanfile.py:178-182 | a package without a license directory ends the walk with its header written and an error naming it and its version |
| Conan.DeniedFileSkipped | conanfile.py:54-65 | a deny-listed license file is skipped as if not listed |
| Conan.ListedFileCopied | conanfile.py:184-188 | a listed readable file is copied verbatim followed by a newline |
| Conan.AttributionsSnoc | conanfile.py:177-188 | a prefix one dependency longer appends that dependency's block |
| Conan.AttributionsStop | conanfile.py:181-182 | once a prefix has raised, later dependencies are never reached |
| Conan.LicenseTextsSnoc | conanfile.py:183-188 | a listing prefix one file longer appends that file's text |
| Conan.LicenseTextsStop | conanfile.py:183-188 | once reading a listing has raised, later files are never reached |
| Conan.WriteLicenseTexts | conanfile.py:183-188 | the inner loop appends exactly the listing's license texts to the document |
| Conan.WriteDependency | conanfile.py:178-188 | one outer-loop turn appends exactly one dependency's block |
| Conan.GenerateAttributionsDoc | conanfile.py:174-188 | the loops write exactly `Attributions` of the dependency list, or stop with its error |
| SdkConan.Validate | SDK/conanfile.py:52-62 | a variant is accepted iff maxsdk and thinkboxmxlibrary both carry `max_version` and the compiler pair admits that version; a maxsdk mismatch is reported before a thinkboxmxlibrary one |
| SdkConan.SameCompilerRule | SDK/conanfile.py:8-11 | with its two dependencies coupled, the SDK recipe gives the same verdict as the plugin recipe with all four coupled, because both use the same compiler matrix |
| SdkConan.SdkRecipe.constructor | SDK/conanfile.py:33-44 | the recipe object starts from the given option and setting values |
| SdkConan.SdkRecipe.Configure | SDK/conanfile.py:46-50 | an unset option defaults to 2023 and a set one is kept; both dependencies then carry it, the settings are untouched, and validation afterwards depends only on the compiler matrix |
| SdkConan.LineLength | SDK/conanfile.py:84 | the first line runs up to and including the first newline, or to the end of the text |
| SdkConan.ReadLinesRoundTrip | SDK/conanfile.py:83-90 | writing back the lines `readlines` gives reproduces the file's text |
| SdkConan.ReadLinesShape | SDK/conanfile.py:83-86 | every line read is non-empty, holds a newline only as its last character, and every line but the last ends in one |
| SdkConan.PackageLicense | SDK/conanfile.py:79-90 | the packaged LICENSE is the NOTICE text followed by the LICENSE text |
| VersionGen.SplitVersion | version_gen.py:63 | the unpacking succeeds iff the version has exactly two dots, and then the three parts are the '.'-separated pieces in order |
| VersionGen.VersionRoundTrip | version_gen.py:63 | the three parts joined by '.' give back the version, and no part holds a dot |
| VersionGen.RenderHeader | version_gen.py:59-70 | the header is written iff the version has exactly three parts |
| VersionGen.RenderResource | version_gen.py:73-83 | the resource script is written iff the version has exactly three parts |
| VersionGen.HeaderDefines | version_gen.py:46-57 | FRANTIC_VERSION is the whole version, the major/minor/patch macros are its parts in order, and the description line is fixed |
| VersionGen.ResourceVersions | version_gen.py:10-44 | FILEVERSION and PRODUCTVERSION carry the parts comma-separated, and the FileVersion and ProductVersion strings carry the input version |
| VersionGen.ResourceFixedMetadata | version_gen.py:28-35 | the company, internal and product names do not depend on the version |
| VersionGen.HeaderOnlyVersionLinesVary | version_gen.py:46-57 | two versions give headers that differ only in the four substituted lines |
| FumeFXObject.IsBlankFrame | src/FumeFX/MaxKrakatoaFumeFXObject.cpp:140-163 | a frame is blank iff a custom range is used and the shifted time lies below its start with the lower frame not held, or above its end with the upper frame not held |
| FumeFXObject.NoCustomRange | src/FumeFX/MaxKrakatoaFumeFXObject.cpp:120-138 | without a custom range the frame is the effective time plus the offset, never blank, and the range runs from INT_MIN to INT_MAX |
| FumeFXObject.HoldClamps | src/FumeFX/MaxKrakatoaFumeFXObject.cpp:120-138 | with an ordered range, a held side clamps the frame to that bound, a frame inside is unchanged, and an unheld side leaves the frame as it is |
| FumeFXObject.RangePolicies | src/FumeFX/MaxKrakatoaFumeFXObject.cpp:140-179 | with an ordered range: below it, policy 0 ("hold first") gives exactly the range's first frame and any other policy a blank frame; above it, the same for policy 0 and the last frame; inside it the frame is never blank |
| FumeFXObject.EmptyIffBlank | src/FumeFX/MaxKrakatoaFumeFXObject.cpp:628-633 | with an ordered range, `GetInternalStream` returns an empty stream for the range test exactly when the loading-frame label reads "Blank" |
| FumeFXObject.CustomRange.constructor | src/FumeFX/MaxKrakatoaFumeFXObject.cpp:506-518 | the range starts from the given bounds |
| FumeFXObject.CustomRange.SetBegin | src/FumeFX/MaxKrakatoaFumeFXObject.cpp:284-290 | setting the start above the end moves the end to it, everything else is unchanged, and the range stays ordered |
| FumeFXObject.CustomRange.SetEnd | src/FumeFX/MaxKrakatoaFumeFXObject.cpp:292-298 | setting the end below the start moves the start to it, and the range stays ordered |
| FumeFXObject.SubdivCount | src/FumeFX/MaxKrakatoaFumeFXObject.cpp:739-742 | subdivision is on iff it is enabled and allowed (render mode, or the viewport allows it), and then the count is at least 1 |
| FumeFXObject.NumPerVoxel | src/FumeFX/MaxKrakatoaFumeFXObject.cpp:746-749 | more than one sample per voxel is taken iff jitter and multiple samples per region are on and allowed, and then at least 2 |
| FumeFXObject.InternalStreamPlan | src/FumeFX/MaxKrakatoaFumeFXObject.cpp:710-765 | the stream is empty iff there is no target node, the viewport is disabled outside render mode, or the frame lies outside the range; it fails iff jitter asks for more samples per voxel than the random count, read as unsigned; otherwise it samples the retimed frame with the chosen counts |
| FumeFXObject.NegativeRandomCountNeverThrows | src/FumeFX/MaxKrakatoaFumeFXObject.cpp:761-764 | a negative random count never raises the sample-count error, because the cast to `size_t` wraps it to a huge value |
| FumeFXStream.VoxelCursor.constructor | src/FumeFX/MaxKrakatoaFumeFXParticleIstream.cpp:242-258 | the cursor starts at (-1, -1, -1), the first position of the walk |
| FumeFXStream.VoxelCursor.Advance | src/FumeFX/MaxKrakatoaFumeFXParticleIstream.cpp:350-363 | z runs fastest, then y, then x, each restarting at -1; a successful step moves to the next position in order, and the step fails exactly at the last position, leaving every coordinate one past its end |
| FumeFXStream.CountPositions | src/FumeFX/MaxKrakatoaFumeFXParticleIstream.cpp:250 | walking the cursor until `advance_iterator` fails visits exactly `m_progressCount` = (nx+1)(ny+1)(nz+1) positions |
| FumeFXStream.LinearIndexInGrid | src/FumeFX/MaxKrakatoaFumeFXParticleIstream.cpp:199-200 | a voxel inside the grid has a linear index inside the grid's storage |
| FumeFXStream.RequestedChannels | src/FumeFX/MaxKrakatoaFumeFXParticleIstream.cpp:268-286 | each simulation channel is requested iff it is not disabled and an output channel (or the density or fire seeding) calls for it |
| FumeFXStream.CachedChannels | src/FumeFX/MaxKrakatoaFumeFXParticleIstream.cpp:296 | the cached channels are those requested that the file actually holds |
| FumeFXStream.NativeChannels | src/FumeFX/MaxKrakatoaFumeFXParticleIstream.cpp:51-75 | the native map always has Position, and Density, Fire, Velocity and Vorticity exactly when the file holds the matching output variable |
| FumeFXStream.NeighbourhoodCache.constructor | src/FumeFX/MaxKrakatoaFumeFXParticleIstream.cpp:341-347 | the cache holds eight fresh corners with the given channel mask |
| FumeFXStream.NeighbourhoodCache.Shift | src/FumeFX/MaxKrakatoaFumeFXParticleIstream.cpp:167-180 | the upper four corners are copied to the lower four, and the upper four are unchanged |
| FumeFXStream.NeighbourhoodCache.ClearSlot | src/FumeFX/MaxKrakatoaFumeFXParticleIstream.cpp:152-165 | one corner's cached channels are zeroed, its other channels and the other corners are unchanged |
| FumeFXStream.NeighbourhoodCache.LoadSlot | src/FumeFX/MaxKrakatoaFumeFXParticleIstream.cpp:129-150 | one corner's cached channels are copied from the grid voxel, its other channels and the other corners are unchanged |
| FumeFXStream.NeighbourhoodCache.ShiftOrClear | src/FumeFX/MaxKrakatoaFumeFXParticleIstream.cpp:183-189 | the lower four corners are shifted from the upper four after a z step, and cleared at the start of a run |
| FumeFXStream.NeighbourhoodCache.RefillCorner | src/FumeFX/MaxKrakatoaFumeFXParticleIstream.cpp:202-234 | an upper corner takes its voxel's values when the voxel is in the grid, and is cleared otherwise; the read is in bounds |
| FumeFXStream.NeighbourhoodCache.CacheVoxelValues | src/FumeFX/MaxKrakatoaFumeFXParticleIstream.cpp:182-239 | the lower corners are shifted or cleared, and corner 4+dx+2dy is refilled from voxel (x+dx, y+dy, z+1) when that lies in the grid, and cleared otherwise |
| FumeFXStream.FuelAndFire | src/FumeFX/MaxKrakatoaFumeFXParticleIstream.cpp:490-494 | a negative fuel value goes to Fuel, negated, a positive one to Fire, and zero to neither |
| FumeFXStream.VoxelData.constructor | src/FumeFX/MaxKrakatoaFumeFXParticleIstream.cpp:366-379 | a new stream holds its voxel data |
| FumeFXStream.VoxelData.Close | src/FumeFX/MaxKrakatoaFumeFXParticleIstream.cpp:384-388 | closing releases the voxel data |
| FumeFXStream.VoxelData.CanYield | src/FumeFX/MaxKrakatoaFumeFXParticleIstream.cpp:438-440 | `get_particle` yields nothing once the voxel data is released |
| FumeFXStream.SimulationFrame | src/FumeFX/MaxKrakatoaFumeFXParticleIstream.cpp:601-626 | a cache type outside 0..2 raises the error naming the type and the node; the stream is empty iff the scene frame is before the offset or the shifted frame is after the end; otherwise the frame is the scene frame minus the offset plus the start, within [start, end] |
| PRTLoader.FilenamesOfKept | src/Objects/MaxKrakatoaPRTLoader.cpp:1025-1036 | there is one filename per entry that passes the mask, in list order: the entry's name, renumbered to the frame unless a single frame is loaded |
| PRTLoader.EmptyMaskKeepsAll | src/Objects/MaxKrakatoaPRTLoader.cpp:1028 | a zero mask keeps every entry |
| PRTLoader.KeptAreListedAndMatch | src/Objects/MaxKrakatoaPRTLoader.cpp:1028 | every kept entry is in the list and has one of the mask's flags, or the mask is zero |
| PRTLoader.MatchingAreKept | src/Objects/MaxKrakatoaPRTLoader.cpp:1028 | every listed entry that passes the mask is kept |
| PRTLoader.GetParticleFilenames | src/Objects/MaxKrakatoaPRTLoader.cpp:1025-1036 | the loop appends exactly the filenames of the kept entries, in order, to the output list |
| PRTLoader.AssertNotLoadingFrom | src/Objects/MaxKrakatoaPRTLoader.cpp:1038-1063 | saving fails iff the loader is enabled in render and some render-enabled file is the target itself (single frame) or of its sequence; the single-frame message names the file |
| PRTLoader.ApplyRange | src/Objects/MaxKrakatoaPRTLoader.cpp:1082-1122 | without the range limit the frames pass through; with it, a frame outside the range is blank iff its side's mode is blank, a held frame sits at the bound with no interpolation, a blank interpolation frame has no interpolation, and with valid modes both frames end up inside the range unless the interpolation frame is blank |
| PRTLoader.ViewportLoadMode | src/Objects/MaxKrakatoaPRTLoader.cpp:398-404 | "use render setting" gives the render mode, and each named viewport mode gives the matching render mode |
| PRTLoader.ViewportColorMode | src/Objects/MaxKrakatoaPRTLoader.cpp:841-855 | a file, material or wireframe viewport mode overrides the render mode, any other value keeps it |
| PRTLoader.CombineStreams | src/Objects/MaxKrakatoaPRTLoader.cpp:1205-1217 | no stream gives an empty stream, one is returned as is, and several are concatenated, in parallel iff the render flag is in the mask and threading is allowed |
| PRTLoader.ObjectSpaceFractionChoice | src/Objects/MaxKrakatoaPRTLoader.cpp:1226-1258 | the object-space stream is empty exactly when the input has no particles or the percentage or limit is zero; otherwise the fractional stream keeps the percentage and limit, takes the first particles exactly for "first N", selects by ID exactly for "evenly by ID" on a file with IDs, is null for an unknown load mode, and exists for every load mode the viewport can select |
| PRTMaker.ViewportCountOnlyInViewport | src/Objects/MaxKrakatoaPRTMaker.cpp:478-481 | the viewport settings never change a render's count, nor the count with the viewport count off, and in the viewport with it on the render count does not matter; the count is one of the two parameters, and zero exactly when the one in use is not positive |
| PRTMaker.SharesSum | src/Objects/MaxKrakatoaPRTMaker.cpp:494-499 | the first j thread shares add up to j quotients plus one for each of them below the remainder |
| PRTMaker.SplitIsExact | src/Objects/MaxKrakatoaPRTMaker.cpp:494-499 | the threads' shares add up to exactly the particle count |
| PRTMaker.SplitIsBalanced | src/Objects/MaxKrakatoaPRTMaker.cpp:494-499 | no two threads' shares differ by more than one |
| PRTMaker.SplitAcrossThreads | src/Objects/MaxKrakatoaPRTMaker.cpp:497-512 | one stream per thread, thread j getting its share of the count and the seed `seed + 7j` |
| PRTMaker.InternalStream | src/Objects/MaxKrakatoaPRTMaker.cpp:472-526 | the IFS method with at least one transform builds one stream per worker thread (one outside a render), concatenated iff there are several, whose counts add up to the particle count; otherwise one simple stream with the whole count and the seed |
| PRTMaker.TMControllerTab.constructor | src/Objects/MaxKrakatoaPRTMaker.cpp:404-405 | the tab starts with the given entries |
| PRTMaker.TMControllerTab.SetAffineTMCount | src/Objects/MaxKrakatoaPRTMaker.cpp:429-435 | the tab is resized to v entries, the old entries below v are kept, and every slot from the old count up to v holds a new controller |
| PRTMaker.RequiredSuperClass | src/Objects/MaxKrakatoaPRTMaker.cpp:208-236 | each assignable slot requires one of the transform, rotation or float super classes |
| PRTMaker.CanAssignIffSomeAccepted | src/Objects/MaxKrakatoaPRTMaker.cpp:205-245 | the range test of `CanAssignController` (line 245) holds exactly for the slots in which the switch of `AssignController` (lines 208-236) replaces a reference for some controller, and such a slot accepts only its required super class |
| PRTMaker.MakerController.constructor | src/Objects/MaxKrakatoaPRTMaker.cpp:205-206 | a new controller holds no references |
| PRTMaker.MakerController.AssignController | src/Objects/MaxKrakatoaPRTMaker.cpp:205-243 | the assignment succeeds iff the slot is 1 with a transform, 2 with a rotation, or 3 or 4 with a float controller; then that reference is replaced, otherwise nothing changes |
| PRTSource.SortDescending | src/Objects/MaxKrakatoaPRTSource.cpp:916-917 | the sorted index list is in descending order and is a permutation of the input |
| PRTSource.RemoveEachDescending | src/Objects/MaxKrakatoaPRTSource.cpp:918-922 | deleting strictly descending indices one at a time drops exactly those positions and keeps the rest in order |
| PRTSource.SortDistinct | src/Objects/MaxKrakatoaPRTSource.cpp:917 | sorting distinct indices gives a strictly descending list of the same indices |
| PRTSource.RemoveDistinctIndices | src/Objects/MaxKrakatoaPRTSource.cpp:912-923 | for distinct indices, `RemoveParticleFlowEvents` removes exactly the listed positions that are in range, and the other events keep their order |
| PRTSource.EventList.constructor | src/Objects/MaxKrakatoaPRTSource.cpp:905-910 | a new event list is empty |
| PRTSource.EventList.IsAcceptable | src/Objects/MaxKrakatoaPRTSource.cpp:854-869 | a node is acceptable iff it is non-null, is a particle group, and is not already in the list |
| PRTSource.EventList.AddParticleFlowEvent | src/Objects/MaxKrakatoaPRTSource.cpp:840-844 | the node is appended iff it is acceptable, the list is otherwise unchanged, and a duplicate-free list stays duplicate-free |
| PRTSource.EventList.ClearParticleFlowEvents | src/Objects/MaxKrakatoaPRTSource.cpp:905-910 | the list becomes empty |
| PRTSource.EventList.RemoveParticleFlowEvents | src/Objects/MaxKrakatoaPRTSource.cpp:912-923 | the list is the old list with each sorted index, in descending order, deleted when it is in range at that point |
| PRTSource.EventList.GetParticleFlowEventNames | src/Objects/MaxKrakatoaPRTSource.cpp:925-945 | one name per slot in order: the node's name, "<deleted>" for a null node, "<error>" for a slot that cannot be read |
| PRTSource.FlowStreamFor | src/Objects/MaxKrakatoaPRTSource.cpp:640-683 | in SELECTED mode only the groups in the event list are concatenated, and an empty stream with an ID channel stands in iff there were groups and none survived; in ALL mode every group is used; a node without groups takes the factory stream |
| PRTSource.ViewFraction | src/Objects/MaxKrakatoaPRTSource.cpp:693 | the viewport fraction is clamped to [0, 1]: a negative one becomes 0, one above 1 becomes 1, and one already inside is unchanged |
| PRTSource.ViewLimit | src/Objects/MaxKrakatoaPRTSource.cpp:694-702 | without the viewport limit the limit is the largest int64; with it, 0 exactly when 1000 times the raw limit is not positive, and otherwise that product rounded up |
| PRTSource.ViewportStream | src/Objects/MaxKrakatoaPRTSource.cpp:692-711 | outside render mode the stream is thinned by ID exactly when it has an ID channel and evenly otherwise, with the clamped fraction and the viewport limit; in render mode it is not thinned |
| PRTSource.CacheInternalAction | src/Objects/MaxKrakatoaPRTSource.cpp:556-572 | a time inside the object's validity keeps the cache; otherwise it is cleared, and rebuilt exactly when the viewport is not disabled (or in render mode) and the target node evaluates to an object |
| PRTSource.StreamAdaptor.constructor | src/Objects/MaxKrakatoaPRTSource.cpp:410-411 | the adaptor starts at position 0 over the bytes the source can deliver |
| PRTSource.StreamAdaptor.Bump | src/Objects/MaxKrakatoaPRTSource.cpp:415-427 | one byte is read and the position advances by one, or the source is at its end and nothing changes |
| PRTSource.StreamAdaptor.SeekOff | src/Objects/MaxKrakatoaPRTSource.cpp:447-463 | an output or end-relative seek, or a backward one, fails with -1 and changes nothing; a forward seek reads up to the offset or to the end of the source and returns the new position |
| HairObject.SplinePoints | src/Objects/MaxKrakatoaHairObject.cpp:340-368 | a spline with fewer than two knots gives no points; otherwise 3k-2 points, knot j's point at 3j, its in vector at 3j-1 and its out vector at 3j+1, each transformed |
| HairObject.CacheSplinesFromNode | src/Objects/MaxKrakatoaHairObject.cpp:299-385 | a source that cannot be converted to splines raises an error naming it; otherwise every spline of the shape is laid out in order as above |
| HairObject.WorldSpaceRule | src/Objects/MaxKrakatoaHairObject.cpp:723-726 | with two or more sources the object works in world space whatever the InWorldSpace flag; with one or none the flag alone decides; adding a source never leaves world space |
| HairObject.ViewportHairCount | src/Objects/MaxKrakatoaHairObject.cpp:841-843 | the viewport draws the hair limit or all cached splines, whichever is smaller; a negative limit, cast to `size_t`, draws all of them |
| HairObject.Fitted | src/Objects/MaxKrakatoaHairObject.cpp:1018-1027 | a reference spline cut or padded to n points keeps its first points and repeats its last point in the padding |
| HairObject.SplineCache.constructor | src/Objects/MaxKrakatoaHairObject.cpp:646-653 | a new cache holds empty current, offset and reference splines, each valid NEVER |
| HairObject.SplineCache.InvalidateForWorldSpace | src/Objects/MaxKrakatoaHairObject.cpp:796-801 | in world space all three validities become NEVER, in object space they are kept; the splines themselves never change |
| HairObject.SplineCache.ClearSpline | src/Objects/MaxKrakatoaHairObject.cpp:709-721 | the current, offset and reference splines are emptied and their validities set to FOREVER |
| HairObject.SplineCache.FitReference | src/Objects/MaxKrakatoaHairObject.cpp:1017-1029 | one reference spline is truncated or padded to the current point count, and nothing else changes |
| HairObject.SplineCache.Reconcile | src/Objects/MaxKrakatoaHairObject.cpp:983-1031 | differing spline counts against the offset splines, or against a non-empty reference, raise the error naming the node and the two times and change nothing; otherwise each offset spline with another point count is replaced by the current one, and each reference spline is fitted to the current point count |
| HairObject.ValidateSourceNode | src/Objects/MaxKrakatoaHairObject.cpp:456-476 | a value is accepted iff it is not a source node, or null, or a node that is not yet listed, evaluates to an object other than the hair object, and converts to splines |
| VolumeObject.AsUInt32 | src/Objects/MaxKrakatoaVolumeObject.cpp:679 | the cast to `unsigned int` reduces modulo 2^32 and leaves values already in range unchanged |
| VolumeObject.AsSizeT | src/Objects/MaxKrakatoaVolumeObject.cpp:680 | the cast to `size_t` reduces modulo 2^64, so a negative count wraps to 2^64 plus the count |
| VolumeObject.VoxelSpacing | src/Objects/MaxKrakatoaVolumeObject.cpp:515-519 | the spacing is VoxelLength when rendering or when the viewport length is unused, else ViewportVoxelLength |
| VolumeObject.ValidityAfterRebuild | src/Objects/MaxKrakatoaVolumeObject.cpp:531-540 | a rebuild leaves the mesh validity at [t, t] unless the target's world state was evaluated, and then at the mesh's own validity |
| VolumeObject.ShellDistances | src/Objects/MaxKrakatoaVolumeObject.cpp:483-488 | without the shell the distances are 0 and FLT_MAX; with it, ShellStart and ShellStart plus ShellThickness |
| VolumeObject.ViewportFraction | src/Objects/MaxKrakatoaVolumeObject.cpp:498-504 | the fraction is the viewport percentage when it is used, else 1; the limit is the largest int64 unless enabled, and then 1000 times the raw limit truncated toward zero, for a negative limit too |
| VolumeObject.MigratedSampling | src/Objects/MaxKrakatoaVolumeObject.cpp:713-734 | migration sets RandomCount to 1024; regular-grid mode takes one subdivision level off (disabling subdivision when none is left) and turns jitter and multi-sampling off; random mode takes one level off, keeping at least 1, disables subdivision and turns jitter and multi-sampling on |
| VolumeObject.Migrated | src/Objects/MaxKrakatoaVolumeObject.cpp:709-737 | only the sampling values and well-distributed jitter change; the latter is off in regular-grid mode and on in random mode |
| VolumeObject.MigratedRegularGridSampling | src/Objects/MaxKrakatoaVolumeObject.cpp:716-726 | a migrated regular-grid block subdivides one level less than before (none at one level or fewer, or where subdivision is not allowed) and takes one unjittered sample per voxel |
| VolumeObject.MigratedRandomSampling | src/Objects/MaxKrakatoaVolumeObject.cpp:727-734 | a migrated random-mode block is not subdivided, jitters with well-distributed samples, and takes several samples per voxel wherever multi-sampling is allowed |
| VolumeObject.KrakatoaVolume.constructor | src/Objects/MaxKrakatoaVolumeObject.cpp:446-463 | a new object turns density compensation on, a loaded one keeps the defaults it is about to overwrite; no level set or sampler is cached and the mesh validity is empty |
| VolumeObject.KrakatoaVolume.CacheLevelset | src/Objects/MaxKrakatoaVolumeObject.cpp:511-664 | the cached level set is reused iff it exists, the spacing is unchanged and the mesh is still valid; otherwise the spacing is recorded and a level set is built iff there is a target, it is enabled in this mode, the spacing is positive, the target converts to a mesh, and the velocity state needed for a near-instant mesh is convertible |
| VolumeObject.KrakatoaVolume.CacheVoxelSampler | src/Objects/MaxKrakatoaVolumeObject.cpp:667-707 | the subdivisions always follow the parameters; the sampler is rebuilt, and its key recorded, iff none was cached, the jitter flag changed, or jitter is on and the seed, count or distribution changed; afterwards the cache matches the parameters |
| VolumeObject.KrakatoaVolume.GetInternalStream | src/Objects/MaxKrakatoaVolumeObject.cpp:470-509 | the stream is empty iff no level set is cached after the refresh; otherwise it samples the cached level set with the cached sampler between the negated shell distances, with density compensation as set and the viewport fraction applied outside a render |
| VolumeObject.KrakatoaVolume.PostLoadCallback | src/Objects/MaxKrakatoaVolumeObject.cpp:709-737 | a parameter block of another version is migrated and the load marked obsolete; a current block, or none to inspect, is left unchanged |
| ShadowGen.StrMatch | src/MaxKrakatoaShadowGenerator.cpp:240-249 | `strmatch` answers true exactly when one string is a prefix of the other |
| ShadowGen.Find | src/MaxKrakatoaShadowGenerator.cpp:268 | a position `find` returns lies between the start position and the end of the path |
| ShadowGen.FindFirst | src/MaxKrakatoaShadowGenerator.cpp:268 | the position found holds '$' and no earlier position from the start does; without a result no position holds it |
| ShadowGen.MacrosExclusive | src/MaxKrakatoaShadowGenerator.cpp:270-277 | no text begins with both `$renderdir` and `$objectname`, so the two branches never compete |
| ShadowGen.MatchIsMacro | src/MaxKrakatoaShadowGenerator.cpp:270-277 | on a text that begins with one of the macros, `strmatch` against a macro means the text begins with that macro |
| ShadowGen.LiteralSkip | src/MaxKrakatoaShadowGenerator.cpp:276-279 | the skip `sizeof(_T(macro)) - 1` is the character size times the macro length plus one, less one |
| ShadowGen.RenderDir | src/MaxKrakatoaShadowGenerator.cpp:256-258 | the render directory is missing exactly when the render path is null or empty, and otherwise is the directory of that path |
| ShadowGen.ExpandAt | src/MaxKrakatoaShadowGenerator.cpp:270-282 | one loop turn keeps the remaining scan equal to the whole scan, moves the position forward, or fails with the render path error |
| ShadowGen.ExpandMacros | src/MaxKrakatoaShadowGenerator.cpp:264-287 | the loop's result is the scan of the whole path from position 0 with the given skips |
| ShadowGen.GetRealSavePath | src/MaxKrakatoaShadowGenerator.cpp:253-288 | the expansion uses an empty name for a null node name, the render directory rule and the `sizeof` skips of the build's character size |
| ShadowGen.SubstitutePlain | src/MaxKrakatoaShadowGenerator.cpp:281-286 | text before the next '$' is copied unchanged into the result |
| ShadowGen.ScanSubstitutes | src/MaxKrakatoaShadowGenerator.cpp:264-287 | when each skip is exactly the macro's length, the scan equals plain left-to-right macro substitution, or the render path error |
| ShadowGen.CorrectedSkipSubstitutes | src/MaxKrakatoaShadowGenerator.cpp:276-279 | with one-byte characters the source's expansion is the intended macro substitution on every path the scan accepts |
| ShadowGen.NoMacroUnchanged | src/MaxKrakatoaShadowGenerator.cpp:286 | a path without '$' is accepted and returned unchanged, whatever the skips |
| ShadowGen.TwoMacroExpansion | src/MaxKrakatoaShadowGenerator.cpp:270-286 | with one-byte characters, a path with one `$renderdir` and then one `$objectname` gets the directory and the node name in their places |
| ShadowGen.DefaultPathExpansion | src/MaxKrakatoaShadowGenerator.cpp:189 | with one-byte characters the default `$renderdir\Shadows\$objectname_0000.exr` becomes the directory, `\Shadows\`, the node name and `_0000.exr` |
| ShadowGen.WideSkipDropsEleven | src/MaxKrakatoaShadowGenerator.cpp:276 | with two-byte characters the skip after `$renderdir` is 21, so the eleven characters after the macro are lost |
| ShadowGen.WideSkipDropsObjectName | src/MaxKrakatoaShadowGenerator.cpp:189 | with two-byte characters the default path expands to the directory plus `bjectname_0000.exr`, without the node name |
| ShadowGen.CreateShadowGenerator | src/MaxKrakatoaShadowGenerator.cpp:884-902 | the omni flag selects the omni generator; an omni request to an omni-capable delegate type makes one delegate with the same flags, otherwise six are made without the omni flag; with DelegateOn off or no type there are none |
| KrakatoaUtils.TryGet | src/MaxKrakatoaUtils.cpp:71-90 | a missing property gives the default; a present one gives the typed getter's result, which has the requested type |
| KrakatoaUtils.FallbackRead | src/MaxKrakatoaUtils.cpp:1272-1290 | in the nested hair-shader reads the newer property name wins, then the older one, then the literal default |
| KrakatoaUtils.DensityMethodFromString | src/MaxKrakatoaUtils.cpp:96-106 | a parsed mode's name is the input string; any other string gives the "Invalid density mode" error that quotes it |
| KrakatoaUtils.DensityMethodRoundTrip | src/MaxKrakatoaUtils.cpp:96-106 | each mode's name parses back to that mode, and exactly the three names parse |
| KrakatoaUtils.MatteDepthMapMethodFromString | src/MaxKrakatoaUtils.cpp:112-122 | a parsed method's name is the input string; any other string gives the "received an invalid string" error that quotes it |
| KrakatoaUtils.MatteDepthMapMethodRoundTrip | src/MaxKrakatoaUtils.cpp:112-122 | each depth map method's name parses back to it, and exactly the three names parse |
| KrakatoaUtils.KeptPartition | src/MaxKrakatoaUtils.cpp:480-488 | every particle is kept by exactly one of a filter and its negation |
| KrakatoaUtils.SwapRemoveFilters | src/MaxKrakatoaUtils.cpp:480-488 | a whole swap-remove pass leaves exactly the accepted elements, as a multiset, and the count drops by the number rejected |
| KrakatoaUtils.RemoveNonFinite | src/MaxKrakatoaUtils.cpp:478-488 | the in-place loop leaves in the array's prefix exactly what the swap-remove pass over the old contents leaves |
| KrakatoaUtils.RetrieveParticles | src/MaxKrakatoaUtils.cpp:417-491 | the retrieved particles are the scene's finite ones as a multiset, all of them finite, and their count is the scene's less the non-finite ones |
| KrakatoaUtils.GetPMESceneObjects | src/MaxKrakatoaUtils.cpp:1478-1506 | with extinction on, the object list becomes the union's visible, renderable, not-done nodes, and every node of the union joins the done set; otherwise both stay as they were |
| KrakatoaUtils.DefineMissingHas | src/MaxKrakatoaUtils.cpp:1518-1563 | a channel name is in the render map exactly when it was there before or some condition asked for it |
| KrakatoaUtils.DefineMissingComplete | src/MaxKrakatoaUtils.cpp:1518-1563 | a map that already has every requested channel is left as it is |
| KrakatoaUtils.RenderParticleChannelsIdempotent | src/MaxKrakatoaUtils.cpp:1518-1563 | the existing channels come first and unchanged, and calling it a second time changes nothing |
| KrakatoaUtils.RenderParticleChannelsAlways | src/MaxKrakatoaUtils.cpp:1519-1526 | Position, Color and Density are always in the render map |
| KrakatoaUtils.RenderParticleChannelsLighting | src/MaxKrakatoaUtils.cpp:1528-1532 | Lighting is in the map exactly when it was before or scene lights are used without voxel rendering |
| KrakatoaUtils.RenderParticleChannelsMotionBlur | src/MaxKrakatoaUtils.cpp:1534-1540 | Velocity is in the map exactly when it was before or motion blur is on; MBlurTime exactly when it was before or the blur is jittered |
| KrakatoaUtils.StillCovers | src/MaxKrakatoaUtils.cpp:1348-1353 | the loop's answer is true exactly when the cached map has every desired channel |
| KrakatoaUtils.CacheParticles | src/MaxKrakatoaUtils.cpp:1344-1367 | a valid cache that has every desired channel is kept when caching is on; otherwise the cache takes the desired channels and the scene's finite particles, sets the particle flag and clears the lighting flag |
| KrakatoaUtils.MatteSegmentsPolicy | src/MaxKrakatoaUtils.cpp:1013-1036 | with motion blur and explicit matte segments the explicit count is used; otherwise the count is 0 or 1, and 1 exactly for transform-only blur with more than one motion segment; without motion blur it is 0; deformation blur changes the count only with blur on, no explicit segments and more than one motion segment |
| KrakatoaHeader.GetterOf | include/MaxKrakatoa.h:312-338 | each value type's `property_helper` forwards to a getter that returns that type |
| KrakatoaHeader.GetterOfOneToOne | include/MaxKrakatoa.h:312-338 | two types share a getter exactly when they are the same type |
| KrakatoaHeader.Read | include/MaxKrakatoa.h:312-338 | a typed read succeeds exactly when the name is present with a value of the getter's type, and then gives that value |
| KrakatoaHeader.GetProperty | include/MaxKrakatoa.h:341-344 | `get_property<T>` succeeds exactly when the name holds a value of type T, and gives that value |
| KrakatoaHeader.GetString | include/MaxKrakatoa.h:333-338 | the string read succeeds exactly when the name holds a string, and gives it |
| KrakatoaHeader.GetBoolProp | include/MaxKrakatoa.h:315-320 | the bool read succeeds exactly when the name holds a bool, and gives it |
| KrakatoaHeader.GetIntProp | include/MaxKrakatoa.h:321-326 | the int read succeeds exactly when the name holds an int, and gives it |
| KrakatoaHeader.Renderer.constructor | src/MaxKrakatoa.cpp:186-233 | all cache flags clear, an empty Position-only cache, no volume, no progress callback, the host's save-required flag unchanged, the dirty bit on; outside ActiveShade initialisation the properties are those the `InitRenderer` script set and `InitRenderer` counts as done exactly when it succeeds; during it there are no properties |
| KrakatoaHeader.Renderer.ResetParams | src/MaxKrakatoa.cpp:401-431 | the properties become those the re-run `InitRenderer` script set, whatever the mode; no progress callback; done exactly when it succeeds; the dirty bit on; caches, volume and save-required left as they were |
| KrakatoaHeader.Renderer.InvalidateParticleCache | include/MaxKrakatoa.h:223-227 | the particle and lighting flags are cleared and the cache holds no particles; nothing else changes |
| KrakatoaHeader.Renderer.InvalidateLightingCache | include/MaxKrakatoa.h:228-239 | only the lighting flag is cleared; with a Lighting channel every cached particle's Lighting value becomes zero and nothing else in it changes |
| KrakatoaHeader.Renderer.InvalidateAPMVolumeCache | include/MaxKrakatoa.h:241-244 | the APM flag is cleared and the volume dropped; nothing else changes |
| KrakatoaHeader.Renderer.SetProperty | include/MaxKrakatoa.h:277-300 | the property is stored, and the scene becomes save-required exactly when it was or the dirty bit is on |
| KrakatoaHeader.Renderer.EraseProperty | include/MaxKrakatoa.h:302-306 | the property is removed, with the same save-required rule |
| Krakatoa.GetMaxKrakatoa | src/MaxKrakatoa.cpp:164-175 | the renderer of the render in progress wins, then the current renderer if it is Krakatoa; otherwise the "must be set to Krakatoa" error |
| Krakatoa.UsingFramebuffer | src/MaxKrakatoa.cpp:338-342 | the frame buffer is used exactly when neither the XML target nor particle saving is chosen; an unreadable property is the error |
| Krakatoa.HasRequirement | src/MaxKrakatoa.cpp:335-367 | NoVFB and DontSaveRenderOutput hold exactly when the render saves elsewhere, 32-bit output exactly when it does not, every other requirement is false, and a failed read gives false |
| Krakatoa.RequirementsExclusive | src/MaxKrakatoa.cpp:335-367 | with readable properties exactly one of "no frame buffer" and "32-bit output" holds; with unreadable ones neither does |
| Krakatoa.AcceptTab | src/MaxKrakatoa.cpp:373-379 | a tab is removed exactly when it is a radiosity tab or the raytracer tab, and added otherwise |
| Krakatoa.Open | src/MaxKrakatoa.cpp:433-540 | the result is 1 exactly when InitRenderer has run and collecting the scene succeeds; the internal error is reported exactly when InitRenderer has not run |
| Krakatoa.EffectiveMode | src/MaxKrakatoa.cpp:641-643 | the XML render target overrides the ParticleMode property; a failed read is the error |
| Krakatoa.CacheInvalidation | src/MaxKrakatoa.cpp:645-649 | the particle cache is dropped exactly when particle caching is off, or on a render server that does not cache in worker mode; otherwise the lighting cache is dropped exactly when lighting caching is off |
| Krakatoa.Dispatch | src/MaxKrakatoa.cpp:651-661 | the material editor comes first, then the four particle modes; any other mode is the "Unknown render mode" error that names it |
| Krakatoa.ApplyInvalidation | src/MaxKrakatoa.cpp:645-649 | the caches end as the chosen invalidation leaves them, and nothing else of the renderer changes |
| Krakatoa.Render | src/MaxKrakatoa.cpp:597-702 | the frame's sub-render is the dispatch of the properties, the result is true exactly when one is reached and completes, the caches were invalidated first, and the progress callback is removed at the end; a missing bitmap logs the NULL-framebuffer message and returns before the callback is installed |
| Krakatoa.XmlTargetOverridesMode | src/MaxKrakatoa.cpp:641-660 | with the XML target the frame is written to XML whatever the particle mode, except in the material editor |
| Krakatoa.RenderFailures | src/MaxKrakatoa.cpp:615-661 | without a bitmap, or with an unknown mode, no sub-render is reached; without a bitmap no cache is touched |
| Krakatoa.DispatchAfterInvalidation | src/MaxKrakatoa.cpp:645-661 | a sub-render is reached only with a bitmap and readable properties, after the cache invalidation succeeded |
| Krakatoa.TripleChannel | src/MaxKrakatoa.cpp:933-935 | the triple ending at item i converts exactly when its type and arity convert, and names the channel by item i-2 |
| Krakatoa.ParseSavingChannels | src/MaxKrakatoa.cpp:925-937 | the loop over i = 2, 5, 8, … gives the channel list of the triple parse |
| Krakatoa.ChannelsFromContents | src/MaxKrakatoa.cpp:933-935 | the triples from i on give one channel each, in order |
| Krakatoa.ChannelsFromFails | src/MaxKrakatoa.cpp:933-935 | a triple that fails to convert fails the whole list |
| Krakatoa.SavingChannelsContents | src/MaxKrakatoa.cpp:925-937 | a successful parse had at least two items and has one channel per complete triple, channel k named by item 3k, typed by 3k+1 and sized by 3k+2; a trailing incomplete triple is ignored |
| Krakatoa.SavingChannelsFails | src/MaxKrakatoa.cpp:925-937 | the parse fails when some complete triple does not convert |
| Krakatoa.TwoItemsSaveNoChannel | src/MaxKrakatoa.cpp:929-931 | "Position,float32" passes the "at least 1 channel" check and saves no channel |
| Krakatoa.CorrectedSavesAChannel | src/MaxKrakatoa.cpp:929-931 | with a three-item minimum a successful parse has at least one channel and agrees with the source's parse |
| Krakatoa.CompressionLevel | src/MaxKrakatoa.cpp:1071-1074 | -1 without PRTCompressionLevel; otherwise its integer value clamped to [-1, 9], and a non-integer value is the read's error |
| ParticleSources.ReadFlags | src/MaxKrakatoaParticleSources.cpp:462-479 | the flag reads succeed exactly when every named property holds a bool, and then give those values in order |
| ParticleSources.PFlowTypes | src/MaxKrakatoaParticleSources.cpp:171-180 | the 'none' render type is always enabled, and bounding boxes, geometry and phantom exactly when their flags are set |
| ParticleSources.SdkFactories | src/MaxKrakatoaParticleSources.cpp:501-512 | one factory for each SDK compiled in, all of them SDK factories |
| ParticleSources.FactoriesOf | src/MaxKrakatoaParticleSources.cpp:481-521 | twelve factories plus one per SDK: the nine class factories, the SDK ones, then the three fallbacks |
| ParticleSources.ClassFactories | src/MaxKrakatoaParticleSources.cpp:481-499 | the nine factories before the SDK ones |
| ParticleSources.FallbackFactories | src/MaxKrakatoaParticleSources.cpp:514-521 | the three factories after the SDK ones |
| ParticleSources.FactoryOrder | src/MaxKrakatoaParticleSources.cpp:448-522 | the PRT Loader first, the seven PRT objects by class, Particle Flow, the SDK factories, then the always-enabled wildcard PRT object factory, legacy particles and geometry vertices |
| ParticleSources.FactoriesOfLayout | src/MaxKrakatoaParticleSources.cpp:481-521 | the list built from any flags has that layout |
| ParticleSources.NullRendererEnablesAll | src/MaxKrakatoaParticleSources.cpp:450-458 | without a renderer every factory is enabled and Particle Flow renders every type |
| ParticleSources.FlagsOnEnableAll | src/MaxKrakatoaParticleSources.cpp:481-521 | with every flag on every factory is enabled |
| ParticleSources.RendererFlagsEnable | src/MaxKrakatoaParticleSources.cpp:460-479 | with a renderer each factory is enabled by its own property |
| ParticleSources.GroupSources | src/MaxKrakatoaParticleSources.cpp:229-232 | a particle group gives one source exactly when its render type is enabled, marked for update only for the 'none' type |
| ParticleSources.ConnectedSources | src/MaxKrakatoaParticleSources.cpp:234-249 | the connected groups give at most one source each, and some source exactly when some group yields one |
| ParticleSources.Process | src/MaxKrakatoaParticleSources.cpp:226-400 | a factory that does not claim the node adds nothing, a disabled factory adds nothing, and every factory but Particle Flow adds only sources of the node itself |
| ParticleSources.PFlowClaims | src/MaxKrakatoaParticleSources.cpp:226-251 | Particle Flow always claims a particle group, and claims another node exactly when one of its connected groups yields a source |
| ParticleSources.WildcardClaimsPrtObjects | src/MaxKrakatoaParticleSources.cpp:384-400 | the class id (0, 0) factory claims exactly the PRT objects |
| ParticleSources.FirstClaimAt | src/MaxKrakatoaParticleSources.cpp:547-550 | the first factory that claims the node alone decides its sources |
| ParticleSources.FirstClaimNone | src/MaxKrakatoaParticleSources.cpp:547-550 | a node no factory claims gets no sources |
| ParticleSources.DisabledClaimSuppresses | src/MaxKrakatoaParticleSources.cpp:547-550 | a disabled factory that claims a node first leaves it with no sources at all |
| ParticleSources.PrtObjectsAlwaysClaimed | src/MaxKrakatoaParticleSources.cpp:514-516 | with the factories of `create_particle_factories` every PRT object is claimed before the legacy and geometry factories |
| ParticleSources.ProcessNode | src/MaxKrakatoaParticleSources.cpp:547-550 | the factory loop appends the sources of the first claiming factory |
| ParticleSources.CollectParticleObjects | src/MaxKrakatoaParticleSources.cpp:524-556 | the walk appends the sources of the subtree, as the recursive definition gives them |
| ParticleSources.DoneNodeSkipped | src/MaxKrakatoaParticleSources.cpp:528-529 | a node already visited adds nothing, not even its children's sources |
| ParticleSources.IneligibleNodeOnlyChildren | src/MaxKrakatoaParticleSources.cpp:537-556 | a hidden, non-renderable, frozen-and-hidden or geometry node adds only what its children add |
| ParticleSources.EligibleNodeFirst | src/MaxKrakatoaParticleSources.cpp:537-551 | an eligible node's own sources, from its first claiming factory, come first |
| ParticleSources.NoFactoriesNoSources | src/MaxKrakatoaParticleSources.cpp:524-556 | without factories nothing is collected |
| PRTObjectExt.CacheChannels | SDK/src/PRTParticleObjectExt.cpp:495-590 | the cache's channel map always has Position |
| PRTObjectExt.NativeAccessorsFrom | SDK/src/PRTParticleObjectExt.cpp:495-590 | Position always has an accessor and Spin never; velocity from Velocity or VelocityTicks, orientation from Orientation or OrientationXYZ, age from Age or AgeTicks, lifespan only from LifeSpan, a three-component Scale gets the XYZ accessor and any other the scalar one |
| PRTObjectExt.AccessorsForMembers | SDK/src/PRTParticleObjectExt.cpp:553-588 | each accessor is valid exactly when the cache's map has its channel |
| PRTObjectExt.CacheChannelsMembers | SDK/src/PRTParticleObjectExt.cpp:495-552 | which channels the cache's map has, for each native channel map |
| PRTObjectExt.DefaultNativeChannels | SDK/src/PRTParticleObjectExt.cpp:455-465 | the empty stream of the default map gives a cache with Position, the tick velocity, Selection and ID |
| PRTObjectExt.ParticleObjectExt.constructor | SDK/src/PRTParticleObjectExt.cpp:120-126 | no particles, no valid accessor, no node, the time at negative infinity |
| PRTObjectExt.ParticleObjectExt.NumParticles | SDK/src/PRTParticleObjectExt.cpp:626 | the number of cached particles |
| PRTObjectExt.ParticleObjectExt.GetByIndex | SDK/src/PRTParticleObjectExt.cpp:379-384 | the channel's value for a valid accessor and an index in range, else the default |
| PRTObjectExt.ParticleObjectExt.GetPtrByIndex | SDK/src/PRTParticleObjectExt.cpp:386-391 | a reference exactly when the accessor is valid and the index in range, to the value the getter gives |
| PRTObjectExt.ParticleObjectExt.ParticleById | SDK/src/PRTParticleObjectExt.cpp:368-377 | the first particle whose ID is the given one; none exactly when there is no ID accessor or no particle has that ID |
| PRTObjectExt.ParticleObjectExt.GetById | SDK/src/PRTParticleObjectExt.cpp:393-399 | the channel's value in the first particle with that ID, else the default |
| PRTObjectExt.ParticleObjectExt.SetByIndex | SDK/src/PRTParticleObjectExt.cpp:409-414 | the value is stored in that particle's channel for a valid accessor and an index in range; otherwise nothing changes |
| PRTObjectExt.ParticleObjectExt.SetById | SDK/src/PRTParticleObjectExt.cpp:416-421 | the value is stored in the first particle with that ID when the accessor is valid; otherwise nothing changes |
| PRTObjectExt.ParticleObjectExt.StoredChangesOneValue | SDK/src/PRTParticleObjectExt.cpp:409-414 | a store by index keeps the number of particles and changes no other particle's value and no other channel |
| PRTObjectExt.ParticleObjectExt.HasParticleBornIndex | SDK/src/PRTParticleObjectExt.cpp:630-644 | found exactly when some particle has the ID, with the index of the first; otherwise the caller's output is left as it was |
| PRTObjectExt.ParticleObjectExt.GetParticleIndex | SDK/src/PRTParticleObjectExt.cpp:648-653 | the index of the first particle with that ID, or -1 |
| PRTObjectExt.ParticleObjectExt.SetCurrentParticleBornIndex | SDK/src/PRTParticleObjectExt.cpp:663-667 | the first particle with that ID becomes current, or -1 when none has it |
| PRTObjectExt.ParticleObjectExt.SetCurrentParticleIndex | SDK/src/PRTParticleObjectExt.cpp:661 | the index is stored unchecked |
| PRTObjectExt.ParticleObjectExt.GetParticleBornIndex | SDK/src/PRTParticleObjectExt.cpp:628 | the ID of the particle at the index, or -1 when it cannot be read |
| PRTObjectExt.ParticleObjectExt.GetCurrentParticleBornIndex | SDK/src/PRTParticleObjectExt.cpp:657-659 | the ID of the current particle, as by index |
| PRTObjectExt.ParticleObjectExt.GetParticleAgeByIndex | SDK/src/PRTParticleObjectExt.cpp:669 | the age of the particle at the index, or 0 |
| PRTObjectExt.ParticleObjectExt.GetParticleLifeSpanByIndex | SDK/src/PRTParticleObjectExt.cpp:683-685 | the lifespan of the particle at the index, or positive infinity |
| PRTObjectExt.ParticleObjectExt.GetParticleLifeSpanByBornIndex | SDK/src/PRTParticleObjectExt.cpp:687-689 | the lifespan of the first particle with that ID, or positive infinity when none has it |
| PRTObjectExt.ParticleObjectExt.GetParticleScaleByIndex | SDK/src/PRTParticleObjectExt.cpp:801-805 | the x of the XYZ scale when that accessor is valid, else the scalar scale, else 1 |
| PRTObjectExt.ParticleObjectExt.SetParticleScaleByIndex | SDK/src/PRTParticleObjectExt.cpp:813-817 | the XYZ scale and then the scalar scale are stored where their accessors are valid, so reading the scale back gives the value stored; the particles are exactly those two stores applied, and accessors, channels, current particle, time and node are unchanged |
| PRTObjectExt.ParticleObjectExt.GetParticleSelectedByIndex | SDK/src/PRTParticleObjectExt.cpp:861-863 | selected exactly when the stored selection is readable and not 0 |
| PRTObjectExt.ParticleObjectExt.SetParticleSelectedByIndex | SDK/src/PRTParticleObjectExt.cpp:869-871 | 1 or 0 is stored where the accessor is valid, so reading it back gives the flag; the particles are exactly that store applied, and accessors, channels, current particle, time and node are unchanged |
| PRTObjectExt.ParticleObjectExt.GetParticleSelected | SDK/src/PRTParticleObjectExt.cpp:877-879 | the selection of the current particle |
| PRTObjectExt.ParticleObjectExt.UpdateParticles | SDK/src/PRTParticleObjectExt.cpp:437-618 | the first particle becomes current at the time for the node; without a node the cache is an empty Position-only one; a failed set-up leaves no particles, the default map and only the position accessor; a stream that does not open is replaced by the empty stream of the default map; otherwise the channels and accessors follow the stream's native map and the particles are the stream's when it reads |
| PRTObjectExt.FirstWithId | SDK/src/PRTParticleObjectExt.cpp:368-377 | the first particle from k on with that ID; none exactly when no later particle has it |
| ClonerMod.SourceName | src/Misc/MaxKrakatoaPRTClonerMod.cpp:760 | the renamed channel is `Source_` followed by the original name |
| ClonerMod.UnionOfFirst | src/Misc/MaxKrakatoaPRTClonerMod.cpp:745-747 | the union has exactly the names of the source maps, each with the definition of the first source that has it |
| ClonerMod.DelegateKeepsChannels | src/Misc/MaxKrakatoaPRTClonerMod.cpp:752-771 | adding the delegate's channels never changes a channel already in the map |
| ClonerMod.RenamesArePrefixed | src/Misc/MaxKrakatoaPRTClonerMod.cpp:758-763 | every recorded rename maps a name without the `Source_` prefix to `Source_` plus that name |
| ClonerMod.AddDelegateChannelsAppend | src/Misc/MaxKrakatoaPRTClonerMod.cpp:752-771 | adding the delegate's channels in two parts gives what adding them at once gives |
| ClonerMod.RenameKept | src/Misc/MaxKrakatoaPRTClonerMod.cpp:758-763 | a recorded rename stays recorded |
| ClonerMod.NotRenamed | src/Misc/MaxKrakatoaPRTClonerMod.cpp:758-763 | a name no delegate channel has is never recorded as renamed |
| ClonerMod.NotAdded | src/Misc/MaxKrakatoaPRTClonerMod.cpp:752-771 | a name without the prefix that no delegate channel has is never added |
| ClonerMod.DelegateChannelLands | src/Misc/MaxKrakatoaPRTClonerMod.cpp:741-774 | a delegate channel without the prefix is in the native map; it is renamed exactly when a source has its name, and then `Source_` plus the name is in the map; a prefixed one is skipped |
| ClonerMod.NativeKeepsSources | src/Misc/MaxKrakatoaPRTClonerMod.cpp:741-774 | the native map holds every source channel with the definition of the first source that has it |
| ClonerMod.NativeRenamesPrefixed | src/Misc/MaxKrakatoaPRTClonerMod.cpp:741-774 | every rename `init_native_map` records is from a delegate name to `Source_` plus that name |
| ClonerMod.BuildNativeMap | src/Misc/MaxKrakatoaPRTClonerMod.cpp:741-774 | the two loops of `init_native_map` compute exactly `NativeMapOf` of the source maps and the delegate's channels |
| ClonerMod.RoundRobin | src/Misc/MaxKrakatoaPRTClonerMod.cpp:960-964 | the source chosen for a delegate particle without a ShapeIndex accessor is at most the source count |
| ClonerMod.RoundRobinCycles | src/Misc/MaxKrakatoaPRTClonerMod.cpp:960-964 | without an accessor the k-th delegate particle, from 0, gets source k mod n |
| ClonerMod.ShapeIndexChoice | src/Misc/MaxKrakatoaPRTClonerMod.cpp:965-971 | with an accessor the source is abs(index) mod n, a valid source, independent of the previous one, and an index and its negation choose the same source |
| ClonerMod.NextSourceValid | src/Misc/MaxKrakatoaPRTClonerMod.cpp:959-972 | every selection picks a valid source |
| ClonerMod.ShapeIndexAsWrittenAgrees | src/Misc/MaxKrakatoaPRTClonerMod.cpp:966-967 | the 32-bit `std::abs` followed by the truncating `%` agrees with abs(index) mod n on every index but the least int |
| ClonerMod.LeastIndexSelectsBeforeFirst | src/Misc/MaxKrakatoaPRTClonerMod.cpp:966-967 | with three sources a ShapeIndex of -2147483648 selects offset -2, before the first source |
| ClonerMod.SourceMaps | src/Misc/MaxKrakatoaPRTClonerMod.cpp:745-747 | one channel map per source, in order |
| ClonerMod.WantedIndexAccessorMeets | src/Misc/MaxKrakatoaPRTClonerMod.cpp:1036-1044 | disabling leaves round-robin selection, enabling always leaves an accessor, and enabling again changes nothing |
| ClonerMod.DensityCompensated | src/Misc/MaxKrakatoaPRTClonerMod.cpp:1120-1123 | with compensation the copies of one delegate particle together carry its density; without it each copy carries all of it |
| ClonerMod.NextParticle | src/Misc/MaxKrakatoaPRTClonerMod.cpp:1085-1205 | one read keeps the stream valid and its settings, gives nothing exactly when the stream is exhausted, and otherwise advances the particle index by one |
| ClonerMod.StepIsNextParticle | src/Misc/MaxKrakatoaPRTClonerMod.cpp:1085-1205 | the field-by-field step `ReadStep` describes is the step `NextParticle` makes |
| ClonerMod.NextParticleCases | src/Misc/MaxKrakatoaPRTClonerMod.cpp:1085-1205 | nothing and no change once exhausted; a copy of the current source's next particle while it has some left; otherwise the next delegate particle picks its source by `NextSource`, passes through unchanged when that source is empty, and else gives the first copy with the density factor of the new source; every copy names an existing particle of an existing source and a delegate particle already read |
| ClonerMod.ReadParticles | src/Misc/MaxKrakatoaPRTClonerMod.cpp:1207-1216 | up to `num` particles, fewer only once the stream is exhausted, with the settings kept and the particle index advanced by the number read |
| ClonerMod.ReadParticlesSnoc | src/Misc/MaxKrakatoaPRTClonerMod.cpp:1207-1216 | reading i+1 particles is reading i and then appending the one `NextParticle` gives |
| ClonerMod.ReadParticlesStops | src/Misc/MaxKrakatoaPRTClonerMod.cpp:1209-1212 | once the stream is exhausted, reading more gives nothing more and changes nothing |
| ClonerMod.ReadParticlesOneByOne | src/Misc/MaxKrakatoaPRTClonerMod.cpp:1207-1216 | the k-th particle of a batch read is what a single read gives after k particles |
| ClonerMod.InstancingStream.constructor | src/Misc/MaxKrakatoaPRTClonerMod.cpp:975-1004 | the native map and renames are those of `init_native_map`, the index accessor is set up from the ShapeIndex selection, density compensation is on, and no source is current |
| ClonerMod.InstancingStream.InitNativeMap | src/Misc/MaxKrakatoaPRTClonerMod.cpp:741-774 | the native map and renames become those of `NativeMapOf`, the union of the source maps followed by the delegate's channels, whose properties are the lemmas above; every other field is unchanged |
| ClonerMod.InstancingStream.SetCompensateDensity | src/Misc/MaxKrakatoaPRTClonerMod.cpp:1006 | the whole stream state is the old one with only the compensation flag replaced, and validity is kept |
| ClonerMod.InstancingStream.SetWantsShapeIndex | src/Misc/MaxKrakatoaPRTClonerMod.cpp:1036-1044 | the whole stream state is the old one with only the index accessor replaced by `WantedIndexAccessor` (disabling removes it; enabling keeps a channel accessor and otherwise uses the default 0), and validity is kept |
| ClonerMod.InstancingStream.ParticleCount | src/Misc/MaxKrakatoaPRTClonerMod.cpp:1054-1058 | the count and the count left are unknown, -1 |
| ClonerMod.InstancingStream.PrepareNextSource | src/Misc/MaxKrakatoaPRTClonerMod.cpp:959-972 | the current source becomes the one `NextSource` picks from the old accessor and current source, at its first particle with its end set to its particle count; every other field is unchanged and the stream stays valid |
| ClonerMod.InstancingStream.NextDelegateParticle | src/Misc/MaxKrakatoaPRTClonerMod.cpp:1086-1205 | with the current source used up and a delegate particle left, the output and new position are the `ReadStep` of the delegate branch, and the settings are unchanged |
| ClonerMod.InstancingStream.GetParticle | src/Misc/MaxKrakatoaPRTClonerMod.cpp:1085-1205 | the settings are unchanged and the output and new reading position are the `ReadStep` from the old state, which is exactly `NextParticle` by `StepIsNextParticle` |
| ClonerMod.InstancingStream.GetParticles | src/Misc/MaxKrakatoaPRTClonerMod.cpp:1207-1216 | the particles and the new state are `ReadParticles` of the old state, so by `ReadParticlesOneByOne` the k-th one is what `get_particle` gives after k reads; true exactly when all `num` were read, and false only once the stream is exhausted |
| ClonerMod.SphereCount | src/Misc/MaxKrakatoaPRTClonerMod.cpp:1259-1263 | a negative count gives no points, any other count that many |
| ClonerMod.CountGuess | src/Misc/MaxKrakatoaPRTClonerMod.cpp:1330-1341 | unknown (-1) when the delegate's guess is unknown, otherwise not negative and at least the default count for a positive guess |
| ClonerMod.GuessIsFixedTotal | src/Misc/MaxKrakatoaPRTClonerMod.cpp:1330-1341 | for a known delegate count and a default count that is not negative, the guess (delegate guess times default count) is exactly the number of points the particles get at the default count |
| ClonerMod.SphereStream.constructor | src/Misc/MaxKrakatoaPRTClonerMod.cpp:1300-1306 | the count is a fixed 1, not forced, and the radius 1 |
| ClonerMod.SphereStream.SetDefaultCount | src/Misc/MaxKrakatoaPRTClonerMod.cpp:1308-1312 | the default count changes, and becomes the count used unless the Count channel is in use |
| ClonerMod.SphereStream.EnableCountChannel | src/Misc/MaxKrakatoaPRTClonerMod.cpp:1314-1321 | counts come from the Count channel when enabled, else from the default count; enabling it on a delegate without a Count channel fails and leaves the accessor, with the force flag already cleared |
| ClonerMod.SphereStream.SetRadius | src/Misc/MaxKrakatoaPRTClonerMod.cpp:1323-1326 | the radius is stored and the source size becomes its double |
| ClonerMod.SphereStream.SetFalloff | src/Misc/MaxKrakatoaPRTClonerMod.cpp:1328 | a negative falloff becomes 0 and others are kept |
| ClonerMod.SphereStream.PrepareNextSource | src/Misc/MaxKrakatoaPRTClonerMod.cpp:1259-1284 | the source is replaced by exactly as many points as `SphereCount` gives for the delegate particle, point i being the i-th accepted sample scaled by the radius with the density of its squared magnitude and the falloff, so every point lies within the radius; the settings are unchanged |
| ClonerMod.ScaledSampleInBall | src/Misc/MaxKrakatoaPRTClonerMod.cpp:1245-1257 | a sample in the unit ball, scaled by the radius, lies within the radius |
| ClonerMod.SphereStream.ParticleCountGuess | src/Misc/MaxKrakatoaPRTClonerMod.cpp:1330-1341 | the guess of the count rule for the stream's default count |
| ClonerMod.CloneSourcesExact | src/Misc/MaxKrakatoaPRTClonerMod.cpp:118-148 | the sources are exactly the particles of the PRT clone nodes, no more than there are nodes |
| ClonerMod.CloneModeInput | src/Misc/MaxKrakatoaPRTClonerMod.cpp:150-151 | clone mode returns its input exactly when no clone node is a PRT object; otherwise an instancing stream over a nonempty list of sources |
| MXSStream.CodecFor | src/Misc/MaxKrakatoaMXSParticleStream.cpp:122-162 | each of the eleven numeric types has its float or integer converter; any other type is the error `Invalid data type "…"` |
| MXSStream.CodecsForChannels | src/Misc/MaxKrakatoaMXSParticleStream.cpp:120-166 | converters exist exactly when every channel is numeric, one per channel and of its type; otherwise the error names the first channel that is not |
| MXSStream.WrapToFits | src/Misc/MaxKrakatoaMXSParticleStream.cpp:74-101 | a `static_cast` to an integer channel type lands in that type's range |
| MXSStream.WrapToInRange | src/Misc/MaxKrakatoaMXSParticleStream.cpp:74-101 | the cast leaves a value the type already holds unchanged |
| MXSStream.WriteValue | src/Misc/MaxKrakatoaMXSParticleStream.cpp:12-104 | a value becomes the channel's components: an array of the arity element by element, else by arity (float, Point2, Point3 or colour RGB, a colour as RGB with a zero fourth component, Point4, quaternion or angle-axis with negated angle; integer point types up to three); any other shape is a conversion error |
| MXSStream.WrapAll | src/Misc/MaxKrakatoaMXSParticleStream.cpp:80-97 | every integer is cast to the channel type, the count kept |
| MXSStream.ReadValue | src/Misc/MaxKrakatoaMXSParticleStream.cpp:217-272 | a float channel reads as a Float for one element, a Point3 for three, an array of Floats otherwise; an integer channel as one integer or an array of them, `Integer64` for int64 and a 32-bit `Integer` for every other type |
| MXSStream.IntValueReadsBack | src/Misc/MaxKrakatoaMXSParticleStream.cpp:243-251 | an integer value in range, and within 32 bits for the 64-bit types, reads back to the same value after the cast |
| MXSStream.FloatsReadBack | src/Misc/MaxKrakatoaMXSParticleStream.cpp:17-20 | an array of Floats converts back to the same floats |
| MXSStream.IntsReadBack | src/Misc/MaxKrakatoaMXSParticleStream.cpp:79-82 | an array of integer values that read back converts back to the same integers |
| MXSStream.ReadWriteRoundTrip | src/Misc/MaxKrakatoaMXSParticleStream.cpp:12-104 | writing back what a channel read gives the same components, for every float channel and every integer channel whose values read back |
| MXSStream.UInt64LosesHighBits | src/Misc/MaxKrakatoaMXSParticleStream.cpp:243-246 | a uint64 value of 2^32 reads as the integer 0 and is written back as 0: the read is lossy above 32 bits |
| MXSStream.EncodeChannels | src/Misc/MaxKrakatoaMXSParticleStream.cpp:207-213 | the first n channels of a particle array through their converters, or the error of the first one that fails |
| MXSStream.DecodeParticle | src/Misc/MaxKrakatoaMXSParticleStream.cpp:386-396 | a particle reads as an array of one value per channel, in channel order |
| MXSStream.EncodedFits | src/Misc/MaxKrakatoaMXSParticleStream.cpp:191-216 | what `write_particle` puts fits the stream's channel map |
| MXSStream.ChannelReadsBack | src/Misc/MaxKrakatoaMXSParticleStream.cpp:386-396 | one channel of a decoded particle is written back as it was read |
| MXSStream.EncodeDecoded | src/Misc/MaxKrakatoaMXSParticleStream.cpp:207-213 | the first n channels of a decoded particle are written back as they were |
| MXSStream.ReadThenWrite | src/Misc/MaxKrakatoaMXSParticleStream.cpp:191-216 | a particle `read_particle` gives is written back unchanged by an open output stream of the same channels, if its integer values read back |
| MXSStream.ChannelStringParts | src/Misc/MaxKrakatoaMXSParticleStream.cpp:285-288 | a channel string splits at its one space into the name (without spaces) and `type[arity]`, ending in `]` |
| MXSStream.BuildCodecs | src/Misc/MaxKrakatoaMXSParticleStream.cpp:120-166 | the constructors' loop gives exactly the converters of the channels, or the error of the first unsupported one |
| MXSStream.CodecsErrorStays | src/Misc/MaxKrakatoaMXSParticleStream.cpp:157-162 | an unsupported channel fails the whole channel list with its error |
| MXSStream.ParticleOStream.constructor | src/Misc/MaxKrakatoaMXSParticleStream.cpp:109-171 | a new output stream is open, has written nothing and keeps its channels and converters |
| MXSStream.ParticleOStream.Close | src/Misc/MaxKrakatoaMXSParticleStream.cpp:185-189 | the stream is closed and nothing it wrote changes |
| MXSStream.ParticleOStream.WriteParticle | src/Misc/MaxKrakatoaMXSParticleStream.cpp:191-216 | a closed stream, a non-array, an array of the wrong size or a conversion error give that error and write nothing; otherwise exactly the converted particle is appended |
| MXSStream.EncodeItems | src/Misc/MaxKrakatoaMXSParticleStream.cpp:207-213 | the conversion loop converts every channel in order or stops at the first error |
| MXSStream.EncodeErrorStays | src/Misc/MaxKrakatoaMXSParticleStream.cpp:207-213 | a conversion error in a prefix fails the whole particle with that error |
| MXSStream.OpenOStream | src/Misc/MaxKrakatoaMXSParticleStream.cpp:109-171 | opening succeeds exactly when every channel has a converter, with those converters and nothing written; otherwise it fails with the first channel's error |
| MXSStream.ParticleIStream.constructor | src/Misc/MaxKrakatoaMXSParticleStream.cpp:275-336 | a new input stream is open at its first particle, and its channel strings are `name type[arity]` per channel |
| MXSStream.ParticleIStream.GetCount | src/Misc/MaxKrakatoaMXSParticleStream.cpp:338-342 | the stream's particle count while open, 0 once closed |
| MXSStream.ParticleIStream.GetChannels | src/Misc/MaxKrakatoaMXSParticleStream.cpp:344-355 | one channel string per channel while open, none once closed |
| MXSStream.ParticleIStream.Close | src/Misc/MaxKrakatoaMXSParticleStream.cpp:357-363 | the stream is closed and nothing else changes, also when it already was |
| MXSStream.ParticleIStream.SkipParticles | src/Misc/MaxKrakatoaMXSParticleStream.cpp:365-371 | an open stream moves forward min(n, particles left) when n is positive and not at all otherwise; a closed one does not move |
| MXSStream.ParticleIStream.ReadParticle | src/Misc/MaxKrakatoaMXSParticleStream.cpp:373-397 | the next particle decoded, moving one on; undefined without moving at the end or once closed |
| MXSStream.OpenIStream | src/Misc/MaxKrakatoaMXSParticleStream.cpp:275-336 | opening succeeds exactly when every channel has a converter, at the first particle; otherwise it fails with the first channel's error |
| MagmaParser.ParseNodeType | include/Magma/base_node.hpp:25-33 | "Output", "Input" and "Operator" give their node types, every other string the unknown type |
| MagmaParser.Reset | include/Magma/base_node.hpp:40-69 | a record is read exactly when it is a 5-element array of a string, three arrays and a bool, keeping its id, type, connections (element 2), properties (element 3) and disabled as the negated flag; otherwise a compiler error with the record's id |
| MagmaParser.Truncate | include/Magma/base_node.hpp:83 | the conversion of a Float to an int rounds toward zero: below or at f by less than one for f >= 0, above or at f by less than one for f < 0 |
| MagmaParser.ToInt | include/Magma/base_node.hpp:83 | `to_int` converts exactly Integers and Floats, an Integer to itself and a Float truncated toward zero |
| MagmaParser.GetProperty | include/Magma/base_node.hpp:75-85 | the property at an index inside the array, else the error `Missing property #` with the 1-based index |
| MagmaParser.GetString | include/Magma/base_node.hpp:87-98 | a property is read as a string exactly when it is present and a string |
| MagmaParser.GetInt | include/Magma/base_node.hpp:75-85 | a property is read exactly when it is present and converts by `to_int` (an Integer, or a Float truncated toward zero), and then gives that conversion |
| MagmaParser.GetConnection | include/Magma/base_node.hpp:101-110 | the stored 1-based index, converted by `to_int`, minus one when present and convertible; a missing one is the error `Missing connection #` with the 1-based slot |
| MagmaParser.Lookup | src/Magma/input_node_factories.cpp:28-34 | nothing is found exactly when no item has the name |
| MagmaParser.LookupFirst | src/Magma/input_node_factories.cpp:29-31 | the node found is that of the first item with the name |
| MagmaParser.FindTrackByName | src/Magma/input_node_factories.cpp:28-34 | the loop returns the node of the first item with the name, or none |
| MagmaParser.Find | src/Magma/input_node_factories.cpp:43 | `find` gives the first position at or after the start that holds the character, or npos when there is none |
| MagmaParser.TopLevelTrack | src/Magma/input_node_factories.cpp:42-63 | `trackViewNodes.<name>` is the root's item of that name, found or not |
| MagmaParser.PathWithoutDot | src/Magma/input_node_factories.cpp:43-45 | a path without a dot is refused as an invalid path |
| MagmaParser.SplitAt | src/Magma/input_node_factories.cpp:48-62 | each step of the walk takes the run up to the next dot and continues after it, the last run being the rest of the path |
| MagmaParser.GetTrackByPath | src/Magma/input_node_factories.cpp:36-48 | a missing root fails with its own error, a path whose first segment is not `trackViewNodes` (or has no second segment) is invalid, and otherwise the result is the walk of the segments after it |
| MagmaParser.WalkFrom | src/Magma/input_node_factories.cpp:50-63 | the loop looks each segment before a '.' up under the previous track, failing at the first one not found, and the last segment is looked up, found or not |
| MagmaParser.WalkErrorId | src/Magma/input_node_factories.cpp:51-60 | a failed walk is a compiler error with the node's id |
| MagmaParser.WalkFailsWithId | src/Magma/input_node_factories.cpp:36-64 | every failure of `GetTrackByPath` is a compiler error with the node's id |
| MagmaParser.ChannelInputOp | src/Magma/input_node_factories.cpp:17-24 | a channel input node reads the channel named by property 1 |
| MagmaParser.RoundedInt | src/Magma/input_node_factories.cpp:87-89 | the integer value is the float value plus one half, floored |
| MagmaParser.ControllerValue | src/Magma/input_node_factories.cpp:78-113 | a value node is made exactly for "Integer" over a float controller in slot 0, "Float" over one in slot 1 or "Vector" over a point3 controller in slot 2; all else is a compiler error with the node's id |
| MagmaParser.ApplyValueInput | src/Magma/input_node_factories.cpp:67-114 | `input_value_factory` reads the value type and path, requires a track holder with three sub-anims, and takes the controller's value |
| MagmaParser.TexmapOutputOf | src/Magma/input_node_factories.cpp:132-139 | an output type exists exactly for "Color", "Mono" and "Perturb" |
| MagmaParser.TexmapOutputString | src/Magma/input_node_factories.cpp:128-130 | "Color" unless the node has more than two properties |
| MagmaParser.TexmapInputOp | src/Magma/input_node_factories.cpp:119-211 | a texture map node exists only for index property at least 1, with source index property minus one; source 0 needs a bound node and others a texture map in that slot |
| MagmaParser.TexmapInputNamesNode | src/Magma/input_node_factories.cpp:119-211 | every texture map node or compiler error carries the node's id |
| MagmaParser.ValueInputNamesNode | src/Magma/input_node_factories.cpp:67-114 | every value node or compiler error carries the node's id |
| MagmaParser.ScriptInputOp | src/Magma/input_node_factories.cpp:216-240 | a script node takes the script's result as a point3, an integer or a float value; any other result is `Result of Input:Script was invalid` |
| MagmaParser.GeometryCache.constructor | src/Magma/magma_mxs_parser.cpp:12-31 | a new cache is empty |
| MagmaParser.GeometryCache.Clear | src/Magma/magma_mxs_parser.cpp:16 | the cache becomes empty |
| MagmaParser.GeometryCache.GetGeometry | src/Magma/magma_mxs_parser.cpp:20-25 | a cached name gives its mesh, any other the error `No geometry with name` |
| MagmaParser.GeometryCache.SetGeometry | src/Magma/magma_mxs_parser.cpp:27-30 | the entries become those of `std::map::insert` of the mesh under the name |
| MagmaParser.Inserted | src/Magma/magma_mxs_parser.cpp:29 | insert adds the key, keeps every existing entry, adds the new mesh only for a new key and adds no other key |
| MagmaParser.GeometryFold | src/Magma/input_node_factories.cpp:259-287 | the fold keeps every cache entry, and on success gives one mesh per name, each the cached mesh of that name |
| MagmaParser.GeometryInputKeepsCache | src/Magma/input_node_factories.cpp:245-290 | a geometry input only adds to the cache and its node lists the cached mesh of every name in property 2 |
| MagmaParser.ApplyGeometryInput | src/Magma/input_node_factories.cpp:245-290 | the loop and the cache state match the fold: a mesh is copied only for a name not yet cached |
| MagmaParser.FoldErrorStays | src/Magma/input_node_factories.cpp:262-267 | a failure on a prefix of the names fails the whole list the same way, with the same cache |
| MagmaParser.FoldErrorId | src/Magma/input_node_factories.cpp:265-267 | a compiler error of the fold names the node |
| MagmaParser.GeometryFailsWithId | src/Magma/input_node_factories.cpp:245-290 | a compiler error of a geometry input names the node |
| MagmaParser.FactoryRegistry.constructor | src/Magma/parser_interface.cpp:15-16 | both registries start empty |
| MagmaParser.FactoryRegistry.EnsureInputs | src/Magma/parser_interface.cpp:22-23 | the input registry is filled with the five input parsers of `register_input_parsers` only if it is empty |
| MagmaParser.FactoryRegistry.EnsureOperators | src/Magma/parser_interface.cpp:35-36 | the operator registry is filled only if it is empty |
| MagmaParser.OutputNodeOp | src/Magma/parser_interface.cpp:47-57 | an output node exists exactly when connection 0 is an integer and properties 0-2 are a string, a string and an integer; it reads from connection 0 made 0-based |
| MagmaParser.InputOpKeepsId | src/Magma/input_node_factories.cpp:17-299 | every input node or compiler error carries the node's id, and the cache keeps every entry |
| MagmaParser.NodeOpKeepsId | src/Magma/parser_interface.cpp:18-61 | every node or compiler error a record compiles to carries the record's id, and the cache keeps every entry |
| MagmaParser.ParseNode | src/Magma/parser_interface.cpp:18-61 | input and operator nodes fill their registry on first use and leave the other alone; the node is the one the registered factory, the output builder or the unknown-type error gives |
| MagmaParser.PassThrough | src/Magma/magma_mxs_parser.cpp:122-127 | no connections give -1; otherwise connection 0 made 0-based, replaced by -1 when it is not below the flow size |
| MagmaParser.Rethrown | src/Magma/magma_mxs_parser.cpp:136-144 | a MAXScript exception leaves as a runtime error with its text; other errors pass unchanged |
| MagmaParser.MxsParser.constructor | src/Magma/magma_mxs_parser.cpp:48-51 | no holder, no bound node and a fresh empty geometry cache |
| MagmaParser.FlowPrefix | src/Magma/magma_mxs_parser.cpp:118-133 | the loop over the first i records gives at most i operations, and exactly i when no error stopped it |
| MagmaParser.FlowPrefixOneByOne | src/Magma/magma_mxs_parser.cpp:118-133 | the k-th operation of the loop is what record k gives in the state the first k records left |
| MagmaParser.FlowPrefixStops | src/Magma/magma_mxs_parser.cpp:118-133 | once a record fails, the rest of the flow is not read and nothing more changes |
| MagmaParser.FlowPrefixKeepsCache | src/Magma/magma_mxs_parser.cpp:118-133 | the loop never drops or changes a cached mesh |
| MagmaParser.FlowItemFacts | src/Magma/magma_mxs_parser.cpp:119-132 | a record's operation carries its index, comes from a well-formed record, is a pass-through exactly when the record is disabled and then has the pass-through index of `PassThrough`, and is otherwise what `parse_node` builds; no mesh is dropped from the cache |
| MagmaParser.FlowFacts | src/Magma/magma_mxs_parser.cpp:118-133 | every operation of the whole flow carries its record's index and is a pass-through, with the pass-through index, exactly for a disabled record; the cache only grows |
| MagmaParser.FlowParsesEnabledNodes | src/Magma/magma_mxs_parser.cpp:130-131 | an enabled node's operation is what `parse_node` builds from the reset record, with the registries and cache the records before it left |
| MagmaParser.MxsParser.ParseFlowItem | src/Magma/magma_mxs_parser.cpp:119-132 | one turn of the loop changes the operation, the registries and the cache exactly as `FlowItem` does |
| MagmaParser.MxsParser.CreateExpression | src/Magma/magma_mxs_parser.cpp:100-145 | nothing without a holder; a flow that is not an array is the error of id -1; otherwise the operations, the error and the new registries and cache are exactly `FlowPrefix` of the flow, so node k has id k, is a pass-through exactly when record k is disabled, and an enabled node is what `parse_node` builds (`FlowParsesEnabledNodes`); every record gives a node unless an error is returned, no error is a raw script error, and the cache only grows |
| MagmaModifier.DebugCap | include/Magma/IMagmaModifierImpl.hpp:399-403 | the debugger evaluates the stream's count when it is known and within the maximum, and the maximum otherwise; never more than the maximum |
| MagmaModifier.RefChanged | include/Magma/IMagmaModifierImpl.hpp:212-234 | a change message of the holder parameter succeeds, and is forwarded exactly when its parts touch topology, geometry or transform; every other message is "don't care" |
| MagmaModifier.MagmaModifierImpl.constructor | include/Magma/IMagmaModifierImpl.hpp:35-44 | no error present, node id -43, message "No Error", no callback sent |
| MagmaModifier.MagmaModifierImpl.CurrentNotice | include/Magma/IMagmaModifierImpl.hpp:194-206 | the callback carries the node id and message exactly when an error is present, and undefined otherwise |
| MagmaModifier.MagmaModifierImpl.NotifyErrorChanged | include/Magma/IMagmaModifierImpl.hpp:190-209 | one callback, of the current error state, is sent and the state is unchanged |
| MagmaModifier.MagmaModifierImpl.ClearError | include/Magma/IMagmaModifierImpl.hpp:165-170 | no error is present afterwards; the editor is told only if one was |
| MagmaModifier.MagmaModifierImpl.SetError | include/Magma/IMagmaModifierImpl.hpp:177-187 | the error is recorded, and the editor is told exactly when presence, node id or message changed |
| MagmaModifier.MagmaModifierImpl.GetLastError | include/Magma/IMagmaModifierImpl.hpp:328-339 | whether an error is present; the outputs get its message and node id only when one is, and keep their values otherwise |
| MagmaModifier.MagmaModifierImpl.LocalValidity | include/Magma/IMagmaModifierImpl.hpp:254-263 | the holder's validity (forever without a holder) when it contains t, else the instant t; t is always inside |
| MagmaModifier.MagmaModifierImpl.ApplyModifier | include/Magma/IMagmaModifierImpl.hpp:286-325 | without a holder the stream passes untouched; success or nothing to compile clears the error; a Magma or other error is recorded (the latter with `INVALID_ID`) and raised again only while a render is active; the editor is notified once when a present error is cleared and once when a recorded error differs from the old one in presence, node id or message, and not otherwise |
| MagmaModifier.MagmaModifierImpl.EvaluateDebug | include/Magma/IMagmaModifierImpl.hpp:342-432 | with a stream and a holder with an interface, the records of the first min(available, cap) particles in order and the error cleared; exceptions record their error and give nothing, an unknown one leaves the error state alone; the editor notices follow the same clear and change rules as `ApplyModifier` |
| MagmaModifier.ReadDebugRecords | include/Magma/IMagmaModifierImpl.hpp:403-413 | the loop fills one record per particle read, in index order, and shrinks the storage to min(available, count) |
| GroupDialog.HasKeyAppend | include/PRTSourceDialogProcs/particle_flow_events_dlg_proc.hpp:47-49 | a key is among a list with one more group exactly when it is among the list or is the new group's |
| GroupDialog.Entries | include/PRTSourceDialogProcs/particle_flow_events_dlg_proc.hpp:54-69 | one entry per non-null group of the merged list, in order, included exactly when a selected group has its key |
| GroupDialog.MergeKeepsAll | include/PRTSourceDialogProcs/particle_flow_events_dlg_proc.hpp:42-52 | the merged list starts with every scene group, in order |
| GroupDialog.MergeKeys | include/PRTSourceDialogProcs/particle_flow_events_dlg_proc.hpp:42-52 | a key is in the merged list exactly when a scene group or a selected group has it |
| GroupDialog.MergeDistinct | include/PRTSourceDialogProcs/particle_flow_events_dlg_proc.hpp:46-50 | when the scene's groups have distinct keys, so does the merged list |
| GroupDialog.EntriesCover | include/PRTSourceDialogProcs/particle_flow_events_dlg_proc.hpp:56-68 | every non-null group of the list has an entry |
| GroupDialog.EntriesDistinct | include/PRTSourceDialogProcs/particle_flow_events_dlg_proc.hpp:56-68 | distinct keys in the list give distinct keys in the entries |
| GroupDialog.MergedEntryKeys | include/PRTSourceDialogProcs/particle_flow_events_dlg_proc.hpp:31-70 | a non-null key has an entry exactly when a scene group or a selected group has it |
| GroupDialog.MergeGroups | include/PRTSourceDialogProcs/tp_groups_dlg_proc.hpp:32-85 | the loops of `get_groups`, merging through a set of seen keys and emptying the output first, give exactly the merged entries |
| GroupDialog.HasSelectedGroup | include/PRTSourceDialogProcs/group_dlg_proc_base.hpp:21-28 | true exactly when some entry is included |
| GroupDialog.SomeGroupIncluded | include/PRTSourceDialogProcs/group_dlg_proc_base.hpp:21-28 | the entries of `get_groups` include a group exactly when some selected group has a non-null key |
| GroupDialog.IncludeFlags | include/PRTSourceDialogProcs/group_dlg_proc_base.hpp:148-153 | one flag per entry, its include flag |
| GroupDialog.InitialIncluded | include/PRTSourceDialogProcs/group_dlg_proc_base.hpp:148-153 | the loop starts all false and sets the included ones, giving the entries' include flags |
| GroupDialog.HasChange | include/PRTSourceDialogProcs/group_dlg_proc_base.hpp:30-41 | a change exactly when the sizes differ or some flag differs from the entry's |
| GroupDialog.ChangedIffFlagsDiffer | include/PRTSourceDialogProcs/group_dlg_proc_base.hpp:30-41 | a change is exactly a difference from the entries' own include flags |
| GroupDialog.Readded | include/PRTSourceDialogProcs/group_dlg_proc_base.hpp:163-168 | the event list after clearing it and adding, in order, the node of each included entry that is a particle group |
| GroupDialog.ReaddedMembers | include/PRTSourceDialogProcs/group_dlg_proc_base.hpp:163-168 | a node is in the re-added list exactly when an included entry holds it and it is a particle group |
| GroupDialog.ReaddedInOrder | include/PRTSourceDialogProcs/group_dlg_proc_base.hpp:163-168 | distinct particle-group nodes are re-added exactly as included, in their order |
| GroupDialog.CommitEdit | include/PRTSourceDialogProcs/group_dlg_proc_base.hpp:159-170 | only when the flags changed is the list cleared and the included entries re-added in order; otherwise it is untouched |
| GroupDialog.UpdateControlEnable | include/PRTSourceDialogProcs/group_dlg_proc_base.hpp:54-89 | nothing changes without the object, block, map or window; otherwise Add, Options and the list are enabled exactly when not creating and the filter mode is SELECTED, and Remove when also an item is selected |
| GroupDialog.ListBox.constructor | include/PRTSourceDialogProcs/group_dlg_proc_base.hpp:314-328 | an empty list box: no strings, no selection, scrolled to the top |
| GroupDialog.ListBox.SetStrings | include/PRTSourceDialogProcs/group_dlg_proc_base.hpp:323 | the strings are replaced, the selection dropped and the scroll reset |
| GroupDialog.ListBox.SetSelItems | include/PRTSourceDialogProcs/group_dlg_proc_base.hpp:324 | the selection is replaced and nothing else changes |
| GroupDialog.ListBox.SetTopIndex | include/PRTSourceDialogProcs/group_dlg_proc_base.hpp:325 | the scroll position is replaced and nothing else changes |
| GroupDialog.InvalidateGroupListLabels | include/PRTSourceDialogProcs/group_dlg_proc_base.hpp:300-331 | when the dialog is up the list shows the new names, keeping selection and scroll exactly when the number of names is unchanged; otherwise nothing changes |
| PFEventsDialog.HasEventNode | include/PRTSourceDialogProcs/particle_flow_events_dlg_proc.hpp:39-52 | events are keyed by their own node |
| PFEventsDialog.GetGroups | include/PRTSourceDialogProcs/particle_flow_events_dlg_proc.hpp:31-70 | every scene event, then each selected event not already listed, once each; null nodes dropped; included exactly when selected; distinct scene events give distinct entries |
| PFEventsDialog.AddPressed | include/PRTSourceDialogProcs/group_dlg_proc_base.hpp:142-171 | the event list becomes the re-added included entries of the edited `get_groups` list exactly when the edit changed an include flag, and stays otherwise |
| PFEventsDialog.UneditedKeepsList | include/PRTSourceDialogProcs/group_dlg_proc_base.hpp:159 | closing the edit dialog without toggling anything is no change |
| TPGroupsDialog.GetGroups | include/PRTSourceDialogProcs/tp_groups_dlg_proc.hpp:32-108 | every scene group, then each selected group whose reference is not listed, once each; null groups skipped; included exactly when selected; distinct scene groups give distinct entries |
| GeometryRenderer.EffectiveMaterial | src/MaxKrakatoaGeometryRenderer.cpp:94-98 | no material exactly when the node has none or it is one of the three matte/shadow classes; otherwise the node's own |
| GeometryRenderer.MissingTexturemapRecursive | src/MaxKrakatoaGeometryRenderer.cpp:502-523 | the scan of a texture map's sub-maps is true exactly when some non-null sub-map is of the missing class or has a missing sub-map |
| GeometryRenderer.MissingTexturemap | src/MaxKrakatoaGeometryRenderer.cpp:479-500 | the same scan over a material's sub-texture slots |
| GeometryRenderer.MissingMaterialRecursive | src/MaxKrakatoaGeometryRenderer.cpp:453-477 | a material is missing when its class is the missing one, a texture map is missing, or some non-null sub-material is missing |
| GeometryRenderer.TexmapMissingHasPath | src/MaxKrakatoaGeometryRenderer.cpp:502-523 | a missing texture map has a descendant of the missing class |
| GeometryRenderer.PathMakesTexmapMissing | src/MaxKrakatoaGeometryRenderer.cpp:502-523 | a descendant of the missing class makes the texture map missing |
| GeometryRenderer.TexmapMissingIffSomeDescendant | src/MaxKrakatoaGeometryRenderer.cpp:502-523 | a texture map is missing exactly when some map in its tree has the missing class |
| GeometryRenderer.MtlMissingHasPath | src/MaxKrakatoaGeometryRenderer.cpp:453-477 | a missing material has a descendant that is of the missing class or holds a missing texture map |
| GeometryRenderer.PathMakesMtlMissing | src/MaxKrakatoaGeometryRenderer.cpp:453-477 | such a descendant makes the material missing |
| GeometryRenderer.MtlMissingIffSomeDescendant | src/MaxKrakatoaGeometryRenderer.cpp:453-477 | a material is missing exactly when some material in its tree is of the missing class or holds a missing texture map |
| GeometryRenderer.SegmentOf | src/MaxKrakatoaGeometryRenderer.cpp:173-175 | the segment is floor(t·n), the end of the last segment moved into it, always a valid segment |
| GeometryRenderer.SegmentsMeet | src/MaxKrakatoaGeometryRenderer.cpp:177-183 | the end time of a segment is the start time of the next, which is what lets its sample be reused |
| GeometryRenderer.MattePrimitive.constructor | src/MaxKrakatoaGeometryRenderer.cpp:81-102 | a negative segment count becomes 1, a matte/shadow material counts as none, no segment is current, alpha is 0 and whether the material is missing is not yet known |
| GeometryRenderer.MattePrimitive.MoveToSegment | src/MaxKrakatoaGeometryRenderer.cpp:185-230 | on a new segment the left sample is the previous right one when the segment is the next, else fetched at its start; the right is fetched at its end; differing vertex counts are the interpolation error; the same segment changes nothing |
| GeometryRenderer.MattePrimitive.LoadLeft | src/MaxKrakatoaGeometryRenderer.cpp:187-202 | the left sample of a new segment: the previous right when it is the next segment, the node's at the segment start otherwise |
| GeometryRenderer.MattePrimitive.SetTime | src/MaxKrakatoaGeometryRenderer.cpp:170-265 | with segments: moves to the segment of t and blends by the fraction elapsed; without: samples at t; a primitive not sampling geometry holds a mesh afterwards |
| GeometryRenderer.MattePrimitive.Blend | src/MaxKrakatoaGeometryRenderer.cpp:232-233 | alpha is the fraction of the segment elapsed at t and the transform interpolates the segment's two |
| GeometryRenderer.MattePrimitive.SampleAt | src/MaxKrakatoaGeometryRenderer.cpp:234-249 | without segments the transform, and the mesh when sampling geometry, are the node's at t |
| GeometryRenderer.MattePrimitive.EnsureMesh | src/MaxKrakatoaGeometryRenderer.cpp:251-261 | a primitive that does not sample geometry fetches its mesh once, at the middle of the motion interval |
| GeometryRenderer.MattePrimitive.TriangleCount | src/MaxKrakatoaGeometryRenderer.cpp:284-290 | the left mesh's faces when sampling geometry over segments, else the current mesh's |
| GeometryRenderer.MattePrimitive.MissingMaterial | src/MaxKrakatoaGeometryRenderer.cpp:445-451 | computed by the recursive scan on the first call and remembered |
| GeometryRenderer.MattePrimitive.GetOpacity | src/MaxKrakatoaGeometryRenderer.cpp:405-442 | 1 without a material or when its tree has a missing part; otherwise one minus the intensity of the shaded transparency |

## Left out

- Host and file-system I/O: the recipes' copy, build and package steps are not modelled. The license tree is an input of directories with an ordered listing and file texts. Writing the attribution, version and license files is modelled as returning their text.
- The command line of version_gen.py is not modelled. Its positional argument is declared with `required=True`, which argparse rejects, so the script's main path never runs.
- 3ds Max SDK plumbing is not modelled: class descriptors, parameter-block tables, display, hit testing, reference boilerplate and `GetCOREInterface`. Nodes, controllers, particle groups and streams are opaque ids or small values. Parameter-block reads and scene queries are parameters.
- The dialogs' Win32 side is not modelled: messages, list-box painting and tooltips. The group dialogs keep only the merged list, the change test, the commit, button enabling and relabelling.
- Floating-point numerics are not modelled: shading, trilinear interpolation, spline geometry, transforms, the cloner's colours, velocities and normals, and the random points of the sphere sources. Fractions and thresholds are `real`, so rounding and NaN are not modelled.
- Concurrency is not modelled. Only PRT Maker's integer split over threads is kept, with the TBB default thread count as a parameter.
- The frantic particle-stream library, channel maps, the sequence-number helpers, `directory_from_path`, the Magma compiler and the FumeFX and Thinking Particles SDKs are not part of this model. They appear as parameters or abstract values.
- MXSStream: the conversions MAXScript itself performs (`to_float`, `to_point3`, ...) are a fixed table of value shapes.
- MagmaParser: the operator node factories are registered by name only, because operator_node_factories.cpp is not part of this model.
- MagmaParser: a `base_node` exists only after a successful `reset`. The counts read through a null array before any reset (include/Magma/base_node.hpp:71-73) are not modelled.
- MagmaParser: the data type of an operator node is kept as its string.
- MagmaParser: `MaxTypeTraits<int>::FromValue` is taken to be MAXScript's `to_int`, which accepts an Integer or a Float, truncating the Float toward zero. The header defining it is not part of this model.
- ClonerMod.SphereStream.PrepareNextSource: the random generator and the density shading function are parameters. The rejection loop is given as its sequence of accepted samples. Those samples lie strictly inside the unit ball, as the loop only accepts such points.
- MagmaModifier: `INVALID_ID` is taken as -1, because the header defining it is not part of this model.
- MagmaModifier.MagmaModifierImpl.ApplyModifier: only failures of compiling the expression are modelled. Errors that the stream reports later through its error callback (include/Magma/IMagmaModifierImpl.hpp:301-304) are not.
- TPGroupsDialog: the commit is modelled for the Particle Flow event list only. The Thinking Particles list operations are compiled only under `THINKING_PARTICLES_SDK` and are not part of this model.
- GeometryRenderer: the class id of the matte material is a parameter.
- GeometryRenderer.MattePrimitive.SetTime: requires a time in [0, 1], the range the renderer passes. The conversion of that time to integer ticks is not modelled.
- Krakatoa: the frame cache is not marked invalid when the renderer closes (src/MaxKrakatoa.cpp:566-573).
- Krakatoa.ParseSavingChannels: `frantic::strings::split` (src/MaxKrakatoa.cpp:927) is taken to split like Python's `split` on one character, keeping empty runs, because its implementation is not part of this model.
- KrakatoaUtils: `GetMatteSceneObjects` is not modelled. It loops forever on a null node (src/MaxKrakatoaUtils.cpp:1456-1459).
- ShadowGen.GetRealSavePath: requires that every `$` begins one of the two macros. On any other `$` the source loops forever (src/MaxKrakatoaShadowGenerator.cpp:269-283), and after a partial match it can read past the end.
- HairObject.SplineCache.Reconcile: requires a non-empty reference spline wherever a spline must be padded. The source pads with `back()` of the reference spline, which is undefined when that spline is empty.
- MXSStream.ParticleOStream.Close: requires an open stream. A second close in the source dereferences the released stream (src/Misc/MaxKrakatoaMXSParticleStream.cpp:185-189).
- PRTSource: `particle_count_left` of the PRT Source stream (src/Objects/MaxKrakatoaPRTSource.cpp:504-509) and `xsgetn` of its stream adaptor (src/Objects/MaxKrakatoaPRTSource.cpp:429-441) are not modelled. The first assigns a bool to a count. The second never advances its buffer pointer.
- PRTObjectExt: the cache's channel map is a set of channel names, so channel order is not modelled.
- Dead code compiled out by `#ifdef`/`#if false` is not modelled.

## Findings

| source | as written | input that shows it | evidently intended | confidence | as-written member | corrected member |
|---|---|---|---|---|---|---|
| src/MaxKrakatoaShadowGenerator.cpp:276-279 | after a macro the scan skips `sizeof(_T("$renderdir")) - 1` characters, which is 21 with two-byte characters | the default path `$renderdir\Shadows\$objectname_0000.exr` expands to the directory followed by `bjectname_0000.exr` | the skip is the macro's length (10 or 11 characters), so the path becomes the directory, `\Shadows\`, the node name and `_0000.exr` | not executed | ShadowGen.WideSkipDropsObjectName, ShadowGen.WideSkipDropsEleven | ShadowGen.CorrectedSkipSubstitutes, ShadowGen.DefaultPathExpansion |
| src/MaxKrakatoa.cpp:929 | the channel list is rejected only when it has fewer than 2 items | `Position,float32` passes the check and saves no channel | at least one complete name,type,arity triple (3 items) | not executed | Krakatoa.TwoItemsSaveNoChannel | Krakatoa.CorrectedSavesAChannel |
| src/Misc/MaxKrakatoaPRTClonerMod.cpp:966 | the source is `std::abs(index) % count` on 32-bit integers | ShapeIndex -2147483648 with 3 sources: `std::abs` leaves the index negative and `%` gives -2 | a source index in [0, count) | not executed | ClonerMod.LeastIndexSelectsBeforeFirst | ClonerMod.ShapeIndexChoice, ClonerMod.NextSourceValid |
