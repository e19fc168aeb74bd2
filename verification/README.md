# Adaptive-shading controller in Dafny

This project models the host-side controller of the NVIDIA adaptive shading
(NAS) sample. The rate decision itself runs in compute shaders. What the C++
application does around them is integer arithmetic and sequencing, and that is
what is modelled here:

- the shading-rate tile grid and the dispatch sizes of the three NAS compute
  passes (`TileGrid`, over `Rounding`);
- the render-target heap, where nine textures (two of them not created as
  virtual resources) are packed with an align-then-add scheme, and the agreement of the sizing loop with the binding
  loop (`HeapLayout`);
- the render-target recreation rule and the sample count of each
  anti-aliasing mode (`RenderTargets`);
- the planar/stereo view pair, its topology reset and the end-of-frame swap
  (`Views`);
- one `RenderScene` call as a pure function from a settings snapshot and the
  controller state to the trace of recorded passes and the next state
  (`Frame`). The theorems about it are in `FrameProperties`: NAS dispatch
  order and sizes, variable-rate shading (VRS) bracketing of the opaque
  passes, stereo exclusion, the lifecycle of the "previous views valid" flag,
  recreation, exposure reset and SSAO;
- the command-line interpreter `ProcessCommandLine`, including a model of
  `std::stoi` and the assignment of its result to a `uint32_t` field
  (`CommandLine`);
- the keyboard toggles, the normalisation of the settings window (MSAA forces
  forward shading, forward shading forces SSAO off) and scene selection
  (`UserInterface`).

`Wrappers` holds the `Option` and `Result` types.

### How the frame is modelled

A frame reads a `FrameConfig`: the window size, the anti-aliasing mode, the
stereo flag and the settings toggles. It also reads the `ControllerState`,
which holds the render targets, the view pair, `previousViewsValid`, whether
the render passes exist, and whether an SSAO pass was ever built.

Each frame produces `Event`s: target and pass creation, `Render(pass, vrs)`
tagged with the shading-rate state the current view holds at that point,
motion vectors, dispatches with their group counts, shading-rate state
changes, and the temporal resolve. The frame is a concatenation of eleven
segments in source order. Each event kind has a stage number, and the
coarse ordering theorems compare stages. `Rank` refines the stage with the
event's position inside it, giving an independent reference order in which
every frame's trace strictly increases.

### Where the code and its description differ

The model follows the code in each case below.

- The NAS compute passes are recorded in stereo too, and whether or not the
  previous view is valid. Stereo only suppresses the shading-rate state
  changes (AdaptiveShading.cpp:1329-1338, 1350-1417).
- In deferred mode the VRS bracket covers the G-buffer fill, SSAO and the
  deferred lighting pass together, not one "opaque pass" (1364-1409).
- The SSAO pass is built only when the new targets are single-sampled. It is
  never destroyed, so after a switch to MSAA and back it is still present
  (903-906, 1380).
- The heap is created when the seven render targets are virtual
  (AdaptiveShading.cpp:133, 206). The rate surface and the NAS data surface
  come from a second descriptor declared inside the VRS block (185-201). That
  descriptor never sets the virtual flag, yet both surfaces are sized into
  the heap and bound to it with the others (209-218, 235-244). The model
  records which textures are virtual (`HeapLayout.CreatedVirtual`) and binds
  all nine as the code does. What the graphics layer does when it binds
  memory to a texture that was not created virtual is not part of this
  model.
- Settings normalisation runs only while the settings window is shown and no
  scene is loading (1814-1835).
- The check at 1875-1876 is redundant with the final check at 2010-2011. The
  exception is one frame in which the anti-aliasing combo and the deferred
  checkbox both change (`UserInterface.EarlyCheckMatters`).
- The initial settings (Temporal, forward shading, SSAO on) violate the
  invariant the settings window keeps. The first frame drawn with the window
  shown turns SSAO off (`UserInterface.InitialSettingsSettle`).
- The exposure reset happens exactly once: on the first pass creation, when
  no tone-mapping pass exists yet (910-914, 1340-1341).
- The shader-reload request is a per-frame input, since the frame clears it
  (1248).
- `-width` or `-height` as the last argument reads `argv[argc]`. This is
  modelled as the error `MissingValue`. A value `std::stoi` rejects is
  modelled as `NotANumber` or `OutOfRange` instead of an exception. A
  negative width wraps modulo 2^32 when stored
  (`CommandLine.NegativeWidthWraps`).

## Model

| member | source | states |
|---|---|---|
| Rounding.CeilDiv | adaptive_shading/AdaptiveShading.cpp:183 | the tile count along one axis is the least q with q·tile ≥ size: q·tile ≥ size and q·tile < size + tile |
| Rounding.CeilDivUnique | adaptive_shading/AdaptiveShading.cpp:183 | any q meeting both bounds is the ceiling quotient, so the tile count is determined by its covering property |
| Rounding.Align | adaptive_shading/AdaptiveShading.cpp:224 | `nvrhi::align` rounds a running offset up to a multiple of the alignment, by less than one alignment step |
| Rounding.AlignIsLeast | adaptive_shading/AdaptiveShading.cpp:239 | no aligned offset lies between the running offset and its rounded-up value |
| Rounding.AlignAligned | adaptive_shading/AdaptiveShading.cpp:239 | an offset that is already aligned is left unchanged |
| TileGrid.GridOf | adaptive_shading/AdaptiveShading.cpp:182-183 | the rate grid covers the render size on both axes with less than one tile of excess |
| TileGrid.GridOfUnique | adaptive_shading/AdaptiveShading.cpp:183 | the covering bounds determine the grid |
| TileGrid.GridCoversPixels | adaptive_shading/AdaptiveShading.cpp:183 | every pixel falls in a tile of the grid, and every tile of the grid starts inside the render area |
| TileGrid.FullHdGrid | adaptive_shading/AdaptiveShading.cpp:183 | 1920×1080 with 16-pixel tiles gives a 120×68 grid |
| TileGrid.DispatchCoversGrid | adaptive_shading/AdaptiveShading.cpp:1052-1109 | the data and rate passes dispatch one group per tile; the smoothing pass dispatches ⌈grid/16⌉ groups per axis, covering the grid with fewer than 16 excess tiles; z is 1 |
| TileGrid.DispatchReachesEveryTile | adaptive_shading/AdaptiveShading.cpp:1100-1109 | every tile falls in a dispatched group, and every dispatched group starts on a tile of the grid |
| HeapLayout.EndMonotone | adaptive_shading/AdaptiveShading.cpp:221-226 | the running heap offset never decreases as textures are added |
| HeapLayout.ReferenceOrdered | adaptive_shading/AdaptiveShading.cpp:221-226 | in the align-then-add placement, an earlier texture ends before a later one starts |
| HeapLayout.PackedIsSound | adaptive_shading/AdaptiveShading.cpp:235-244 | offsets where each texture starts at its predecessor's end rounded up are aligned, pairwise disjoint and equal to the reference placement |
| HeapLayout.SizeHeap | adaptive_shading/AdaptiveShading.cpp:208-230 | the sizing loop's capacity is the end of the reference placement, and every texture's range lies inside it |
| HeapLayout.BindTextures | adaptive_shading/AdaptiveShading.cpp:235-244 | the binding loop produces a packed, aligned, non-overlapping layout that is the reference placement, and whose last range ends exactly at the capacity the sizing loop computes |
| HeapLayout.CreateHeap | adaptive_shading/AdaptiveShading.cpp:206-245 | a heap exists exactly for virtual render targets; the nine textures are bound once each in array order, aligned, disjoint and inside the capacity, and the last one ends at the capacity; the last two bound, the rate and NAS data surfaces, are exactly the ones not created virtual |
| RenderTargets.SampleCount | adaptive_shading/AdaptiveShading.cpp:1211-1217 | the sample count is at least 1, above 1 exactly for the MSAA modes, and 2, 4, 8 for MSAA 2x, 4x, 8x |
| RenderTargets.Init | adaptive_shading/AdaptiveShading.cpp:115-204 | initialisation fails exactly when the device lacks variable-rate shading; on success the targets carry the device tile size, their own grid, and the requested size and sample count |
| RenderTargets.EnsureTargets | adaptive_shading/AdaptiveShading.cpp:1220-1230 | targets are rebuilt exactly when none exist or the size or sample count differs; a rebuild fails only without VRS; the result always has the requested size and sample count, and the old targets are kept when nothing changed |
| RenderTargets.EnsureTargetsIdempotent | adaptive_shading/AdaptiveShading.cpp:268-274 | right after ensuring targets, a second request with the same size and sample count rebuilds nothing |
| Views.SetupView | adaptive_shading/AdaptiveShading.cpp:759-855 | the topology changes exactly when the stereo flag and the current view's kind disagree; the current view gets the right kind and pose; on a change the previous view becomes a copy of the fresh current view, otherwise it is kept |
| Views.SetupViewIdempotent | adaptive_shading/AdaptiveShading.cpp:792-855 | a second setup with the same stereo flag and pose changes nothing and reports no topology change |
| Views.SetupViewKeepsKinds | adaptive_shading/AdaptiveShading.cpp:794-852 | if both views have one kind before setup, both have the requested kind after it |
| Views.SwapInvolution | adaptive_shading/AdaptiveShading.cpp:1589 | the end-of-frame swap undoes itself, keeps the two views' kinds agreeing, and keeps the same two view objects in use |
| Frame.Prepare | adaptive_shading/AdaptiveShading.cpp:1205-1249 | after the resource checks, targets exist and the previous view is still valid exactly when it was valid and no pass recreation was needed |
| FrameProperties.FrameFailsIff | adaptive_shading/AdaptiveShading.cpp:1220-1230 | a frame fails exactly when the render targets must be (re)created on a device without variable-rate shading |
| FrameProperties.InitialInv | adaptive_shading/AdaptiveShading.cpp:390 | the start state (no targets, no views, previous views invalid) satisfies the controller invariant |
| FrameProperties.FramePreservesInv | adaptive_shading/AdaptiveShading.cpp:1190-1590 | every successful frame keeps the invariant: both views end with VRS off and of one kind, the targets carry their own grid, passes exist exactly when targets do, and single-sampled targets have an SSAO pass |
| FrameProperties.FrameSourceOrder | adaptive_shading/AdaptiveShading.cpp:1220-1515 | every two events of the trace appear in the order the source records them: the ranks of `Rank` strictly increase, which also fixes the order inside a stage (G-buffer fill, then SSAO, then deferred lighting; MSAA resolve, then bloom; tone mapping, then the blit, then the rate overlay) |
| FrameProperties.FramePassOrder | adaptive_shading/AdaptiveShading.cpp:1308-1364 | the trace visits the coarse stages of `Stage` in non-decreasing order; the depth pre-pass is always recorded; depth comes before motion vectors and the NAS dispatches, motion vectors before the dispatches, and the dispatches before every shading-rate change and every opaque pass |
| FrameProperties.FrameNasDispatches | adaptive_shading/AdaptiveShading.cpp:1329-1338 | the dispatched kernels are data then rate then, only with smoothing, smooth, and none when NAS is off; each dispatch has the group count for the grid of the window size and the targets' tile size |
| FrameProperties.FrameShadingRate | adaptive_shading/AdaptiveShading.cpp:1350-1417 | opaque passes run with VRS on (1x1 base rate, Override) exactly when NAS is on outside stereo, and every other pass runs with VRS off; the state changes are exactly [on, off] or [off], or none in stereo; on precedes every opaque pass and off follows all of them; both views end with VRS off |
| FrameProperties.FrameHistory | adaptive_shading/AdaptiveShading.cpp:1471-1505 | motion vectors (both call sites) appear exactly when the history is valid and use the rendered and previous views; the temporal resolve appears exactly in TAA mode and is given the current view as history when the flag is false; after the frame the flag is true exactly in TAA mode; the views are swapped |
| FrameProperties.MotionVectorsSpanFrames | adaptive_shading/AdaptiveShading.cpp:1322-1327 | across two consecutive frames, the second frame's motion vectors pair its own camera pose with the first frame's pose |
| FrameProperties.FrameRecreation | adaptive_shading/AdaptiveShading.cpp:1220-1246 | target creation is recorded exactly when recreation is needed, with the window size and mode's sample count; pass creation is recorded exactly when targets, topology or a shader reload require it; a topology change forces pass creation and invalidates the history |
| FrameProperties.FrameExposureReset | adaptive_shading/AdaptiveShading.cpp:910-914 | the exposure reset is recorded, with VRS off, exactly when no render targets exist yet, which is when the tone-mapping pass is first created |
| FrameProperties.FrameSsao | adaptive_shading/AdaptiveShading.cpp:1380-1384 | the SSAO pass is recorded exactly in deferred mode with SSAO enabled and an SSAO pass built; single-sampled targets always have one, and once built it persists |
| FrameProperties.SceneLoadDropsHistory | adaptive_shading/AdaptiveShading.cpp:677-685 | after a scene load the next frame uses no motion vectors and resolves without history |
| CommandLine.StoIPrefix | adaptive_shading/AdaptiveShading.cpp:2024 | for any text made of an optional sign, a run of digits and a tail not starting with a digit, `std::stoi` reads the signed digit run and returns it exactly when it fits a 32-bit int, and reports out-of-range otherwise |
| CommandLine.StoIDecimal | adaptive_shading/AdaptiveShading.cpp:2024 | a decimal numeral, optionally negative and followed by non-digits, is read back as its value when it fits an int |
| CommandLine.StoIRejectsDashWord | adaptive_shading/AdaptiveShading.cpp:2024 | a flag word given where a number is expected is not a number |
| CommandLine.ToUInt32 | adaptive_shading/AdaptiveShading.cpp:2024 | storing an int in the `uint32_t` dimension keeps it modulo 2^32 and leaves in-range values unchanged |
| CommandLine.ProcessCommandLineLoop | adaptive_shading/AdaptiveShading.cpp:2018-2054 | the index loop over argv gives the same result as the recursive reading of the arguments after the program name |
| CommandLine.ProgramNameSkipped | adaptive_shading/AdaptiveShading.cpp:2020 | argv[0] is never interpreted, and a bare program name leaves the options unchanged |
| CommandLine.ParseConcat | adaptive_shading/AdaptiveShading.cpp:2020-2051 | reading a + b is reading b from the options a produced |
| CommandLine.ParseSwitch | adaptive_shading/AdaptiveShading.cpp:2030-2046 | after a successful parse, each switch (fullscreen, debug runtime, validation layer, vsync off, print graph) is set exactly when it was set before or its flag occurs among the arguments; `-debug` sets both debug switches |
| CommandLine.SizeFlagIsLastValue | adaptive_shading/AdaptiveShading.cpp:2022-2029 | `-width v` or `-height v` at the end sets that dimension to stoi(v) stored as uint32, or fails as stoi does |
| CommandLine.DanglingSizeFlag | adaptive_shading/AdaptiveShading.cpp:2022-2028 | `-width` or `-height` as the last argument is an error |
| CommandLine.SceneNameIsLastWord | adaptive_shading/AdaptiveShading.cpp:2047-2050 | a word not starting with '-' replaces the scene name, so the last one wins |
| CommandLine.UnknownFlagIgnored | adaptive_shading/AdaptiveShading.cpp:2020-2053 | an unknown dash word changes nothing |
| CommandLine.NegativeWidthWraps | adaptive_shading/AdaptiveShading.cpp:2024 | `-width -1` gives a width of 4294967295 |
| CommandLine.HugeWidthFails | adaptive_shading/AdaptiveShading.cpp:2024 | `-width 4294967295` fails, because stoi rejects it |
| UserInterface.CopySourceIsViewedCamera | adaptive_shading/AdaptiveShading.cpp:525-537 | the camera copied into the first-person camera is the one the frame is viewed through (776-789, with `GetActiveCamera` at 500-503), and nothing is copied exactly when that is the first-person camera itself |
| UserInterface.CameraKeyKeepsViewpoint | adaptive_shading/AdaptiveShading.cpp:559-572 | T lands on the first-person camera exactly when the frame was not viewed through it, and then the frame is viewed from the same pose as before; leaving the first-person camera moves no camera |
| UserInterface.KeyRouting | adaptive_shading/AdaptiveShading.cpp:539-577 | only presses of Escape, `, Space and T change the settings, and each one does; every other event reaches the camera controller exactly when no scene camera is active |
| UserInterface.SwitchKeysAreLocal | adaptive_shading/AdaptiveShading.cpp:541-557 | Escape, ` and Space each flip exactly their own setting |
| UserInterface.KeyPressedTwice | adaptive_shading/AdaptiveShading.cpp:541-572 | pressing a toggle key twice restores the settings (for T, when no scene camera is active) |
| UserInterface.SwitchKeysCommute | adaptive_shading/AdaptiveShading.cpp:541-557 | the three toggle keys commute |
| UserInterface.CameraKey | adaptive_shading/AdaptiveShading.cpp:559-572 | T leaves a scene camera for first person, else flips the third-person mode, copying the camera being left |
| UserInterface.GuardsAgree | adaptive_shading/AdaptiveShading.cpp:1875 | the two MSAA tests in the settings window (≥ MSAA_2X, and neither NONE nor TEMPORAL) select the same modes |
| UserInterface.FinalCheckNormalises | adaptive_shading/AdaptiveShading.cpp:2010-2014 | the final check makes the settings compatible, changes only the deferred and SSAO switches, only turns them off, and changes nothing exactly when they were compatible |
| UserInterface.FinalCheckIsGreatest | adaptive_shading/AdaptiveShading.cpp:2010-2014 | no compatible setting reachable by turning switches off keeps a switch on that the final check turns off |
| UserInterface.BuildUiCompatible | adaptive_shading/AdaptiveShading.cpp:1812-2014 | when the window is shown and no scene is loading, the settings are compatible afterwards and the picked anti-aliasing mode is kept; otherwise nothing changes |
| UserInterface.EarlyCheckRedundant | adaptive_shading/AdaptiveShading.cpp:1874-1876 | from compatible settings, with at most one of the deferred and anti-aliasing controls changed, the early check makes no difference |
| UserInterface.EarlyCheckMatters | adaptive_shading/AdaptiveShading.cpp:1874-1905 | picking deferred shading and TAA in one frame while in MSAA leaves deferred shading off, though the final check alone would keep it |
| UserInterface.BuildUiIdempotent | adaptive_shading/AdaptiveShading.cpp:1812-2014 | without user input the settings window is idempotent and leaves compatible settings unchanged |
| UserInterface.InitialSettingsSettle | adaptive_shading/AdaptiveShading.cpp:293-332 | the default settings are not compatible; the first drawn window turns SSAO off and nothing else |
| UserInterface.SelectionLoadsOnChange | adaptive_shading/AdaptiveShading.cpp:515-523 | selecting a scene records its name and begins loading exactly when it differs from the current one, so selecting it again does nothing |

## Left out

- The NAS shaders (feature extraction, rate decision, smoothing). Their
  source is not part of this model. Dispatches appear only as kernel names
  with group counts.
- Floating-point work: view and projection matrices, viewports, reprojection,
  jitter, animation time and camera motion. A view is its kind (planar or
  stereo), its shading-rate state and an abstract camera pose.
- Graphics-API calls: texture, heap, pipeline and binding-set creation,
  command lists, timer queries. Device answers (VRS support, tile size, the
  memory requirements of each texture, virtual-resource support) are
  parameters.
- Scene loading, the light probes, shadow-map contents, tone-mapping, bloom
  and TAA internals, the console and ImGui layout. Passes appear as events.
- Picking readback with `waitForIdle`, screenshots, the shadow-map display
  overlay (1522-1540) and setting vsync on the device manager. These are I/O
  at the end of the frame and are not in the trace.
- Sky versus environment map (1449-1453) is one `Sky` event: the environment
  map pass is not part of this model, so the choice is invisible to the
  trace.
- The camera combo in the settings window (1880-1895) and the many settings
  widgets that only feed shaders are not modelled. `UserInterface` keeps only
  the settings the normalisation and keyboard logic read.
- `log::fatal` on a device without VRS is modelled as a `Failure` result of
  the frame, not as process termination.
- TileGrid.GridOf: the unbounded ceiling quotient does not model the 32-bit
  wrap of `size + tile - 1` at 183, which needs a window about 4·10^9 pixels
  wide.
- HeapLayout.CreateHeap: offsets are unbounded; the 64-bit heap size is
  assumed not to overflow.
- The heap is modelled on its own: `HeapLayout.CreateHeap` takes the
  device's virtual-resource support and each texture's memory requirements
  as parameters, and `RenderTargets.Init` does not call it, since the
  textures' placement in the heap does not change which targets exist.
- CommandLine.ProcessCommandLineLoop: `strcmp` is modelled as string equality
  on NUL-free strings. The `DeviceCreationParameters` header is not part of
  this model, and its size fields are taken to be `uint32_t`.
- `main` beyond the defaults it passes in (1920×1080, windowed, vsync on) is
  left out: device creation, the graphics-API choice and the application
  loop.
