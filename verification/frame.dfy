/** One frame of the adaptive-shading renderer as a pure state machine: a
    snapshot of the settings and the controller state go in, the sequence of
    passes recorded on the command list and the next state come out. */
module Frame {
  import opened Wrappers
  import opened TileGrid
  import opened RenderTargets
  import opened Views

  /** The settings and inputs one frame reads, fixed for the whole frame. */
  datatype FrameConfig = FrameConfig(
    windowWidth: nat,
    windowHeight: nat,
    antiAliasing: AntiAliasingMode,
    stereo: bool,
    useDeferredShading: bool,
    enableSsao: bool,
    enableShadows: bool,
    enableTranslucency: bool,
    enableBloom: bool,
    enableNas: bool,
    enableSmoothing: bool,
    enableShadingRateVis: bool,
    shaderReloadRequested: bool,
    pick: bool,
    cameraPose: nat)

  /** What survives from one frame to the next. `passesCreated` records
      that the render passes (and with them the tone-mapping exposure
      buffer) exist; `ssaoPassCreated` that an SSAO pass was ever built. */
  datatype ControllerState = ControllerState(
    targets: Option<Targets>,
    views: ViewPair,
    previousViewsValid: bool,
    passesCreated: bool,
    ssaoPassCreated: bool)

  const Initial := ControllerState(None, NoViews, false, false, false)

  /** Render passes of a frame. Each recorded pass is tagged with the
      shading-rate state the current view holds at that point in the frame,
      whether or not the pass draws through that view. */
  datatype Pass =
    | ShadowMap
    | DepthPrePass
    | ExposureReset
    | GBufferFill
    | AmbientOcclusion
    | DeferredLighting
    | ForwardOpaque
    | MaterialId
    | MaterialIdTranslucent
    | PixelReadback
    | Sky
    | ForwardTransparent
    | MsaaResolve
    | Bloom
    | ToneMapping
    | Blit
    | RateVisualization

  /** One step of the frame. `Render` carries the shading-rate state the
      current view holds when the pass is recorded. The two motion-vector
      events are the two call sites of the motion-vector pass: before the
      NAS passes, and inside temporal anti-aliasing. */
  datatype Event =
    | CreateRenderTargets(width: nat, height: nat, sampleCount: nat)
    | CreateRenderPasses
    | Render(pass: Pass, vrs: VrsState)
    | MotionVectors(view: View, previous: View)
    | Dispatch(kernel: Kernel, groups: Groups)
    | SetShadingRateState(state: VrsState)
    | TemporalMotionVectors(view: View, previous: View)
    | TemporalResolve(historyValid: bool, view: View, history: View)

  datatype FrameResult = FrameResult(events: seq<Event>, state: ControllerState)

  /** The passes that shade opaque geometry: the forward pass, or the
      G-buffer fill, SSAO and deferred lighting. */
  predicate IsOpaquePass(p: Pass)
  {
    p == ForwardOpaque || p == GBufferFill || p == AmbientOcclusion || p == DeferredLighting
  }

  /** The controller state is coherent: both view objects end every frame
      with shading-rate control off and share one kind, the render targets
      carry the grid of their own size, render passes exist exactly when
      render targets do, and single-sampled targets come with an SSAO pass. */
  predicate Inv(s: ControllerState)
  {
    && s.views.current.vrs == VrsOff
    && s.views.previous.vrs == VrsOff
    && KindsAgree(s.views)
    && (s.targets.Some? ==> ValidTargets(s.targets.value))
    && (s.passesCreated <==> s.targets.Some?)
    && (s.targets.Some? && s.targets.value.sampleCount == 1 ==> s.ssaoPassCreated)
  }

  /** Render passes are rebuilt when the targets are rebuilt, when the view
      topology changes, or when a shader reload was requested. */
  predicate NeedsNewPasses(cfg: FrameConfig, s: ControllerState)
  {
    || NeedsRecreation(s.targets, cfg.windowWidth, cfg.windowHeight, SampleCount(cfg.antiAliasing))
    || SetupView(s.views, cfg.stereo, cfg.cameraPose).topologyChanged
    || cfg.shaderReloadRequested
  }

  /** Whether the previous view may be used this frame: it was valid and no
      pass recreation reset it. */
  predicate HistoryValid(cfg: FrameConfig, s: ControllerState)
  {
    s.previousViewsValid && !NeedsNewPasses(cfg, s)
  }

  /** The state after the resource checks at the start of a frame, with the
      events they produce and whether tone-mapping exposure must be reset. */
  datatype Prepared = Prepared(events: seq<Event>, state: ControllerState, exposureReset: bool)

  /** Resource checks at the start of the frame: render targets, view
      topology, shader reload, pass recreation. */
  function Prepare(device: DeviceCaps, cfg: FrameConfig, s: ControllerState): (r: Result<Prepared, InitError>)
    requires WellFormedDevice(device)
    ensures r.Success? ==>
      && r.value.state.targets.Some?
      && r.value.state.previousViewsValid == HistoryValid(cfg, s)
  {
    var sampleCount := SampleCount(cfg.antiAliasing);
    var ensured :- EnsureTargets(device, s.targets, cfg.windowWidth, cfg.windowHeight, sampleCount);
    var setup := SetupView(s.views, cfg.stereo, cfg.cameraPose);
    var newPasses := ensured.created || setup.topologyChanged || cfg.shaderReloadRequested;
    var targetEvents := if ensured.created then [CreateRenderTargets(cfg.windowWidth, cfg.windowHeight, sampleCount)] else [];
    var passEvents := if newPasses then [CreateRenderPasses] else [];
    var state := ControllerState(
      Some(ensured.targets),
      setup.views,
      s.previousViewsValid && !newPasses,
      s.passesCreated || newPasses,
      if newPasses && ensured.targets.sampleCount == 1 then true else s.ssaoPassCreated);
    Success(Prepared(targetEvents + passEvents, state, newPasses && !s.passesCreated))
  }

  /** Shadow map and depth pre-pass. */
  function DepthPasses(cfg: FrameConfig, vrs: VrsState): seq<Event>
  {
    (if cfg.enableShadows then [Render(ShadowMap, vrs)] else []) + [Render(DepthPrePass, vrs)]
  }

  /** Motion vectors, drawn only when the previous view is valid. */
  function MotionVectorPass(views: ViewPair, historyValid: bool): seq<Event>
  {
    if historyValid then [MotionVectors(views.current, views.previous)] else []
  }

  /** The NAS dispatches over the rate grid. */
  function NasPasses(cfg: FrameConfig, grid: Grid): seq<Event>
  {
    if cfg.enableNas then
      [Dispatch(NasData, DispatchSize(NasData, grid)), Dispatch(ShadingRate, DispatchSize(ShadingRate, grid))]
      + (if cfg.enableSmoothing then [Dispatch(SmoothShadingRate, DispatchSize(SmoothShadingRate, grid))] else [])
    else []
  }

  /** The shading-rate state installed before the opaque passes, if any. */
  function ShadingRateBefore(cfg: FrameConfig): seq<VrsState>
  {
    if cfg.stereo then [] else if cfg.enableNas then [VrsOn] else [VrsOff]
  }

  /** The shading-rate state installed after the opaque passes, if any. */
  function ShadingRateAfter(cfg: FrameConfig): seq<VrsState>
  {
    if cfg.enableNas && !cfg.stereo then [VrsOff] else []
  }

  /** The view's shading-rate state once `writes` have been applied to
      `initial`. */
  function Apply(initial: VrsState, writes: seq<VrsState>): VrsState
  {
    if |writes| == 0 then initial else writes[|writes| - 1]
  }

  /** One state-change event per write, in order. */
  function SetEvents(writes: seq<VrsState>): seq<Event>
  {
    seq(|writes|, i requires 0 <= i < |writes| => SetShadingRateState(writes[i]))
  }

  /** The opaque passes, drawn while the view holds `vrs`. */
  function OpaquePasses(cfg: FrameConfig, ssaoPassCreated: bool, vrs: VrsState): seq<Event>
  {
    if cfg.useDeferredShading then
      [Render(GBufferFill, vrs)]
      + (if cfg.enableSsao && ssaoPassCreated then [Render(AmbientOcclusion, vrs)] else [])
      + [Render(DeferredLighting, vrs)]
    else [Render(ForwardOpaque, vrs)]
  }

  /** The view's shading-rate state once the opaque phase is over. */
  function StateAfterShading(cfg: FrameConfig, initial: VrsState): VrsState
  {
    Apply(Apply(initial, ShadingRateBefore(cfg)), ShadingRateAfter(cfg))
  }

  /** Reset of the tone-mapping exposure, recorded when the exposure buffer
      was just created. */
  function ExposurePass(reset: bool, vrs: VrsState): seq<Event>
  {
    if reset then [Render(ExposureReset, vrs)] else []
  }

  /** Picking, sky, transparency. */
  function LatePasses(cfg: FrameConfig, vrs: VrsState): seq<Event>
  {
    (if cfg.pick then
       [Render(MaterialId, vrs)]
       + (if cfg.enableTranslucency then [Render(MaterialIdTranslucent, vrs)] else [])
       + [Render(PixelReadback, vrs)]
     else [])
    + [Render(Sky, vrs)]
    + (if cfg.enableTranslucency then [Render(ForwardTransparent, vrs)] else [])
  }

  /** Temporal resolve, or the MSAA resolve, followed by bloom. With an
      invalid previous view the resolve is handed the current view as its
      history. */
  function ResolvePasses(cfg: FrameConfig, view: View, previous: View, historyValid: bool, sampleCount: nat): seq<Event>
  {
    var bloom := if cfg.enableBloom then [Render(Bloom, view.vrs)] else [];
    if cfg.antiAliasing == Temporal then
      (if historyValid then [TemporalMotionVectors(view, previous)] else [])
      + [TemporalResolve(historyValid, view, if historyValid then previous else view)]
      + bloom
    else
      (if sampleCount > 1 then [Render(MsaaResolve, view.vrs)] else [])
      + bloom
  }

  /** Tone mapping, the blit to the back buffer, and the rate overlay. */
  function PresentPasses(cfg: FrameConfig, vrs: VrsState): seq<Event>
  {
    [Render(ToneMapping, vrs), Render(Blit, vrs)]
    + (if cfg.enableNas && cfg.enableShadingRateVis then [Render(RateVisualization, vrs)] else [])
  }

  /** The command list of one frame, recorded against the prepared state,
      and the state after the views are swapped. */
  function Record(cfg: FrameConfig, p: ControllerState, exposureReset: bool): FrameResult
    requires p.targets.Some?
  {
    var targets := p.targets.value;
    var views := p.views;
    var valid := p.previousViewsValid;
    var initial := views.current.vrs;
    var final := StateAfterShading(cfg, initial);
    var view := views.current.(vrs := final);
    var events :=
      DepthPasses(cfg, initial)
      + (MotionVectorPass(views, valid)
      + (NasPasses(cfg, targets.rateGrid)
      + (ExposurePass(exposureReset, initial)
      + (SetEvents(ShadingRateBefore(cfg))
      + (OpaquePasses(cfg, p.ssaoPassCreated, Apply(initial, ShadingRateBefore(cfg)))
      + (SetEvents(ShadingRateAfter(cfg))
      + (LatePasses(cfg, final)
      + (ResolvePasses(cfg, view, views.previous, valid, targets.sampleCount)
      + PresentPasses(cfg, final)))))))));
    var next := p.(views := Swap(ViewPair(view, views.previous)), previousViewsValid := cfg.antiAliasing == Temporal);
    FrameResult(events, next)
  }

  /** One frame. It fails only when render targets must be created on a
      device without variable-rate shading. */
  function RenderScene(device: DeviceCaps, cfg: FrameConfig, s: ControllerState): (r: Result<FrameResult, InitError>)
    requires WellFormedDevice(device)
  {
    var p :- Prepare(device, cfg, s);
    var recorded := Record(cfg, p.state, p.exposureReset);
    Success(FrameResult(p.events + recorded.events, recorded.state))
  }

  /** A finished scene load invalidates the previous view. */
  function OnSceneLoaded(s: ControllerState): ControllerState
  {
    s.(previousViewsValid := false)
  }
}
