/** Properties of one frame and of consecutive frames: the order of the NAS
    passes, the shading-rate bracket around the opaque passes, the lifecycle
    of the previous view, and resource recreation. */
module FrameProperties {
  import opened Wrappers
  import opened TileGrid
  import opened RenderTargets
  import opened Views
  import opened Frame

  // ---------------------------------------------------------------------
  // Event classes and trace predicates

  predicate IsDepthPrePass(e: Event) { e.Render? && e.pass == DepthPrePass }
  predicate IsMotionVectors(e: Event) { e.MotionVectors? }
  predicate IsDispatch(e: Event) { e.Dispatch? }
  predicate IsOpaqueRender(e: Event) { e.Render? && IsOpaquePass(e.pass) }
  predicate IsRateWrite(e: Event) { e.SetShadingRateState? }
  predicate IsHistoryUse(e: Event) { e.MotionVectors? || e.TemporalMotionVectors? }
  predicate IsTemporalResolve(e: Event) { e.TemporalResolve? }
  predicate IsExposureReset(e: Event) { e.Render? && e.pass == ExposureReset }
  predicate IsAmbientOcclusion(e: Event) { e.Render? && e.pass == AmbientOcclusion }
  predicate IsRateOn(e: Event) { e == SetShadingRateState(VrsOn) }
  predicate IsRateOff(e: Event) { e == SetShadingRateState(VrsOff) }

  /** No event of the trace is of class `P`. */
  predicate NoneIn(es: seq<Event>, P: Event -> bool)
  {
    forall i :: 0 <= i < |es| ==> !P(es[i])
  }

  /** Every event of class `P` comes before every event of class `Q`. */
  predicate Precedes(es: seq<Event>, P: Event -> bool, Q: Event -> bool)
  {
    forall i, j :: 0 <= i < |es| && 0 <= j < |es| && P(es[i]) && Q(es[j]) ==> i < j
  }

  /** The compute kernels the trace dispatches, in order. */
  function Kernels(es: seq<Event>): seq<Kernel>
  {
    if |es| == 0 then []
    else Kernels(es[..|es| - 1]) + (if es[|es| - 1].Dispatch? then [es[|es| - 1].kernel] else [])
  }

  lemma {:induction false} KernelsConcat(a: seq<Event>, b: seq<Event>)
    ensures Kernels(a + b) == Kernels(a) + Kernels(b)
    decreases |b|
  {
    if |b| > 0 {
      var b' := b[..|b| - 1];
      assert (a + b)[..|a + b| - 1] == a + b';
      KernelsConcat(a, b');
    } else {
      assert a + b == a;
    }
  }

  lemma {:induction false} KernelsNone(es: seq<Event>)
    requires NoneIn(es, IsDispatch)
    ensures Kernels(es) == []
    decreases |es|
  {
    if |es| > 0 {
      assert !IsDispatch(es[|es| - 1]);
      KernelsNone(es[..|es| - 1]);
    }
  }

  /** The shading-rate states the trace installs on the view, in order. */
  function RateWrites(es: seq<Event>): seq<VrsState>
  {
    if |es| == 0 then []
    else RateWrites(es[..|es| - 1]) + (if es[|es| - 1].SetShadingRateState? then [es[|es| - 1].state] else [])
  }

  lemma {:induction false} RateWritesConcat(a: seq<Event>, b: seq<Event>)
    ensures RateWrites(a + b) == RateWrites(a) + RateWrites(b)
    decreases |b|
  {
    if |b| > 0 {
      var b' := b[..|b| - 1];
      assert (a + b)[..|a + b| - 1] == a + b';
      RateWritesConcat(a, b');
    } else {
      assert a + b == a;
    }
  }

  lemma {:induction false} RateWritesEmpty(es: seq<Event>)
    requires RateWrites(es) == []
    ensures NoneIn(es, IsRateWrite)
    decreases |es|
  {
    if |es| > 0 {
      RateWritesEmpty(es[..|es| - 1]);
      assert forall i :: 0 <= i < |es| - 1 ==> es[..|es| - 1][i] == es[i];
    }
  }

  lemma {:induction false} RateWritesNone(es: seq<Event>)
    requires NoneIn(es, IsRateWrite)
    ensures RateWrites(es) == []
    decreases |es|
  {
    if |es| > 0 {
      assert !IsRateWrite(es[|es| - 1]);
      RateWritesNone(es[..|es| - 1]);
    }
  }

  /** The state-change events are exactly the writes they were built from. */
  lemma {:induction false} SetEventsWrites(writes: seq<VrsState>)
    ensures RateWrites(SetEvents(writes)) == writes
    decreases |writes|
  {
    if |writes| > 0 {
      var w' := writes[..|writes| - 1];
      SetEventsWrites(w');
      var es := SetEvents(writes);
      assert es[..|es| - 1] == SetEvents(w');
      assert writes == w' + [writes[|writes| - 1]];
    }
  }

  /** Reference for the NAS compute passes: data, rate surface, and the
      optional smoothing, all gated by the NAS setting alone. */
  function ExpectedKernels(cfg: FrameConfig): seq<Kernel>
  {
    if !cfg.enableNas then []
    else if cfg.enableSmoothing then [NasData, ShadingRate, SmoothShadingRate]
    else [NasData, ShadingRate]
  }

  /** Reference for the shading-rate bracket: opaque passes of a planar
      NAS frame run with the rate surface applied, every other pass at full
      rate. */
  function ExpectedVrs(cfg: FrameConfig, p: Pass): VrsState
  {
    if IsOpaquePass(p) && cfg.enableNas && !cfg.stereo then VrsOn else VrsOff
  }

  predicate RendersTagged(es: seq<Event>, cfg: FrameConfig)
  {
    forall i :: 0 <= i < |es| && es[i].Render? ==> es[i].vrs == ExpectedVrs(cfg, es[i].pass)
  }

  lemma RendersTaggedConcat(a: seq<Event>, b: seq<Event>, cfg: FrameConfig)
    requires RendersTagged(a, cfg) && RendersTagged(b, cfg)
    ensures RendersTagged(a + b, cfg)
  {
    forall i | 0 <= i < |a + b| && (a + b)[i].Render?
      ensures (a + b)[i].vrs == ExpectedVrs(cfg, (a + b)[i].pass)
    {
      if i >= |a| {
        assert (a + b)[i] == b[i - |a|];
      }
    }
  }

  // ---------------------------------------------------------------------
  // The reference order of a frame

  /** Where each pass belongs in a frame: resource creation, depth work,
      motion vectors, NAS compute, exposure reset, the shading-rate bracket
      around the opaque passes, picking, sky and transparency, resolve and
      bloom, presentation. The state change that closes the bracket of a
      planar NAS frame comes after the opaque passes; every other state
      change comes before them. */
  function Stage(cfg: FrameConfig, e: Event): nat
  {
    match e
    case CreateRenderTargets(_, _, _) => 0
    case CreateRenderPasses => 0
    case Render(p, _) => PassStage(p)
    case MotionVectors(_, _) => 2
    case Dispatch(_, _) => 3
    case SetShadingRateState(st) => if cfg.enableNas && !cfg.stereo && st == VrsOff then 7 else 5
    case TemporalMotionVectors(_, _) => 9
    case TemporalResolve(_, _, _) => 9
  }

  function PassStage(p: Pass): nat
  {
    match p
    case ShadowMap | DepthPrePass => 1
    case ExposureReset => 4
    case GBufferFill | AmbientOcclusion | DeferredLighting | ForwardOpaque => 6
    case MaterialId | MaterialIdTranslucent | PixelReadback | Sky | ForwardTransparent => 8
    case MsaaResolve | Bloom => 9
    case ToneMapping | Blit | RateVisualization => 10
  }

  /** Where an event sits inside its stage, in the order of the source:
      targets before passes; shadow map before depth pre-pass; the NAS
      kernels in dispatch order; G-buffer fill, SSAO, deferred lighting (or
      the forward pass); material ids, translucent material ids, readback,
      sky, transparency; motion vectors, resolve, bloom; tone mapping, blit,
      rate overlay. */
  function Within(e: Event): (r: nat)
    ensures r < 16
  {
    match e
    case CreateRenderTargets(_, _, _) => 0
    case CreateRenderPasses => 1
    case Render(p, _) =>
      (match p
       case ShadowMap => 0
       case DepthPrePass => 1
       case ExposureReset => 0
       case GBufferFill => 0
       case AmbientOcclusion => 1
       case DeferredLighting => 2
       case ForwardOpaque => 3
       case MaterialId => 0
       case MaterialIdTranslucent => 1
       case PixelReadback => 2
       case Sky => 3
       case ForwardTransparent => 4
       case MsaaResolve => 2
       case Bloom => 3
       case ToneMapping => 0
       case Blit => 1
       case RateVisualization => 2)
    case MotionVectors(_, _) => 0
    case Dispatch(k, _) => (match k case NasData => 0 case ShadingRate => 1 case SmoothShadingRate => 2)
    case SetShadingRateState(_) => 0
    case TemporalMotionVectors(_, _) => 0
    case TemporalResolve(_, _, _) => 1
  }

  /** Reference position of an event in a frame: its stage, refined by its
      place inside the stage. */
  function Rank(cfg: FrameConfig, e: Event): nat
  {
    Stage(cfg, e) * 16 + Within(e)
  }

  /** The trace is in source order: every event comes strictly after the
      ones that precede it in the reference, so no two events share a
      position. */
  predicate InSourceOrder(cfg: FrameConfig, es: seq<Event>)
  {
    forall i, j :: 0 <= i < j < |es| ==> Rank(cfg, es[i]) < Rank(cfg, es[j])
  }

  /** The trace visits the stages in order. */
  predicate StageOrdered(cfg: FrameConfig, es: seq<Event>)
  {
    forall i, j :: 0 <= i < j < |es| ==> Stage(cfg, es[i]) <= Stage(cfg, es[j])
  }

  /** Every event of the trace belongs to stage `k`. */
  predicate AllAt(cfg: FrameConfig, es: seq<Event>, k: nat)
  {
    forall i :: 0 <= i < |es| ==> Stage(cfg, es[i]) == k
  }

  /** Segment `k` holds only events of stage `base + k`. */
  predicate StagedFrom(cfg: FrameConfig, parts: seq<seq<Event>>, base: nat)
  {
    forall k :: 0 <= k < |parts| ==> AllAt(cfg, parts[k], base + k)
  }

  /** In order: `P` events lie before stage `c`, `Q` events at or after it. */
  lemma OrderedPrecedes(cfg: FrameConfig, es: seq<Event>, P: Event -> bool, Q: Event -> bool, c: nat)
    requires StageOrdered(cfg, es)
    requires forall i :: 0 <= i < |es| && P(es[i]) ==> Stage(cfg, es[i]) < c
    requires forall j :: 0 <= j < |es| && Q(es[j]) ==> Stage(cfg, es[j]) >= c
    ensures Precedes(es, P, Q)
  {
  }

  // ---------------------------------------------------------------------
  // Traces made of segments

  /** The segments concatenated in order. */
  function Join(parts: seq<seq<Event>>): seq<Event>
  {
    if |parts| == 0 then [] else parts[0] + Join(parts[1..])
  }

  lemma StagedTail(cfg: FrameConfig, parts: seq<seq<Event>>, base: nat)
    requires |parts| > 0 && StagedFrom(cfg, parts, base)
    ensures AllAt(cfg, parts[0], base) && StagedFrom(cfg, parts[1..], base + 1)
  {
    forall k | 0 <= k < |parts[1..]|
      ensures AllAt(cfg, parts[1..][k], base + 1 + k)
    {
      assert parts[1..][k] == parts[k + 1];
    }
  }

  /** Segments of increasing stage join into an ordered trace whose stages
      stay in their range. */
  lemma {:induction false} JoinStaged(cfg: FrameConfig, parts: seq<seq<Event>>, base: nat)
    requires StagedFrom(cfg, parts, base)
    ensures StageOrdered(cfg, Join(parts))
    ensures forall i :: 0 <= i < |Join(parts)| ==> base <= Stage(cfg, Join(parts)[i]) < base + |parts|
    decreases |parts|
  {
    if |parts| > 0 {
      StagedTail(cfg, parts, base);
      JoinStaged(cfg, parts[1..], base + 1);
      var a := parts[0];
      var b := Join(parts[1..]);
      assert forall i :: 0 <= i < |a| ==> (a + b)[i] == a[i];
      assert forall i :: |a| <= i < |a + b| ==> (a + b)[i] == b[i - |a|];
    }
  }

  /** Segments of increasing stage, each in source order, join into a
      trace in source order. */
  lemma {:induction false} JoinRanked(cfg: FrameConfig, parts: seq<seq<Event>>, base: nat)
    requires StagedFrom(cfg, parts, base) && PartsRanked(cfg, parts)
    ensures InSourceOrder(cfg, Join(parts))
    decreases |parts|
  {
    if |parts| > 0 {
      var rest := parts[1..];
      StagedTail(cfg, parts, base);
      assert PartsRanked(cfg, rest) by {
        forall k | 0 <= k < |rest|
          ensures InSourceOrder(cfg, rest[k])
        {
          assert rest[k] == parts[k + 1];
        }
      }
      JoinRanked(cfg, rest, base + 1);
      JoinStaged(cfg, rest, base + 1);
      RankedConcat(cfg, parts[0], Join(rest));
    }
  }

  /** An event of the joined trace comes from the segment of its stage. */
  lemma {:induction false} JoinStageMember(cfg: FrameConfig, parts: seq<seq<Event>>, base: nat, e: Event)
    requires StagedFrom(cfg, parts, base) && e in Join(parts)
    ensures base <= Stage(cfg, e) < base + |parts|
    ensures e in parts[Stage(cfg, e) - base]
    decreases |parts|
  {
    StagedTail(cfg, parts, base);
    if e !in parts[0] {
      JoinStageMember(cfg, parts[1..], base + 1, e);
      assert parts[1..][Stage(cfg, e) - base - 1] == parts[Stage(cfg, e) - base];
    }
  }

  /** An event of some segment is an event of the trace. */
  lemma {:induction false} JoinContains(parts: seq<seq<Event>>, k: nat, e: Event)
    requires k < |parts| && e in parts[k]
    ensures e in Join(parts)
    decreases k
  {
    if k > 0 {
      JoinContains(parts[1..], k - 1, e);
    }
  }

  lemma KernelsOffStage(cfg: FrameConfig, es: seq<Event>, k: nat)
    requires AllAt(cfg, es, k) && k != 3
    ensures Kernels(es) == []
  {
    KernelsNone(es);
  }

  /** The kernels a segment of stage `k` dispatches, if the range holds
      one. */
  function KernelsAt(parts: seq<seq<Event>>, base: nat, k: nat): seq<Kernel>
  {
    if base <= k < base + |parts| then Kernels(parts[k - base]) else []
  }

  lemma AtTail(parts: seq<seq<Event>>, base: nat, k: nat)
    requires |parts| > 0 && base < k
    ensures base + 1 <= k < base + 1 + |parts[1..]| <==> base <= k < base + |parts|
    ensures base <= k < base + |parts| ==> parts[1..][k - (base + 1)] == parts[k - base]
  {
  }

  /** Only the NAS stage dispatches. */
  lemma {:induction false} JoinKernels(cfg: FrameConfig, parts: seq<seq<Event>>, base: nat)
    requires StagedFrom(cfg, parts, base)
    ensures Kernels(Join(parts)) == KernelsAt(parts, base, 3)
    decreases |parts|
  {
    if |parts| > 0 {
      var rest := parts[1..];
      StagedTail(cfg, parts, base);
      JoinKernels(cfg, rest, base + 1);
      KernelsConcat(parts[0], Join(rest));
      if base == 3 {
        assert KernelsAt(rest, base + 1, 3) == [];
      } else {
        KernelsOffStage(cfg, parts[0], base);
        if base < 3 {
          AtTail(parts, base, 3);
        }
      }
    }
  }

  lemma RateWritesOffStage(cfg: FrameConfig, es: seq<Event>, k: nat)
    requires AllAt(cfg, es, k) && k != 5 && k != 7
    ensures RateWrites(es) == []
  {
    RateWritesNone(es);
  }

  /** The writes a segment of stage `k` makes, if the range holds one. */
  function WritesAt(parts: seq<seq<Event>>, base: nat, k: nat): seq<VrsState>
  {
    if base <= k < base + |parts| then RateWrites(parts[k - base]) else []
  }

  /** Peeling the first segment off a range of stages. */
  lemma WritesAtTail(parts: seq<seq<Event>>, base: nat, k: nat)
    requires |parts| > 0
    ensures WritesAt(parts, base, k) == if k == base then RateWrites(parts[0]) else WritesAt(parts[1..], base + 1, k)
  {
    if base < k < base + |parts| {
      assert parts[1..][k - (base + 1)] == parts[k - base];
    }
  }

  /** Only the two bracket stages change the shading-rate state. */
  lemma {:induction false} JoinRateWrites(cfg: FrameConfig, parts: seq<seq<Event>>, base: nat)
    requires StagedFrom(cfg, parts, base)
    ensures RateWrites(Join(parts)) == WritesAt(parts, base, 5) + WritesAt(parts, base, 7)
    decreases |parts|
  {
    if |parts| > 0 {
      StagedTail(cfg, parts, base);
      JoinRateWrites(cfg, parts[1..], base + 1);
      if base != 5 && base != 7 {
        RateWritesOffStage(cfg, parts[0], base);
      }
      WritesStep(parts, base);
    }
  }

  /** The inductive step of `JoinRateWrites`, as sequence algebra. */
  lemma WritesStep(parts: seq<seq<Event>>, base: nat)
    requires |parts| > 0
    requires RateWrites(Join(parts[1..])) == WritesAt(parts[1..], base + 1, 5) + WritesAt(parts[1..], base + 1, 7)
    requires base != 5 && base != 7 ==> RateWrites(parts[0]) == []
    ensures RateWrites(Join(parts)) == WritesAt(parts, base, 5) + WritesAt(parts, base, 7)
  {
    var rest := parts[1..];
    var first := RateWrites(parts[0]);
    var later := RateWrites(Join(rest));
    assert Join(parts) == parts[0] + Join(rest);
    RateWritesConcat(parts[0], Join(rest));
    WritesAtTail(parts, base, 5);
    WritesAtTail(parts, base, 7);
    var w5 := WritesAt(rest, base + 1, 5);
    var w7 := WritesAt(rest, base + 1, 7);
    if base == 5 {
      assert w5 == [];
      assert later == w7;
    } else if base == 7 {
      assert w5 == [] && w7 == [];
      assert later == [];
      assert first + later == [] + first;
    } else {
      assert first == [];
      assert first + later == w5 + w7;
    }
  }

  lemma {:induction false} JoinTagged(parts: seq<seq<Event>>, cfg: FrameConfig)
    requires forall k :: 0 <= k < |parts| ==> RendersTagged(parts[k], cfg)
    ensures RendersTagged(Join(parts), cfg)
    decreases |parts|
  {
    if |parts| > 0 {
      assert forall k :: 1 <= k < |parts| ==> parts[k] == parts[1..][k - 1];
      JoinTagged(parts[1..], cfg);
      RendersTaggedConcat(parts[0], Join(parts[1..]), cfg);
    }
  }

  // ---------------------------------------------------------------------
  // The shape of a frame

  const PrepareSegment := 0
  const DepthSegment := 1
  const MotionSegment := 2
  const NasSegment := 3
  const ExposureSegment := 4
  const RateOnSegment := 5
  const OpaqueSegment := 6
  const RateOffSegment := 7
  const LateSegment := 8
  const ResolveSegment := 9
  const PresentSegment := 10

  /** What the resource checks hand to the recording of a frame. */
  datatype Plan = Plan(
    prepare: seq<Event>,
    views: ViewPair,
    valid: bool,
    grid: Grid,
    exposureReset: bool,
    ssaoPassCreated: bool,
    sampleCount: nat)

  function PlanOf(device: DeviceCaps, cfg: FrameConfig, s: ControllerState): Plan
    requires WellFormedDevice(device) && Prepare(device, cfg, s).Success?
  {
    var p := Prepare(device, cfg, s).value;
    Plan(p.events, p.state.views, p.state.previousViewsValid, p.state.targets.value.rateGrid,
         p.exposureReset, p.state.ssaoPassCreated, p.state.targets.value.sampleCount)
  }

  /** The view's shading-rate state once the opaque passes are done. */
  function FinalVrs(cfg: FrameConfig, pl: Plan): VrsState
  {
    StateAfterShading(cfg, pl.views.current.vrs)
  }

  /** The eleven segments of a frame, one per stage. */
  function Segments(cfg: FrameConfig, pl: Plan): (parts: seq<seq<Event>>)
    ensures |parts| == 11
  {
    var initial := pl.views.current.vrs;
    var final := FinalVrs(cfg, pl);
    [ pl.prepare,
      DepthPasses(cfg, initial),
      MotionVectorPass(pl.views, pl.valid),
      NasPasses(cfg, pl.grid),
      ExposurePass(pl.exposureReset, initial),
      SetEvents(ShadingRateBefore(cfg)),
      OpaquePasses(cfg, pl.ssaoPassCreated, Apply(initial, ShadingRateBefore(cfg))),
      SetEvents(ShadingRateAfter(cfg)),
      LatePasses(cfg, final),
      ResolvePasses(cfg, pl.views.current.(vrs := final), pl.views.previous, pl.valid, pl.sampleCount),
      PresentPasses(cfg, final) ]
  }

  lemma JoinUnfold(t: seq<seq<Event>>)
    requires |t| == 11
    ensures Join(t) == t[0] + (t[1] + (t[2] + (t[3] + (t[4] + (t[5] + (t[6] + (t[7] + (t[8] + (t[9] + t[10])))))))))
  {
    assert Join(t[10..]) == t[10] by { assert Join(t[11..]) == []; }
    assert Join(t[9..]) == t[9] + Join(t[10..]) by { assert t[9..][1..] == t[10..]; }
    assert Join(t[8..]) == t[8] + Join(t[9..]) by { assert t[8..][1..] == t[9..]; }
    assert Join(t[7..]) == t[7] + Join(t[8..]) by { assert t[7..][1..] == t[8..]; }
    assert Join(t[6..]) == t[6] + Join(t[7..]) by { assert t[6..][1..] == t[7..]; }
    assert Join(t[5..]) == t[5] + Join(t[6..]) by { assert t[5..][1..] == t[6..]; }
    assert Join(t[4..]) == t[4] + Join(t[5..]) by { assert t[4..][1..] == t[5..]; }
    assert Join(t[3..]) == t[3] + Join(t[4..]) by { assert t[3..][1..] == t[4..]; }
    assert Join(t[2..]) == t[2] + Join(t[3..]) by { assert t[2..][1..] == t[3..]; }
    assert Join(t[1..]) == t[1] + Join(t[2..]) by { assert t[1..][1..] == t[2..]; }
    assert Join(t) == t[0] + Join(t[1..]);
  }

  /** A frame's trace is its segments joined, and its final state is the
      prepared state with the views swapped. */
  lemma FrameIsSegments(device: DeviceCaps, cfg: FrameConfig, s: ControllerState)
    requires WellFormedDevice(device) && RenderScene(device, cfg, s).Success?
    ensures Prepare(device, cfg, s).Success?
    ensures var pl := PlanOf(device, cfg, s);
      var r := RenderScene(device, cfg, s).value;
      var q := Prepare(device, cfg, s).value.state;
      && r.events == Join(Segments(cfg, pl))
      && r.state == q.(views := ViewPair(pl.views.previous, pl.views.current.(vrs := FinalVrs(cfg, pl))),
                       previousViewsValid := cfg.antiAliasing == Temporal)
  {
    JoinUnfold(Segments(cfg, PlanOf(device, cfg, s)));
  }

  // ---------------------------------------------------------------------
  // Facts about each segment

  /** What the resource checks leave behind for a frame that starts from a
      coherent state. */
  lemma PrepareFacts(device: DeviceCaps, cfg: FrameConfig, s: ControllerState)
    requires WellFormedDevice(device) && Inv(s) && Prepare(device, cfg, s).Success?
    ensures var p := Prepare(device, cfg, s).value;
      var sampleCount := SampleCount(cfg.antiAliasing);
      && p.state.views.current.vrs == VrsOff
      && p.state.views.previous.vrs == VrsOff
      && KindsAgree(p.state.views)
      && p.state.views.current.kind == KindFor(cfg.stereo)
      && p.state.views.current.pose == cfg.cameraPose
      && (!SetupView(s.views, cfg.stereo, cfg.cameraPose).topologyChanged ==> p.state.views.previous == s.views.previous)
      && ValidTargets(p.state.targets.value)
      && p.state.targets.value.width == cfg.windowWidth
      && p.state.targets.value.height == cfg.windowHeight
      && p.state.targets.value.sampleCount == sampleCount
      && (NeedsRecreation(s.targets, cfg.windowWidth, cfg.windowHeight, sampleCount) ==>
            p.state.targets.value.tileSize == device.shadingRateTileSize)
      && p.state.passesCreated
      && (p.state.targets.value.sampleCount == 1 ==> p.state.ssaoPassCreated)
      && (p.exposureReset <==> s.targets.None?)
      && AllAt(cfg, p.events, 0)
      && (forall e :: e in p.events ==> e == CreateRenderTargets(cfg.windowWidth, cfg.windowHeight, sampleCount) || e == CreateRenderPasses)
      && (CreateRenderTargets(cfg.windowWidth, cfg.windowHeight, sampleCount) in p.events
          <==> NeedsRecreation(s.targets, cfg.windowWidth, cfg.windowHeight, sampleCount))
      && (CreateRenderPasses in p.events <==> NeedsNewPasses(cfg, s))
  {
    SetupViewKeepsKinds(s.views, cfg.stereo, cfg.cameraPose);
  }

  lemma DepthFacts(cfg: FrameConfig, vrs: VrsState)
    ensures var d := DepthPasses(cfg, vrs);
      && AllAt(cfg, d, DepthSegment)
      && Render(DepthPrePass, vrs) in d
      && (vrs == VrsOff ==> RendersTagged(d, cfg))
  {
  }

  lemma MotionFacts(cfg: FrameConfig, views: ViewPair, valid: bool)
    ensures var m := MotionVectorPass(views, valid);
      && AllAt(cfg, m, MotionSegment)
      && RendersTagged(m, cfg)
      && (forall e :: e in m <==> valid && e == MotionVectors(views.current, views.previous))
  {
  }

  lemma NasFacts(cfg: FrameConfig, grid: Grid)
    ensures var n := NasPasses(cfg, grid);
      && AllAt(cfg, n, NasSegment)
      && RendersTagged(n, cfg)
      && Kernels(n) == ExpectedKernels(cfg)
      && (forall i :: 0 <= i < |n| ==> n[i].Dispatch? && n[i].groups == DispatchSize(n[i].kernel, grid))
  {
    var n := NasPasses(cfg, grid);
    if cfg.enableNas {
      var d0 := Dispatch(NasData, DispatchSize(NasData, grid));
      var d1 := Dispatch(ShadingRate, DispatchSize(ShadingRate, grid));
      KernelsConcat([d0], [d1]);
      if cfg.enableSmoothing {
        KernelsConcat([d0, d1], [Dispatch(SmoothShadingRate, DispatchSize(SmoothShadingRate, grid))]);
        assert [d0] + [d1] == [d0, d1];
      } else {
        assert n == [d0, d1];
        assert n[..1] == [d0];
      }
    }
  }

  lemma ExposureFacts(cfg: FrameConfig, reset: bool, vrs: VrsState)
    ensures var x := ExposurePass(reset, vrs);
      && AllAt(cfg, x, ExposureSegment)
      && (vrs == VrsOff ==> RendersTagged(x, cfg))
      && (forall e :: e in x <==> reset && e == Render(ExposureReset, vrs))
  {
  }

  lemma BracketFacts(cfg: FrameConfig)
    ensures var on := SetEvents(ShadingRateBefore(cfg));
      var off := SetEvents(ShadingRateAfter(cfg));
      && AllAt(cfg, on, RateOnSegment) && AllAt(cfg, off, RateOffSegment)
      && RendersTagged(on, cfg) && RendersTagged(off, cfg)
      && RateWrites(on) == ShadingRateBefore(cfg)
      && RateWrites(off) == ShadingRateAfter(cfg)
  {
    SetEventsWrites(ShadingRateBefore(cfg));
    SetEventsWrites(ShadingRateAfter(cfg));
  }

  lemma OpaqueFacts(cfg: FrameConfig, ssaoPassCreated: bool, vrs: VrsState)
    ensures var o := OpaquePasses(cfg, ssaoPassCreated, vrs);
      && AllAt(cfg, o, OpaqueSegment)
      && |o| > 0
      && (forall i :: 0 <= i < |o| ==> o[i].Render? && IsOpaquePass(o[i].pass) && o[i].vrs == vrs)
      && (Render(AmbientOcclusion, vrs) in o <==> cfg.useDeferredShading && cfg.enableSsao && ssaoPassCreated)
  {
  }

  lemma LateFacts(cfg: FrameConfig, vrs: VrsState)
    ensures var l := LatePasses(cfg, vrs);
      && AllAt(cfg, l, LateSegment)
      && (vrs == VrsOff ==> RendersTagged(l, cfg))
  {
  }

  lemma ResolveFacts(cfg: FrameConfig, view: View, previous: View, valid: bool, sampleCount: nat)
    ensures var r := ResolvePasses(cfg, view, previous, valid, sampleCount);
      && AllAt(cfg, r, ResolveSegment)
      && (view.vrs == VrsOff ==> RendersTagged(r, cfg))
  {
  }

  /** The resolve segment's use of history. */
  lemma ResolveHistory(cfg: FrameConfig, view: View, previous: View, valid: bool, sampleCount: nat)
    ensures var r := ResolvePasses(cfg, view, previous, valid, sampleCount);
      && (forall e :: e in r && e.TemporalResolve? <==>
            cfg.antiAliasing == Temporal && e == TemporalResolve(valid, view, if valid then previous else view))
      && (forall e :: e in r && e.TemporalMotionVectors? <==>
            cfg.antiAliasing == Temporal && valid && e == TemporalMotionVectors(view, previous))
  {
  }

  lemma PresentFacts(cfg: FrameConfig, vrs: VrsState)
    ensures var t := PresentPasses(cfg, vrs);
      && AllAt(cfg, t, PresentSegment)
      && (vrs == VrsOff ==> RendersTagged(t, cfg))
  {
  }

  /** Leaving the opaque passes with the view at full rate: when the frame
      starts at full rate it ends at full rate. */
  lemma FinalVrsOff(cfg: FrameConfig, initial: VrsState)
    requires initial == VrsOff
    ensures StateAfterShading(cfg, initial) == VrsOff
    ensures Apply(initial, ShadingRateBefore(cfg)) == (if cfg.enableNas && !cfg.stereo then VrsOn else VrsOff)
  {
  }

  lemma DepthRanked(cfg: FrameConfig, vrs: VrsState)
    ensures InSourceOrder(cfg, DepthPasses(cfg, vrs))
  {
  }

  lemma NasRanked(cfg: FrameConfig, grid: Grid)
    ensures InSourceOrder(cfg, NasPasses(cfg, grid))
  {
  }

  lemma OpaqueRanked(cfg: FrameConfig, ssaoPassCreated: bool, vrs: VrsState)
    ensures InSourceOrder(cfg, OpaquePasses(cfg, ssaoPassCreated, vrs))
  {
  }

  /** Two traces in source order, the first wholly before the second,
      concatenate to one in source order. */
  lemma RankedConcat(cfg: FrameConfig, a: seq<Event>, b: seq<Event>)
    requires InSourceOrder(cfg, a) && InSourceOrder(cfg, b)
    requires forall i, j :: 0 <= i < |a| && 0 <= j < |b| ==> Rank(cfg, a[i]) < Rank(cfg, b[j])
    ensures InSourceOrder(cfg, a + b)
  {
    assert forall i :: 0 <= i < |a| ==> (a + b)[i] == a[i];
    assert forall i :: |a| <= i < |a + b| ==> (a + b)[i] == b[i - |a|];
  }

  /** Each event comes strictly after its predecessor in the reference. */
  predicate RankChain(cfg: FrameConfig, es: seq<Event>)
  {
    forall i :: 0 < i < |es| ==> Rank(cfg, es[i - 1]) < Rank(cfg, es[i])
  }

  lemma {:induction false} ChainStep(cfg: FrameConfig, es: seq<Event>, i: nat, j: nat)
    requires RankChain(cfg, es) && i < j < |es|
    ensures Rank(cfg, es[i]) < Rank(cfg, es[j])
    decreases j - i
  {
    if i + 1 < j {
      ChainStep(cfg, es, i, j - 1);
    }
  }

  /** A chain of increasing neighbours is in source order. */
  lemma ChainInSourceOrder(cfg: FrameConfig, es: seq<Event>)
    requires RankChain(cfg, es)
    ensures InSourceOrder(cfg, es)
  {
    forall i, j | 0 <= i < j < |es|
      ensures Rank(cfg, es[i]) < Rank(cfg, es[j])
    {
      ChainStep(cfg, es, i, j);
    }
  }

  lemma LateRanked(cfg: FrameConfig, vrs: VrsState)
    ensures InSourceOrder(cfg, LatePasses(cfg, vrs))
  {
    var late := LatePasses(cfg, vrs);
    var id, idT, rb := Render(MaterialId, vrs), Render(MaterialIdTranslucent, vrs), Render(PixelReadback, vrs);
    var sky, tr := Render(Sky, vrs), Render(ForwardTransparent, vrs);
    assert Rank(cfg, id) == 128 && Rank(cfg, idT) == 129 && Rank(cfg, rb) == 130;
    assert Rank(cfg, sky) == 131 && Rank(cfg, tr) == 132;
    if cfg.pick && cfg.enableTranslucency {
      assert late == [id, idT, rb, sky, tr];
    } else if cfg.pick {
      assert late == [id, rb, sky];
    } else if cfg.enableTranslucency {
      assert late == [sky, tr];
    } else {
      assert late == [sky];
    }
    ChainInSourceOrder(cfg, late);
  }

  lemma ResolveRanked(cfg: FrameConfig, view: View, previous: View, valid: bool, sampleCount: nat)
    ensures InSourceOrder(cfg, ResolvePasses(cfg, view, previous, valid, sampleCount))
  {
  }

  lemma PresentRanked(cfg: FrameConfig, vrs: VrsState)
    ensures InSourceOrder(cfg, PresentPasses(cfg, vrs))
  {
  }

  /** Every segment of the frame lists its events in source order. */
  predicate PartsRanked(cfg: FrameConfig, parts: seq<seq<Event>>)
  {
    forall k :: 0 <= k < |parts| ==> InSourceOrder(cfg, parts[k])
  }

  lemma SegmentsRanked(cfg: FrameConfig, pl: Plan)
    requires InSourceOrder(cfg, pl.prepare)
    ensures PartsRanked(cfg, Segments(cfg, pl))
  {
    var parts := Segments(cfg, pl);
    var initial := pl.views.current.vrs;
    var final := FinalVrs(cfg, pl);
    forall k | 0 <= k < |parts|
      ensures InSourceOrder(cfg, parts[k])
    {
      if k == DepthSegment {
        DepthRanked(cfg, initial);
      } else if k == NasSegment {
        NasRanked(cfg, pl.grid);
      } else if k == OpaqueSegment {
        OpaqueRanked(cfg, pl.ssaoPassCreated, Apply(initial, ShadingRateBefore(cfg)));
      } else if k == LateSegment {
        LateRanked(cfg, final);
      } else if k == ResolveSegment {
        ResolveRanked(cfg, pl.views.current.(vrs := final), pl.views.previous, pl.valid, pl.sampleCount);
      } else if k == PresentSegment {
        PresentRanked(cfg, final);
      }
    }
  }

  /** Each segment of a frame holds only events of its own stage. */
  lemma SegmentsStaged(cfg: FrameConfig, pl: Plan)
    requires AllAt(cfg, pl.prepare, PrepareSegment)
    ensures StagedFrom(cfg, Segments(cfg, pl), 0)
  {
    var parts := Segments(cfg, pl);
    var initial := pl.views.current.vrs;
    var final := FinalVrs(cfg, pl);
    forall k | 0 <= k < |parts|
      ensures AllAt(cfg, parts[k], 0 + k)
    {
      if k == DepthSegment {
        DepthFacts(cfg, initial);
      } else if k == MotionSegment {
        MotionFacts(cfg, pl.views, pl.valid);
      } else if k == NasSegment {
        NasFacts(cfg, pl.grid);
      } else if k == ExposureSegment {
        ExposureFacts(cfg, pl.exposureReset, initial);
      } else if k == RateOnSegment || k == RateOffSegment {
        BracketFacts(cfg);
      } else if k == OpaqueSegment {
        OpaqueFacts(cfg, pl.ssaoPassCreated, Apply(initial, ShadingRateBefore(cfg)));
      } else if k == LateSegment {
        LateFacts(cfg, final);
      } else if k == ResolveSegment {
        ResolveFacts(cfg, pl.views.current.(vrs := final), pl.views.previous, pl.valid, pl.sampleCount);
      } else if k == PresentSegment {
        PresentFacts(cfg, final);
      }
    }
  }

  /** Starting at full rate, every segment tags its passes as the reference
      says. */
  lemma SegmentsTagged(cfg: FrameConfig, pl: Plan)
    requires pl.views.current.vrs == VrsOff && RendersTagged(pl.prepare, cfg)
    ensures forall k :: 0 <= k < |Segments(cfg, pl)| ==> RendersTagged(Segments(cfg, pl)[k], cfg)
  {
    var parts := Segments(cfg, pl);
    forall k | 0 <= k < |parts|
      ensures RendersTagged(parts[k], cfg)
    {
      if k < OpaqueSegment {
        EarlySegmentsTagged(cfg, pl, k);
      } else {
        LateSegmentsTagged(cfg, pl, k);
      }
    }
  }

  /** The segments before the opaque passes run at full rate. */
  lemma EarlySegmentsTagged(cfg: FrameConfig, pl: Plan, k: nat)
    requires pl.views.current.vrs == VrsOff && RendersTagged(pl.prepare, cfg)
    requires k < OpaqueSegment
    ensures RendersTagged(Segments(cfg, pl)[k], cfg)
  {
    var initial := pl.views.current.vrs;
    if k == DepthSegment {
      DepthFacts(cfg, initial);
    } else if k == MotionSegment {
      MotionFacts(cfg, pl.views, pl.valid);
    } else if k == NasSegment {
      NasFacts(cfg, pl.grid);
    } else if k == ExposureSegment {
      ExposureFacts(cfg, pl.exposureReset, initial);
    } else if k == RateOnSegment {
      BracketFacts(cfg);
    }
  }

  /** The opaque passes run at the bracketed rate, and everything after
      them at full rate again. */
  lemma LateSegmentsTagged(cfg: FrameConfig, pl: Plan, k: nat)
    requires pl.views.current.vrs == VrsOff
    requires OpaqueSegment <= k < 11
    ensures RendersTagged(Segments(cfg, pl)[k], cfg)
  {
    var initial := pl.views.current.vrs;
    FinalVrsOff(cfg, initial);
    var final := FinalVrs(cfg, pl);
    if k == OpaqueSegment {
      OpaqueFacts(cfg, pl.ssaoPassCreated, Apply(initial, ShadingRateBefore(cfg)));
    } else if k == RateOffSegment {
      BracketFacts(cfg);
    } else if k == LateSegment {
      LateFacts(cfg, final);
    } else if k == ResolveSegment {
      ResolveFacts(cfg, pl.views.current.(vrs := final), pl.views.previous, pl.valid, pl.sampleCount);
    } else {
      PresentFacts(cfg, final);
    }
  }

  // ---------------------------------------------------------------------
  // Properties of one frame

  /** A frame fails exactly when it must create render targets on a device
      without variable-rate shading. */
  lemma FrameFailsIff(device: DeviceCaps, cfg: FrameConfig, s: ControllerState)
    requires WellFormedDevice(device)
    ensures RenderScene(device, cfg, s).Failure? <==>
      NeedsRecreation(s.targets, cfg.windowWidth, cfg.windowHeight, SampleCount(cfg.antiAliasing)) && !device.vrsSupported
  {
  }

  /** What a frame from a coherent state hands to its recording: only
      resource creation so far, and both views at full rate. */
  predicate PlanOk(cfg: FrameConfig, pl: Plan)
  {
    && AllAt(cfg, pl.prepare, PrepareSegment)
    && RendersTagged(pl.prepare, cfg)
    && pl.views.current.vrs == VrsOff
    && pl.views.previous.vrs == VrsOff
  }

  lemma PlanOfOk(device: DeviceCaps, cfg: FrameConfig, s: ControllerState)
    requires WellFormedDevice(device) && Inv(s) && Prepare(device, cfg, s).Success?
    ensures PlanOk(cfg, PlanOf(device, cfg, s))
  {
    PrepareFacts(device, cfg, s);
  }

  /** The recorded trace follows the reference order of stages. In
      particular the depth pre-pass, which is always drawn, precedes the
      motion vectors; both precede the NAS compute passes; and those precede
      every shading-rate state change and every opaque pass. */
  lemma PlanPassOrder(cfg: FrameConfig, pl: Plan)
    requires PlanOk(cfg, pl)
    ensures var es := Join(Segments(cfg, pl));
      && StageOrdered(cfg, es)
      && Render(DepthPrePass, VrsOff) in es
      && Precedes(es, IsDepthPrePass, IsMotionVectors)
      && Precedes(es, IsDepthPrePass, IsDispatch)
      && Precedes(es, IsMotionVectors, IsDispatch)
      && Precedes(es, IsDispatch, IsRateWrite)
      && Precedes(es, IsDispatch, IsOpaqueRender)
  {
    PlanStaged(cfg, pl);
    DepthFacts(cfg, VrsOff);
    JoinContains(Segments(cfg, pl), DepthSegment, Render(DepthPrePass, VrsOff));
    NasPrecedes(cfg, Join(Segments(cfg, pl)));
  }

  /** Every event of the recorded trace lies in the segment of its stage. */
  lemma PlanMember(cfg: FrameConfig, pl: Plan, e: Event)
    requires PlanOk(cfg, pl) && e in Join(Segments(cfg, pl))
    ensures Stage(cfg, e) < |Segments(cfg, pl)| && e in Segments(cfg, pl)[Stage(cfg, e)]
  {
    SegmentsStaged(cfg, pl);
    JoinStageMember(cfg, Segments(cfg, pl), 0, e);
  }

  /** The recorded trace visits the stages in order. */
  lemma PlanStaged(cfg: FrameConfig, pl: Plan)
    requires PlanOk(cfg, pl)
    ensures StageOrdered(cfg, Join(Segments(cfg, pl)))
  {
    SegmentsStaged(cfg, pl);
    JoinStaged(cfg, Segments(cfg, pl), 0);
  }

  /** In any trace ordered by stage, depth work precedes motion vectors,
      both precede the NAS dispatches, and those precede shading-rate
      changes and opaque passes. */
  lemma NasPrecedes(cfg: FrameConfig, es: seq<Event>)
    requires StageOrdered(cfg, es)
    ensures Precedes(es, IsDepthPrePass, IsMotionVectors)
    ensures Precedes(es, IsDepthPrePass, IsDispatch)
    ensures Precedes(es, IsMotionVectors, IsDispatch)
    ensures Precedes(es, IsDispatch, IsRateWrite)
    ensures Precedes(es, IsDispatch, IsOpaqueRender)
  {
    OrderedPrecedes(cfg, es, IsDepthPrePass, IsMotionVectors, 2);
    OrderedPrecedes(cfg, es, IsDepthPrePass, IsDispatch, 2);
    OrderedPrecedes(cfg, es, IsMotionVectors, IsDispatch, 3);
    OrderedPrecedes(cfg, es, IsDispatch, IsRateWrite, 4);
    OrderedPrecedes(cfg, es, IsDispatch, IsOpaqueRender, 4);
  }

  /** The resource-creation events come targets first, then passes. */
  lemma PrepareRanked(device: DeviceCaps, cfg: FrameConfig, s: ControllerState)
    requires WellFormedDevice(device) && Prepare(device, cfg, s).Success?
    ensures InSourceOrder(cfg, PlanOf(device, cfg, s).prepare)
  {
  }

  lemma PlanSourceOrder(cfg: FrameConfig, pl: Plan)
    requires PlanOk(cfg, pl) && InSourceOrder(cfg, pl.prepare)
    ensures InSourceOrder(cfg, Join(Segments(cfg, pl)))
  {
    SegmentsStaged(cfg, pl);
    SegmentsRanked(cfg, pl);
    JoinRanked(cfg, Segments(cfg, pl), 0);
  }

  /** The events of a frame are in source order: each stage in turn and,
      inside a stage, the passes in the order the frame records them (the
      G-buffer fill before SSAO and deferred lighting, the resolve before
      bloom, tone mapping before the blit and the rate overlay), with no
      position taken twice. */
  lemma FrameSourceOrder(device: DeviceCaps, cfg: FrameConfig, s: ControllerState)
    requires WellFormedDevice(device) && Inv(s) && RenderScene(device, cfg, s).Success?
    ensures InSourceOrder(cfg, RenderScene(device, cfg, s).value.events)
  {
    FrameIsSegments(device, cfg, s);
    PlanOfOk(device, cfg, s);
    PrepareRanked(device, cfg, s);
    PlanSourceOrder(cfg, PlanOf(device, cfg, s));
  }

  /** The events of a frame follow the reference order of stages, with the
      orderings of the NAS passes above. */
  lemma FramePassOrder(device: DeviceCaps, cfg: FrameConfig, s: ControllerState)
    requires WellFormedDevice(device) && Inv(s) && RenderScene(device, cfg, s).Success?
    ensures var es := RenderScene(device, cfg, s).value.events;
      && StageOrdered(cfg, es)
      && Render(DepthPrePass, VrsOff) in es
      && Precedes(es, IsDepthPrePass, IsMotionVectors)
      && Precedes(es, IsDepthPrePass, IsDispatch)
      && Precedes(es, IsMotionVectors, IsDispatch)
      && Precedes(es, IsDispatch, IsRateWrite)
      && Precedes(es, IsDispatch, IsOpaqueRender)
  {
    FrameIsSegments(device, cfg, s);
    PlanOfOk(device, cfg, s);
    PlanPassOrder(cfg, PlanOf(device, cfg, s));
  }

  /** The NAS compute passes of the recorded trace, and their sizes. */
  lemma PlanNasDispatches(cfg: FrameConfig, pl: Plan)
    requires PlanOk(cfg, pl)
    ensures var es := Join(Segments(cfg, pl));
      && Kernels(es) == ExpectedKernels(cfg)
      && (forall e :: e in es && e.Dispatch? ==> e.groups == DispatchSize(e.kernel, pl.grid))
  {
    PlanKernels(cfg, pl);
    PlanDispatchSizes(cfg, pl);
  }

  lemma PlanKernels(cfg: FrameConfig, pl: Plan)
    requires PlanOk(cfg, pl)
    ensures Kernels(Join(Segments(cfg, pl))) == ExpectedKernels(cfg)
  {
    var parts := Segments(cfg, pl);
    SegmentsStaged(cfg, pl);
    JoinKernels(cfg, parts, 0);
    NasFacts(cfg, pl.grid);
    assert KernelsAt(parts, 0, 3) == Kernels(parts[NasSegment]);
  }

  lemma PlanDispatchSizes(cfg: FrameConfig, pl: Plan)
    requires PlanOk(cfg, pl)
    ensures forall e :: e in Join(Segments(cfg, pl)) && e.Dispatch? ==> e.groups == DispatchSize(e.kernel, pl.grid)
  {
    var parts := Segments(cfg, pl);
    NasFacts(cfg, pl.grid);
    forall e | e in Join(parts) && e.Dispatch?
      ensures e.groups == DispatchSize(e.kernel, pl.grid)
    {
      PlanMember(cfg, pl, e);
      assert e in parts[NasSegment];
    }
  }

  /** The NAS compute passes a frame dispatches depend on the NAS and
      smoothing settings alone (stereo frames and frames without motion
      vectors run them too), and each is sized for the shading-rate grid of
      the window at the targets' tile size. */
  lemma FrameNasDispatches(device: DeviceCaps, cfg: FrameConfig, s: ControllerState)
    requires WellFormedDevice(device) && Inv(s) && RenderScene(device, cfg, s).Success?
    ensures var r := RenderScene(device, cfg, s).value;
      var grid := GridOf(cfg.windowWidth, cfg.windowHeight, r.state.targets.value.tileSize);
      && Kernels(r.events) == ExpectedKernels(cfg)
      && (forall e :: e in r.events && e.Dispatch? ==> e.groups == DispatchSize(e.kernel, grid))
  {
    FrameIsSegments(device, cfg, s);
    PrepareFacts(device, cfg, s);
    PlanOfOk(device, cfg, s);
    PlanNasDispatches(cfg, PlanOf(device, cfg, s));
  }

  /** Reference for the shading-rate state changes of a frame: none in
      stereo, on-then-off around the opaque passes with NAS, and a single
      "off" before them without. */
  function ExpectedWrites(cfg: FrameConfig): seq<VrsState>
  {
    if cfg.stereo then [] else if cfg.enableNas then [VrsOn, VrsOff] else [VrsOff]
  }

  /** The shading-rate bracket of the recorded trace. */
  lemma PlanShadingRate(cfg: FrameConfig, pl: Plan)
    requires PlanOk(cfg, pl)
    ensures var es := Join(Segments(cfg, pl));
      && RendersTagged(es, cfg)
      && RateWrites(es) == ExpectedWrites(cfg)
      && (cfg.stereo ==> NoneIn(es, IsRateWrite))
      && (cfg.enableNas && !cfg.stereo ==>
            Precedes(es, IsRateOn, IsOpaqueRender) && Precedes(es, IsOpaqueRender, IsRateOff))
      && FinalVrs(cfg, pl) == VrsOff
  {
    var es := Join(Segments(cfg, pl));
    PlanTagged(cfg, pl);
    PlanRateWrites(cfg, pl);
    if cfg.stereo {
      RateWritesEmpty(es);
    }
    if cfg.enableNas && !cfg.stereo {
      PlanStaged(cfg, pl);
      BracketPrecedes(cfg, es);
    }
    FinalVrsOff(cfg, pl.views.current.vrs);
  }

  /** Every pass of the recorded trace carries the shading-rate state the
      reference gives it. */
  lemma PlanTagged(cfg: FrameConfig, pl: Plan)
    requires PlanOk(cfg, pl)
    ensures RendersTagged(Join(Segments(cfg, pl)), cfg)
  {
    SegmentsTagged(cfg, pl);
    JoinTagged(Segments(cfg, pl), cfg);
  }

  /** The recorded trace changes the shading-rate state as the reference
      says. */
  lemma PlanRateWrites(cfg: FrameConfig, pl: Plan)
    requires PlanOk(cfg, pl)
    ensures RateWrites(Join(Segments(cfg, pl))) == ExpectedWrites(cfg)
  {
    SegmentsStaged(cfg, pl);
    JoinRateWrites(cfg, Segments(cfg, pl), 0);
    BracketFacts(cfg);
  }

  /** In a planar NAS frame ordered by stage, enabling the rate surface
      precedes every opaque pass and disabling it follows all of them. */
  lemma BracketPrecedes(cfg: FrameConfig, es: seq<Event>)
    requires StageOrdered(cfg, es) && cfg.enableNas && !cfg.stereo
    ensures Precedes(es, IsRateOn, IsOpaqueRender)
    ensures Precedes(es, IsOpaqueRender, IsRateOff)
  {
    OrderedPrecedes(cfg, es, IsRateOn, IsOpaqueRender, 6);
    OrderedPrecedes(cfg, es, IsOpaqueRender, IsRateOff, 7);
  }

  /** Passes of a planar NAS frame that shade opaque geometry run with the
      rate surface applied, and every other pass at full rate; the view is
      switched on and off exactly once around them. Stereo frames never
      touch the shading-rate state. Both views end the frame at full rate. */
  lemma FrameShadingRate(device: DeviceCaps, cfg: FrameConfig, s: ControllerState)
    requires WellFormedDevice(device) && Inv(s) && RenderScene(device, cfg, s).Success?
    ensures var r := RenderScene(device, cfg, s).value;
      var es := r.events;
      && RendersTagged(es, cfg)
      && RateWrites(es) == ExpectedWrites(cfg)
      && (cfg.stereo ==> NoneIn(es, IsRateWrite))
      && (cfg.enableNas && !cfg.stereo ==>
            Precedes(es, IsRateOn, IsOpaqueRender) && Precedes(es, IsOpaqueRender, IsRateOff))
      && r.state.views.current.vrs == VrsOff
      && r.state.views.previous.vrs == VrsOff
  {
    FrameIsSegments(device, cfg, s);
    PlanOfOk(device, cfg, s);
    PlanShadingRate(cfg, PlanOf(device, cfg, s));
  }

  /** History use in the recorded trace: motion vectors and the temporal
      pass's motion vectors exactly when the plan's history is valid, and a
      temporal resolve exactly under temporal anti-aliasing, handed the
      current view as history when the previous one is not valid. */
  lemma PlanHistory(cfg: FrameConfig, pl: Plan)
    requires PlanOk(cfg, pl)
    ensures var es := Join(Segments(cfg, pl));
      var cur := pl.views.current;
      var prev := pl.views.previous;
      && (forall e :: e in es && e.MotionVectors? <==> pl.valid && e == MotionVectors(cur, prev))
      && (forall e :: e in es && e.TemporalMotionVectors? <==>
            cfg.antiAliasing == Temporal && pl.valid && e == TemporalMotionVectors(cur, prev))
      && (forall e :: e in es && e.TemporalResolve? <==>
            cfg.antiAliasing == Temporal && e == TemporalResolve(pl.valid, cur, if pl.valid then prev else cur))
  {
    PlanMotionVectors(cfg, pl);
    PlanTemporalMotionVectors(cfg, pl);
    PlanTemporalResolve(cfg, pl);
  }

  /** The resolve segment is recorded with the current view at full rate. */
  lemma ResolveView(cfg: FrameConfig, pl: Plan)
    requires PlanOk(cfg, pl)
    ensures Segments(cfg, pl)[ResolveSegment]
      == ResolvePasses(cfg, pl.views.current, pl.views.previous, pl.valid, pl.sampleCount)
  {
    FinalVrsOff(cfg, pl.views.current.vrs);
    assert pl.views.current.(vrs := FinalVrs(cfg, pl)) == pl.views.current;
  }

  lemma PlanMotionVectors(cfg: FrameConfig, pl: Plan)
    requires PlanOk(cfg, pl)
    ensures forall e :: e in Join(Segments(cfg, pl)) && e.MotionVectors? <==>
      pl.valid && e == MotionVectors(pl.views.current, pl.views.previous)
  {
    var parts := Segments(cfg, pl);
    var mv := MotionVectors(pl.views.current, pl.views.previous);
    MotionFacts(cfg, pl.views, pl.valid);
    forall e | e in Join(parts) && e.MotionVectors?
      ensures pl.valid && e == mv
    {
      PlanMember(cfg, pl, e);
    }
    if pl.valid {
      JoinContains(parts, MotionSegment, mv);
    }
  }

  /** A temporal event of the recorded trace comes from the resolve segment. */
  lemma ResolveMember(cfg: FrameConfig, pl: Plan, e: Event)
    requires PlanOk(cfg, pl) && e in Join(Segments(cfg, pl))
    requires e.TemporalMotionVectors? || e.TemporalResolve?
    ensures e in ResolvePasses(cfg, pl.views.current, pl.views.previous, pl.valid, pl.sampleCount)
  {
    PlanMember(cfg, pl, e);
    ResolveView(cfg, pl);
  }

  lemma PlanTemporalMotionVectors(cfg: FrameConfig, pl: Plan)
    requires PlanOk(cfg, pl)
    ensures forall e :: e in Join(Segments(cfg, pl)) && e.TemporalMotionVectors? <==>
      cfg.antiAliasing == Temporal && pl.valid && e == TemporalMotionVectors(pl.views.current, pl.views.previous)
  {
    var parts := Segments(cfg, pl);
    var r := ResolvePasses(cfg, pl.views.current, pl.views.previous, pl.valid, pl.sampleCount);
    var tmv := TemporalMotionVectors(pl.views.current, pl.views.previous);
    ResolveHistory(cfg, pl.views.current, pl.views.previous, pl.valid, pl.sampleCount);
    forall e | e in Join(parts) && e.TemporalMotionVectors?
      ensures cfg.antiAliasing == Temporal && pl.valid && e == tmv
    {
      ResolveMember(cfg, pl, e);
      assert e in r;
    }
    if cfg.antiAliasing == Temporal && pl.valid {
      assert tmv in r;
      ResolveView(cfg, pl);
      JoinContains(parts, ResolveSegment, tmv);
    }
  }

  lemma PlanTemporalResolve(cfg: FrameConfig, pl: Plan)
    requires PlanOk(cfg, pl)
    ensures var cur := pl.views.current;
      var prev := pl.views.previous;
      forall e :: e in Join(Segments(cfg, pl)) && e.TemporalResolve? <==>
        cfg.antiAliasing == Temporal && e == TemporalResolve(pl.valid, cur, if pl.valid then prev else cur)
  {
    var parts := Segments(cfg, pl);
    var cur := pl.views.current;
    var r := ResolvePasses(cfg, cur, pl.views.previous, pl.valid, pl.sampleCount);
    var tr := TemporalResolve(pl.valid, cur, if pl.valid then pl.views.previous else cur);
    ResolveHistory(cfg, cur, pl.views.previous, pl.valid, pl.sampleCount);
    forall e | e in Join(parts) && e.TemporalResolve?
      ensures cfg.antiAliasing == Temporal && e == tr
    {
      ResolveMember(cfg, pl, e);
      assert e in r;
    }
    if cfg.antiAliasing == Temporal {
      assert tr in r;
      ResolveView(cfg, pl);
      JoinContains(parts, ResolveSegment, tr);
    }
  }

  /** The previous-view lifecycle of one frame. Motion vectors are drawn,
      and the temporal resolve trusts its history, exactly when the previous
      view was valid and nothing was recreated; the history then is the view
      the last frame rendered, and otherwise the current view stands in for
      it. The next frame may trust the history exactly when this one ran
      temporal anti-aliasing. After the swap, the previous view is the one
      just rendered, at this frame's camera pose. */
  lemma FrameHistory(device: DeviceCaps, cfg: FrameConfig, s: ControllerState)
    requires WellFormedDevice(device) && Inv(s) && RenderScene(device, cfg, s).Success?
    ensures var r := RenderScene(device, cfg, s).value;
      var es := r.events;
      var h := HistoryValid(cfg, s);
      var rendered := r.state.views.previous;
      var history := r.state.views.current;
      && (forall e :: e in es && e.MotionVectors? <==> h && e == MotionVectors(rendered, history))
      && (forall e :: e in es && e.TemporalMotionVectors? <==>
            cfg.antiAliasing == Temporal && h && e == TemporalMotionVectors(rendered, history))
      && (forall e :: e in es && e.TemporalResolve? <==>
            cfg.antiAliasing == Temporal && e == TemporalResolve(h, rendered, if h then history else rendered))
      && (r.state.previousViewsValid <==> cfg.antiAliasing == Temporal)
      && rendered.pose == cfg.cameraPose
      && rendered.kind == KindFor(cfg.stereo)
  {
    FrameIsSegments(device, cfg, s);
    PrepareFacts(device, cfg, s);
    PlanOfOk(device, cfg, s);
    var pl := PlanOf(device, cfg, s);
    PlanHistory(cfg, pl);
    FinalVrsOff(cfg, pl.views.current.vrs);
    assert pl.views.current.(vrs := FinalVrs(cfg, pl)) == pl.views.current;
  }

  /** Render targets are created exactly when none exist or their size or
      sample count is stale, and render passes exactly when targets were
      created, the view topology changed or shaders are reloaded. The frame
      then holds targets of the window size and the mode's sample count,
      and newly created ones use the device's tile size. A topology change
      rebuilds the passes and invalidates the history. */
  lemma FrameRecreation(device: DeviceCaps, cfg: FrameConfig, s: ControllerState)
    requires WellFormedDevice(device) && Inv(s) && RenderScene(device, cfg, s).Success?
    ensures var r := RenderScene(device, cfg, s).value;
      var es := r.events;
      var sampleCount := SampleCount(cfg.antiAliasing);
      var recreate := NeedsRecreation(s.targets, cfg.windowWidth, cfg.windowHeight, sampleCount);
      && (CreateRenderTargets(cfg.windowWidth, cfg.windowHeight, sampleCount) in es <==> recreate)
      && (forall e :: e in es && e.CreateRenderTargets? ==> e == CreateRenderTargets(cfg.windowWidth, cfg.windowHeight, sampleCount))
      && (CreateRenderPasses in es <==> NeedsNewPasses(cfg, s))
      && r.state.targets.Some?
      && r.state.targets.value.width == cfg.windowWidth
      && r.state.targets.value.height == cfg.windowHeight
      && r.state.targets.value.sampleCount == sampleCount
      && (recreate ==> r.state.targets.value.tileSize == device.shadingRateTileSize)
      && (!recreate ==> r.state.targets == s.targets)
      && (SetupView(s.views, cfg.stereo, cfg.cameraPose).topologyChanged ==>
            CreateRenderPasses in es && !HistoryValid(cfg, s))
  {
    FrameIsSegments(device, cfg, s);
    PrepareFacts(device, cfg, s);
    PlanOfOk(device, cfg, s);
    PlanPrepareEvents(cfg, PlanOf(device, cfg, s));
  }

  /** The creation events of the recorded trace are those of the prepare
      segment. */
  lemma PlanPrepareEvents(cfg: FrameConfig, pl: Plan)
    requires PlanOk(cfg, pl)
    ensures forall e: Event :: e.CreateRenderTargets? || e.CreateRenderPasses? ==>
      (e in Join(Segments(cfg, pl)) <==> e in pl.prepare)
  {
    var parts := Segments(cfg, pl);
    forall e: Event | e.CreateRenderTargets? || e.CreateRenderPasses?
      ensures e in Join(parts) <==> e in pl.prepare
    {
      if e in Join(parts) {
        PlanMember(cfg, pl, e);
      }
      if e in pl.prepare {
        JoinContains(parts, PrepareSegment, e);
      }
    }
  }

  lemma InitialInv()
    ensures Inv(Initial)
  {
  }

  /** A frame keeps the controller state coherent. */
  lemma FramePreservesInv(device: DeviceCaps, cfg: FrameConfig, s: ControllerState)
    requires WellFormedDevice(device) && Inv(s) && RenderScene(device, cfg, s).Success?
    ensures Inv(RenderScene(device, cfg, s).value.state)
  {
    FrameIsSegments(device, cfg, s);
    PrepareFacts(device, cfg, s);
    FinalVrsOff(cfg, VrsOff);
  }

  lemma PlanExposureReset(cfg: FrameConfig, pl: Plan)
    requires PlanOk(cfg, pl)
    ensures var es := Join(Segments(cfg, pl));
      && (Render(ExposureReset, VrsOff) in es <==> pl.exposureReset)
      && (forall e :: e in es && e.Render? && e.pass == ExposureReset ==> e == Render(ExposureReset, VrsOff))
  {
    PlanExposureEvents(cfg, pl);
    if pl.exposureReset {
      ExposureFacts(cfg, true, VrsOff);
      JoinContains(Segments(cfg, pl), ExposureSegment, Render(ExposureReset, VrsOff));
    }
  }

  lemma PlanExposureEvents(cfg: FrameConfig, pl: Plan)
    requires PlanOk(cfg, pl)
    ensures forall e :: e in Join(Segments(cfg, pl)) && e.Render? && e.pass == ExposureReset ==>
      e == Render(ExposureReset, VrsOff) && pl.exposureReset
  {
    var parts := Segments(cfg, pl);
    var x := ExposurePass(pl.exposureReset, VrsOff);
    assert parts[ExposureSegment] == x;
    ExposureFacts(cfg, pl.exposureReset, VrsOff);
    forall e | e in Join(parts) && e.Render? && e.pass == ExposureReset
      ensures e == Render(ExposureReset, VrsOff) && pl.exposureReset
    {
      PlanMember(cfg, pl, e);
      assert e in x;
    }
  }

  /** The tone-mapping exposure is reset in the first frame only: the one
      that finds no render targets yet. */
  lemma FrameExposureReset(device: DeviceCaps, cfg: FrameConfig, s: ControllerState)
    requires WellFormedDevice(device) && Inv(s) && RenderScene(device, cfg, s).Success?
    ensures var es := RenderScene(device, cfg, s).value.events;
      && (Render(ExposureReset, VrsOff) in es <==> s.targets.None?)
      && (forall e :: e in es && e.Render? && e.pass == ExposureReset ==> e == Render(ExposureReset, VrsOff))
  {
    FrameIsSegments(device, cfg, s);
    PrepareFacts(device, cfg, s);
    PlanOfOk(device, cfg, s);
    PlanExposureReset(cfg, PlanOf(device, cfg, s));
  }

  /** The SSAO pass appears in the recorded trace exactly in deferred
      frames with SSAO enabled and an SSAO pass built. */
  lemma PlanSsao(cfg: FrameConfig, pl: Plan)
    requires PlanOk(cfg, pl)
    ensures var ao := Render(AmbientOcclusion, ExpectedVrs(cfg, AmbientOcclusion));
      ao in Join(Segments(cfg, pl)) <==> cfg.useDeferredShading && cfg.enableSsao && pl.ssaoPassCreated
  {
    var parts := Segments(cfg, pl);
    FinalVrsOff(cfg, VrsOff);
    var during := Apply(VrsOff, ShadingRateBefore(cfg));
    OpaqueFacts(cfg, pl.ssaoPassCreated, during);
    var ao := Render(AmbientOcclusion, ExpectedVrs(cfg, AmbientOcclusion));
    assert ao == Render(AmbientOcclusion, during);
    if ao in Join(parts) {
      PlanMember(cfg, pl, ao);
    }
    if cfg.useDeferredShading && cfg.enableSsao && pl.ssaoPassCreated {
      JoinContains(parts, OpaqueSegment, ao);
    }
  }

  /** The SSAO pass is drawn in deferred frames with SSAO enabled, once an
      SSAO pass exists; one exists whenever the targets are single-sampled,
      and, since it is never dropped, also after a switch to MSAA. */
  lemma FrameSsao(device: DeviceCaps, cfg: FrameConfig, s: ControllerState)
    requires WellFormedDevice(device) && Inv(s) && RenderScene(device, cfg, s).Success?
    ensures var r := RenderScene(device, cfg, s).value;
      var ao := Render(AmbientOcclusion, ExpectedVrs(cfg, AmbientOcclusion));
      && (ao in r.events <==> cfg.useDeferredShading && cfg.enableSsao && r.state.ssaoPassCreated)
      && (SampleCount(cfg.antiAliasing) == 1 ==> r.state.ssaoPassCreated)
      && (s.ssaoPassCreated ==> r.state.ssaoPassCreated)
  {
    FrameIsSegments(device, cfg, s);
    PrepareFacts(device, cfg, s);
    PlanOfOk(device, cfg, s);
    PlanSsao(cfg, PlanOf(device, cfg, s));
  }

  // ---------------------------------------------------------------------
  // Properties across frames

  /** In two consecutive frames, the motion vectors of the second are drawn
      between the second frame's camera pose and the pose the first frame
      rendered. */
  lemma MotionVectorsSpanFrames(device: DeviceCaps, cfg1: FrameConfig, cfg2: FrameConfig, s: ControllerState)
    requires WellFormedDevice(device) && Inv(s)
    requires RenderScene(device, cfg1, s).Success?
    requires RenderScene(device, cfg2, RenderScene(device, cfg1, s).value.state).Success?
    ensures var s1 := RenderScene(device, cfg1, s).value.state;
      forall e :: e in RenderScene(device, cfg2, s1).value.events && e.MotionVectors? ==>
        e.view.pose == cfg2.cameraPose && e.previous.pose == cfg1.cameraPose
  {
    var s1 := RenderScene(device, cfg1, s).value.state;
    FrameHistory(device, cfg1, s);
    FramePreservesInv(device, cfg1, s);
    FrameHistory(device, cfg2, s1);
    FrameIsSegments(device, cfg2, s1);
    PrepareFacts(device, cfg2, s1);
  }

  /** A finished scene load keeps the state coherent and the next frame
      draws no motion vectors and resolves without history. */
  lemma SceneLoadDropsHistory(device: DeviceCaps, cfg: FrameConfig, s: ControllerState)
    requires WellFormedDevice(device) && Inv(s) && RenderScene(device, cfg, OnSceneLoaded(s)).Success?
    ensures Inv(OnSceneLoaded(s))
    ensures forall e :: e in RenderScene(device, cfg, OnSceneLoaded(s)).value.events ==>
      !e.MotionVectors? && !e.TemporalMotionVectors? && (e.TemporalResolve? ==> !e.historyValid)
  {
    FrameHistory(device, cfg, OnSceneLoaded(s));
  }
}
