/** The current and previous views of the renderer and the variable-rate
    shading state each view carries. A view is planar or stereo (two planar
    halves); the shading-rate state lives on the view object and is used by
    every pass drawn through it. */
module Views {

  datatype ShadingRate = Rate1x1 | Rate1x2 | Rate2x1 | Rate2x2 | Rate2x4 | Rate4x2 | Rate4x4

  datatype Combiner = Passthrough | Override | Min | Max | ApplyRelative

  /** Variable-rate shading state of a view: on/off, the base rate, and how
      the per-primitive and the rate-image rates combine with it. */
  datatype VrsState = VrsState(enabled: bool, shadingRate: ShadingRate, primitiveCombiner: Combiner, imageCombiner: Combiner)

  /** A default state with shading-rate control disabled. */
  const VrsOff := VrsState(false, Rate1x1, Passthrough, Passthrough)

  /** The state the frame installs for the opaque pass: enabled, base rate
      1x1, and the rate surface overriding it. */
  const VrsOn := VrsState(true, Rate1x1, Passthrough, Override)

  /** `Absent` stands for a view pointer that has not been set yet. */
  datatype ViewKind = Absent | Planar | StereoPlanar

  /** A view object: its kind, its shading-rate state, and the camera pose
      (view and projection matrices) last written into it. */
  datatype View = View(kind: ViewKind, vrs: VrsState, pose: nat)

  datatype ViewPair = ViewPair(current: View, previous: View)

  /** Before the first frame neither view exists. */
  const NoViews := ViewPair(View(Absent, VrsOff, 0), View(Absent, VrsOff, 0))

  /** The kind of view the stereo setting calls for. */
  function KindFor(stereo: bool): ViewKind
  {
    if stereo then StereoPlanar else Planar
  }

  datatype Setup = Setup(views: ViewPair, topologyChanged: bool)

  /** Bring the views in line with the stereo setting and write this frame's
      camera pose into the current view. When the current view has the wrong
      kind, both views are replaced by new objects (default shading-rate
      state) and the previous view becomes a copy of the current one. */
  function SetupView(views: ViewPair, stereo: bool, pose: nat): (r: Setup)
    ensures r.topologyChanged <==> views.current.kind != KindFor(stereo)
    ensures r.views.current.kind == KindFor(stereo) && r.views.current.pose == pose
    ensures r.topologyChanged ==> r.views.previous == r.views.current && r.views.current.vrs == VrsOff
    ensures !r.topologyChanged ==> r.views.previous == views.previous && r.views.current.vrs == views.current.vrs
  {
    var kind := KindFor(stereo);
    if views.current.kind != kind then
      var created := View(kind, VrsOff, pose);
      Setup(ViewPair(created, created), true)
    else
      Setup(ViewPair(views.current.(pose := pose), views.previous), false)
  }

  /** A second setup with the same settings changes nothing and reports no
      topology change. */
  lemma SetupViewIdempotent(views: ViewPair, stereo: bool, pose: nat)
    ensures var once := SetupView(views, stereo, pose);
      SetupView(once.views, stereo, pose) == Setup(once.views, false)
  {
  }

  /** Both views have the same kind: they are created together and only
      ever exchanged. */
  predicate KindsAgree(views: ViewPair)
  {
    views.current.kind == views.previous.kind
  }

  /** Setup keeps the two views of one kind, the kind the setting asks for. */
  lemma SetupViewKeepsKinds(views: ViewPair, stereo: bool, pose: nat)
    requires KindsAgree(views)
    ensures var r := SetupView(views, stereo, pose);
      && KindsAgree(r.views)
      && r.views.previous.kind == KindFor(stereo)
  {
  }

  /** End of frame: the current view becomes the previous one and vice
      versa. */
  function Swap(views: ViewPair): (r: ViewPair)
    ensures r.current == views.previous && r.previous == views.current
  {
    ViewPair(views.previous, views.current)
  }

  /** Swapping twice restores the pair, and a swap keeps what holds of the
      two views together: the pair of kinds agreeing, and the set of view
      objects in use. */
  lemma SwapInvolution(views: ViewPair)
    ensures Swap(Swap(views)) == views
    ensures KindsAgree(Swap(views)) <==> KindsAgree(views)
    ensures {Swap(views).current, Swap(views).previous} == {views.current, views.previous}
  {
  }
}
