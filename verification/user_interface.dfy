/** The interactive side of the controller: the keyboard toggles, the
    settings window's rule that keeps the shading options compatible with
    the anti-aliasing mode, and the scene selection. */
module UserInterface {
  import opened Wrappers
  import opened RenderTargets

  /** The user-interface settings these rules read or write. A scene camera
      is identified by its index in the scene graph. */
  datatype UiState = UiState(
    showUi: bool,
    showConsole: bool,
    enableAnimations: bool,
    activeSceneCamera: Option<nat>,
    useThirdPersonCamera: bool,
    antiAliasing: AntiAliasingMode,
    useDeferredShading: bool,
    enableSsao: bool)

  /** The values the settings start with. */
  const InitialUi := UiState(true, false, false, None, false, Temporal, false, true)

  // ---------------------------------------------------------------------
  // Keyboard

  datatype Key = Escape | GraveAccent | Space | KeyT | OtherKey(code: int)

  datatype KeyAction = Press | Release | Repeat

  /** Which camera the first-person camera is moved to before the camera
      mode changes. */
  datatype CameraCopy = NoCopy | FromSceneCamera(camera: nat) | FromThirdPerson

  /** The settings after a key event, the camera copy it performed, and
      whether the event was passed on to the active camera's controller. */
  datatype KeyOutcome = KeyOutcome(ui: UiState, copy: CameraCopy, forwarded: bool)

  /** The keys the application handles itself, on a press. */
  predicate IsBoundKey(key: Key)
  {
    key == Escape || key == GraveAccent || key == Space || key == KeyT
  }

  /** The camera the first-person camera is copied from: the active scene
      camera if any, else the third-person camera if in use. A scene camera
      takes precedence, since choosing one leaves the third-person switch
      as it was. */
  function CopySource(ui: UiState): (c: CameraCopy)
    ensures c == NoCopy <==> ui.activeSceneCamera.None? && !ui.useThirdPersonCamera
    ensures c.FromSceneCamera? ==> ui.activeSceneCamera == Some(c.camera)
    ensures ui.activeSceneCamera.Some? ==> c == FromSceneCamera(ui.activeSceneCamera.value)
    ensures ui.activeSceneCamera.None? && ui.useThirdPersonCamera ==> c == FromThirdPerson
  {
    if ui.activeSceneCamera.Some? then FromSceneCamera(ui.activeSceneCamera.value)
    else if ui.useThirdPersonCamera then FromThirdPerson
    else NoCopy
  }

  /** The camera a frame is viewed through: the active scene camera if
      there is one, otherwise the third- or first-person camera the
      third-person switch selects. */
  datatype ViewCamera = SceneCamera(index: nat) | ThirdPersonCamera | FirstPersonCamera

  function ViewedCamera(ui: UiState): (v: ViewCamera)
    ensures v.SceneCamera? <==> ui.activeSceneCamera.Some?
    ensures v.SceneCamera? ==> ui.activeSceneCamera == Some(v.index)
    ensures v == FirstPersonCamera <==> ui.activeSceneCamera.None? && !ui.useThirdPersonCamera
  {
    match ui.activeSceneCamera
    case Some(k) => SceneCamera(k)
    case None => if ui.useThirdPersonCamera then ThirdPersonCamera else FirstPersonCamera
  }

  /** The copy before a camera change is taken from the camera the frame is
      viewed through, and there is nothing to copy exactly when that is
      already the first-person camera. */
  lemma CopySourceIsViewedCamera(ui: UiState)
    ensures CopySource(ui) == NoCopy <==> ViewedCamera(ui) == FirstPersonCamera
    ensures CopySource(ui) == FromThirdPerson <==> ViewedCamera(ui) == ThirdPersonCamera
    ensures CopySource(ui).FromSceneCamera? <==> ViewedCamera(ui).SceneCamera?
    ensures CopySource(ui).FromSceneCamera? ==> CopySource(ui).camera == ViewedCamera(ui).index
  {
  }

  /** The poses of the cameras, with each scene camera's pose by index. */
  datatype Cameras<Pose> = Cameras(firstPerson: Pose, thirdPerson: Pose, scene: nat -> Pose)

  /** The pose a frame is viewed from. */
  function ViewPose<Pose>(ui: UiState, cams: Cameras<Pose>): Pose
  {
    match ViewedCamera(ui)
    case SceneCamera(k) => cams.scene(k)
    case ThirdPersonCamera => cams.thirdPerson
    case FirstPersonCamera => cams.firstPerson
  }

  /** Moves the first-person camera to the pose of the camera a copy names;
      the other cameras keep theirs. */
  function CopyToFirstPerson<Pose>(cams: Cameras<Pose>, copy: CameraCopy): (r: Cameras<Pose>)
    ensures r.thirdPerson == cams.thirdPerson && r.scene == cams.scene
    ensures copy == NoCopy ==> r.firstPerson == cams.firstPerson
  {
    match copy
    case NoCopy => cams
    case FromSceneCamera(k) => cams.(firstPerson := cams.scene(k))
    case FromThirdPerson => cams.(firstPerson := cams.thirdPerson)
  }

  /** Pressing T lands on the first-person camera exactly when the frame was
      not viewed through it, and then the first-person camera has been
      moved to where the frame was viewed from, so the viewpoint does not
      jump; leaving the first-person camera moves no camera. */
  lemma CameraKeyKeepsViewpoint<Pose>(ui: UiState, cams: Cameras<Pose>)
    ensures var r := KeyboardUpdate(ui, KeyT, Press);
      ViewedCamera(r.ui) == FirstPersonCamera <==> ViewedCamera(ui) != FirstPersonCamera
    ensures var r := KeyboardUpdate(ui, KeyT, Press);
      ViewedCamera(r.ui) == FirstPersonCamera ==> ViewPose(r.ui, CopyToFirstPerson(cams, r.copy)) == ViewPose(ui, cams)
    ensures var r := KeyboardUpdate(ui, KeyT, Press);
      ViewedCamera(ui) == FirstPersonCamera ==> CopyToFirstPerson(cams, r.copy).firstPerson == cams.firstPerson
  {
  }

  /** The keyboard handler. Escape, the grave accent and space flip the
      window, console and animation switches; T leaves a scene camera for
      the first-person camera, or otherwise switches between first- and
      third-person. Every other event goes to the camera controller unless a
      scene camera is active. */
  function KeyboardUpdate(ui: UiState, key: Key, action: KeyAction): KeyOutcome
  {
    if action == Press && key == Escape then KeyOutcome(ui.(showUi := !ui.showUi), NoCopy, false)
    else if action == Press && key == GraveAccent then KeyOutcome(ui.(showConsole := !ui.showConsole), NoCopy, false)
    else if action == Press && key == Space then KeyOutcome(ui.(enableAnimations := !ui.enableAnimations), NoCopy, false)
    else if action == Press && key == KeyT then
      var copy := CopySource(ui);
      if ui.activeSceneCamera.Some? then KeyOutcome(ui.(useThirdPersonCamera := false, activeSceneCamera := None), copy, false)
      else KeyOutcome(ui.(useThirdPersonCamera := !ui.useThirdPersonCamera), copy, false)
    else KeyOutcome(ui, NoCopy, ui.activeSceneCamera.None?)
  }

  /** Only a press of a bound key changes the settings, and such a press is
      never passed on; any other event is passed on exactly when no scene
      camera is active. */
  lemma KeyRouting(ui: UiState, key: Key, action: KeyAction)
    ensures var r := KeyboardUpdate(ui, key, action);
      && (r.forwarded <==> !(action == Press && IsBoundKey(key)) && ui.activeSceneCamera.None?)
      && (!(action == Press && IsBoundKey(key)) ==> r.ui == ui && r.copy == NoCopy)
      && (action == Press && IsBoundKey(key) ==> r.ui != ui)
  {
  }

  /** Each of the three switch keys changes its own switch and nothing
      else. */
  lemma SwitchKeysAreLocal(ui: UiState)
    ensures var e := KeyboardUpdate(ui, Escape, Press).ui;
      e.showUi != ui.showUi && e.(showUi := ui.showUi) == ui
    ensures var g := KeyboardUpdate(ui, GraveAccent, Press).ui;
      g.showConsole != ui.showConsole && g.(showConsole := ui.showConsole) == ui
    ensures var s := KeyboardUpdate(ui, Space, Press).ui;
      s.enableAnimations != ui.enableAnimations && s.(enableAnimations := ui.enableAnimations) == ui
  {
  }

  /** Pressing a switch key twice restores the settings, and so does
      pressing T twice when no scene camera is active. */
  lemma KeyPressedTwice(ui: UiState, key: Key)
    requires key == Escape || key == GraveAccent || key == Space || (key == KeyT && ui.activeSceneCamera.None?)
    ensures KeyboardUpdate(KeyboardUpdate(ui, key, Press).ui, key, Press).ui == ui
  {
    var once := KeyboardUpdate(ui, key, Press).ui;
    if key == Escape {
      assert once == ui.(showUi := !ui.showUi);
    } else if key == GraveAccent {
      assert once == ui.(showConsole := !ui.showConsole);
    } else if key == Space {
      assert once == ui.(enableAnimations := !ui.enableAnimations);
    } else {
      assert once == ui.(useThirdPersonCamera := !ui.useThirdPersonCamera);
    }
  }

  /** The switch keys commute: the settings after two presses do not depend
      on their order. */
  lemma SwitchKeysCommute(ui: UiState, k1: Key, k2: Key)
    requires k1 in {Escape, GraveAccent, Space} && k2 in {Escape, GraveAccent, Space}
    ensures KeyboardUpdate(KeyboardUpdate(ui, k1, Press).ui, k2, Press).ui ==
            KeyboardUpdate(KeyboardUpdate(ui, k2, Press).ui, k1, Press).ui
  {
    var a := KeyboardUpdate(ui, k1, Press).ui;
    var b := KeyboardUpdate(ui, k2, Press).ui;
    SwitchKeyEffect(ui, k1);
    SwitchKeyEffect(ui, k2);
    SwitchKeyEffect(a, k2);
    SwitchKeyEffect(b, k1);
  }

  /** A switch key flips exactly the switch it is bound to. */
  lemma SwitchKeyEffect(ui: UiState, k: Key)
    requires k in {Escape, GraveAccent, Space}
    ensures KeyboardUpdate(ui, k, Press).ui ==
      ui.(showUi := ui.showUi != (k == Escape),
          showConsole := ui.showConsole != (k == GraveAccent),
          enableAnimations := ui.enableAnimations != (k == Space))
  {
  }

  /** After T no scene camera is active. Leaving a scene camera lands on the
      first-person camera, copied from the scene camera; otherwise T
      switches between first- and third-person, copying from the
      third-person camera when leaving it. */
  lemma CameraKey(ui: UiState)
    ensures var r := KeyboardUpdate(ui, KeyT, Press);
      && r.ui.activeSceneCamera.None?
      && (ui.activeSceneCamera.Some? ==> !r.ui.useThirdPersonCamera && r.copy == FromSceneCamera(ui.activeSceneCamera.value))
      && (ui.activeSceneCamera.None? ==> r.ui.useThirdPersonCamera != ui.useThirdPersonCamera)
      && (ui.activeSceneCamera.None? ==> (r.copy == FromThirdPerson <==> ui.useThirdPersonCamera))
      && (ui.activeSceneCamera.None? ==> (r.copy == NoCopy <==> !ui.useThirdPersonCamera))
  {
  }

  // ---------------------------------------------------------------------
  // Settings window

  /** The settings the anti-aliasing rule keeps compatible: deferred shading
      does not work with multisampling, and ambient occlusion needs deferred
      shading. */
  predicate Compatible(ui: UiState)
  {
    && (IsMsaa(ui.antiAliasing) ==> !ui.useDeferredShading)
    && (!ui.useDeferredShading ==> !ui.enableSsao)
  }

  /** What the user picks in the settings window during one frame; `None`
      leaves a widget untouched. */
  datatype Picks = Picks(deferred: Option<bool>, antiAliasing: Option<AntiAliasingMode>, ssao: Option<bool>)

  const NoPicks := Picks(None, None, None)

  function Pick<T>(o: Option<T>, current: T): T
  {
    if o.Some? then o.value else current
  }

  /** The check right after the deferred-shading box: a mode at or after
      MSAA 2x turns deferred shading off. */
  function EarlyCheck(ui: UiState): UiState
  {
    if Ordinal(ui.antiAliasing) >= Ordinal(Msaa2x) then ui.(useDeferredShading := false) else ui
  }

  /** The checks at the end of the window: a mode other than none and
      temporal turns deferred shading off, then forward shading turns
      ambient occlusion off. */
  function FinalCheck(ui: UiState): UiState
  {
    var d := if ui.antiAliasing != NoAntiAliasing && ui.antiAliasing != Temporal then ui.(useDeferredShading := false) else ui;
    if !d.useDeferredShading then d.(enableSsao := false) else d
  }

  /** One pass of the settings window, widgets in source order. Nothing is
      drawn, and nothing changes, while the window is hidden or a scene is
      loading. */
  function BuildUi(ui: UiState, sceneLoading: bool, picks: Picks): UiState
  {
    if !ui.showUi || sceneLoading then ui
    else
      var a := ui.(useDeferredShading := Pick(picks.deferred, ui.useDeferredShading));
      var b := EarlyCheck(a);
      var c := b.(antiAliasing := Pick(picks.antiAliasing, b.antiAliasing));
      var d := c.(enableSsao := Pick(picks.ssao, c.enableSsao));
      FinalCheck(d)
  }

  /** The two anti-aliasing guards in the window name the same modes. */
  lemma GuardsAgree(mode: AntiAliasingMode)
    ensures (mode != NoAntiAliasing && mode != Temporal) <==> IsMsaa(mode)
    ensures Ordinal(mode) >= Ordinal(Msaa2x) <==> IsMsaa(mode)
  {
  }

  /** The end-of-window checks yield compatible settings, change only the
      two shading switches, only ever turn them off, and leave compatible
      settings alone. */
  lemma FinalCheckNormalises(ui: UiState)
    ensures var r := FinalCheck(ui);
      && Compatible(r)
      && r.(useDeferredShading := ui.useDeferredShading, enableSsao := ui.enableSsao) == ui
      && (r.useDeferredShading ==> ui.useDeferredShading)
      && (r.enableSsao ==> ui.enableSsao)
      && (r == ui <==> Compatible(ui))
  {
    GuardsAgree(ui.antiAliasing);
  }

  /** Of all compatible settings that agree with `ui` elsewhere and turn on
      no switch `ui` has off, the checks keep the most: each switch stays on
      whenever some such setting has it on. */
  lemma FinalCheckIsGreatest(ui: UiState, v: UiState)
    requires Compatible(v)
    requires v.(useDeferredShading := ui.useDeferredShading, enableSsao := ui.enableSsao) == ui
    requires v.useDeferredShading ==> ui.useDeferredShading
    requires v.enableSsao ==> ui.enableSsao
    ensures v.useDeferredShading ==> FinalCheck(ui).useDeferredShading
    ensures v.enableSsao ==> FinalCheck(ui).enableSsao
  {
    GuardsAgree(ui.antiAliasing);
  }

  /** Whatever the user picks, a drawn settings window leaves the settings
      compatible, with the user's anti-aliasing mode; a hidden window or a
      loading scene leaves them untouched. */
  lemma BuildUiCompatible(ui: UiState, sceneLoading: bool, picks: Picks)
    ensures var r := BuildUi(ui, sceneLoading, picks);
      && (ui.showUi && !sceneLoading ==> Compatible(r) && r.antiAliasing == Pick(picks.antiAliasing, ui.antiAliasing))
      && (!ui.showUi || sceneLoading ==> r == ui)
  {
    var a := ui.(useDeferredShading := Pick(picks.deferred, ui.useDeferredShading));
    var c := EarlyCheck(a).(antiAliasing := Pick(picks.antiAliasing, ui.antiAliasing));
    FinalCheckNormalises(c.(enableSsao := Pick(picks.ssao, c.enableSsao)));
  }

  /** The check after the deferred-shading box changes nothing the final
      checks would not, as long as the settings were compatible and the
      user did not both tick deferred shading and change the mode in the
      same frame: without it the window ends in the same settings. */
  lemma EarlyCheckRedundant(ui: UiState, picks: Picks)
    requires ui.showUi && Compatible(ui)
    requires picks.deferred.None? || picks.antiAliasing.None?
    ensures var a := ui.(useDeferredShading := Pick(picks.deferred, ui.useDeferredShading));
      var c := a.(antiAliasing := Pick(picks.antiAliasing, a.antiAliasing));
      BuildUi(ui, false, picks) == FinalCheck(c.(enableSsao := Pick(picks.ssao, c.enableSsao)))
  {
    GuardsAgree(ui.antiAliasing);
  }

  /** With both picks in one frame the early check does matter: leaving
      MSAA 4x for temporal anti-aliasing while ticking deferred shading ends
      with forward shading, where the final checks alone would keep
      deferred shading on. */
  lemma EarlyCheckMatters()
    ensures var ui := InitialUi.(antiAliasing := Msaa4x, enableSsao := false);
      var picks := Picks(Some(true), Some(Temporal), None);
      && Compatible(ui)
      && !BuildUi(ui, false, picks).useDeferredShading
      && FinalCheck(ui.(useDeferredShading := true, antiAliasing := Temporal)).useDeferredShading
  {
  }

  /** A frame in which the user touches nothing leaves compatible settings
      as they are, so the window's checks are idempotent. */
  lemma BuildUiIdempotent(ui: UiState, sceneLoading: bool)
    ensures BuildUi(BuildUi(ui, sceneLoading, NoPicks), sceneLoading, NoPicks) == BuildUi(ui, sceneLoading, NoPicks)
    ensures Compatible(ui) ==> BuildUi(ui, sceneLoading, NoPicks) == ui
  {
    BuildUiCompatible(ui, sceneLoading, NoPicks);
    var r := BuildUi(ui, sceneLoading, NoPicks);
    if ui.showUi && !sceneLoading {
      GuardsAgree(r.antiAliasing);
      FinalCheckNormalises(r);
    }
    if Compatible(ui) {
      GuardsAgree(ui.antiAliasing);
      FinalCheckNormalises(ui);
    }
  }

  /** The initial settings pair forward shading with ambient occlusion on;
      the first drawn settings window turns ambient occlusion off and
      changes nothing else. */
  lemma InitialSettingsSettle()
    ensures !Compatible(InitialUi)
    ensures BuildUi(InitialUi, false, NoPicks) == InitialUi.(enableSsao := false)
    ensures Compatible(InitialUi.(enableSsao := false))
  {
  }

  // ---------------------------------------------------------------------
  // Scene selection

  /** The current scene name and whether a load was begun. */
  datatype SceneSelection = SceneSelection(name: string, loadBegun: bool)

  /** Selecting a scene begins loading it unless it is already the current
      scene. */
  function SetCurrentSceneName(current: string, sceneName: string): SceneSelection
  {
    if current == sceneName then SceneSelection(current, false)
    else SceneSelection(sceneName, true)
  }

  /** After a selection the chosen scene is current; a load begins exactly
      when the choice differs, so selecting the same scene again does
      nothing. */
  lemma SelectionLoadsOnChange(current: string, sceneName: string)
    ensures var r := SetCurrentSceneName(current, sceneName);
      && r.name == sceneName
      && (r.loadBegun <==> current != sceneName)
      && !SetCurrentSceneName(r.name, sceneName).loadBegun
  {
  }
}
