/** The render-target set and its recreation rule. The set (including the
    NAS feature surface and the rate surface) is created for one resolution
    and one sample count and is rebuilt as a whole when either changes. */
module RenderTargets {
  import opened Wrappers
  import opened TileGrid

  /** The anti-aliasing modes, in declaration order. */
  datatype AntiAliasingMode = NoAntiAliasing | Temporal | Msaa2x | Msaa4x | Msaa8x

  /** Position of the mode in its enumeration, as the settings code compares
      it. */
  function Ordinal(mode: AntiAliasingMode): nat
  {
    match mode
    case NoAntiAliasing => 0
    case Temporal => 1
    case Msaa2x => 2
    case Msaa4x => 3
    case Msaa8x => 4
  }

  /** The multisampling modes are those at or after MSAA 2x. */
  predicate IsMsaa(mode: AntiAliasingMode)
  {
    Ordinal(mode) >= Ordinal(Msaa2x)
  }

  function Pow2(n: nat): nat
  {
    if n == 0 then 1 else 2 * Pow2(n - 1)
  }

  /** Samples per pixel of the render targets for an anti-aliasing mode. */
  function SampleCount(mode: AntiAliasingMode): (n: nat)
    ensures n >= 1
    ensures n > 1 <==> IsMsaa(mode)
    ensures IsMsaa(mode) ==> n == Pow2(Ordinal(mode) - 1)
  {
    match mode
    case Msaa2x => 2
    case Msaa4x => 4
    case Msaa8x => 8
    case _ => 1
  }

  /** What the device reports: whether it supports variable-rate shading
      and the tile size of its shading-rate image. */
  datatype DeviceCaps = DeviceCaps(vrsSupported: bool, shadingRateTileSize: nat)

  /** A device that supports variable-rate shading reports a positive tile
      size. */
  predicate WellFormedDevice(device: DeviceCaps)
  {
    device.vrsSupported ==> device.shadingRateTileSize > 0
  }

  /** The parts of the render-target set the controller depends on. */
  datatype Targets = Targets(width: nat, height: nat, sampleCount: nat, tileSize: nat, rateGrid: Grid)

  /** The rate grid of a target set is its size divided, rounding up, by its
      tile size. */
  predicate ValidTargets(t: Targets)
  {
    && t.tileSize > 0
    && t.sampleCount >= 1
    && t.rateGrid == GridOf(t.width, t.height, t.tileSize)
  }

  /** The only failure of target creation: the device lacks variable-rate
      shading, which the application treats as fatal. */
  datatype InitError = VrsNotSupported

  /** Creation of the render-target set for a size and sample count. */
  function Init(device: DeviceCaps, width: nat, height: nat, sampleCount: nat): (r: Result<Targets, InitError>)
    requires WellFormedDevice(device) && sampleCount >= 1
    ensures r.Failure? <==> !device.vrsSupported
    ensures r.Success? ==>
      && ValidTargets(r.value)
      && r.value.tileSize == device.shadingRateTileSize
      && !IsUpdateRequired(r.value, width, height, sampleCount)
  {
    if !device.vrsSupported then
      Failure(VrsNotSupported)
    else
      var t := device.shadingRateTileSize;
      Success(Targets(width, height, sampleCount, t, GridOf(width, height, t)))
  }

  /** The existing set must be rebuilt for this size and sample count. */
  predicate IsUpdateRequired(t: Targets, width: nat, height: nat, sampleCount: nat)
  {
    t.width != width || t.height != height || t.sampleCount != sampleCount
  }

  /** The frame rebuilds the set when there is none yet or it is stale. */
  predicate NeedsRecreation(current: Option<Targets>, width: nat, height: nat, sampleCount: nat)
  {
    current.None? || IsUpdateRequired(current.value, width, height, sampleCount)
  }

  /** The targets a frame renders with, and whether they were just created. */
  datatype Ensured = Ensured(targets: Targets, created: bool)

  /** Keep the current set if it fits the request, otherwise create one. */
  function EnsureTargets(device: DeviceCaps, current: Option<Targets>, width: nat, height: nat, sampleCount: nat): (r: Result<Ensured, InitError>)
    requires WellFormedDevice(device) && sampleCount >= 1
    ensures r.Failure? <==> NeedsRecreation(current, width, height, sampleCount) && !device.vrsSupported
    ensures r.Success? ==>
      && r.value.created == NeedsRecreation(current, width, height, sampleCount)
      && (r.value.created ==> ValidTargets(r.value.targets) && r.value.targets.tileSize == device.shadingRateTileSize)
      && r.value.targets.width == width && r.value.targets.height == height
      && r.value.targets.sampleCount == sampleCount
      && (!r.value.created ==> r.value.targets == current.value)
  {
    if NeedsRecreation(current, width, height, sampleCount) then
      var t :- Init(device, width, height, sampleCount);
      Success(Ensured(t, true))
    else
      Success(Ensured(current.value, false))
  }

  /** Asking again for the same size and sample count keeps the set that the
      first request produced. */
  lemma EnsureTargetsIdempotent(device: DeviceCaps, current: Option<Targets>, width: nat, height: nat, sampleCount: nat)
    requires WellFormedDevice(device) && sampleCount >= 1
    requires EnsureTargets(device, current, width, height, sampleCount).Success?
    ensures var t := EnsureTargets(device, current, width, height, sampleCount).value.targets;
      EnsureTargets(device, Some(t), width, height, sampleCount) == Success(Ensured(t, false))
  {
  }
}
