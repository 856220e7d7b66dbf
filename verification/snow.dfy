// The snow demo's frame-state logic: the ping-pong between the two snow
// accumulation textures, the one-shot shadow and plane-base passes, keeping
// the particle count in step with its target, the particle-count combo, and
// the settings reset.
//
// The GL passes are recorded as abstract events in a ghost log; rand() draws
// and glm::radians(180) are inputs.

module SnowApplication {
  import opened MathUtil

  /** The two snow accumulation textures, each with its own framebuffer. */
  datatype AccumTexture = TexA | TexB

  /** What update and render do on the GPU, in order. */
  datatype SnowPass =
    | ShadowPass                                      // update_snow_shadow
    | PlaneBasePass                                   // update_snow_plane_base
    | BroomPass(cleared: bool)                        // the broom position texture, cleared or kept
    | AccumPass(target: AccumTexture, sample: AccumTexture, clear: bool)
    | BlurPass(target: AccumTexture, sample: AccumTexture)
    | ParticleStorage(bytes: nat)                     // the position buffer of reload_snow_particles
    | RenderScene(accum: AccumTexture)                // render, with the accumulation texture bound to unit 1

  /** The texture behind the framebuffer a pass draws into: snow_accum_output_a ? a : b. */
  function Written(outputA: bool): AccumTexture {
    if outputA then TexA else TexB
  }

  /** The texture a pass samples: snow_accum_output_a ? b : a. */
  function Sampled(outputA: bool): AccumTexture {
    if outputA then TexB else TexA
  }

  /** The texture render samples: snow_accum_output_a ? a : b. */
  function Rendered(outputA: bool): AccumTexture {
    if outputA then TexA else TexB
  }

  /** Whether the broom pass clears its texture: unless the broom is permanent and no clear was asked for. */
  function BroomClears(broomPermanent: bool, clear: bool): bool {
    !(broomPermanent && !clear)
  }

  /**
   * The passes of update_snow_accum when the flag is `outputA` on entry:
   * the flag is flipped before the accumulation pass and again before the
   * blur pass.
   */
  function AccumPasses(outputA: bool, broomPermanent: bool, clear: bool): seq<SnowPass> {
    [BroomPass(BroomClears(broomPermanent, clear)),
     AccumPass(Written(!outputA), Sampled(!outputA), clear),
     BlurPass(Written(outputA), Sampled(outputA))]
  }

  /**
   * Ping-pong: no pass samples the texture it writes, the blur reads what
   * the accumulation pass just wrote, and the texture render samples with
   * the flag left as it was on entry is the one the blur wrote.
   */
  lemma PingPong(outputA: bool, broomPermanent: bool, clear: bool)
    ensures var ps := AccumPasses(outputA, broomPermanent, clear);
      && ps[1].AccumPass? && ps[2].BlurPass?
      && ps[1].target != ps[1].sample
      && ps[2].target != ps[2].sample
      && ps[2].sample == ps[1].target
      && Rendered(outputA) == ps[2].target
      && ps[1].target != Rendered(outputA)
  {
  }

  /**
   * The passes of one update with snow on: the pending one-shot passes, the
   * accumulation passes, then new particle storage if the count was stale.
   */
  function SnowUpdatePasses(shadow: bool, planeBase: bool, outputA: bool, broomPermanent: bool, clear: bool,
                            count: nat, target: nat): seq<SnowPass> {
    OneShotPasses(shadow, planeBase) + AccumPasses(outputA, broomPermanent, clear) + ReloadPasses(count, target)
  }

  /** The pending one-shot passes, shadow first. */
  function OneShotPasses(shadow: bool, planeBase: bool): seq<SnowPass> {
    (if shadow then [ShadowPass] else []) + (if planeBase then [PlaneBasePass] else [])
  }

  /** New particle storage when the count differs from its target. */
  function ReloadPasses(count: nat, target: nat): seq<SnowPass> {
    if count != target then [ParticleStorage(ParticleBytes * target)] else []
  }

  /**
   * Whether a one-shot pass is still pending after one update: an update
   * with snow on runs and clears it, one with snow off leaves it alone.
   * SnowApp.Update ensures its flags follow this step.
   */
  function StillPending(pending: bool, useSnow: bool): bool {
    pending && !useSnow
  }

  /**
   * How many times a one-shot pass runs over a series of updates, given
   * whether it is pending and whether snow is on in each update; each
   * update is one SnowApp.Update, so the flag moves by StillPending.
   */
  function OneShotRuns(pending: bool, useSnow: seq<bool>): nat {
    if |useSnow| == 0 then 0
    else (if pending && useSnow[0] then 1 else 0) + OneShotRuns(StillPending(pending, useSnow[0]), useSnow[1..])
  }

  /**
   * A pending one-shot pass runs exactly once if snow is ever on and never
   * otherwise; one that is not pending never runs.
   */
  lemma {:induction false} OneShotRunsOnce(pending: bool, useSnow: seq<bool>)
    ensures OneShotRuns(pending, useSnow) == (if pending && true in useSnow then 1 else 0)
    decreases |useSnow|
  {
    if |useSnow| > 0 {
      OneShotRunsOnce(StillPending(pending, useSnow[0]), useSnow[1..]);
      assert true in useSnow <==> useSnow[0] || true in useSnow[1..];
    }
  }

  // ---------------------------------------------------------------- particles

  /** 2^k. */
  function Pow2(k: nat): (r: nat)
    ensures r >= 1
  {
    if k == 0 then 1 else 2 * Pow2(k - 1)
  }

  /** floor(log2(n)). */
  function Log2Floor(n: nat): nat
    requires n >= 1
  {
    if n == 1 then 0 else 1 + Log2Floor(n / 2)
  }

  lemma {:induction false} Log2FloorPow2(k: nat)
    ensures Log2Floor(Pow2(k)) == k
  {
    if k > 0 {
      Log2FloorPow2(k - 1);
      assert Pow2(k) / 2 == Pow2(k - 1);
    }
  }

  /** The entries of the particle-count combo: 256, 512, ..., 131072. */
  const ComboEntries: nat := 10

  predicate IsComboCount(n: nat) {
    exists e :: 8 <= e < 8 + ComboEntries && n == Pow2(e)
  }

  /** The combo index render_ui shows for a count: (int)(log2(count) - 8), exact for counts of at least 256. */
  function ComboIndex(count: nat): int
    requires count >= 1
  {
    Log2Floor(count) - 8
  }

  /** The target render_ui sets when index k is chosen: (int)pow(2, k + 8). */
  function ComboTarget(k: nat): nat {
    Pow2(k + 8)
  }

  /**
   * The combo round trip: every entry shows as its own index and choosing
   * it gives back the same count.
   */
  lemma ComboRoundTrip(k: nat)
    requires k < ComboEntries
    ensures ComboIndex(ComboTarget(k)) == k
    ensures ComboTarget(ComboIndex(ComboTarget(k)) as nat) == ComboTarget(k)
    ensures IsComboCount(ComboTarget(k))
  {
    Log2FloorPow2(k + 8);
  }

  /** One particle position from three draws: x and z over a 26-wide square centred on 0, y up to 50. */
  function SnowParticle(r: Vec3): Vec3 {
    Vec3((r.x - 0.5) * 26.0, r.y * 50.0, (r.z - 0.5) * 26.0)
  }

  /** With draws in [0, 1], a particle lies in the box [-13, 13] x [0, 50] x [-13, 13]. */
  lemma SnowParticleInBox(r: Vec3)
    requires 0.0 <= r.x <= 1.0 && 0.0 <= r.y <= 1.0 && 0.0 <= r.z <= 1.0
    ensures var p := SnowParticle(r);
      && -13.0 <= p.x <= 13.0 && 0.0 <= p.y <= 50.0 && -13.0 <= p.z <= 13.0
  {
  }

  /** sizeof(float) * 3. */
  const ParticleBytes: nat := 12

  /** The particle count reset_settings sets. */
  const DefaultParticleCount: nat := 2048

  // ---------------------------------------------------------------- the application

  /** The values reset_settings restores. */
  datatype SnowSettings = SnowSettings(
    useSnow: bool,
    snowAccumVelMult: real,
    snowAccumBlurRadius: real,
    broomPermanent: bool,
    showSnowPlane: bool,
    snowHeightMax: real,
    snowPlaneTessFactor: real,
    snowParticlesCountTarget: nat,
    lightAngle: real,
    wireframe: bool,
    pbr: bool)

  /** reset_settings; `halfTurn` is glm::radians(180). */
  function DefaultSettings(halfTurn: real): SnowSettings {
    SnowSettings(true, 1.0, 3.0, false, true, 0.75, 100.0, DefaultParticleCount, halfTurn, false, true)
  }

  class SnowApp {
    /** glm::radians(180.0f). */
    const halfTurn: real
    /** The settings reset_settings restores, each a field of the application. */
    var settings: SnowSettings
    var doResetSettings: bool
    var clearSnowAccum: bool
    var snowAccumOutputA: bool
    var doUpdateSnowShadow: bool
    var doUpdateSnowPlaneBase: bool
    var snowParticlesCount: nat
    var snowParticlesPos: seq<Vec3>
    /** Every GPU pass so far, oldest first. */
    ghost var passes: seq<SnowPass>

    /** The particle count and its target are combo entries, and there is one position per particle. */
    ghost predicate Valid()
      reads this
    {
      && IsComboCount(settings.snowParticlesCountTarget)
      && IsComboCount(snowParticlesCount)
      && |snowParticlesPos| == snowParticlesCount
    }

    /**
     * The parts of the constructor this model covers: the settings are
     * reset, no reset is pending, the accumulation output starts on texture
     * a, both one-shot passes are pending, and the particles are loaded.
     */
    constructor (halfTurn: real, draws: seq<Vec3>)
      requires |draws| >= DefaultParticleCount
      ensures Valid()
      ensures settings == DefaultSettings(halfTurn) && this.halfTurn == halfTurn
      ensures !doResetSettings && !clearSnowAccum && snowAccumOutputA
      ensures doUpdateSnowShadow && doUpdateSnowPlaneBase
      ensures snowParticlesCount == DefaultParticleCount
      ensures snowParticlesPos == ParticlePositions(draws, DefaultParticleCount)
      ensures passes == [ParticleStorage(ParticleBytes * DefaultParticleCount)]
    {
      this.halfTurn := halfTurn;
      settings := DefaultSettings(halfTurn);
      doResetSettings := false;
      clearSnowAccum := false;
      snowAccumOutputA := true;
      doUpdateSnowShadow := true;
      doUpdateSnowPlaneBase := true;
      snowParticlesCount := 0;
      snowParticlesPos := [];
      passes := [];
      new;
      ComboRoundTrip(3);
      ReloadSnowParticles(draws);
    }

    /** reset_settings: every setting back to its default; nothing else changes. */
    method ResetSettings()
      modifies this
      ensures settings == DefaultSettings(halfTurn)
      ensures doResetSettings == old(doResetSettings) && clearSnowAccum == old(clearSnowAccum)
      ensures snowAccumOutputA == old(snowAccumOutputA)
      ensures doUpdateSnowShadow == old(doUpdateSnowShadow) && doUpdateSnowPlaneBase == old(doUpdateSnowPlaneBase)
      ensures snowParticlesCount == old(snowParticlesCount) && snowParticlesPos == old(snowParticlesPos)
      ensures passes == old(passes)
    {
      settings := DefaultSettings(halfTurn);
    }

    /**
     * reload_snow_particles: the count takes the target's value and one
     * position is drawn per particle.
     */
    method ReloadSnowParticles(draws: seq<Vec3>)
      requires |draws| >= settings.snowParticlesCountTarget
      modifies this
      ensures settings == old(settings) && doResetSettings == old(doResetSettings)
      ensures snowParticlesCount == settings.snowParticlesCountTarget
      ensures snowParticlesPos == ParticlePositions(draws, settings.snowParticlesCountTarget)
      ensures passes == old(passes) + [ParticleStorage(ParticleBytes * settings.snowParticlesCountTarget)]
      ensures clearSnowAccum == old(clearSnowAccum) && snowAccumOutputA == old(snowAccumOutputA)
      ensures doUpdateSnowShadow == old(doUpdateSnowShadow) && doUpdateSnowPlaneBase == old(doUpdateSnowPlaneBase)
    {
      snowParticlesCount := settings.snowParticlesCountTarget;
      var positions: seq<Vec3> := [];
      var i := 0;
      while i < snowParticlesCount
        invariant 0 <= i <= snowParticlesCount
        invariant positions == ParticlePositions(draws, i)
      {
        positions := positions + [SnowParticle(draws[i])];
        i := i + 1;
      }
      snowParticlesPos := positions;
      passes := passes + [ParticleStorage(ParticleBytes * snowParticlesCount)];
    }

    /** update_snow_accum: the broom, accumulation and blur passes; the output flag ends as it started. */
    method UpdateSnowAccum()
      modifies this
      ensures snowAccumOutputA == old(snowAccumOutputA)
      ensures passes == old(passes) + AccumPasses(old(snowAccumOutputA), settings.broomPermanent, clearSnowAccum)
      ensures settings == old(settings) && doResetSettings == old(doResetSettings)
      ensures clearSnowAccum == old(clearSnowAccum)
      ensures doUpdateSnowShadow == old(doUpdateSnowShadow) && doUpdateSnowPlaneBase == old(doUpdateSnowPlaneBase)
      ensures snowParticlesCount == old(snowParticlesCount) && snowParticlesPos == old(snowParticlesPos)
    {
      passes := passes + [BroomPass(BroomClears(settings.broomPermanent, clearSnowAccum))];
      snowAccumOutputA := !snowAccumOutputA;
      passes := passes + [AccumPass(Written(snowAccumOutputA), Sampled(snowAccumOutputA), clearSnowAccum)];
      snowAccumOutputA := !snowAccumOutputA;
      passes := passes + [BlurPass(Written(snowAccumOutputA), Sampled(snowAccumOutputA))];
    }

    /**
     * update: a pending reset runs first; with snow on, each pending
     * one-shot pass runs once and is cleared, the accumulation passes run,
     * and the particles are reloaded when the count differs from its target.
     * With snow off nothing else changes. `draws` stands for the rand() calls
     * of a reload.
     */
    method Update(draws: seq<Vec3>)
      requires Valid()
      requires doResetSettings ==> |draws| >= DefaultParticleCount
      requires |draws| >= settings.snowParticlesCountTarget
      modifies this
      ensures Valid()
      ensures settings == if old(doResetSettings) then DefaultSettings(halfTurn) else old(settings)
      ensures doResetSettings == old(doResetSettings) && clearSnowAccum == old(clearSnowAccum)
      ensures snowAccumOutputA == old(snowAccumOutputA)
      ensures doUpdateSnowShadow == StillPending(old(doUpdateSnowShadow), settings.useSnow)
      ensures doUpdateSnowPlaneBase == StillPending(old(doUpdateSnowPlaneBase), settings.useSnow)
      ensures settings.useSnow ==> !doUpdateSnowShadow && !doUpdateSnowPlaneBase
      ensures settings.useSnow ==> snowParticlesCount == settings.snowParticlesCountTarget
      ensures settings.useSnow ==> passes == old(passes) + SnowUpdatePasses(old(doUpdateSnowShadow),
        old(doUpdateSnowPlaneBase), snowAccumOutputA, settings.broomPermanent, clearSnowAccum, old(snowParticlesCount),
        settings.snowParticlesCountTarget)
      ensures settings.useSnow ==> (snowParticlesPos ==
        if old(snowParticlesCount) != settings.snowParticlesCountTarget then ParticlePositions(draws, settings.snowParticlesCountTarget)
        else old(snowParticlesPos))
      ensures !settings.useSnow ==> doUpdateSnowShadow == old(doUpdateSnowShadow) && doUpdateSnowPlaneBase == old(doUpdateSnowPlaneBase)
      ensures !settings.useSnow ==> snowParticlesCount == old(snowParticlesCount) && snowParticlesPos == old(snowParticlesPos)
      ensures !settings.useSnow ==> passes == old(passes)
    {
      if doResetSettings {
        ResetSettings();
        ComboRoundTrip(3);
      }
      if settings.useSnow {
        UpdateSnow(draws);
      }
    }

    /** The snow part of update: the pending one-shot passes, the accumulation, and a reload if the count is stale. */
    method UpdateSnow(draws: seq<Vec3>)
      requires Valid() && |draws| >= settings.snowParticlesCountTarget
      modifies this
      ensures Valid()
      ensures settings == old(settings) && doResetSettings == old(doResetSettings) && clearSnowAccum == old(clearSnowAccum)
      ensures snowAccumOutputA == old(snowAccumOutputA)
      ensures !doUpdateSnowShadow && !doUpdateSnowPlaneBase && snowParticlesCount == settings.snowParticlesCountTarget
      ensures passes == old(passes) + SnowUpdatePasses(old(doUpdateSnowShadow), old(doUpdateSnowPlaneBase),
        snowAccumOutputA, settings.broomPermanent, clearSnowAccum, old(snowParticlesCount), settings.snowParticlesCountTarget)
      ensures snowParticlesPos == (
        if old(snowParticlesCount) != settings.snowParticlesCountTarget then ParticlePositions(draws, settings.snowParticlesCountTarget)
        else old(snowParticlesPos))
    {
      RunOneShotPasses();
      UpdateSnowAccum();
      ReloadIfStale(draws);
    }

    /** Each pending one-shot pass runs and is cleared. */
    method RunOneShotPasses()
      modifies this
      ensures !doUpdateSnowShadow && !doUpdateSnowPlaneBase
      ensures passes == old(passes) + OneShotPasses(old(doUpdateSnowShadow), old(doUpdateSnowPlaneBase))
      ensures settings == old(settings) && doResetSettings == old(doResetSettings) && clearSnowAccum == old(clearSnowAccum)
      ensures snowAccumOutputA == old(snowAccumOutputA)
      ensures snowParticlesCount == old(snowParticlesCount) && snowParticlesPos == old(snowParticlesPos)
    {
      if doUpdateSnowShadow {
        passes := passes + [ShadowPass];
        doUpdateSnowShadow := false;
      }
      if doUpdateSnowPlaneBase {
        passes := passes + [PlaneBasePass];
        doUpdateSnowPlaneBase := false;
      }
    }

    /** The particles are reloaded only when the count differs from its target. */
    method ReloadIfStale(draws: seq<Vec3>)
      requires |draws| >= settings.snowParticlesCountTarget
      modifies this
      ensures settings == old(settings) && doResetSettings == old(doResetSettings) && clearSnowAccum == old(clearSnowAccum)
      ensures snowParticlesCount == settings.snowParticlesCountTarget
      ensures snowParticlesPos == if old(snowParticlesCount) != settings.snowParticlesCountTarget
        then ParticlePositions(draws, settings.snowParticlesCountTarget) else old(snowParticlesPos)
      ensures passes == old(passes) + ReloadPasses(old(snowParticlesCount), settings.snowParticlesCountTarget)
      ensures snowAccumOutputA == old(snowAccumOutputA)
      ensures doUpdateSnowShadow == old(doUpdateSnowShadow) && doUpdateSnowPlaneBase == old(doUpdateSnowPlaneBase)
    {
      if snowParticlesCount != settings.snowParticlesCountTarget {
        ReloadSnowParticles(draws);
      }
    }

    /** render, as far as the snow goes: the scene samples the accumulation texture the flag selects. */
    method Render()
      modifies this
      ensures passes == old(passes) + [RenderScene(Rendered(snowAccumOutputA))]
      ensures settings == old(settings) && doResetSettings == old(doResetSettings)
      ensures clearSnowAccum == old(clearSnowAccum) && snowAccumOutputA == old(snowAccumOutputA)
      ensures doUpdateSnowShadow == old(doUpdateSnowShadow) && doUpdateSnowPlaneBase == old(doUpdateSnowPlaneBase)
      ensures snowParticlesCount == old(snowParticlesCount) && snowParticlesPos == old(snowParticlesPos)
    {
      passes := passes + [RenderScene(Rendered(snowAccumOutputA))];
    }

    /**
     * The parts of render_ui this model covers: a combo choice sets the
     * target, the clear button sets clear_snow_accum for the next frame, and
     * the reset button sets do_reset_settings for the next update.
     */
    method RenderUi(choice: Option<nat>, clearClicked: bool, resetClicked: bool)
      requires Valid()
      requires choice.Some? ==> choice.value < ComboEntries
      modifies this
      ensures Valid()
      ensures settings.snowParticlesCountTarget == if choice.Some? then ComboTarget(choice.value) else old(settings.snowParticlesCountTarget)
      ensures clearSnowAccum == clearClicked && doResetSettings == resetClicked
      ensures settings == old(settings).(snowParticlesCountTarget := settings.snowParticlesCountTarget)
      ensures snowAccumOutputA == old(snowAccumOutputA)
      ensures doUpdateSnowShadow == old(doUpdateSnowShadow) && doUpdateSnowPlaneBase == old(doUpdateSnowPlaneBase)
      ensures snowParticlesCount == old(snowParticlesCount) && snowParticlesPos == old(snowParticlesPos)
      ensures passes == old(passes)
    {
      if choice.Some? {
        ComboRoundTrip(choice.value);
        settings := settings.(snowParticlesCountTarget := ComboTarget(choice.value));
      }
      clearSnowAccum := clearClicked;
      doResetSettings := resetClicked;
    }

  }

  /** A combo entry shows as an index of the combo, and choosing that index gives the entry back. */
  lemma ComboIndexOfEntry(n: nat)
    requires IsComboCount(n)
    ensures n >= 1 && 0 <= ComboIndex(n) < ComboEntries as int && ComboTarget(ComboIndex(n) as nat) == n
  {
    var e :| 8 <= e < 8 + ComboEntries && n == Pow2(e);
    var k: nat := e - 8;
    assert n == ComboTarget(k);
    ComboRoundTrip(k);
  }

  /** The positions reload_snow_particles draws for `count` particles. */
  function ParticlePositions(draws: seq<Vec3>, count: nat): (ps: seq<Vec3>)
    requires count <= |draws|
    ensures |ps| == count
  {
    if count == 0 then [] else ParticlePositions(draws, count - 1) + [SnowParticle(draws[count - 1])]
  }

  /** One position per draw, each from its own draw, and inside the box when the draws lie in [0, 1]. */
  lemma {:induction false} ParticlePositionsProperties(draws: seq<Vec3>, count: nat)
    requires count <= |draws|
    ensures |ParticlePositions(draws, count)| == count
    ensures forall i :: 0 <= i < count ==> ParticlePositions(draws, count)[i] == SnowParticle(draws[i])
    ensures (forall i :: 0 <= i < count ==> 0.0 <= draws[i].x <= 1.0 && 0.0 <= draws[i].y <= 1.0 && 0.0 <= draws[i].z <= 1.0)
      ==> forall i :: 0 <= i < count ==>
            var p := ParticlePositions(draws, count)[i];
            -13.0 <= p.x <= 13.0 && 0.0 <= p.y <= 50.0 && -13.0 <= p.z <= 13.0
  {
    if count > 0 {
      ParticlePositionsProperties(draws, count - 1);
      forall i | 0 <= i < count
        ensures 0.0 <= draws[i].x <= 1.0 && 0.0 <= draws[i].y <= 1.0 && 0.0 <= draws[i].z <= 1.0 ==>
          var p := SnowParticle(draws[i]);
          -13.0 <= p.x <= 13.0 && 0.0 <= p.y <= 50.0 && -13.0 <= p.z <= 13.0
      {
        if 0.0 <= draws[i].x <= 1.0 && 0.0 <= draws[i].y <= 1.0 && 0.0 <= draws[i].z <= 1.0 {
          SnowParticleInBox(draws[i]);
        }
      }
    }
  }
}
