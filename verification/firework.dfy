// One firework slot of the firework demo: its stage machine, its CPU-side
// state, and the GPU work it issues (parameter upload, compute dispatch,
// point draw, light).
//
// OpenGL calls are recorded as events in a ghost log; the shaders that
// consume them are not part of this model.

module Fireworks {
  import opened MathUtil
  import opened FireworkParameters

  // ---------------------------------------------------------------- stages

  /** FireworkStage; Ordinal is the enum's unsigned value. */
  datatype Stage = Flying1 | Explosion | Flying2 {
    function Ordinal(): nat {
      match this
      case Flying1 => 0
      case Explosion => 1
      case Flying2 => 2
    }
  }

  /** The stage update picks: strict thresholds, the later one tested first. */
  function StageAt(aliveTime: real, explosionTime: real, flying2Time: real): Stage {
    if aliveTime > flying2Time then Flying2
    else if aliveTime > explosionTime then Explosion
    else Flying1
  }

  /** The stage a later time picks is never an earlier one, whatever the two thresholds are. */
  lemma StageMonotone(t1: real, t2: real, explosionTime: real, flying2Time: real)
    requires t1 <= t2
    ensures StageAt(t1, explosionTime, flying2Time).Ordinal() <= StageAt(t2, explosionTime, flying2Time).Ordinal()
  {
  }

  /** The three stages cover the lifetime in order: FLYING1 up to the explosion, EXPLOSION up to the second flight, then FLYING2. */
  lemma StageAtPhases(t: real, explosionTime: real, flying2Time: real)
    requires explosionTime <= flying2Time
    ensures StageAt(t, explosionTime, flying2Time) == Flying1 <==> t <= explosionTime
    ensures StageAt(t, explosionTime, flying2Time) == Explosion <==> explosionTime < t <= flying2Time
    ensures StageAt(t, explosionTime, flying2Time) == Flying2 <==> flying2Time < t
  {
  }

  // ---------------------------------------------------------------- state

  /**
   * FireworkState. The explosion_force field is never written by the source
   * and is not modelled.
   */
  datatype State = State(
    particleCount: nat,
    explosionTime: real,
    flying2Time: real,
    endTime: real,
    color: Vec3,
    fadeStart: real,
    fadeSizeMult: real,
    aliveTime: real,
    stage: Stage,
    lastStage: Stage,
    avgPos: Vec3,
    avgVel: Vec3,
    avgAcc: Vec3)

  /**
   * The FireworkState constructor. It leaves last_stage uninitialised:
   * `staleLastStage` stands for whatever that memory held.
   */
  function StateFromParams(p: Params, staleLastStage: Stage): State {
    State(U32(p.particleCount), p.ExplosionTime(), p.Flying2Time(), p.EndTime(), p.color,
      p.FadeStart(), p.fadeSizeMult, 0.0, Flying1, staleLastStage, p.pos, p.vel, Zero3)
  }

  /** The stage is FLYING1 (as set on launch) or the one the thresholds pick for the alive time. */
  predicate StageInvariant(s: State) {
    s.stage == Flying1 || s.stage == StageAt(s.aliveTime, s.explosionTime, s.flying2Time)
  }

  /**
   * A new state starts its life at time 0 in FLYING1 at the launch position
   * and velocity with no acceleration; its times are the parameters' times,
   * so with non-negative durations and a fade delay in [0, 1] they are ordered.
   */
  lemma StateFromParamsProperties(p: Params, staleLastStage: Stage)
    requires p.particleCount < U32Modulus
    ensures var s := StateFromParams(p, staleLastStage);
      && StageInvariant(s)
      && s.aliveTime == 0.0 && s.stage == Flying1
      && s.avgPos == p.pos && s.avgVel == p.vel && s.avgAcc == Zero3
      && s.particleCount == p.particleCount
      && (p.DurationsNonNegative() && 0.0 <= p.fadeDelay <= 1.0 ==>
            0.0 <= s.explosionTime <= s.flying2Time <= s.fadeStart <= s.endTime)
  {
    TimesOrdered(p);
    if p.DurationsNonNegative() && 0.0 <= p.fadeDelay <= 1.0 {
      MulUnitInterval(p.flying2Duration, p.fadeDelay);
      assert Mul(p.fadeDelay, p.flying2Duration) == Mul(p.flying2Duration, p.fadeDelay);
    }
  }

  /** Part of update before the stage test: the clock advances and the current stage is remembered. */
  function Tick(s: State, delta: real): State {
    s.(aliveTime := s.aliveTime + delta, lastStage := s.stage)
  }

  /** Part of update for a live firework: the stage for the new alive time. */
  function Restage(s: State): State {
    s.(stage := StageAt(s.aliveTime, s.explosionTime, s.flying2Time))
  }

  /** The average motion under constant acceleration plus gravity along -y. */
  function Integrate(s: State, delta: real, gravity: real): State {
    var g := Vec3(0.0, -gravity, 0.0);
    var v := s.avgVel;
    var a := Add(s.avgAcc, g);
    s.(avgPos := Add(s.avgPos, Add(Scale(delta, v), Scale(delta, Scale(delta, Scale(0.5, a))))),
       avgVel := Add(s.avgVel, Scale(delta, a)))
  }

  /** A state whose clock has passed the end time is deactivated. */
  predicate Expired(s: State) {
    s.aliveTime > s.endTime
  }

  /** One update of a live state, or None when it expires during this step. */
  function Step(s: State, delta: real, gravity: real): Option<State> {
    var t := Tick(s, delta);
    if Expired(t) then None else Some(Integrate(Restage(t), delta, gravity))
  }

  /**
   * An update that does not expire keeps the stage invariant, remembers the
   * previous stage and, for a non-negative step, never moves to an earlier stage.
   */
  lemma StepPreservesStage(s: State, delta: real, gravity: real)
    requires StageInvariant(s)
    ensures Step(s, delta, gravity).Some? ==>
      var t := Step(s, delta, gravity).value;
      && StageInvariant(t)
      && t.stage == StageAt(s.aliveTime + delta, s.explosionTime, s.flying2Time)
      && t.lastStage == s.stage
      && t.aliveTime == s.aliveTime + delta
      && (delta >= 0.0 ==> s.stage.Ordinal() <= t.stage.Ordinal())
  {
    if s.stage != Flying1 && delta >= 0.0 {
      StageMonotone(s.aliveTime, s.aliveTime + delta, s.explosionTime, s.flying2Time);
    }
  }

  /** The states a live firework goes through over a run of updates; None once it has expired. */
  function Run(s: State, deltas: seq<real>, gravity: real): Option<State>
    decreases |deltas|
  {
    if |deltas| == 0 then Some(s)
    else match Step(s, deltas[0], gravity)
      case None => None
      case Some(t) => Run(t, deltas[1..], gravity)
  }

  function Sum(deltas: seq<real>): real
    decreases |deltas|
  {
    if |deltas| == 0 then 0.0 else deltas[0] + Sum(deltas[1..])
  }

  /**
   * Over any run of non-negative steps a firework that is still alive has
   * lived exactly the sum of the steps, has not passed its end time, keeps
   * the stage invariant, and has not gone back to an earlier stage.
   */
  lemma {:induction false} RunProperties(s: State, deltas: seq<real>, gravity: real)
    requires StageInvariant(s)
    requires forall i :: 0 <= i < |deltas| ==> deltas[i] >= 0.0
    decreases |deltas|
    ensures Run(s, deltas, gravity).Some? ==>
      var t := Run(s, deltas, gravity).value;
      && t.aliveTime == s.aliveTime + Sum(deltas)
      && StageInvariant(t)
      && s.stage.Ordinal() <= t.stage.Ordinal()
      && (|deltas| > 0 ==> !Expired(t))
      && t.explosionTime == s.explosionTime && t.flying2Time == s.flying2Time && t.endTime == s.endTime
  {
    if |deltas| > 0 {
      StepPreservesStage(s, deltas[0], gravity);
      var next := Step(s, deltas[0], gravity);
      if next.Some? {
        RunProperties(next.value, deltas[1..], gravity);
      }
    }
  }

  // ---------------------------------------------------------------- what the GPU is told

  /** (count - 1) / local + 1 compute groups; count must be at least 1 or the unsigned subtraction wraps. */
  function DispatchGroups(count: nat, localSize: nat): nat
    requires count >= 1 && localSize >= 1
  {
    (count - 1) / localSize + 1
  }

  /** The group count is the ceiling of count / local: enough groups, and one fewer would not be. */
  lemma DispatchGroupsIsCeiling(count: nat, localSize: nat)
    requires count >= 1 && localSize >= 1
    ensures var groups := DispatchGroups(count, localSize);
      (groups - 1) * localSize < count <= groups * localSize
  {
    var q, r := (count - 1) / localSize, (count - 1) % localSize;
    assert count - 1 == q * localSize + r;
    assert (q + 1) * localSize == q * localSize + localSize;
  }

  /** The first flight draws only the rocket; afterwards every particle is drawn. */
  function DrawCount(s: State): nat {
    if s.stage == Flying1 then 1 else s.particleCount
  }

  /** The frame the rocket bursts: the previous update was in FLYING1 and this one is in EXPLOSION. */
  predicate ExplosionEdge(s: State) {
    s.lastStage == Flying1 && s.stage == Explosion
  }

  /** The light's brightness factor over the stages: 0.5 in flight, rising through the explosion, 1.5 after. */
  function CountMult(s: State): real
    requires s.stage == Explosion ==> s.explosionTime < s.flying2Time
  {
    if s.stage == Flying1 then 0.5
    else if s.stage == Explosion then 0.5 + 1.0 * (s.aliveTime - s.explosionTime) / (s.flying2Time - s.explosionTime)
    else 1.5
  }

  /**
   * The fading factor: 1 before fading starts, then falling linearly.
   * `fadePow` is pow(1 - fade_size_mult, 1.5), which is not modelled.
   */
  function FadeMult(s: State, fadePow: real): real
    requires s.aliveTime >= s.fadeStart ==> s.endTime != s.fadeStart
  {
    if s.aliveTime < s.fadeStart then 1.0
    else 1.0 - Mul(fadePow, s.aliveTime - s.fadeStart) / (s.endTime - s.fadeStart)
  }

  /** 0 <= a <= b with b positive gives a / b in [0, 1]. */
  lemma FractionInUnit(a: real, b: real)
    requires 0.0 <= a <= b && b > 0.0
    ensures 0.0 <= a / b <= 1.0
  {
    assert a / b * b == a;
  }

  /**
   * CountMult is 0.5 in FLYING1 and 1.5 in FLYING2; during the explosion it
   * lies above 0.5 and reaches 1.5 exactly when the second flight begins.
   */
  lemma CountMultProperties(s: State)
    requires StageInvariant(s)
    ensures s.stage == Explosion ==> s.explosionTime < s.flying2Time
    ensures s.stage == Flying1 ==> CountMult(s) == 0.5
    ensures s.stage == Flying2 ==> CountMult(s) == 1.5
    ensures s.stage == Explosion ==> 0.5 < CountMult(s) <= 1.5
    ensures s.stage == Explosion && s.aliveTime == s.flying2Time ==> CountMult(s) == 1.5
  {
    if s.stage == Explosion {
      var a, b := s.aliveTime - s.explosionTime, s.flying2Time - s.explosionTime;
      FractionInUnit(a, b);
      assert a / b > 0.0;
    }
  }

  /**
   * FadeMult is 1 until fading starts and at its start, reaches 1 - fadePow at
   * the end time, and in between lies between the two.
   */
  lemma FadeMultProperties(s: State, fadePow: real)
    requires s.fadeStart < s.endTime
    ensures s.aliveTime <= s.fadeStart ==> FadeMult(s, fadePow) == 1.0
    ensures s.aliveTime == s.endTime ==> FadeMult(s, fadePow) == 1.0 - fadePow
    ensures s.fadeStart <= s.aliveTime <= s.endTime ==> Between(1.0, 1.0 - fadePow, FadeMult(s, fadePow))
  {
    if s.fadeStart <= s.aliveTime <= s.endTime {
      var a, b := s.aliveTime - s.fadeStart, s.endTime - s.fadeStart;
      FractionInUnit(a, b);
      MulDivision(fadePow, a, b);
      MulBetween(fadePow, 0.0, 1.0, a / b);
      assert Mul(fadePow, 0.0) == 0.0 && Mul(fadePow, 1.0) == fadePow;
      if a == b {
        assert a / b == 1.0;
      }
    }
  }

  // ---------------------------------------------------------------- GL events

  /** The per-firework buffers. */
  datatype Buffer = PosBuffer | VelBuffer | AccBuffer | ColorBuffer | FadeTimingBuffer | BlinkTimingBuffer

  /** What a firework asks of OpenGL, in the order it asks. */
  datatype GlEvent =
    | Allocate(buffer: Buffer, bytes: nat)           // glNamedBufferStorage
    | UploadParams(params: ParamsGpu)                // the parameter buffer's update_opengl_data
    | WriteFirst(buffer: Buffer, data: Vec4)         // glNamedBufferSubData of the first vec4
    | BindStorage(binding: nat, buffer: Buffer)      // glBindBufferBase
    | BindParams(binding: nat)                       // the parameter buffer's bind_buffer_base
    | UniformUInt(location: nat, value: nat)
    | UniformFloat(location: nat, number: real)
    | Dispatch(groups: nat)                          // glDispatchCompute(groups, 1, 1)
    | DrawPoints(count: nat)                         // glDrawArrays(GL_POINTS, 0, count)

  /** The storage the constructor allocates: four vec4 and two vec2 per particle. */
  function AllocationEvents(maxParticleCount: nat): seq<GlEvent> {
    [Allocate(PosBuffer, 16 * maxParticleCount), Allocate(VelBuffer, 16 * maxParticleCount),
     Allocate(AccBuffer, 16 * maxParticleCount), Allocate(ColorBuffer, 16 * maxParticleCount),
     Allocate(FadeTimingBuffer, 8 * maxParticleCount), Allocate(BlinkTimingBuffer, 8 * maxParticleCount)]
  }

  /** Bindings 3 to 5 (colour and the two timing buffers) are made only on the explosion edge. */
  function EdgeBindings(s: State): seq<GlEvent> {
    if ExplosionEdge(s) then [BindStorage(3, ColorBuffer), BindStorage(4, FadeTimingBuffer), BindStorage(5, BlinkTimingBuffer)]
    else []
  }

  /** What update_gpu issues for an active firework. */
  function ComputeEvents(s: State, localSize: nat): seq<GlEvent>
    requires s.particleCount >= 1 && localSize >= 1
  {
    [BindStorage(0, PosBuffer), BindStorage(1, VelBuffer), BindStorage(2, AccBuffer)]
    + EdgeBindings(s)
    + [BindParams(6), UniformUInt(3, s.stage.Ordinal()), UniformUInt(4, s.lastStage.Ordinal()),
       Dispatch(DispatchGroups(s.particleCount, localSize))]
  }

  /**
   * The compute pass binds the colour buffer exactly on the explosion edge,
   * always ends with a dispatch of the ceiling of count / local groups, and
   * passes the two stages as their enum values.
   */
  lemma ComputeEventsProperties(s: State, localSize: nat)
    requires s.particleCount >= 1 && localSize >= 1
    ensures var e := ComputeEvents(s, localSize);
      && (BindStorage(3, ColorBuffer) in e <==> ExplosionEdge(s))
      && e[|e| - 1] == Dispatch(DispatchGroups(s.particleCount, localSize))
      && UniformUInt(3, s.stage.Ordinal()) in e
      && |e| == (if ExplosionEdge(s) then 10 else 7)
  {
    var e := ComputeEvents(s, localSize);
    if !ExplosionEdge(s) {
      assert e == [BindStorage(0, PosBuffer), BindStorage(1, VelBuffer), BindStorage(2, AccBuffer),
                   BindParams(6), UniformUInt(3, s.stage.Ordinal()), UniformUInt(4, s.lastStage.Ordinal()),
                   Dispatch(DispatchGroups(s.particleCount, localSize))];
    }
  }

  /** The number of steps of a run after which the explosion edge holds, i.e. that bind buffers 3 to 5. */
  function EdgeSteps(s: State, deltas: seq<real>, gravity: real): nat
    decreases |deltas|
  {
    if |deltas| == 0 then 0
    else match Step(s, deltas[0], gravity)
      case None => 0
      case Some(t) => (if ExplosionEdge(t) then 1 else 0) + EdgeSteps(t, deltas[1..], gravity)
  }

  /**
   * Over a run of non-negative steps the colour and timing buffers are bound
   * at most once, and never once the rocket has left FLYING1.
   */
  lemma {:induction false} ExplosionEdgeAtMostOnce(s: State, deltas: seq<real>, gravity: real)
    requires StageInvariant(s)
    requires forall i :: 0 <= i < |deltas| ==> deltas[i] >= 0.0
    decreases |deltas|
    ensures EdgeSteps(s, deltas, gravity) <= (if s.stage == Flying1 then 1 else 0)
  {
    if |deltas| > 0 {
      StepPreservesStage(s, deltas[0], gravity);
      var next := Step(s, deltas[0], gravity);
      if next.Some? {
        ExplosionEdgeAtMostOnce(next.value, deltas[1..], gravity);
      }
    }
  }

  /**
   * The edge can be missed: one step that carries a rocket in FLYING1 past
   * flying2_time without expiring lands in FLYING2 with FLYING1 remembered,
   * so buffers 3 to 5 are not bound in that run.
   */
  lemma ExplosionEdgeSkipped(s: State, delta: real, gravity: real)
    requires StageInvariant(s) && s.stage == Flying1
    requires s.explosionTime <= s.flying2Time < s.aliveTime + delta <= s.endTime
    ensures Step(s, delta, gravity).Some?
    ensures Step(s, delta, gravity).value.stage == Flying2 && Step(s, delta, gravity).value.lastStage == Flying1
    ensures EdgeSteps(s, [delta], gravity) == 0
  {
    assert [delta][1..] == [];
  }

  /** What render issues for an active firework. */
  function RenderEvents(s: State): seq<GlEvent> {
    [BindParams(1), UniformUInt(0, s.stage.Ordinal()), UniformFloat(1, s.aliveTime), DrawPoints(DrawCount(s))]
  }

  /** A point light, as PhongLightData::CreatePointLight receives it. */
  datatype Light = Light(
    position: Vec3, ambient: Vec3, diffuse: Vec3, specular: Vec3,
    constantAttenuation: real, linearAttenuation: real, quadraticAttenuation: real)

  /** What launching a firework writes: the parameter buffer, then the first position, velocity and colour. */
  function ActivationEvents(params: Params, paramsGpu: ParamsGpu): seq<GlEvent> {
    [UploadParams(paramsGpu), WriteFirst(PosBuffer, Vec4(params.pos.x, params.pos.y, params.pos.z, 1.0)),
     WriteFirst(VelBuffer, Vec4(params.vel.x, params.vel.y, params.vel.z, 0.0)),
     WriteFirst(ColorBuffer, Vec4(params.color.x, params.color.y, params.color.z, 0.0))]
  }

  /** The fields of a slot that change, as a value. */
  datatype Slot = Slot(active: bool, state: State, paramsGpu: ParamsGpu, gl: seq<GlEvent>)

  /** std::min for the particle count. */
  function ClampCount(count: nat, maxCount: nat): (r: nat)
    ensures r <= count && r <= maxCount
    ensures r == count || r == maxCount
  {
    if maxCount < count then maxCount else count
  }

  // ---------------------------------------------------------------- the slot

  /** Firework: a slot with a fixed particle capacity that is active or not. */
  class Firework {
    const maxParticleCount: nat
    var active: bool
    var state: State
    /** The CPU copy of the parameter buffer. */
    var paramsGpu: ParamsGpu
    ghost var gl: seq<GlEvent>

    /** The state of an active slot fits its capacity and its stage agrees with its clock. */
    ghost predicate Valid()
      reads this
    {
      active ==> StageInvariant(state) && state.particleCount <= maxParticleCount
    }

    ghost function Value(): Slot
      reads this
    {
      Slot(active, state, paramsGpu, gl)
    }

    /** The parameters with the count clamped to this slot's capacity. */
    function Clamped(params: Params): Params {
      params.(particleCount := ClampCount(params.particleCount, maxParticleCount))
    }

    /** The slot is active with the state and GPU parameters built from `params` (last_stage aside). */
    ghost predicate LaunchedWith(params: Params)
      reads this
    {
      && active
      && state == StateFromParams(Clamped(params), state.lastStage)
      && paramsGpu == GpuFromParams(Clamped(params))
    }

    /** Allocates the buffers for maxParticleCount particles; the slot starts inactive. */
    constructor (maxParticleCount: nat)
      ensures this.maxParticleCount == maxParticleCount
      ensures !active && Valid()
      ensures gl == AllocationEvents(maxParticleCount)
    {
      this.maxParticleCount := maxParticleCount;
      active := false;
      gl := AllocationEvents(maxParticleCount);
    }

    /**
     * Launches a firework in this slot: the count is clamped to the
     * capacity, the state is rebuilt from the parameters, the parameter
     * buffer is uploaded and the first position, velocity and colour written.
     */
    method Activate(params: Params)
      modifies this
      ensures Valid() && LaunchedWith(params) && state.lastStage == old(state.lastStage)
      ensures state.particleCount == U32(ClampCount(params.particleCount, maxParticleCount))
      ensures gl == old(gl) + ActivationEvents(params, paramsGpu)
    {
      var clamped := Clamped(params);
      active := true;
      state := StateFromParams(clamped, state.lastStage);
      paramsGpu := GpuFromParams(clamped);
      gl := gl + [UploadParams(paramsGpu)];
      gl := gl + [WriteFirst(PosBuffer, Vec4(clamped.pos.x, clamped.pos.y, clamped.pos.z, 1.0))];
      gl := gl + [WriteFirst(VelBuffer, Vec4(clamped.vel.x, clamped.vel.y, clamped.vel.z, 0.0))];
      gl := gl + [WriteFirst(ColorBuffer, Vec4(clamped.color.x, clamped.color.y, clamped.color.z, 0.0))];
    }

    method Deactivate()
      modifies this
      ensures !active && Valid()
      ensures state == old(state) && paramsGpu == old(paramsGpu) && gl == old(gl)
    {
      active := false;
    }

    /**
     * One frame of CPU-side simulation: nothing for an inactive slot;
     * otherwise the clock advances, the slot deactivates once past its end
     * time, and a live firework changes stage and moves.
     */
    method Update(delta: real, gravity: real)
      requires Valid()
      modifies this
      ensures Valid()
      ensures paramsGpu == old(paramsGpu) && gl == old(gl)
      ensures !old(active) ==> !active && state == old(state)
      ensures old(active) ==> match Step(old(state), delta, gravity)
        case None => !active && state == Tick(old(state), delta)
        case Some(next) => active && state == next
    {
      if !active {
        return;
      }
      state := state.(aliveTime := state.aliveTime + delta);
      state := state.(lastStage := state.stage);
      if state.aliveTime > state.endTime {
        Deactivate();
        return;
      } else if state.aliveTime > state.flying2Time {
        state := state.(stage := Flying2);
      } else if state.aliveTime > state.explosionTime {
        state := state.(stage := Explosion);
      } else {
        state := state.(stage := Flying1);
      }
      var g := Vec3(0.0, -gravity, 0.0);
      var v := state.avgVel;
      var a := Add(state.avgAcc, g);
      state := state.(avgPos := Add(state.avgPos, Add(Scale(delta, v), Scale(delta, Scale(delta, Scale(0.5, a))))));
      state := state.(avgVel := Add(state.avgVel, Scale(delta, a)));
      StepPreservesStage(old(state), delta, gravity);
    }

    /** The compute pass for an active slot; the state needs at least one particle. */
    method UpdateGpu(localSize: nat)
      requires localSize >= 1
      requires active ==> state.particleCount >= 1
      modifies this
      ensures active == old(active) && state == old(state) && paramsGpu == old(paramsGpu)
      ensures gl == old(gl) + (if active then ComputeEvents(state, localSize) else [])
    {
      if !active {
        return;
      }
      gl := gl + [BindStorage(0, PosBuffer), BindStorage(1, VelBuffer), BindStorage(2, AccBuffer)];
      if state.lastStage == Flying1 && state.stage == Explosion {
        gl := gl + [BindStorage(3, ColorBuffer), BindStorage(4, FadeTimingBuffer), BindStorage(5, BlinkTimingBuffer)];
      }
      gl := gl + [BindParams(6)];
      gl := gl + [UniformUInt(3, state.stage.Ordinal())];
      gl := gl + [UniformUInt(4, state.lastStage.Ordinal())];
      gl := gl + [Dispatch((state.particleCount - 1) / localSize + 1)];
    }

    /** Draws the rocket or its particles for an active slot. */
    method Render()
      modifies this
      ensures active == old(active) && state == old(state) && paramsGpu == old(paramsGpu)
      ensures gl == old(gl) + (if active then RenderEvents(state) else [])
    {
      if !active {
        return;
      }
      gl := gl + [BindParams(1)];
      gl := gl + [UniformUInt(0, state.stage.Ordinal())];
      gl := gl + [UniformFloat(1, state.aliveTime)];
      gl := gl + [DrawPoints(if state.stage == Flying1 then 1 else state.particleCount)];
    }

    /** Whether the fade division of generate_light has a non-zero divisor. */
    predicate LightDefined()
      reads this
    {
      active ==> (state.aliveTime >= state.fadeStart ==> state.endTime != state.fadeStart)
    }

    /**
     * No light for an inactive slot; otherwise a point light at the average
     * position whose colour is the firework colour scaled by CountMult and
     * FadeMult. `fadePow` is pow(1 - fade_size_mult, 1.5).
     */
    function GenerateLight(fadePow: real): (light: Option<Light>)
      requires Valid() && LightDefined()
      reads this
      ensures light.None? <==> !active
      ensures light.Some? ==> light.value.position == state.avgPos
      ensures light.Some? ==> light.value.diffuse == Scale(CountMult(state) * FadeMult(state, fadePow), state.color)
      ensures light.Some? ==> light.value.ambient == Zero3 && light.value.specular == Zero3
    {
      if !active then None
      else
        CountMultProperties(state);
        var fadeMult := FadeMult(state, fadePow);
        var countMult := CountMult(state);
        Some(Light(state.avgPos, Zero3, Scale(countMult * fadeMult, state.color), Zero3, 1.0, 0.0, 0.0))
    }
  }
}
