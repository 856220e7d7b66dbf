// The firework demo's application logic: a fixed pool of firework slots, the
// auto-spawn countdown, the one-shot spawn requests, the per-slot update
// loop, the light list uploaded for the lit scene, and the particle-count
// sliders.
//
// Random draws, the pow(x, 1.5) of the fade factor and the buffer names
// OpenGL hands out are inputs.

module FireworkApplication {
  import opened MathUtil
  import opened FireworkParameters
  import opened Fireworks
  import opened UboVector

  /** fireworks_max_count and firework_max_particle_count. */
  const FireworksMaxCount: nat := 5
  const FireworkMaxParticleCount: nat := 4096

  /** The bounds of the two particle-count sliders. */
  const SliderMin: nat := 10

  /** The local size update_fireworks dispatches the compute shader with. */
  const ComputeLocalSize: nat := 256

  /** PhongLightsUBOVector's alignment: sizeof(float) * 4. */
  const LightAlignment: nat := 16

  const GlUniformBuffer: nat := 0x8A11
  const GlShaderStorageBuffer: nat := 0x90D2

  // ---------------------------------------------------------------- pure parts

  /** The active flag of every slot, in slot order. */
  function ActiveFlags(fs: seq<Firework>): (flags: seq<bool>)
    reads set f | f in fs
    ensures |flags| == |fs|
    ensures forall i :: 0 <= i < |fs| ==> flags[i] == fs[i].active
  {
    if |fs| == 0 then [] else ActiveFlags(fs[..|fs| - 1]) + [fs[|fs| - 1].active]
  }

  function CountTrue(flags: seq<bool>): nat {
    if |flags| == 0 then 0 else CountTrue(flags[..|flags| - 1]) + (if flags[|flags| - 1] then 1 else 0)
  }

  /**
   * The countdown step of update_fireworks: it runs unless paused; at or
   * below 0 it fires and restarts from the delay jittered by `u`.
   */
  function Countdown(remaining: real, delta: real, paused: bool, delay: real, variance: real, u: real)
    : (result: (bool, real))
  {
    var r := if paused then remaining else remaining - delta;
    if r <= 0.0 then (true, Jittered(delay, variance, u)) else (false, r)
  }

  /**
   * A paused countdown that has time left neither moves nor fires; a running
   * one fires exactly when delta uses up the remaining time; a fired
   * countdown restarts within the delay's variance band; one that did not
   * fire has time left.
   */
  lemma CountdownProperties(remaining: real, delta: real, paused: bool, delay: real, variance: real, u: real)
    requires 0.0 <= u <= 1.0
    ensures var (fired, next) := Countdown(remaining, delta, paused, delay, variance, u);
      && (paused && remaining > 0.0 ==> !fired && next == remaining)
      && (!paused ==> (fired <==> remaining - delta <= 0.0))
      && (!fired ==> next > 0.0)
      && (fired ==> Between(Mul(delay, 1.0 - variance), Mul(delay, 1.0 + variance), next))
  {
    JitterBetween(delay, variance, u);
  }

  /** The kinds of spawn request, in the order update_fireworks serves them. */
  datatype SpawnKind = AutoSpawn | SpawnRandomAt | SpawnRandom | SpawnDefault

  /** One attempt of `kind` if it was requested. */
  function Requested(requested: bool, kind: SpawnKind): seq<SpawnKind> {
    if requested then [kind] else []
  }

  /** The spawn attempts one update_fireworks makes, in order. */
  function SpawnOrder(auto: bool, randomAt: bool, random: bool, default: bool): seq<SpawnKind> {
    Requested(auto, AutoSpawn) + Requested(randomAt, SpawnRandomAt) + Requested(random, SpawnRandom)
    + Requested(default, SpawnDefault)
  }

  /** One attempt per raised request, auto first and default last. */
  lemma SpawnOrderProperties(auto: bool, randomAt: bool, random: bool, default: bool)
    ensures var order := SpawnOrder(auto, randomAt, random, default);
      && |order| == (if auto then 1 else 0) + (if randomAt then 1 else 0) + (if random then 1 else 0)
                    + (if default then 1 else 0)
      && (SpawnDefault in order <==> default) && (AutoSpawn in order <==> auto)
      && (SpawnRandomAt in order <==> randomAt) && (SpawnRandom in order <==> random)
      && (auto ==> order[0] == AutoSpawn)
      && (default ==> order[|order| - 1] == SpawnDefault)
  {
  }

  /** The random draws one update_fireworks may consume. */
  datatype SpawnDraws = SpawnDraws(
    autoDelay: real,      // the restart jitter of the countdown
    autoPos: Vec3, auto: Draws,
    randomAt: Draws,
    randomPos: Vec3, random: Draws)
  {
    predicate ValidFor(fr: RandomizationParams) {
      auto.ValidFor(fr) && randomAt.ValidFor(fr) && random.ValidFor(fr)
    }
  }

  /** The parameters a spawn request launches with: create_random, create_random_at or create_default. */
  function RequestedParams(kind: SpawnKind, fr: RandomizationParams, atPos: Vec3, draws: SpawnDraws): Params {
    match kind
    case AutoSpawn => RandomAtParams(fr, RandomPosition(fr, draws.autoPos), draws.auto)
    case SpawnRandomAt => RandomAtParams(fr, atPos, draws.randomAt)
    case SpawnRandom => RandomAtParams(fr, RandomPosition(fr, draws.randomPos), draws.random)
    case SpawnDefault => DefaultParams(fr)
  }

  /** Calls the factory a request names; every request launches at least min particles. */
  method CreateRequested(kind: SpawnKind, fr: RandomizationParams, atPos: Vec3, draws: SpawnDraws) returns (params: Params)
    requires draws.ValidFor(fr) && fr.particleCountMin <= fr.particleCountMax < U32Modulus
    ensures params == RequestedParams(kind, fr, atPos, draws)
    ensures fr.particleCountMin <= params.particleCount <= fr.particleCountMax
  {
    var created: FireworkParams;
    match kind {
      case AutoSpawn =>
        created := FireworkParams.CreateRandom(fr, draws.autoPos, draws.auto);
        RandomAtCount(fr, RandomPosition(fr, draws.autoPos), draws.auto);
      case SpawnRandomAt =>
        created := FireworkParams.CreateRandomAt(fr, atPos, draws.randomAt);
        RandomAtCount(fr, atPos, draws.randomAt);
      case SpawnRandom =>
        created := FireworkParams.CreateRandom(fr, draws.randomPos, draws.random);
        RandomAtCount(fr, RandomPosition(fr, draws.randomPos), draws.random);
      case SpawnDefault =>
        created := FireworkParams.CreateDefault(fr);
        DefaultParamsProperties(fr);
    }
    params := created.Value();
  }

  /** What a slot holds after update and then update_gpu (on the updated state) in the update loop. */
  function UpdatedSlot(v: Slot, delta: real, gravity: real): Slot
    requires v.active ==> v.state.particleCount >= 1
  {
    if !v.active then v
    else match Step(v.state, delta, gravity)
      case None => v.(active := false, state := Tick(v.state, delta))
      case Some(next) => v.(state := next, gl := v.gl + ComputeEvents(next, ComputeLocalSize))
  }

  /** Every slot after the update loop. */
  function UpdatedPool(pool: seq<Slot>, delta: real, gravity: real): (updated: seq<Slot>)
    requires forall i :: 0 <= i < |pool| ==> (pool[i].active ==> pool[i].state.particleCount >= 1)
    ensures |updated| == |pool|
    ensures forall i :: 0 <= i < |pool| ==> updated[i] == UpdatedSlot(pool[i], delta, gravity)
  {
    if |pool| == 0 then [] else UpdatedPool(pool[..|pool| - 1], delta, gravity) + [UpdatedSlot(pool[|pool| - 1], delta, gravity)]
  }

  /** The slot try_spawn_firework launches into: the first inactive one, or None when all are active. */
  function FirstFree(pool: seq<Slot>): (slot: Option<nat>)
    ensures slot.Some? ==> slot.value < |pool| && !pool[slot.value].active
    ensures slot.Some? ==> forall j :: 0 <= j < slot.value ==> pool[j].active
    ensures slot.None? ==> forall j :: 0 <= j < |pool| ==> pool[j].active
    decreases |pool|
  {
    if |pool| == 0 then None
    else if !pool[0].active then Some(0)
    else match FirstFree(pool[1..])
      case None => None
      case Some(k) => Some(k + 1)
  }

  /** A slot of capacity 4096 after activate(params): the count clamped, last_stage left as it was. */
  function Launched(v: Slot, params: Params): Slot {
    var clamped := params.(particleCount := ClampCount(params.particleCount, FireworkMaxParticleCount));
    var gpu := GpuFromParams(clamped);
    Slot(true, StateFromParams(clamped, v.state.lastStage), gpu, v.gl + ActivationEvents(params, gpu))
  }

  /** The pool after try_spawn_firework(params). */
  function Spawned(pool: seq<Slot>, params: Params): seq<Slot> {
    match FirstFree(pool)
    case None => pool
    case Some(k) => pool[k := Launched(pool[k], params)]
  }

  /**
   * A spawn launches the first inactive slot with `params` and leaves every
   * other slot as it was; with every slot active it changes nothing.
   */
  lemma SpawnedProperties(pool: seq<Slot>, params: Params)
    ensures var after := Spawned(pool, params);
      && |after| == |pool|
      && (FirstFree(pool).None? <==> forall j :: 0 <= j < |pool| ==> pool[j].active)
      && (FirstFree(pool).None? ==> after == pool)
      && (FirstFree(pool).Some? ==>
            var k := FirstFree(pool).value;
            && !pool[k].active && (forall j :: 0 <= j < k ==> pool[j].active)
            && after[k] == Launched(pool[k], params)
            && (forall j :: 0 <= j < |pool| && j != k ==> after[j] == pool[j]))
  {
  }

  lemma AppendAssoc<T>(a: seq<T>, b: seq<T>, c: seq<T>)
    ensures a + b + c == a + (b + c)
  {
  }

  /** One spawn attempt of update_fireworks: the request, its parameters, and the slot launched (None: pool full). */
  datatype Attempt = Attempt(kind: SpawnKind, params: Params, slot: Option<nat>)

  /** The attempts for `kinds` in order, each on the pool the earlier ones left, and the pool afterwards. */
  function Attempts(pool: seq<Slot>, kinds: seq<SpawnKind>, fr: RandomizationParams, atPos: Vec3, draws: SpawnDraws)
    : (seq<Attempt>, seq<Slot>)
    decreases |kinds|
  {
    if |kinds| == 0 then ([], pool)
    else
      var params := RequestedParams(kinds[0], fr, atPos, draws);
      var rest := Attempts(Spawned(pool, params), kinds[1..], fr, atPos, draws);
      ([Attempt(kinds[0], params, FirstFree(pool))] + rest.0, rest.1)
  }

  /** Serving a ++ b is serving a, then b on the pool a left. */
  lemma {:induction false} AttemptsAppend(pool: seq<Slot>, a: seq<SpawnKind>, b: seq<SpawnKind>, fr: RandomizationParams,
                                          atPos: Vec3, draws: SpawnDraws)
    decreases |a|
    ensures var first := Attempts(pool, a, fr, atPos, draws);
      var second := Attempts(first.1, b, fr, atPos, draws);
      Attempts(pool, a + b, fr, atPos, draws) == (first.0 + second.0, second.1)
  {
    if |a| > 0 {
      var params := RequestedParams(a[0], fr, atPos, draws);
      var next := Spawned(pool, params);
      AttemptsAppend(next, a[1..], b, fr, atPos, draws);
      assert (a + b)[0] == a[0] && (a + b)[1..] == a[1..] + b;
      var rest := Attempts(next, a[1..], fr, atPos, draws);
      AppendAssoc([Attempt(a[0], params, FirstFree(pool))], rest.0, Attempts(rest.1, b, fr, atPos, draws).0);
    } else {
      var second := Attempts(pool, b, fr, atPos, draws);
      assert a + b == b && [] + second.0 == second.0;
    }
  }

  /** The attempts of one update_fireworks are those of its four `if` blocks, each on the pool the previous left. */
  lemma SpawnOrderAttempts(log: seq<Attempt>, pool: seq<Slot>, auto: bool, randomAt: bool, random: bool, default: bool,
                           fr: RandomizationParams, atPos: Vec3, draws: SpawnDraws)
    ensures var r1 := Attempts(pool, Requested(auto, AutoSpawn), fr, atPos, draws);
      var r2 := Attempts(r1.1, Requested(randomAt, SpawnRandomAt), fr, atPos, draws);
      var r3 := Attempts(r2.1, Requested(random, SpawnRandom), fr, atPos, draws);
      var r4 := Attempts(r3.1, Requested(default, SpawnDefault), fr, atPos, draws);
      var all := Attempts(pool, SpawnOrder(auto, randomAt, random, default), fr, atPos, draws);
      log + all.0 == log + r1.0 + r2.0 + r3.0 + r4.0 && all.1 == r4.1
  {
    var o1, o2 := Requested(auto, AutoSpawn), Requested(randomAt, SpawnRandomAt);
    var o3, o4 := Requested(random, SpawnRandom), Requested(default, SpawnDefault);
    AttemptsAppend(pool, o1, o2, fr, atPos, draws);
    AttemptsAppend(pool, o1 + o2, o3, fr, atPos, draws);
    AttemptsAppend(pool, o1 + o2 + o3, o4, fr, atPos, draws);
    var r1 := Attempts(pool, o1, fr, atPos, draws);
    var r2 := Attempts(r1.1, o2, fr, atPos, draws);
    var r3 := Attempts(r2.1, o3, fr, atPos, draws);
    var r4 := Attempts(r3.1, o4, fr, atPos, draws);
    AppendAssoc(log, r1.0, r2.0);
    AppendAssoc(log, r1.0 + r2.0, r3.0);
    AppendAssoc(log, r1.0 + r2.0 + r3.0, r4.0);
  }

  /** There is one attempt per request, in order, each with the parameters its request names. */
  lemma {:induction false} AttemptsFollowRequests(pool: seq<Slot>, kinds: seq<SpawnKind>, fr: RandomizationParams,
                                                  atPos: Vec3, draws: SpawnDraws)
    decreases |kinds|
    ensures var (attempts, after) := Attempts(pool, kinds, fr, atPos, draws);
      && |attempts| == |kinds| && |after| == |pool|
      && (forall m :: 0 <= m < |attempts| ==>
            attempts[m].kind == kinds[m] && attempts[m].params == RequestedParams(kinds[m], fr, atPos, draws))
  {
    if |kinds| > 0 {
      var params := RequestedParams(kinds[0], fr, atPos, draws);
      var next := Spawned(pool, params);
      SpawnedProperties(pool, params);
      AttemptsFollowRequests(next, kinds[1..], fr, atPos, draws);
      var (attempts, after) := Attempts(pool, kinds, fr, atPos, draws);
      var rest := Attempts(next, kinds[1..], fr, atPos, draws);
      assert attempts == [Attempt(kinds[0], params, FirstFree(pool))] + rest.0 && after == rest.1;
      forall m | 0 < m < |attempts|
        ensures attempts[m].kind == kinds[m] && attempts[m].params == RequestedParams(kinds[m], fr, atPos, draws)
      {
        assert attempts[m] == rest.0[m - 1] && kinds[m] == kinds[1..][m - 1];
      }
    }
  }

  /** The first attempt of a series and the series after it. */
  lemma AttemptsUnfold(pool: seq<Slot>, kinds: seq<SpawnKind>, fr: RandomizationParams, atPos: Vec3, draws: SpawnDraws)
    requires |kinds| > 0
    ensures var params := RequestedParams(kinds[0], fr, atPos, draws);
      var rest := Attempts(Spawned(pool, params), kinds[1..], fr, atPos, draws);
      var (attempts, after) := Attempts(pool, kinds, fr, atPos, draws);
      && |attempts| == |rest.0| + 1 && after == rest.1
      && attempts[0] == Attempt(kinds[0], params, FirstFree(pool))
      && forall m :: 0 < m < |attempts| ==> attempts[m] == rest.0[m - 1]
  {
  }

  /** A slot that is active before a series of attempts is left as it was. */
  lemma {:induction false} AttemptsKeepActive(pool: seq<Slot>, kinds: seq<SpawnKind>, fr: RandomizationParams,
                                              atPos: Vec3, draws: SpawnDraws)
    decreases |kinds|
    ensures var after := Attempts(pool, kinds, fr, atPos, draws).1;
      |after| == |pool| && forall j :: 0 <= j < |pool| && pool[j].active ==> after[j] == pool[j]
  {
    if |kinds| > 0 {
      var params := RequestedParams(kinds[0], fr, atPos, draws);
      SpawnedProperties(pool, params);
      AttemptsKeepActive(Spawned(pool, params), kinds[1..], fr, atPos, draws);
      AttemptsUnfold(pool, kinds, fr, atPos, draws);
    }
  }

  /** Each attempt that launches a slot finds it inactive and leaves it launched with the attempt's parameters. */
  lemma {:induction false} AttemptsLaunch(pool: seq<Slot>, kinds: seq<SpawnKind>, fr: RandomizationParams,
                                          atPos: Vec3, draws: SpawnDraws)
    decreases |kinds|
    ensures var (attempts, after) := Attempts(pool, kinds, fr, atPos, draws);
      |after| == |pool| &&
      forall m :: 0 <= m < |attempts| && attempts[m].slot.Some? ==>
        var j := attempts[m].slot.value;
        j < |pool| && !pool[j].active && after[j] == Launched(pool[j], attempts[m].params)
  {
    if |kinds| > 0 {
      var params := RequestedParams(kinds[0], fr, atPos, draws);
      var next := Spawned(pool, params);
      SpawnedProperties(pool, params);
      AttemptsLaunch(next, kinds[1..], fr, atPos, draws);
      AttemptsKeepActive(next, kinds[1..], fr, atPos, draws);
      AttemptsUnfold(pool, kinds, fr, atPos, draws);
    }
  }

  /** No slot is launched twice by one series of attempts. */
  lemma {:induction false} AttemptsDistinct(pool: seq<Slot>, kinds: seq<SpawnKind>, fr: RandomizationParams,
                                            atPos: Vec3, draws: SpawnDraws)
    decreases |kinds|
    ensures var attempts := Attempts(pool, kinds, fr, atPos, draws).0;
      forall m, n :: 0 <= m < n < |attempts| && attempts[m].slot.Some? ==> attempts[m].slot != attempts[n].slot
  {
    if |kinds| > 0 {
      var params := RequestedParams(kinds[0], fr, atPos, draws);
      var next := Spawned(pool, params);
      SpawnedProperties(pool, params);
      AttemptsDistinct(next, kinds[1..], fr, atPos, draws);
      AttemptsLaunch(next, kinds[1..], fr, atPos, draws);
      AttemptsUnfold(pool, kinds, fr, atPos, draws);
    }
  }

  /** A slot no attempt names is left as it was. */
  lemma {:induction false} AttemptsKeepOthers(pool: seq<Slot>, kinds: seq<SpawnKind>, fr: RandomizationParams,
                                              atPos: Vec3, draws: SpawnDraws)
    decreases |kinds|
    ensures var (attempts, after) := Attempts(pool, kinds, fr, atPos, draws);
      forall j :: 0 <= j < |pool| && (forall m :: 0 <= m < |attempts| ==> attempts[m].slot != Some(j)) ==>
        |after| == |pool| && after[j] == pool[j]
  {
    if |kinds| > 0 {
      var params := RequestedParams(kinds[0], fr, atPos, draws);
      var next := Spawned(pool, params);
      SpawnedProperties(pool, params);
      AttemptsKeepOthers(next, kinds[1..], fr, atPos, draws);
      AttemptsUnfold(pool, kinds, fr, atPos, draws);
      var (attempts, after) := Attempts(pool, kinds, fr, atPos, draws);
      var rest := Attempts(next, kinds[1..], fr, atPos, draws);
      forall j | 0 <= j < |pool| && (forall m :: 0 <= m < |attempts| ==> attempts[m].slot != Some(j))
        ensures |after| == |pool| && after[j] == pool[j]
      {
        assert attempts[0].slot != Some(j);
        forall m | 0 <= m < |rest.0|
          ensures rest.0[m].slot != Some(j)
        {
          assert rest.0[m] == attempts[m + 1];
        }
      }
    }
  }

  /** An attempt fails only when it leaves every slot active, and they stay active. */
  lemma {:induction false} AttemptsFailWhenFull(pool: seq<Slot>, kinds: seq<SpawnKind>, fr: RandomizationParams,
                                                atPos: Vec3, draws: SpawnDraws)
    decreases |kinds|
    ensures var (attempts, after) := Attempts(pool, kinds, fr, atPos, draws);
      forall m :: 0 <= m < |attempts| && attempts[m].slot.None? ==> forall j :: 0 <= j < |after| ==> after[j].active
  {
    if |kinds| > 0 {
      var params := RequestedParams(kinds[0], fr, atPos, draws);
      var next := Spawned(pool, params);
      SpawnedProperties(pool, params);
      AttemptsFailWhenFull(next, kinds[1..], fr, atPos, draws);
      AttemptsKeepActive(next, kinds[1..], fr, atPos, draws);
      AttemptsUnfold(pool, kinds, fr, atPos, draws);
    }
  }

  /**
   * What a series of spawn attempts does to the pool: one attempt per
   * request with the request's parameters; each launched slot was inactive
   * and ends launched with its attempt's parameters; no slot is launched
   * twice; a slot no attempt names, and every active slot, is left as it
   * was; and an attempt fails only when it leaves every slot active.
   */
  lemma AttemptsProperties(pool: seq<Slot>, kinds: seq<SpawnKind>, fr: RandomizationParams, atPos: Vec3, draws: SpawnDraws)
    ensures var (attempts, after) := Attempts(pool, kinds, fr, atPos, draws);
      && |attempts| == |kinds| && |after| == |pool|
      && (forall m :: 0 <= m < |attempts| ==>
            attempts[m].kind == kinds[m] && attempts[m].params == RequestedParams(kinds[m], fr, atPos, draws))
      && (forall m :: 0 <= m < |attempts| && attempts[m].slot.Some? ==>
            var j := attempts[m].slot.value;
            j < |pool| && !pool[j].active && after[j] == Launched(pool[j], attempts[m].params))
      && (forall m, n :: 0 <= m < n < |attempts| && attempts[m].slot.Some? ==> attempts[m].slot != attempts[n].slot)
      && (forall j :: 0 <= j < |pool| && (forall m :: 0 <= m < |attempts| ==> attempts[m].slot != Some(j)) ==>
            after[j] == pool[j])
      && (forall j :: 0 <= j < |pool| && pool[j].active ==> after[j] == pool[j])
      && (forall m :: 0 <= m < |attempts| && attempts[m].slot.None? ==> forall j :: 0 <= j < |after| ==> after[j].active)
  {
    AttemptsFollowRequests(pool, kinds, fr, atPos, draws);
    AttemptsLaunch(pool, kinds, fr, atPos, draws);
    AttemptsDistinct(pool, kinds, fr, atPos, draws);
    AttemptsKeepOthers(pool, kinds, fr, atPos, draws);
    AttemptsKeepActive(pool, kinds, fr, atPos, draws);
    AttemptsFailWhenFull(pool, kinds, fr, atPos, draws);
  }

  /** One iteration of the update loop: update, then update_gpu with the local size 256. */
  method UpdateSlot(f: Firework, delta: real, gravity: real)
    requires SlotValid(f)
    modifies f
    ensures SlotValid(f) && f.Value() == UpdatedSlot(old(f.Value()), delta, gravity)
  {
    f.Update(delta, gravity);
    f.UpdateGpu(ComputeLocalSize);
  }

  /** The for loop of update_fireworks over the slots `fs`, whose changing fields are `pool`. */
  method UpdateEach(fs: seq<Firework>, ghost pool: seq<Slot>, delta: real, gravity: real)
    requires PoolValid(fs) && Mirrors(fs, pool)
    modifies set f | f in fs
    ensures PoolValid(fs)
    ensures forall j :: 0 <= j < |pool| ==> (pool[j].active ==> pool[j].state.particleCount >= 1)
    ensures Mirrors(fs, UpdatedPool(pool, delta, gravity))
  {
    for i := 0 to |fs|
      invariant forall j :: 0 <= j < |pool| ==> (pool[j].active ==> pool[j].state.particleCount >= 1)
      invariant forall j :: 0 <= j < |fs| ==> SlotValid(fs[j])
      invariant forall j :: 0 <= j < i ==> fs[j].Value() == UpdatedSlot(pool[j], delta, gravity)
      invariant forall j :: i <= j < |fs| ==> unchanged(fs[j])
    {
      UpdateSlot(fs[i], delta, gravity);
    }
  }

  /** What a slot of the pool keeps true: its own invariant, the pool's capacity, and a non-empty firework when active. */
  ghost predicate SlotValid(f: Firework)
    reads f
  {
    && f.Valid()
    && f.maxParticleCount == FireworkMaxParticleCount
    && (f.active ==> f.state.particleCount >= 1)
  }

  /** `pool` holds the changing fields of the slots `fs`, in order. */
  ghost predicate Mirrors(fs: seq<Firework>, pool: seq<Slot>)
    reads fs
  {
    |pool| == |fs| && forall i :: 0 <= i < |fs| ==> fs[i].Value() == pool[i]
  }

  /** Five distinct valid slots. */
  ghost predicate PoolValid(fs: seq<Firework>)
    reads fs
  {
    && |fs| == FireworksMaxCount
    && (forall i, j :: 0 <= i < j < |fs| ==> fs[i] != fs[j])
    && (forall i :: 0 <= i < |fs| ==> SlotValid(fs[i]))
  }

  /** A light buffer with room for one light per slot that can be updated. */
  ghost predicate LightBufferValid(lights: UBOVector<Light>)
    reads lights
  {
    && lights.Valid()
    && lights.maxCount == FireworksMaxCount
    && lights.alignment == LightAlignment
    && lights.flags & DynamicStorageBit == DynamicStorageBit
  }

  /** Whether every active slot's light is defined (its fade window is not empty once fading). */
  predicate LightsDefined(fs: seq<Firework>)
    reads set f | f in fs
  {
    forall i :: 0 <= i < |fs| ==> fs[i].LightDefined()
  }

  /** The light list update_firework_lights builds: one light per active slot, in slot order. */
  function ActiveLights(fs: seq<Firework>, pow15: real -> real): seq<Light>
    requires forall i :: 0 <= i < |fs| ==> fs[i].Valid() && fs[i].LightDefined()
    reads set f | f in fs
  {
    if |fs| == 0 then []
    else
      var f := fs[|fs| - 1];
      ActiveLights(fs[..|fs| - 1], pow15)
      + if f.active then [f.GenerateLight(pow15(1.0 - f.state.fadeSizeMult)).value] else []
  }

  /** There are exactly as many lights as active slots, so never more than slots. */
  lemma {:induction false} ActiveLightsCount(fs: seq<Firework>, pow15: real -> real)
    requires forall i :: 0 <= i < |fs| ==> fs[i].Valid() && fs[i].LightDefined()
    ensures |ActiveLights(fs, pow15)| == CountTrue(ActiveFlags(fs)) <= |fs|
  {
    if |fs| > 0 {
      var prefix := fs[..|fs| - 1];
      ActiveLightsCount(prefix, pow15);
      assert ActiveFlags(fs)[..|fs| - 1] == ActiveFlags(prefix);
    }
  }

  // ---------------------------------------------------------------- the application

  class Application {
    var fireworks: seq<Firework>
    var fireworkLights: UBOVector<Light>
    var fireworkRandomization: RandomizationParams
    var gravity: real
    var autoSpawnPause: bool
    var autoSpawnDelay: real
    var autoSpawnDelayVariance: real
    var autoSpawnDelta: real
    var spawnDefault: bool
    var spawnRandom: bool
    var spawnRandomAt: bool
    var spawnRandomAtPos: Vec3
    /** Every spawn attempt update_fireworks has made, oldest first. */
    ghost var spawnLog: seq<Attempt>
    /** The slots' changing fields, in slot order. */
    ghost var pool: seq<Slot>

    /**
     * Five distinct valid slots, a light buffer with room for one light per
     * slot that can be updated, and ordered particle-count bounds within the
     * sliders' range.
     */
    ghost predicate Valid()
      reads this, fireworkLights, fireworks
    {
      && PoolValid(fireworks)
      && Mirrored()
      && LightBufferValid(fireworkLights)
      && SliderMin <= fireworkRandomization.particleCountMin
      && fireworkRandomization.particleCountMin <= fireworkRandomization.particleCountMax
      && fireworkRandomization.particleCountMax <= FireworkMaxParticleCount
    }

    /** `pool` holds the slots' changing fields. */
    ghost predicate Mirrored()
      reads this, fireworks
    {
      Mirrors(fireworks, pool)
    }

    /** The user-controlled spawning state. */
    function Controls(): (bool, bool, bool, Vec3, bool, real, real, real)
      reads this
    {
      (spawnDefault, spawnRandom, spawnRandomAt, spawnRandomAtPos,
       autoSpawnPause, autoSpawnDelay, autoSpawnDelayVariance, autoSpawnDelta)
    }

    /**
     * The parts of the constructor this model covers: the pool is prepared,
     * the configuration reset, no spawn is requested, and the countdown
     * starts at the full delay. `lightSize` is sizeof(PhongLightData); the two
     * handles are the buffer names OpenGL returns; `maxAngle` is glm::radians(8).
     */
    constructor (lightSize: nat, defaultLightsHandle: nat, lightsHandle: nat, maxAngle: real)
      requires lightSize % LightAlignment == 0
      ensures Valid()
      ensures forall i :: 0 <= i < |fireworks| ==> !fireworks[i].active
      ensures !spawnDefault && !spawnRandom && !spawnRandomAt && !autoSpawnPause
      ensures autoSpawnDelta == autoSpawnDelay == 1400.0
      ensures fireworkRandomization == DefaultRandomization(maxAngle)
      ensures spawnLog == []
    {
      fireworks := [];
      fireworkLights := new UBOVector<Light>(0, 0, GlUniformBuffer, defaultLightsHandle, LightAlignment, lightSize);
      spawnLog := [];
      pool := [];
      // Fields no preparation step reads are set up front.
      gravity := 0.000015;
      spawnDefault := false;
      spawnRandom := false;
      spawnRandomAt := false;
      autoSpawnPause := false;
      new;
      PrepareFireworks(lightsHandle);
      ResetFireworksConfig(maxAngle);
      autoSpawnDelta := autoSpawnDelay;
    }

    /**
     * prepare_fireworks: appends five inactive slots of capacity 4096 and
     * replaces the light buffer by one with room for five lights.
     */
    method PrepareFireworks(lightsHandle: nat)
      requires fireworkLights.Valid() && fireworkLights.alignment == LightAlignment && Mirrored()
      modifies this, fireworkLights
      ensures fireworkLights == old(fireworkLights) && fireworkLights.Valid()
      ensures fireworkLights.maxCount == FireworksMaxCount && fireworkLights.flags == DynamicStorageBit
      ensures fireworkLights.target == GlShaderStorageBuffer && fireworkLights.handle == lightsHandle
      ensures fireworkLights.data == [] && fireworkLights.writes == []
      ensures |fireworks| == |old(fireworks)| + FireworksMaxCount && fireworks[..|old(fireworks)|] == old(fireworks)
      ensures forall i :: |old(fireworks)| <= i < |fireworks| ==>
        fresh(fireworks[i]) && !fireworks[i].active && SlotValid(fireworks[i])
      ensures forall i, j :: |old(fireworks)| <= i < j < |fireworks| ==> fireworks[i] != fireworks[j]
      ensures Mirrored() && pool[..|old(pool)|] == old(pool)
      ensures fireworkRandomization == old(fireworkRandomization) && gravity == old(gravity)
      ensures Controls() == old(Controls()) && spawnLog == old(spawnLog)
    {
      var start := |fireworks|;
      for i := 0 to FireworksMaxCount
        invariant |fireworks| == start + i && fireworks[..start] == old(fireworks)
        invariant forall k :: start <= k < |fireworks| ==> fresh(fireworks[k]) && !fireworks[k].active && SlotValid(fireworks[k])
        invariant forall k, l :: start <= k < l < |fireworks| ==> fireworks[k] != fireworks[l]
        invariant Mirrored() && pool[..start] == old(pool)
        invariant fireworkLights == old(fireworkLights) && unchanged(fireworkLights)
        invariant fireworkRandomization == old(fireworkRandomization) && gravity == old(gravity)
        invariant Controls() == old(Controls()) && spawnLog == old(spawnLog)
      {
        var firework := new Firework(FireworkMaxParticleCount);
        fireworks := fireworks + [firework];
        pool := pool + [firework.Value()];
      }
      var lights := new UBOVector<Light>(FireworksMaxCount, DynamicStorageBit, GlShaderStorageBuffer, lightsHandle,
                                         LightAlignment, fireworkLights.elementSize);
      fireworkLights.MoveAssign(lights);
    }

    /** reset_fireworks_config: the auto-spawn delay and the randomisation ranges. */
    method ResetFireworksConfig(maxAngle: real)
      modifies this
      ensures autoSpawnDelay == 1400.0 && autoSpawnDelayVariance == 0.4
      ensures fireworkRandomization == DefaultRandomization(maxAngle)
      ensures fireworks == old(fireworks) && fireworkLights == old(fireworkLights) && gravity == old(gravity)
      ensures autoSpawnPause == old(autoSpawnPause) && autoSpawnDelta == old(autoSpawnDelta)
      ensures spawnDefault == old(spawnDefault) && spawnRandom == old(spawnRandom)
      ensures spawnRandomAt == old(spawnRandomAt) && spawnRandomAtPos == old(spawnRandomAtPos)
      ensures spawnLog == old(spawnLog) && pool == old(pool)
    {
      autoSpawnDelay := 1400.0;
      autoSpawnDelayVariance := 0.4;
      fireworkRandomization := DefaultRandomization(maxAngle);
    }

    /**
     * try_spawn_firework: launches the firework in the first inactive slot
     * and reports success; with every slot active nothing changes.
     */
    method TrySpawn(params: Params) returns (spawned: bool)
      requires Valid() && params.particleCount >= 1
      modifies this, set f | f in fireworks
      ensures Valid()
      ensures spawned <==> FirstFree(old(pool)).Some?
      ensures pool == Spawned(old(pool), params)
      ensures Settings() == old(Settings()) && Requests() == old(Requests()) && spawnLog == old(spawnLog)
    {
      var i := 0;
      while i < |fireworks|
        invariant 0 <= i <= |fireworks|
        invariant forall j :: 0 <= j < i ==> fireworks[j].active
        invariant forall j :: 0 <= j < |fireworks| ==> unchanged(fireworks[j])
      {
        if !fireworks[i].active {
          assert FirstFree(pool) == Some(i);
          fireworks[i].Activate(params);
          pool := pool[i := Launched(pool[i], params)];
          return true;
        }
        i := i + 1;
      }
      return false;
    }

    /** The loop of update_fireworks: each slot is updated, then runs its compute pass. */
    method UpdateAll(delta: real)
      requires Valid()
      modifies this, set f | f in fireworks
      ensures Valid()
      ensures pool == UpdatedPool(old(pool), delta, gravity)
      ensures Settings() == old(Settings()) && Requests() == old(Requests()) && spawnLog == old(spawnLog)
    {
      UpdateEach(fireworks, pool, delta, gravity);
      pool := UpdatedPool(pool, delta, gravity);
    }

    /**
     * update_fireworks: the update loop, the countdown, then one spawn
     * attempt per raised request in the order auto, at, random, default, on
     * the pool the update loop left; the three requests are cleared whether
     * or not their attempt succeeded.
     */
    method UpdateFireworks(delta: real, draws: SpawnDraws)
      requires Valid() && draws.ValidFor(fireworkRandomization)
      modifies this, set f | f in fireworks
      ensures Valid()
      ensures !spawnDefault && !spawnRandom && !spawnRandomAt
      ensures var (fired, next) := Countdown(old(autoSpawnDelta), delta, old(autoSpawnPause), old(autoSpawnDelay),
                                             old(autoSpawnDelayVariance), draws.autoDelay);
        var (attempts, after) := Attempts(UpdatedPool(old(pool), delta, gravity),
                                          SpawnOrder(fired, old(spawnRandomAt), old(spawnRandom), old(spawnDefault)),
                                          fireworkRandomization, spawnRandomAtPos, draws);
        && autoSpawnDelta == next
        && spawnLog == old(spawnLog) + attempts
        && pool == after
      ensures fireworks == old(fireworks) && fireworkLights == old(fireworkLights)
      ensures fireworkRandomization == old(fireworkRandomization) && gravity == old(gravity)
      ensures autoSpawnPause == old(autoSpawnPause) && autoSpawnDelay == old(autoSpawnDelay)
      ensures autoSpawnDelayVariance == old(autoSpawnDelayVariance) && spawnRandomAtPos == old(spawnRandomAtPos)
    {
      UpdateAll(delta);
      var fired := AdvanceCountdown(delta, draws.autoDelay);
      ServeRequests(fired, draws);
    }

    /** The auto-spawn countdown of update_fireworks. */
    method AdvanceCountdown(delta: real, u: real) returns (fired: bool)
      requires Valid()
      modifies this
      ensures Valid()
      ensures (fired, autoSpawnDelta) == Countdown(old(autoSpawnDelta), delta, autoSpawnPause, autoSpawnDelay, autoSpawnDelayVariance, u)
      ensures fireworks == old(fireworks) && fireworkLights == old(fireworkLights)
      ensures fireworkRandomization == old(fireworkRandomization) && gravity == old(gravity)
      ensures autoSpawnPause == old(autoSpawnPause) && autoSpawnDelay == old(autoSpawnDelay)
      ensures autoSpawnDelayVariance == old(autoSpawnDelayVariance) && spawnRandomAtPos == old(spawnRandomAtPos)
      ensures Requests() == old(Requests()) && spawnLog == old(spawnLog) && pool == old(pool)
    {
      var remaining := autoSpawnDelta;
      fired := false;
      if !autoSpawnPause {
        remaining := remaining - delta;
      }
      if remaining <= 0.0 {
        fired := true;
        remaining := Jittered(autoSpawnDelay, autoSpawnDelayVariance, u);
      }
      autoSpawnDelta := remaining;
    }

    /** The spawn attempts of update_fireworks, the automatic one first. */
    method ServeRequests(auto: bool, draws: SpawnDraws)
      requires Valid() && draws.ValidFor(fireworkRandomization)
      modifies this, set f | f in fireworks
      ensures Valid()
      ensures !spawnDefault && !spawnRandom && !spawnRandomAt
      ensures var (attempts, after) := Attempts(old(pool), SpawnOrder(auto, old(spawnRandomAt), old(spawnRandom), old(spawnDefault)),
                                                fireworkRandomization, spawnRandomAtPos, draws);
        spawnLog == old(spawnLog) + attempts && pool == after
      ensures Settings() == old(Settings())
    {
      SpawnOrderAttempts(spawnLog, pool, auto, spawnRandomAt, spawnRandom, spawnDefault, fireworkRandomization, spawnRandomAtPos, draws);
      ServeIf(auto, AutoSpawn, draws);
      ServeIf(spawnRandomAt, SpawnRandomAt, draws);
      ServeIf(spawnRandom, SpawnRandom, draws);
      ServeIf(spawnDefault, SpawnDefault, draws);
    }

    /** One `if (request) { try_spawn_firework(...); request = false; }` of update_fireworks. */
    method ServeIf(requested: bool, kind: SpawnKind, draws: SpawnDraws)
      requires Valid() && draws.ValidFor(fireworkRandomization)
      modifies this, set f | f in fireworks
      ensures Valid()
      ensures var (attempts, after) := Attempts(old(pool), Requested(requested, kind), fireworkRandomization, spawnRandomAtPos, draws);
        spawnLog == old(spawnLog) + attempts && pool == after
      ensures spawnDefault == (old(spawnDefault) && !(requested && kind == SpawnDefault))
      ensures spawnRandom == (old(spawnRandom) && !(requested && kind == SpawnRandom))
      ensures spawnRandomAt == (old(spawnRandomAt) && !(requested && kind == SpawnRandomAt))
      ensures Settings() == old(Settings())
    {
      if requested {
        var params := CreateRequested(kind, fireworkRandomization, spawnRandomAtPos, draws);
        Serve(kind, params);
        assert [kind][1..] == [];
      }
    }

    /**
     * One spawn request served with `params`: try_spawn_firework is called,
     * and the request is cleared and logged with the slot it launched, or
     * None when every slot was active.
     */
    method Serve(kind: SpawnKind, params: Params)
      requires Valid() && params.particleCount >= 1
      modifies this, set f | f in fireworks
      ensures Valid()
      ensures spawnLog == old(spawnLog) + [Attempt(kind, params, FirstFree(old(pool)))]
      ensures pool == Spawned(old(pool), params)
      ensures spawnDefault == (old(spawnDefault) && kind != SpawnDefault)
      ensures spawnRandom == (old(spawnRandom) && kind != SpawnRandom)
      ensures spawnRandomAt == (old(spawnRandomAt) && kind != SpawnRandomAt)
      ensures Settings() == old(Settings())
    {
      spawnLog := spawnLog + [Attempt(kind, params, FirstFree(pool))];
      var _ := TrySpawn(params);
      ClearRequest(kind);
    }

    /** `request = false` for the request `kind` names; the automatic one has no flag. */
    method ClearRequest(kind: SpawnKind)
      requires Valid()
      modifies this
      ensures Valid()
      ensures spawnDefault == (old(spawnDefault) && kind != SpawnDefault)
      ensures spawnRandom == (old(spawnRandom) && kind != SpawnRandom)
      ensures spawnRandomAt == (old(spawnRandomAt) && kind != SpawnRandomAt)
      ensures Settings() == old(Settings()) && spawnLog == old(spawnLog) && pool == old(pool)
    {
      match kind {
        case AutoSpawn =>
        case SpawnRandomAt => spawnRandomAt := false;
        case SpawnRandom => spawnRandom := false;
        case SpawnDefault => spawnDefault := false;
      }
    }

    /** The three user requests. */
    function Requests(): (bool, bool, bool)
      reads this
    {
      (spawnDefault, spawnRandom, spawnRandomAt)
    }

    /** Everything but the spawn requests and the log. */
    function Settings(): (seq<Firework>, UBOVector<Light>, RandomizationParams, real, bool, real, real, real, Vec3)
      reads this
    {
      (fireworks, fireworkLights, fireworkRandomization, gravity, autoSpawnPause, autoSpawnDelay, autoSpawnDelayVariance,
       autoSpawnDelta, spawnRandomAtPos)
    }

    /** update_firework_lights: rebuilds the light list from the active slots and uploads it. */
    method UpdateFireworkLights(pow15: real -> real)
      requires Valid() && LightsDefined(fireworks)
      modifies fireworkLights
      ensures Valid()
      ensures fireworkLights.data == ActiveLights(fireworks, pow15)
      ensures |fireworkLights.data| == CountTrue(ActiveFlags(fireworks)) <= FireworksMaxCount
      ensures fireworkLights.writes == old(fireworkLights.writes) + FlushWrites(fireworkLights.data, FireworksMaxCount, LightAlignment)
    {
      RebuildLights(fireworks, fireworkLights, pow15);
    }

    /** The "particle count min" slider moved to `value`: the maximum follows it up if needed. */
    method SetParticleCountMin(value: nat)
      requires Valid() && SliderMin <= value <= FireworkMaxParticleCount
      modifies this
      ensures Valid()
      ensures fireworkRandomization.particleCountMin == value
      ensures fireworkRandomization.particleCountMax == Larger(value, old(fireworkRandomization.particleCountMax))
      ensures fireworkRandomization == old(fireworkRandomization).(particleCountMin := fireworkRandomization.particleCountMin,
                                                                   particleCountMax := fireworkRandomization.particleCountMax)
      ensures fireworks == old(fireworks) && fireworkLights == old(fireworkLights) && gravity == old(gravity)
      ensures Controls() == old(Controls()) && spawnLog == old(spawnLog) && pool == old(pool)
    {
      fireworkRandomization := fireworkRandomization.(particleCountMin := value);
      if fireworkRandomization.particleCountMin > fireworkRandomization.particleCountMax {
        fireworkRandomization := fireworkRandomization.(particleCountMax := fireworkRandomization.particleCountMin);
      }
    }

    /** The "particle count max" slider moved to `value`: the minimum follows it down if needed. */
    method SetParticleCountMax(value: nat)
      requires Valid() && SliderMin <= value <= FireworkMaxParticleCount
      modifies this
      ensures Valid()
      ensures fireworkRandomization.particleCountMax == value
      ensures fireworkRandomization.particleCountMin == Smaller(value, old(fireworkRandomization.particleCountMin))
      ensures fireworkRandomization == old(fireworkRandomization).(particleCountMin := fireworkRandomization.particleCountMin,
                                                                   particleCountMax := fireworkRandomization.particleCountMax)
      ensures fireworks == old(fireworks) && fireworkLights == old(fireworkLights) && gravity == old(gravity)
      ensures Controls() == old(Controls()) && spawnLog == old(spawnLog) && pool == old(pool)
    {
      fireworkRandomization := fireworkRandomization.(particleCountMax := value);
      if fireworkRandomization.particleCountMax < fireworkRandomization.particleCountMin {
        fireworkRandomization := fireworkRandomization.(particleCountMin := fireworkRandomization.particleCountMax);
      }
    }

    /** The D key: requests a default firework on the next update. */
    method RequestSpawnDefault()
      modifies this
      ensures spawnDefault
      ensures spawnRandom == old(spawnRandom) && spawnRandomAt == old(spawnRandomAt)
      ensures spawnRandomAtPos == old(spawnRandomAtPos) && autoSpawnDelta == old(autoSpawnDelta)
      ensures fireworks == old(fireworks) && fireworkLights == old(fireworkLights)
      ensures fireworkRandomization == old(fireworkRandomization) && spawnLog == old(spawnLog) && pool == old(pool)
    {
      spawnDefault := true;
    }

    /** The space key: requests a random firework on the next update. */
    method RequestSpawnRandom()
      modifies this
      ensures spawnRandom
      ensures spawnDefault == old(spawnDefault) && spawnRandomAt == old(spawnRandomAt)
      ensures spawnRandomAtPos == old(spawnRandomAtPos) && autoSpawnDelta == old(autoSpawnDelta)
      ensures fireworks == old(fireworks) && fireworkLights == old(fireworkLights)
      ensures fireworkRandomization == old(fireworkRandomization) && spawnLog == old(spawnLog) && pool == old(pool)
    {
      spawnRandom := true;
    }

    /** The F key or a middle click over the launch box: requests a random firework launched from `pos`, the point under the mouse. */
    method RequestSpawnRandomAt(pos: Vec3)
      modifies this
      ensures spawnRandomAt && spawnRandomAtPos == pos
      ensures spawnDefault == old(spawnDefault) && spawnRandom == old(spawnRandom)
      ensures autoSpawnDelta == old(autoSpawnDelta)
      ensures fireworks == old(fireworks) && fireworkLights == old(fireworkLights)
      ensures fireworkRandomization == old(fireworkRandomization) && spawnLog == old(spawnLog) && pool == old(pool)
    {
      spawnRandomAtPos := pos;
      spawnRandomAt := true;
    }

    /** The pause/play button: toggles the auto-spawn countdown. */
    method ToggleAutoSpawnPause()
      modifies this
      ensures autoSpawnPause == !old(autoSpawnPause)
      ensures spawnDefault == old(spawnDefault) && spawnRandom == old(spawnRandom) && spawnRandomAt == old(spawnRandomAt)
      ensures autoSpawnDelta == old(autoSpawnDelta)
      ensures fireworks == old(fireworks) && fireworkLights == old(fireworkLights)
      ensures fireworkRandomization == old(fireworkRandomization) && spawnLog == old(spawnLog) && pool == old(pool)
    {
      autoSpawnPause := !autoSpawnPause;
    }
  }

  /** The body of update_firework_lights on the slots `fs` and the light buffer `lights`. */
  method RebuildLights(fs: seq<Firework>, lights: UBOVector<Light>, pow15: real -> real)
    requires forall i :: 0 <= i < |fs| ==> fs[i].Valid() && fs[i].LightDefined()
    requires LightBufferValid(lights)
    modifies lights
    ensures LightBufferValid(lights)
    ensures lights.data == ActiveLights(fs, pow15)
    ensures |lights.data| == CountTrue(ActiveFlags(fs)) <= |fs|
    ensures lights.writes == old(lights.writes) + FlushWrites(lights.data, lights.maxCount, LightAlignment)
  {
    CollectLights(fs, lights, pow15);
    lights.UpdateOpenglData();
    ActiveLightsCount(fs, pow15);
  }

  /** The loop of update_firework_lights: the light list is cleared, then one light is appended per active slot. */
  method CollectLights(fs: seq<Firework>, lights: UBOVector<Light>, pow15: real -> real)
    requires forall i :: 0 <= i < |fs| ==> fs[i].Valid() && fs[i].LightDefined()
    modifies lights
    ensures lights.data == ActiveLights(fs, pow15)
    ensures lights.writes == old(lights.writes) && lights.maxCount == old(lights.maxCount) && lights.flags == old(lights.flags)
    ensures lights.handle == old(lights.handle) && lights.target == old(lights.target) && lights.cpuOnly == old(lights.cpuOnly)
    ensures lights.storageBytes == old(lights.storageBytes)
  {
    lights.DataClear();
    for i := 0 to |fs|
      invariant lights.data == ActiveLights(fs[..i], pow15)
      invariant lights.writes == old(lights.writes) && lights.maxCount == old(lights.maxCount) && lights.flags == old(lights.flags)
      invariant lights.handle == old(lights.handle) && lights.target == old(lights.target) && lights.cpuOnly == old(lights.cpuOnly)
      invariant lights.storageBytes == old(lights.storageBytes)
    {
      var firework := fs[i];
      assert fs[..i + 1][..i] == fs[..i] && fs[..i + 1][i] == firework;
      if firework.active {
        var light := firework.GenerateLight(pow15(1.0 - firework.state.fadeSizeMult));
        lights.DataPushBack(light.value);
      }
    }
    assert fs[..|fs|] == fs;
  }

  function Larger(a: nat, b: nat): nat { if a > b then a else b }
  function Smaller(a: nat, b: nat): nat { if a < b then a else b }

  /** The ranges reset_fireworks_config sets; `maxAngle` is glm::radians(8). */
  function DefaultRandomization(maxAngle: real): RandomizationParams {
    RandomizationParams(
      450, 570,
      Vec3(-1.0, 0.3, -1.0), Vec3(1.0, 0.5, 1.0),
      Vec3(0.0, 1.0, 0.0), maxAngle,
      0.0215, 0.2, 0.00007, 0.4, 0.01, 0.2,
      0.45, 0.4, 3.0,
      0.115, 1.0, 0.31, 0.1,
      0.11, 0.8, 0.25, 0.7,
      750.0, 0.13, 70.0, 0.1, 1100.0, 0.25)
  }
}
