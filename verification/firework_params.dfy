// Firework parameters of the firework demo: the randomisation ranges, the
// parameters one firework is launched with, the three factories that build
// them, the derived times, and the packed record the compute shader reads.
//
// Floats are modelled as reals and random draws are inputs. The launch
// direction (a random point of a cone around `up`, built with sin, cos, sqrt
// and normalize) is an input too.

module FireworkParameters {
  import opened MathUtil

  // ---------------------------------------------------------------- integer widths

  const U32Modulus: nat := 0x1_0000_0000

  /** Conversion of a size_t to unsigned int: keeps the low 32 bits. */
  function U32(n: nat): (r: nat)
    ensures r < U32Modulus && r <= n
    ensures n < U32Modulus ==> r == n
  {
    n % U32Modulus
  }

  // ---------------------------------------------------------------- records

  /** The ranges random fireworks are drawn from. */
  datatype RandomizationParams = RandomizationParams(
    particleCountMin: nat,
    particleCountMax: nat,
    startPosMin: Vec3,
    startPosMax: Vec3,
    up: Vec3,
    maxAngle: real,
    velSizeBase: real,
    velSizeVariance: real,
    explosionForceBase: real,
    explosionForceVariance: real,
    explosionForceVarianceBase: real,
    explosionForceVarianceVariance: real,
    particleSizeBaseBase: real,
    particleSizeBaseVariance: real,
    rocketSizeMult: real,
    hueBase: real,
    hueRange: real,
    saturationBase: real,
    saturationRange: real,
    hueVarianceBase: real,
    hueVarianceVariance: real,
    saturationVarianceBase: real,
    saturationVarianceVariance: real,
    flying1DurationBase: real,
    flying1DurationVariance: real,
    explosionDurationBase: real,
    explosionDurationVariance: real,
    flying2DurationBase: real,
    flying2DurationVariance: real)

  /** A copy of the parameters one firework is launched with. */
  datatype Params = Params(
    particleCount: nat,
    pos: Vec3,
    vel: Vec3,
    explosionForce: real,
    explosionForceVariance: real,
    particleSizeBase: real,
    rocketSizeMult: real,
    color: Vec3,
    hueVariance: real,
    saturationVariance: real,
    flying1Duration: real,
    explosionDuration: real,
    flying2Duration: real,
    fadeDelay: real,
    fadeStartVariance: real,
    fadeEndVariance: real,
    fadeSizeMult: real,
    blinkDelay: real,
    blinkFreq: real,
    blinkStartVariance: real,
    blinkFreqVariance: real,
    blinkSizeMult: real)
  {
    /** The rocket explodes when the first flight ends. */
    function ExplosionTime(): real {
      flying1Duration
    }

    /** The second flight starts when the explosion ends. */
    function Flying2Time(): real {
      flying1Duration + explosionDuration
    }

    /** The firework dies when the second flight ends. */
    function EndTime(): real {
      flying1Duration + explosionDuration + flying2Duration
    }

    /** Fading starts a fraction fadeDelay into the second flight. */
    function FadeStart(): real {
      Flying2Time() + Mul(fadeDelay, flying2Duration)
    }

    /** Blinking starts a fraction blinkDelay into the second flight. */
    function BlinkStart(): real {
      Flying2Time() + Mul(blinkDelay, flying2Duration)
    }

    predicate DurationsNonNegative() {
      flying1Duration >= 0.0 && explosionDuration >= 0.0 && flying2Duration >= 0.0
    }
  }

  /** Each phase time is the previous one plus the duration of the phase in between. */
  lemma TimesOrdered(p: Params)
    ensures p.ExplosionTime() == p.flying1Duration
    ensures p.Flying2Time() - p.ExplosionTime() == p.explosionDuration
    ensures p.EndTime() - p.Flying2Time() == p.flying2Duration
    ensures p.DurationsNonNegative() ==> 0.0 <= p.ExplosionTime() <= p.Flying2Time() <= p.EndTime()
  {
  }

  /** With delays in [0, 1], fading and blinking start during the second flight. */
  lemma FadeAndBlinkInSecondFlight(p: Params)
    requires p.flying2Duration >= 0.0
    requires 0.0 <= p.fadeDelay <= 1.0 && 0.0 <= p.blinkDelay <= 1.0
    ensures p.Flying2Time() <= p.FadeStart() <= p.EndTime()
    ensures p.Flying2Time() <= p.BlinkStart() <= p.EndTime()
  {
    ScaleBound(p.flying2Duration, p.fadeDelay);
    ScaleBound(p.flying2Duration, p.blinkDelay);
  }

  // ---------------------------------------------------------------- the mutable parameter object

  /**
   * FireworkParams as the factories use it: a default-constructed object
   * whose field groups are filled in by the setters.
   */
  class FireworkParams {
    var particleCount: nat
    var pos: Vec3
    var vel: Vec3
    var explosionForce: real
    var explosionForceVariance: real
    var particleSizeBase: real
    var rocketSizeMult: real
    var color: Vec3
    var hueVariance: real
    var saturationVariance: real
    var flying1Duration: real
    var explosionDuration: real
    var flying2Duration: real
    var fadeDelay: real
    var fadeStartVariance: real
    var fadeEndVariance: real
    var fadeSizeMult: real
    var blinkDelay: real
    var blinkFreq: real
    var blinkStartVariance: real
    var blinkFreqVariance: real
    var blinkSizeMult: real

    /** The object copied by value, as activate receives it. */
    function Value(): Params
      reads this
    {
      Params(particleCount, pos, vel, explosionForce, explosionForceVariance,
        particleSizeBase, rocketSizeMult, color, hueVariance, saturationVariance,
        flying1Duration, explosionDuration, flying2Duration,
        fadeDelay, fadeStartVariance, fadeEndVariance, fadeSizeMult,
        blinkDelay, blinkFreq, blinkStartVariance, blinkFreqVariance, blinkSizeMult)
    }

    /** The defaulted constructor: every field holds whatever it was given, nothing is promised. */
    constructor ()
    {
    }

    /** The count arrives as unsigned int, so a size_t argument loses its high bits. */
    method SetParticleCount(particleCount: nat)
      modifies this
      ensures Value() == old(Value()).(particleCount := U32(particleCount))
    {
      this.particleCount := U32(particleCount);
    }

    method SetPhysics(pos: Vec3, vel: Vec3, explosionForce: real, explosionForceVariance: real)
      modifies this
      ensures Value() == old(Value()).(pos := pos, vel := vel, explosionForce := explosionForce,
                                       explosionForceVariance := explosionForceVariance)
    {
      ghost var before := Value();
      this.pos := pos;
      this.vel := vel;
      this.explosionForce := explosionForce;
      this.explosionForceVariance := explosionForceVariance;
      assert Value() == before.(pos := pos, vel := vel, explosionForce := explosionForce,
                            explosionForceVariance := explosionForceVariance);
    }

    method SetSizing(particleSizeBase: real, rocketSizeMult: real)
      modifies this
      ensures Value() == old(Value()).(particleSizeBase := particleSizeBase, rocketSizeMult := rocketSizeMult)
    {
      ghost var before := Value();
      this.particleSizeBase := particleSizeBase;
      this.rocketSizeMult := rocketSizeMult;
      assert Value() == before.(particleSizeBase := particleSizeBase, rocketSizeMult := rocketSizeMult);
    }

    method SetColor(color: Vec3, hueVariance: real, saturationVariance: real)
      modifies this
      ensures Value() == old(Value()).(color := color, hueVariance := hueVariance,
                                       saturationVariance := saturationVariance)
    {
      ghost var before := Value();
      this.color := color;
      this.hueVariance := hueVariance;
      this.saturationVariance := saturationVariance;
      assert Value() == before.(color := color, hueVariance := hueVariance,
                            saturationVariance := saturationVariance);
    }

    method SetTiming(flying1Duration: real, explosionDuration: real, flying2Duration: real)
      modifies this
      ensures Value() == old(Value()).(flying1Duration := flying1Duration, explosionDuration := explosionDuration,
                                       flying2Duration := flying2Duration)
    {
      ghost var before := Value();
      this.flying1Duration := flying1Duration;
      this.explosionDuration := explosionDuration;
      this.flying2Duration := flying2Duration;
      assert Value() == before.(flying1Duration := flying1Duration, explosionDuration := explosionDuration,
                            flying2Duration := flying2Duration);
    }

    method SetFading(fadeDelay: real, fadeStartVariance: real, fadeEndVariance: real, fadeSizeMult: real)
      modifies this
      ensures Value() == old(Value()).(fadeDelay := fadeDelay, fadeStartVariance := fadeStartVariance,
                                       fadeEndVariance := fadeEndVariance, fadeSizeMult := fadeSizeMult)
    {
      ghost var before := Value();
      this.fadeDelay := fadeDelay;
      this.fadeStartVariance := fadeStartVariance;
      this.fadeEndVariance := fadeEndVariance;
      this.fadeSizeMult := fadeSizeMult;
      assert Value() == before.(fadeDelay := fadeDelay, fadeStartVariance := fadeStartVariance,
                            fadeEndVariance := fadeEndVariance, fadeSizeMult := fadeSizeMult);
    }

    method SetBlinking(blinkDelay: real, blinkFreq: real, blinkStartVariance: real, blinkFreqVariance: real,
                       blinkSizeMult: real)
      modifies this
      ensures Value() == old(Value()).(blinkDelay := blinkDelay, blinkFreq := blinkFreq,
                                       blinkStartVariance := blinkStartVariance,
                                       blinkFreqVariance := blinkFreqVariance, blinkSizeMult := blinkSizeMult)
    {
      ghost var before := Value();
      this.blinkDelay := blinkDelay;
      this.blinkFreq := blinkFreq;
      this.blinkStartVariance := blinkStartVariance;
      this.blinkFreqVariance := blinkFreqVariance;
      this.blinkSizeMult := blinkSizeMult;
      assert Value() == before.(blinkDelay := blinkDelay, blinkFreq := blinkFreq,
                            blinkStartVariance := blinkStartVariance,
                            blinkFreqVariance := blinkFreqVariance, blinkSizeMult := blinkSizeMult);
    }

    /** create_default: fills every field from the bases of the ranges. */
    static method CreateDefault(fr: RandomizationParams) returns (params: FireworkParams)
      ensures fresh(params)
      ensures params.Value() == DefaultParams(fr)
    {
      params := new FireworkParams();
      params.SetFading(FadePreset.0, FadePreset.1, FadePreset.2, FadePreset.3);
      params.SetBlinking(BlinkPreset.0, BlinkPreset.1, BlinkPreset.2, BlinkPreset.3, BlinkPreset.4);
      params.SetParticleCount((fr.particleCountMin + fr.particleCountMax) / 2);
      var pos := Scale(0.5, Add(fr.startPosMin, fr.startPosMax));
      var vel := Scale(fr.velSizeBase, fr.up);
      params.SetPhysics(pos, vel, fr.explosionForceBase, fr.explosionForceVarianceBase);
      params.SetSizing(fr.particleSizeBaseBase, fr.rocketSizeMult);
      var color := HsvToRgb(Vec3(fr.hueBase, fr.saturationBase, 1.0));
      params.SetColor(color, fr.hueVarianceBase, fr.saturationVarianceBase);
      params.SetTiming(fr.flying1DurationBase, fr.explosionDurationBase, fr.flying2DurationBase);
    }

    /** create_random_at: a launch from pos with every other field drawn from its range. */
    static method CreateRandomAt(fr: RandomizationParams, pos: Vec3, d: Draws) returns (params: FireworkParams)
      ensures fresh(params)
      ensures params.Value() == RandomAtParams(fr, pos, d)
    {
      params := new FireworkParams();
      params.SetTiming(750.0, 70.0, 1100.0);
      params.SetFading(FadePreset.0, FadePreset.1, FadePreset.2, FadePreset.3);
      params.SetBlinking(BlinkPreset.0, BlinkPreset.1, BlinkPreset.2, BlinkPreset.3, BlinkPreset.4);
      params.SetParticleCount(d.count);

      var velSize := Jittered(fr.velSizeBase, fr.velSizeVariance, d.velSize);
      var vel := Scale(velSize, d.direction);
      var explosionForce := Jittered(fr.explosionForceBase, fr.explosionForceVariance, d.explosionForce);
      var explosionForceVariance := Jittered(fr.explosionForceVarianceBase, fr.explosionForceVarianceVariance,
                                             d.explosionForceVariance);
      params.SetPhysics(pos, vel, explosionForce, explosionForceVariance);

      var particleSizeBase := Jittered(fr.particleSizeBaseBase, fr.particleSizeBaseVariance, d.particleSize);
      params.SetSizing(particleSizeBase, fr.rocketSizeMult);

      var hue := RandomHue(fr, d.hue);
      var sat := RandomSaturation(fr, d.saturation);
      var color := HsvToRgb(Vec3(hue, sat, 1.0));
      var hueVariance := Jittered(fr.hueVarianceBase, fr.hueVarianceVariance, d.hueVariance);
      var saturationVariance := Jittered(fr.saturationVarianceBase, fr.saturationVarianceVariance,
                                         d.saturationVariance);
      params.SetColor(color, hueVariance, saturationVariance);

      var flying1 := Jittered(fr.flying1DurationBase, fr.flying1DurationVariance, d.flying1);
      var explosion := Jittered(fr.explosionDurationBase, fr.explosionDurationVariance, d.explosion);
      var flying2 := Jittered(fr.flying2DurationBase, fr.flying2DurationVariance, d.flying2);
      params.SetTiming(flying1, explosion, flying2);
    }

    /** create_random: a launch from a random point of the start box. */
    static method CreateRandom(fr: RandomizationParams, u: Vec3, d: Draws) returns (params: FireworkParams)
      ensures fresh(params)
      ensures params.Value() == RandomAtParams(fr, RandomPosition(fr, u), d)
    {
      var x := Linmap01(fr.startPosMin.x, fr.startPosMax.x, u.x);
      var y := Linmap01(fr.startPosMin.y, fr.startPosMax.y, u.y);
      var z := Linmap01(fr.startPosMin.z, fr.startPosMax.z, u.z);
      params := CreateRandomAt(fr, Vec3(x, y, z), d);
    }
  }

  // ---------------------------------------------------------------- what the factories produce

  /** Fade delay, start variance, end variance and size multiplier every factory sets. */
  const FadePreset: (real, real, real, real) := (0.3, 0.25, 0.3, 0.5)

  /** Blink delay, frequency, start variance, frequency variance and size multiplier every factory sets. */
  const BlinkPreset: (real, real, real, real, real) := (0.6, 100.0, 0.5, 0.8, 0.45)

  /** Fills in the fading and blinking presets. */
  function WithPresets(p: Params): Params {
    p.(fadeDelay := FadePreset.0, fadeStartVariance := FadePreset.1, fadeEndVariance := FadePreset.2,
       fadeSizeMult := FadePreset.3,
       blinkDelay := BlinkPreset.0, blinkFreq := BlinkPreset.1, blinkStartVariance := BlinkPreset.2,
       blinkFreqVariance := BlinkPreset.3, blinkSizeMult := BlinkPreset.4)
  }

  /** The deterministic firework: mid-range count, box centre, straight up, base colour and timing. */
  function DefaultParams(fr: RandomizationParams): Params {
    WithPresets(Params(
      U32((fr.particleCountMin + fr.particleCountMax) / 2),
      Scale(0.5, Add(fr.startPosMin, fr.startPosMax)),
      Scale(fr.velSizeBase, fr.up),
      fr.explosionForceBase, fr.explosionForceVarianceBase,
      fr.particleSizeBaseBase, fr.rocketSizeMult,
      HsvToRgb(Vec3(fr.hueBase, fr.saturationBase, 1.0)), fr.hueVarianceBase, fr.saturationVarianceBase,
      fr.flying1DurationBase, fr.explosionDurationBase, fr.flying2DurationBase,
      0.0, 0.0, 0.0, 0.0, 0.0, 0.0, 0.0, 0.0, 0.0))
  }

  /**
   * The random draws one create_random_at call consumes, in [0, 1) each
   * (random01), except `count`, the uniform_int_distribution sample, and
   * `direction`, the normalised launch direction.
   */
  datatype Draws = Draws(
    count: nat,
    direction: Vec3,
    velSize: real,
    explosionForce: real,
    explosionForceVariance: real,
    particleSize: real,
    hue: real,
    saturation: real,
    hueVariance: real,
    saturationVariance: real,
    flying1: real,
    explosion: real,
    flying2: real)
  {
    /** What the generators guarantee: a count in the configured range and samples in [0, 1). */
    predicate ValidFor(fr: RandomizationParams) {
      fr.particleCountMin <= count <= fr.particleCountMax
      && 0.0 <= velSize < 1.0 && 0.0 <= explosionForce < 1.0 && 0.0 <= explosionForceVariance < 1.0
      && 0.0 <= particleSize < 1.0 && 0.0 <= hue < 1.0 && 0.0 <= saturation < 1.0
      && 0.0 <= hueVariance < 1.0 && 0.0 <= saturationVariance < 1.0
      && 0.0 <= flying1 < 1.0 && 0.0 <= explosion < 1.0 && 0.0 <= flying2 < 1.0
    }
  }

  /** base * (1 + linmap01v(variance, u)): base moved by at most the fraction `variance` either way. */
  function Jittered(base: real, variance: real, u: real): real {
    Mul(base, 1.0 + Linmap01v(variance, u))
  }

  /** The hue: base plus a shift in [-range/2, range/2], wrapped into [0, 1). */
  function RandomHue(fr: RandomizationParams, u: real): (hue: real)
    ensures 0.0 <= hue < 1.0
  {
    FMod(fr.hueBase + Linmap01v(fr.hueRange * 0.5, u), 1.0)
  }

  function SaturationMin(fr: RandomizationParams): real {
    Max(fr.saturationBase - fr.saturationRange * 0.5, 0.0)
  }

  function SaturationMax(fr: RandomizationParams): real {
    Min(fr.saturationBase + fr.saturationRange * 0.5, 1.0)
  }

  /** The saturation: a point between the range clipped to [0, 1]. */
  function RandomSaturation(fr: RandomizationParams, u: real): real {
    Linmap01(SaturationMin(fr), SaturationMax(fr), u)
  }

  /** The start position create_random picks: one linmap01 per axis. */
  function RandomPosition(fr: RandomizationParams, u: Vec3): Vec3 {
    Vec3(Linmap01(fr.startPosMin.x, fr.startPosMax.x, u.x),
         Linmap01(fr.startPosMin.y, fr.startPosMax.y, u.y),
         Linmap01(fr.startPosMin.z, fr.startPosMax.z, u.z))
  }

  /** Everything create_random_at sets; the 750/70/1100 placeholder timing does not survive. */
  function RandomAtParams(fr: RandomizationParams, pos: Vec3, d: Draws): Params {
    WithPresets(Params(
      U32(d.count),
      pos,
      Scale(Jittered(fr.velSizeBase, fr.velSizeVariance, d.velSize), d.direction),
      Jittered(fr.explosionForceBase, fr.explosionForceVariance, d.explosionForce),
      Jittered(fr.explosionForceVarianceBase, fr.explosionForceVarianceVariance, d.explosionForceVariance),
      Jittered(fr.particleSizeBaseBase, fr.particleSizeBaseVariance, d.particleSize),
      fr.rocketSizeMult,
      HsvToRgb(Vec3(RandomHue(fr, d.hue), RandomSaturation(fr, d.saturation), 1.0)),
      Jittered(fr.hueVarianceBase, fr.hueVarianceVariance, d.hueVariance),
      Jittered(fr.saturationVarianceBase, fr.saturationVarianceVariance, d.saturationVariance),
      Jittered(fr.flying1DurationBase, fr.flying1DurationVariance, d.flying1),
      Jittered(fr.explosionDurationBase, fr.explosionDurationVariance, d.explosion),
      Jittered(fr.flying2DurationBase, fr.flying2DurationVariance, d.flying2),
      0.0, 0.0, 0.0, 0.0, 0.0, 0.0, 0.0, 0.0, 0.0))
  }

  // ---------------------------------------------------------------- properties of the factories

  /** A jittered value lies between base * (1 - variance) and base * (1 + variance). */
  lemma JitterBetween(base: real, variance: real, u: real)
    requires 0.0 <= u <= 1.0
    ensures Between(Mul(base, 1.0 - variance), Mul(base, 1.0 + variance), Jittered(base, variance, u))
    ensures Jittered(base, variance, 0.5) == base
  {
    Linmap01vProperties(variance, u);
    Linmap01Between(-variance, variance, u);
    Linmap01vProperties(variance, 0.5);
    MulBetween(base, 1.0 - variance, 1.0 + variance, 1.0 + Linmap01v(variance, u));
  }

  /** A non-negative base jittered by at most 100% stays non-negative. */
  lemma JitterNonNegative(base: real, variance: real, u: real)
    requires base >= 0.0 && 0.0 <= variance <= 1.0 && 0.0 <= u <= 1.0
    ensures Jittered(base, variance, u) >= 0.0
  {
    Linmap01vProperties(variance, u);
    var factor := 1.0 + Linmap01v(variance, u);
    MulMonotone(base, 0.0, factor);
  }

  /**
   * The default firework takes the middle of the count range, the centre of
   * the start box, the base velocity along `up`, the base durations and the
   * presets.
   */
  lemma DefaultParamsProperties(fr: RandomizationParams)
    requires fr.particleCountMin <= fr.particleCountMax < U32Modulus
    ensures var p := DefaultParams(fr);
      && fr.particleCountMin <= p.particleCount <= fr.particleCountMax
      && Between(fr.startPosMin.x, fr.startPosMax.x, p.pos.x)
      && Between(fr.startPosMin.y, fr.startPosMax.y, p.pos.y)
      && Between(fr.startPosMin.z, fr.startPosMax.z, p.pos.z)
      && p.vel == Scale(fr.velSizeBase, fr.up)
      && p.flying1Duration == fr.flying1DurationBase
      && p.explosionDuration == fr.explosionDurationBase
      && p.flying2Duration == fr.flying2DurationBase
      && p == WithPresets(p)
  {
  }

  /** Every start position create_random picks lies inside the start box. */
  lemma RandomPositionInBox(fr: RandomizationParams, u: Vec3)
    requires 0.0 <= u.x <= 1.0 && 0.0 <= u.y <= 1.0 && 0.0 <= u.z <= 1.0
    ensures var pos := RandomPosition(fr, u);
      && Between(fr.startPosMin.x, fr.startPosMax.x, pos.x)
      && Between(fr.startPosMin.y, fr.startPosMax.y, pos.y)
      && Between(fr.startPosMin.z, fr.startPosMax.z, pos.z)
  {
    Linmap01Between(fr.startPosMin.x, fr.startPosMax.x, u.x);
    Linmap01Between(fr.startPosMin.y, fr.startPosMax.y, u.y);
    Linmap01Between(fr.startPosMin.z, fr.startPosMax.z, u.z);
  }

  /** The count of a random firework is the drawn one, so it lies in the configured range. */
  lemma RandomAtCount(fr: RandomizationParams, pos: Vec3, d: Draws)
    requires d.ValidFor(fr) && fr.particleCountMax < U32Modulus
    ensures fr.particleCountMin <= RandomAtParams(fr, pos, d).particleCount <= fr.particleCountMax
  {
  }

  /** Every jittered field of a random firework stays within its base's variance band. */
  lemma RandomAtJitter(fr: RandomizationParams, pos: Vec3, d: Draws)
    requires d.ValidFor(fr)
    ensures var p := RandomAtParams(fr, pos, d);
      && Between(Mul(fr.explosionForceBase, 1.0 - fr.explosionForceVariance),
                 Mul(fr.explosionForceBase, 1.0 + fr.explosionForceVariance), p.explosionForce)
      && Between(Mul(fr.explosionForceVarianceBase, 1.0 - fr.explosionForceVarianceVariance),
                 Mul(fr.explosionForceVarianceBase, 1.0 + fr.explosionForceVarianceVariance),
                 p.explosionForceVariance)
      && Between(Mul(fr.particleSizeBaseBase, 1.0 - fr.particleSizeBaseVariance),
                 Mul(fr.particleSizeBaseBase, 1.0 + fr.particleSizeBaseVariance), p.particleSizeBase)
      && Between(Mul(fr.hueVarianceBase, 1.0 - fr.hueVarianceVariance),
                 Mul(fr.hueVarianceBase, 1.0 + fr.hueVarianceVariance), p.hueVariance)
      && Between(Mul(fr.saturationVarianceBase, 1.0 - fr.saturationVarianceVariance),
                 Mul(fr.saturationVarianceBase, 1.0 + fr.saturationVarianceVariance), p.saturationVariance)
      && Between(Mul(fr.flying1DurationBase, 1.0 - fr.flying1DurationVariance),
                 Mul(fr.flying1DurationBase, 1.0 + fr.flying1DurationVariance), p.flying1Duration)
      && Between(Mul(fr.explosionDurationBase, 1.0 - fr.explosionDurationVariance),
                 Mul(fr.explosionDurationBase, 1.0 + fr.explosionDurationVariance), p.explosionDuration)
      && Between(Mul(fr.flying2DurationBase, 1.0 - fr.flying2DurationVariance),
                 Mul(fr.flying2DurationBase, 1.0 + fr.flying2DurationVariance), p.flying2Duration)
  {
    JitterBetween(fr.explosionForceBase, fr.explosionForceVariance, d.explosionForce);
    JitterBetween(fr.explosionForceVarianceBase, fr.explosionForceVarianceVariance, d.explosionForceVariance);
    JitterBetween(fr.particleSizeBaseBase, fr.particleSizeBaseVariance, d.particleSize);
    JitterBetween(fr.hueVarianceBase, fr.hueVarianceVariance, d.hueVariance);
    JitterBetween(fr.saturationVarianceBase, fr.saturationVarianceVariance, d.saturationVariance);
    JitterBetween(fr.flying1DurationBase, fr.flying1DurationVariance, d.flying1);
    JitterBetween(fr.explosionDurationBase, fr.explosionDurationVariance, d.explosion);
    JitterBetween(fr.flying2DurationBase, fr.flying2DurationVariance, d.flying2);
  }

  /** With non-negative bases and variances of at most 1, the drawn durations are non-negative. */
  lemma RandomAtDurationsNonNegative(fr: RandomizationParams, pos: Vec3, d: Draws)
    requires d.ValidFor(fr)
    requires fr.flying1DurationBase >= 0.0 && fr.explosionDurationBase >= 0.0 && fr.flying2DurationBase >= 0.0
    requires 0.0 <= fr.flying1DurationVariance <= 1.0 && 0.0 <= fr.explosionDurationVariance <= 1.0
    requires 0.0 <= fr.flying2DurationVariance <= 1.0
    ensures RandomAtParams(fr, pos, d).DurationsNonNegative()
  {
    JitterNonNegative(fr.flying1DurationBase, fr.flying1DurationVariance, d.flying1);
    JitterNonNegative(fr.explosionDurationBase, fr.explosionDurationVariance, d.explosion);
    JitterNonNegative(fr.flying2DurationBase, fr.flying2DurationVariance, d.flying2);
  }

  /** The drawn saturation lies in the clipped range; when that range is not empty, it lies in [0, 1]. */
  lemma RandomSaturationInRange(fr: RandomizationParams, u: real)
    requires 0.0 <= u <= 1.0
    ensures Between(SaturationMin(fr), SaturationMax(fr), RandomSaturation(fr, u))
    ensures 0.0 <= SaturationMin(fr) && SaturationMax(fr) <= 1.0
    ensures SaturationMin(fr) <= SaturationMax(fr) ==> 0.0 <= RandomSaturation(fr, u) <= 1.0
  {
    Linmap01Between(SaturationMin(fr), SaturationMax(fr), u);
  }

  /**
   * The colour of a random firework is fully bright: its largest component is
   * 1 and, when the saturation range is not empty, every component lies in [0, 1].
   */
  lemma RandomAtColor(fr: RandomizationParams, pos: Vec3, d: Draws)
    requires d.ValidFor(fr)
    requires SaturationMin(fr) <= SaturationMax(fr)
    ensures var c := RandomAtParams(fr, pos, d).color;
      && Max3(c) == 1.0
      && 0.0 <= c.x <= 1.0 && 0.0 <= c.y <= 1.0 && 0.0 <= c.z <= 1.0
  {
    var s := RandomSaturation(fr, d.saturation);
    RandomSaturationInRange(fr, d.saturation);
    HsvComponentBounds(RandomHue(fr, d.hue), s, 1.0);
  }

  // ---------------------------------------------------------------- the record the compute shader reads

  /** FireworkParamsGpu: the fields the shaders need, in declaration order. */
  datatype ParamsGpu = ParamsGpu(
    particleCount: nat,
    explosionForce: real,
    explosionForceVariance: real,
    particleSizeBase: real,
    rocketSizeMult: real,
    hueVariance: real,
    saturationVariance: real,
    endTime: real,
    fadeStart: real,
    fadeStartVariance: real,
    fadeEndVariance: real,
    fadeSizeMult: real,
    blinkStart: real,
    blinkFreq: real,
    blinkStartVariance: real,
    blinkFreqVariance: real,
    blinkSizeMult: real)

  /** The FireworkParamsGpu constructor: copies the shader's fields and resolves the times. */
  function GpuFromParams(p: Params): ParamsGpu {
    ParamsGpu(U32(p.particleCount), p.explosionForce, p.explosionForceVariance,
      p.particleSizeBase, p.rocketSizeMult, p.hueVariance, p.saturationVariance,
      p.EndTime(), p.FadeStart(), p.fadeStartVariance, p.fadeEndVariance, p.fadeSizeMult,
      p.BlinkStart(), p.blinkFreq, p.blinkStartVariance, p.blinkFreqVariance, p.blinkSizeMult)
  }

  /**
   * The shader sees the firework's own count and lifetime, and with delays in
   * [0, 1] it starts fading and blinking before the firework dies.
   */
  lemma GpuFromParamsProperties(p: Params)
    requires p.particleCount < U32Modulus
    requires p.flying2Duration >= 0.0
    requires 0.0 <= p.fadeDelay <= 1.0 && 0.0 <= p.blinkDelay <= 1.0
    ensures var g := GpuFromParams(p);
      && g.particleCount == p.particleCount
      && g.endTime == p.flying1Duration + p.explosionDuration + p.flying2Duration
      && p.Flying2Time() <= g.fadeStart <= g.endTime
      && p.Flying2Time() <= g.blinkStart <= g.endTime
  {
    FadeAndBlinkInSecondFlight(p);
  }

  // ---------------------------------------------------------------- byte layout

  /** The scalar kinds of the GPU record: unsigned int and float, 4 bytes each. */
  datatype Scalar = UInt32 | Float32 {
    function Size(): nat { 4 }
    function Alignment(): nat { 4 }
  }

  /** The FireworkParamsGpu fields in declaration order. */
  const GpuFieldNames: seq<string> := [
    "particle_count", "explosion_force", "explosion_force_variance", "particle_size_base",
    "rocket_size_mult", "hue_variance", "saturation_variance", "end_time", "fade_start",
    "fade_start_variance", "fade_end_variance", "fade_size_mult", "blink_start", "blink_freq",
    "blink_start_variance", "blink_freq_variance", "blink_size_mult"]

  const GpuFieldTypes: seq<Scalar> := [UInt32] + seq(16, _ => Float32)

  /** The smallest multiple of `alignment` that is at least n. */
  function AlignUp(n: nat, alignment: nat): nat
    requires alignment > 0
  {
    n + (alignment - n % alignment) % alignment
  }

  /** Where the first k fields end, each placed at the next offset its alignment allows. */
  function FieldsEnd(fields: seq<Scalar>, k: nat): nat
    requires k <= |fields|
    decreases k, 0
  {
    if k == 0 then 0 else FieldOffset(fields, k - 1) + fields[k - 1].Size()
  }

  /** offsetof of field k. */
  function FieldOffset(fields: seq<Scalar>, k: nat): nat
    requires k < |fields|
    decreases k, 1
  {
    AlignUp(FieldsEnd(fields, k), fields[k].Alignment())
  }

  /** sizeof of the record: the end of the last field, rounded up to the 4-byte alignment of every field. */
  function RecordSize(fields: seq<Scalar>): nat {
    AlignUp(FieldsEnd(fields, |fields|), 4)
  }

  /** With only 4-byte fields there is no padding: the first k fields end at byte 4k. */
  lemma {:induction false} PackedFieldsEnd(fields: seq<Scalar>, k: nat)
    requires k <= |fields|
    ensures FieldsEnd(fields, k) == 4 * k
  {
    if k > 0 {
      PackedFieldsEnd(fields, k - 1);
    }
  }

  /** The layout the static_asserts demand: field k at byte 4k, 68 bytes in all. */
  lemma GpuLayout()
    ensures |GpuFieldTypes| == |GpuFieldNames| == 17
    ensures forall k :: 0 <= k < 17 ==> FieldOffset(GpuFieldTypes, k) == 4 * k
    ensures RecordSize(GpuFieldTypes) == 68
  {
    forall k | 0 <= k < 17
      ensures FieldOffset(GpuFieldTypes, k) == 4 * k
    {
      PackedFieldsEnd(GpuFieldTypes, k);
    }
    PackedFieldsEnd(GpuFieldTypes, 17);
  }
}
