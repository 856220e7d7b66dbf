/**
 * Small numeric helpers of the firework demo: the linear maps used for every
 * random draw, the HSV to RGB conversion used for firework colours, and the
 * lazily created process-wide random generator.
 *
 * Floats are modelled as mathematical reals: rounding is not modelled.
 */
module MathUtil {

  /** std::optional */
  datatype Option<T> = None | Some(value: T)

  /** glm::vec3; the colour aliases r, g, b are x, y, z. */
  datatype Vec3 = Vec3(x: real, y: real, z: real)

  /** glm::vec4 */
  datatype Vec4 = Vec4(x: real, y: real, z: real, w: real)

  function Add(a: Vec3, b: Vec3): Vec3 {
    Vec3(a.x + b.x, a.y + b.y, a.z + b.z)
  }

  function Scale(k: real, a: Vec3): Vec3 {
    Vec3(k * a.x, k * a.y, k * a.z)
  }

  /** glm's `v + m` for a vector and a scalar: m is added to every component. */
  function AddScalar(a: Vec3, m: real): Vec3 {
    Vec3(a.x + m, a.y + m, a.z + m)
  }

  const Zero3: Vec3 := Vec3(0.0, 0.0, 0.0)

  function Min(a: real, b: real): real { if a <= b then a else b }
  function Max(a: real, b: real): real { if a <= b then b else a }
  function Abs(a: real): real { if a < 0.0 then -a else a }

  function Max3(c: Vec3): real { Max(c.x, Max(c.y, c.z)) }
  function Min3(c: Vec3): real { Min(c.x, Min(c.y, c.z)) }

  /** x lies between a and b, in whichever order the two bounds come. */
  predicate Between(a: real, b: real, x: real) {
    Min(a, b) <= x <= Max(a, b)
  }

  // ---------------------------------------------------------------- linear maps

  /**
   * Multiplication of two reals. Products of two variable quantities are
   * written through this function so that a bound proved once about a
   * product applies wherever the same product occurs.
   */
  function Mul(a: real, b: real): real {
    a * b
  }

  /** linmap: maps [a0, a1] linearly onto [b0, b1]; the float code divides by a1 - a0. */
  function Linmap(a0: real, a1: real, b0: real, b1: real, x: real): real
    requires a1 != a0
  {
    Mul(b1 - b0, x - a0) / (a1 - a0) + b0
  }

  /** linmap01: maps [0, 1] linearly onto [b0, b1]. */
  function Linmap01(b0: real, b1: real, x: real): real {
    Mul(b1 - b0, x) + b0
  }

  /** linmap01v: maps [0, 1] linearly onto [-v, v]. */
  function Linmap01v(v: real, x: real): real {
    Mul(v, 2.0 * x - 1.0)
  }

  lemma LinmapEndpoints(a0: real, a1: real, b0: real, b1: real)
    requires a1 != a0
    ensures Linmap(a0, a1, b0, b1, a0) == b0
    ensures Linmap(a0, a1, b0, b1, a1) == b1
  {
    var d := a1 - a0;
    assert Mul(b1 - b0, d) / d == b1 - b0;
  }

  /** linmap01 is linmap restricted to the source interval [0, 1], as its comment says. */
  lemma Linmap01IsLinmap(b0: real, b1: real, x: real)
    ensures Linmap01(b0, b1, x) == Linmap(0.0, 1.0, b0, b1, x)
    ensures Linmap01(b0, b1, 0.0) == b0 && Linmap01(b0, b1, 1.0) == b1
  {
  }

  /** The two bounds every scaling by a non-negative factor of at most 1 keeps. */
  lemma ScaleBound(d: real, x: real)
    ensures 0.0 <= d && 0.0 <= x <= 1.0 ==> 0.0 <= x * d <= d && 0.0 <= d * x <= d
  {
  }

  /** Scaling by a factor in [0, 1] moves towards 0 and never past d. */
  lemma MulUnitInterval(d: real, x: real)
    requires 0.0 <= x <= 1.0
    ensures d >= 0.0 ==> 0.0 <= Mul(d, x) <= d
    ensures d < 0.0 ==> d <= Mul(d, x) <= 0.0
  {
    if d >= 0.0 {
      ScaleBound(d, x);
    } else {
      ScaleBound(-d, x);
      assert (-d) * x == -(d * x);
    }
  }

  /** For x in [0, 1], linmap01 stays between its two targets. */
  lemma Linmap01Between(b0: real, b1: real, x: real)
    requires 0.0 <= x <= 1.0
    ensures Between(b0, b1, Linmap01(b0, b1, x))
  {
    MulUnitInterval(b1 - b0, x);
  }

  lemma SymmetricBound(v: real, u: real)
    requires v >= 0.0 && 0.0 <= u <= 1.0
    ensures -v <= Mul(v, 2.0 * u - 1.0) <= v
  {
  }

  /** linmap01v(v, x) is linmap01(-v, v, x), as its comment says; its centre is 0 and it stays in [-v, v]. */
  lemma Linmap01vProperties(v: real, x: real)
    ensures Linmap01v(v, x) == Linmap01(-v, v, x)
    ensures Linmap01v(v, 0.5) == 0.0
    ensures v >= 0.0 && 0.0 <= x <= 1.0 ==> -v <= Linmap01v(v, x) <= v
  {
    if v >= 0.0 && 0.0 <= x <= 1.0 {
      SymmetricBound(v, x);
    }
  }

  /** Multiplying by a fixed factor keeps order for a non-negative factor and reverses it otherwise. */
  lemma MulMonotone(b: real, s: real, t: real)
    requires s <= t
    ensures b >= 0.0 ==> b * s <= b * t
    ensures b < 0.0 ==> b * t <= b * s
  {
    assert b * t - b * s == b * (t - s);
  }

  /** Scaling by any factor maps a value between two bounds to a value between the scaled bounds. */
  lemma MulBetween(b: real, lo: real, hi: real, x: real)
    requires Between(lo, hi, x)
    ensures Between(Mul(b, lo), Mul(b, hi), Mul(b, x))
  {
    if lo <= hi {
      MulMonotone(b, lo, x);
      MulMonotone(b, x, hi);
    } else {
      MulMonotone(b, hi, x);
      MulMonotone(b, x, lo);
    }
  }

  /** Dividing a product by b divides its second factor by b. */
  lemma MulDivision(p: real, a: real, b: real)
    requires b != 0.0
    ensures Mul(p, a) / b == Mul(p, a / b)
  {
    var q := a / b;
    assert q * b == a;
    assert (p * q) * b == p * a;
  }

  // ---------------------------------------------------------------- HSV to RGB

  /** glm::mod for floats: x - y * floor(x / y). */
  function FMod(x: real, y: real): (r: real)
    requires y != 0.0
    ensures y == 1.0 || y == 2.0 ==> 0.0 <= r < y
  {
    x - y * (x / y).Floor as real
  }

  /** The chroma of hsv_to_rgb: saturation times value. */
  function Chroma(saturation: real, value: real): (c: real)
    ensures 0.0 <= saturation <= 1.0 && 0.0 <= value ==> 0.0 <= c <= value
  {
    ScaleBound(value, saturation);
    saturation * value
  }

  /**
   * The share of the chroma the middle component receives:
   * 1 - |mod(6h, 2) - 1|, a triangle wave between 0 and 1.
   */
  function HueWeight(hue6: real): (w: real)
    ensures 0.0 <= w <= 1.0
  {
    var f := FMod(hue6, 2.0);
    1.0 - Abs(f - 1.0)
  }

  /** The middle component of hsv_to_rgb before the offset: chroma times the hue weight. */
  function Secondary(chroma: real, weight: real): (x: real)
    ensures 0.0 <= chroma && 0.0 <= weight <= 1.0 ==> 0.0 <= x <= chroma
  {
    ScaleBound(chroma, weight);
    chroma * weight
  }

  /** hsv_to_rgb(vec3): the components of hsv are hue, saturation and value. */
  function HsvToRgb(hsv: Vec3): (rgb: Vec3)
  {
    var hue, saturation, value := hsv.x, hsv.y, hsv.z;
    var chroma := Chroma(saturation, value);
    var hue6 := hue * 6.0;
    var x := Secondary(chroma, HueWeight(hue6));
    var m := value - chroma;
    Sextant(hue6, chroma, x, m)
  }

  /** The branch chain of hsv_to_rgb: which component gets the chroma and which the middle part. */
  function Sextant(hue6: real, chroma: real, x: real, m: real): Vec3 {
    if hue6 < 1.0 then AddScalar(Vec3(chroma, x, 0.0), m)
    else if hue6 < 2.0 then AddScalar(Vec3(x, chroma, 0.0), m)
    else if hue6 < 3.0 then AddScalar(Vec3(0.0, chroma, x), m)
    else if hue6 < 4.0 then AddScalar(Vec3(0.0, x, chroma), m)
    else if hue6 < 5.0 then AddScalar(Vec3(x, 0.0, chroma), m)
    else AddScalar(Vec3(chroma, 0.0, x), m)
  }

  /** hsv_to_rgb(vec4): converts the first three components and keeps alpha. */
  function HsvToRgba(hsva: Vec4): (rgba: Vec4)
    ensures rgba.w == hsva.w
    ensures Vec3(rgba.x, rgba.y, rgba.z) == HsvToRgb(Vec3(hsva.x, hsva.y, hsva.z))
  {
    var rgb := HsvToRgb(Vec3(hsva.x, hsva.y, hsva.z));
    Vec4(rgb.x, rgb.y, rgb.z, hsva.w)
  }

  lemma HsvRed() ensures HsvToRgb(Vec3(0.0, 1.0, 1.0)) == Vec3(1.0, 0.0, 0.0) {}
  lemma HsvYellow() ensures HsvToRgb(Vec3(1.0 / 6.0, 1.0, 1.0)) == Vec3(1.0, 1.0, 0.0) {}
  lemma HsvGreen() ensures HsvToRgb(Vec3(2.0 / 6.0, 1.0, 1.0)) == Vec3(0.0, 1.0, 0.0) {}
  lemma HsvCyan() ensures HsvToRgb(Vec3(3.0 / 6.0, 1.0, 1.0)) == Vec3(0.0, 1.0, 1.0) {}
  lemma HsvBlue() ensures HsvToRgb(Vec3(4.0 / 6.0, 1.0, 1.0)) == Vec3(0.0, 0.0, 1.0) {}
  lemma HsvMagenta() ensures HsvToRgb(Vec3(5.0 / 6.0, 1.0, 1.0)) == Vec3(1.0, 0.0, 1.0) {}

  /**
   * The sextant is chosen by the strict comparisons hue6 < 1, ..., hue6 < 5:
   * a hue6 exactly on a boundary belongs to the next sextant, and every hue
   * at or past 5/6 (including hues of 1 or more, which are not wrapped)
   * falls into the last branch.
   */
  lemma SextantChoice(hue6: real, c: real, x: real, m: real)
    ensures hue6 == 1.0 ==> Sextant(hue6, c, x, m) == AddScalar(Vec3(x, c, 0.0), m)
    ensures hue6 >= 5.0 ==> Sextant(hue6, c, x, m) == AddScalar(Vec3(c, 0.0, x), m)
    ensures hue6 < 0.0 ==> Sextant(hue6, c, x, m) == AddScalar(Vec3(c, x, 0.0), m)
  {
  }

  /**
   * rgb is a colour of the given value and chroma: every component lies in
   * [value - chroma, value], the largest is the value and the smallest is
   * value - chroma (so converting back to HSV recovers both).
   */
  predicate SpansChroma(rgb: Vec3, chroma: real, value: real) {
    && value - chroma <= rgb.x <= value
    && value - chroma <= rgb.y <= value
    && value - chroma <= rgb.z <= value
    && Max3(rgb) == value
    && Min3(rgb) == value - chroma
  }

  lemma SextantSpans(hue6: real, c: real, x: real, v: real)
    requires 0.0 <= x <= c <= v
    ensures SpansChroma(Sextant(hue6, c, x, v - c), c, v)
  {
  }

  /**
   * For saturation and value in [0, 1] and any hue, hsv_to_rgb yields a
   * colour of value v and chroma s*v: its largest component is v, its
   * smallest v - s*v, and every component lies in between.
   */
  lemma HsvComponentBounds(h: real, s: real, v: real)
    requires 0.0 <= s <= 1.0 && 0.0 <= v <= 1.0
    ensures Chroma(s, v) == s * v
    ensures SpansChroma(HsvToRgb(Vec3(h, s, v)), Chroma(s, v), v)
  {
    var c := Chroma(s, v);
    SextantSpans(h * 6.0, c, Secondary(c, HueWeight(h * 6.0)), v);
  }

  /** Zero saturation gives a grey of the given value. */
  lemma HsvGrey(h: real, v: real)
    ensures HsvToRgb(Vec3(h, 0.0, v)) == Vec3(v, v, v)
  {
  }

  // ---------------------------------------------------------------- random singleton

  /**
   * The state of one std::mt19937 as far as the model needs it: the seed it
   * was created from and how many draws were taken from it.
   */
  datatype Generator = Generator(seed: nat, draws: nat)

  /**
   * RandomSingleton: the static std::optional `r` that holds the single
   * process-wide generator. One object of this class stands for the static.
   * The seed from std::random_device and the value a draw produces are inputs.
   */
  class RandomSingleton {
    var r: Option<Generator>

    /** The static initialiser: `r` starts empty. */
    constructor ()
      ensures r == None
    {
      r := None;
    }

    /** init: (re)creates the generator from a fresh seed. */
    method Init(seed: nat)
      modifies this
      ensures r == Some(Generator(seed, 0))
    {
      r := Some(Generator(seed, 0));
    }

    /** ensure_init: creates the generator only when there is none yet. */
    method EnsureInit(seed: nat)
      modifies this
      ensures old(r).Some? ==> r == old(r)
      ensures old(r).None? ==> r == Some(Generator(seed, 0))
    {
      if r.None? {
        Init(seed);
      }
    }

    /** get_random_generator: the generator exists afterwards and an existing one is kept. */
    method GetRandomGenerator(seed: nat) returns (g: Generator)
      modifies this
      ensures r.Some? && g == r.value
      ensures old(r).Some? ==> r == old(r)
    {
      EnsureInit(seed);
      g := r.value;
    }

    /**
     * random01: one draw in [0, 1) from the single generator; `sample` is the
     * value the distribution delivers. An existing generator is never
     * re-created: its seed is kept and its draw count grows by one.
     */
    method Random01(seed: nat, sample: real) returns (x: real)
      requires 0.0 <= sample < 1.0
      modifies this
      ensures r.Some? && 0.0 <= x < 1.0 && x == sample
      ensures old(r).Some? ==> r.value == Generator(old(r).value.seed, old(r).value.draws + 1)
      ensures old(r).None? ==> r.value == Generator(seed, 1)
    {
      EnsureInit(seed);
      r := Some(Generator(r.value.seed, r.value.draws + 1));
      x := sample;
    }
  }
}
