/** Closed-form approximations to the Zoeppritz P-wave reflection coefficient at a
    planar interface between an upper layer (1) and a lower layer (2): Aki-Richards,
    Shuey and Hilterman.

    Arithmetic is exact over `real`. The trigonometry of the incidence angle is not
    computed here: the caller supplies sin²θ, cos²θ and tan²θ, which the model stores
    at construction exactly as the Python class stores θ. */
module ZoeppritzApproximation {

  import opened RealArithmetic

  function Mean(x: real, y: real): real { (x + y) / 2.0 }

  /** Squared trigonometric values of the incidence angle θ. */
  datatype Angle = Angle(sin2: real, cos2: real, tan2: real)

  /** Elastic properties of the two layers: P- and S-wave velocity and density. */
  datatype Layers = Layers(vp1: real, vp2: real, vs1: real, vs2: real, rho1: real, rho2: real)

  /** The same interface seen from the other side: upper and lower layers exchanged. */
  function Swap(l: Layers): Layers {
    Layers(l.vp2, l.vp1, l.vs2, l.vs1, l.rho2, l.rho1)
  }

  datatype Result<T, E> = Ok(value: T) | Err(error: E)

  // ---------------------------------------------------------------------------
  // Free helpers
  // ---------------------------------------------------------------------------

  /** Acoustic impedance of a layer, velocity times density. */
  function AcousticImpedance(v: real, rho: real): (ai: real)
    ensures ai == 0.0 <==> v == 0.0 || rho == 0.0
    ensures v > 0.0 && rho > 0.0 ==> ai > 0.0
  {
    v * rho
  }

  /** Poisson's ratio is defined when the denominator 2·(vp² − vs²) is nonzero. */
  predicate PoissonDefined(vp: real, vs: real) {
    vp * vp != vs * vs
  }

  /** Poisson's ratio of an isotropic layer from its P- and S-wave velocities.
      The postcondition is the textbook inverse, (vp/vs)² = 2(1 − ν)/(1 − 2ν), with
      the denominators cleared; it determines ν uniquely. */
  function PoissonRatio(vp: real, vs: real): (nu: real)
    requires PoissonDefined(vp, vs)
    ensures vp * vp * (1.0 - 2.0 * nu) == 2.0 * vs * vs * (1.0 - nu)
  {
    (vp * vp - 2.0 * vs * vs) / (2.0 * (vp * vp - vs * vs))
  }

  /** The landmarks of ν = (p − 2s)/(2(p − s)) in terms of the squared velocities
      p = vp² and s = vs². */
  lemma RatioOfSquaresLandmarks(p: real, s: real, nu: real)
    requires p != s && s >= 0.0
    requires nu * (2.0 * (p - s)) == p - 2.0 * s
    ensures nu == 0.5 <==> s == 0.0
    ensures nu == 1.0 <==> p == 0.0
    ensures nu == 0.0 <==> p == 2.0 * s
    ensures p > s ==> nu <= 0.5
  {
    if p == 0.0 {
      assert (nu - 1.0) * s == 0.0;
      MulZero(nu - 1.0, s);
    }
    if nu > 0.5 && p > s {
      MulPositive(nu - 0.5, p - s);
    }
  }

  /** The landmarks of Poisson's ratio: 1/2 exactly for a fluid (vs = 0), 1 exactly
      when vp = 0, 0 exactly when vp² = 2·vs², and never above 1/2 when vp² > vs². */
  lemma PoissonRatioLandmarks(vp: real, vs: real)
    requires PoissonDefined(vp, vs)
    ensures PoissonRatio(vp, vs) == 0.5 <==> vs == 0.0
    ensures PoissonRatio(vp, vs) == 1.0 <==> vp == 0.0
    ensures PoissonRatio(vp, vs) == 0.0 <==> vp * vp == 2.0 * vs * vs
    ensures vp * vp > vs * vs ==> PoissonRatio(vp, vs) <= 0.5
  {
    var p, s := vp * vp, vs * vs;
    SquareZero(vp);
    SquareZero(vs);
    if vs != 0.0 {
      SquarePositive(vs);
    }
    DivCancel(p - 2.0 * s, 2.0 * (p - s));
    RatioOfSquaresLandmarks(p, s, PoissonRatio(vp, vs));
  }

  /** vp = 2000, vs = 1000 gives ν = 1/3. */
  lemma PoissonRatioExample()
    ensures PoissonDefined(2000.0, 1000.0)
    ensures PoissonRatio(2000.0, 1000.0) == 1.0 / 3.0
  {
  }

  /** Any two velocity pairs with the same ν have the same squared velocity ratio. */
  lemma PoissonRatioDeterminesVelocityRatio(vp: real, vs: real, vp': real, vs': real)
    requires PoissonDefined(vp, vs) && PoissonDefined(vp', vs')
    requires vs != 0.0 && vs' != 0.0
    ensures PoissonRatio(vp, vs) == PoissonRatio(vp', vs') <==> vp * vp * vs' * vs' == vp' * vp' * vs * vs
  {
    var nu, nu' := PoissonRatio(vp, vs), PoissonRatio(vp', vs');
    if nu == nu' {
      assert vp * vp * (1.0 - 2.0 * nu) == 2.0 * vs * vs * (1.0 - nu);
      assert vp' * vp' * (1.0 - 2.0 * nu) == 2.0 * vs' * vs' * (1.0 - nu);
    }
  }

  // ---------------------------------------------------------------------------
  // The reflectivity model
  // ---------------------------------------------------------------------------

  /** Everything the Python constructor stores: the angle, the six layer inputs and
      the quantities derived from them. Nothing is updated after construction. */
  datatype Model = Model(
    angle: Angle,
    layers: Layers,
    deltaVp: real, deltaVs: real, deltaRho: real,
    vp: real, vs: real, rho: real,
    ai1: real, ai2: real,
    poisson1: real, poisson2: real,
    a: real, b: real, c: real)

  /** The divisions performed by the constructor, in the order Python evaluates them. */
  datatype ConstructionError =
    | UpperPoissonUndefined   // poisson_ratio(vp_1, vs_1)
    | LowerPoissonUndefined   // poisson_ratio(vp_2, vs_2)
    | ZeroMeanVp              // delta_vp / vp
    | ZeroMeanRho             // delta_rho / rho
    | ZeroMeanVs              // delta_vs / vs

  function Rank(e: ConstructionError): nat {
    match e
    case UpperPoissonUndefined => 0
    case LowerPoissonUndefined => 1
    case ZeroMeanVp => 2
    case ZeroMeanRho => 3
    case ZeroMeanVs => 4
  }

  /** The divisor of the division named by `e` is zero for these layers. */
  predicate DivisorZero(e: ConstructionError, l: Layers) {
    match e
    case UpperPoissonUndefined => !PoissonDefined(l.vp1, l.vs1)
    case LowerPoissonUndefined => !PoissonDefined(l.vp2, l.vs2)
    case ZeroMeanVp => Mean(l.vp1, l.vp2) == 0.0
    case ZeroMeanRho => Mean(l.rho1, l.rho2) == 0.0
    case ZeroMeanVs => Mean(l.vs1, l.vs2) == 0.0
  }

  /** No division of the constructor has a zero divisor. */
  predicate Constructible(l: Layers) {
    && PoissonDefined(l.vp1, l.vs1)
    && PoissonDefined(l.vp2, l.vs2)
    && Mean(l.vp1, l.vp2) != 0.0
    && Mean(l.rho1, l.rho2) != 0.0
    && Mean(l.vs1, l.vs2) != 0.0
  }

  /** Intercept A: half the sum of the fractional P-velocity and density contrasts. */
  function Intercept(vp: real, rho: real, deltaVp: real, deltaRho: real): real
    requires vp != 0.0 && rho != 0.0
  {
    0.5 * (deltaVp / vp + deltaRho / rho)
  }

  /** Gradient B. */
  function Gradient(vp: real, vs: real, rho: real, deltaVp: real, deltaVs: real, deltaRho: real): real
    requires vp != 0.0 && vs != 0.0 && rho != 0.0
  {
    deltaVp / (2.0 * vp) - 4.0 * ((vs / vp) * (vs / vp)) * (deltaVs / vs) - 2.0 * ((vs / vp) * (vs / vp)) * (deltaRho / rho)
  }

  /** Curvature C: half the fractional P-velocity contrast. */
  function Curvature(vp: real, deltaVp: real): real
    requires vp != 0.0
  {
    0.5 * (deltaVp / vp)
  }

  /** The constructor: contrasts (lower minus upper), averages, impedances, Poisson's
      ratios and the intercept A, gradient B and curvature C. */
  function NewModel(angle: Angle, l: Layers): (m: Model)
    requires Constructible(l)
    ensures m.angle == angle && m.layers == l
    // each layer sits half a contrast away from the average
    ensures l.vp1 == m.vp - m.deltaVp / 2.0 && l.vp2 == m.vp + m.deltaVp / 2.0
    ensures l.vs1 == m.vs - m.deltaVs / 2.0 && l.vs2 == m.vs + m.deltaVs / 2.0
    ensures l.rho1 == m.rho - m.deltaRho / 2.0 && l.rho2 == m.rho + m.deltaRho / 2.0
    ensures m.ai1 == AcousticImpedance(l.vp1, l.rho1) && m.ai2 == AcousticImpedance(l.vp2, l.rho2)
    ensures m.poisson1 == PoissonRatio(l.vp1, l.vs1) && m.poisson2 == PoissonRatio(l.vp2, l.vs2)
    ensures m.a == Intercept(m.vp, m.rho, m.deltaVp, m.deltaRho)
    ensures m.b == Gradient(m.vp, m.vs, m.rho, m.deltaVp, m.deltaVs, m.deltaRho)
    ensures m.c == Curvature(m.vp, m.deltaVp)
    // C is half the fractional P-velocity contrast
    ensures 2.0 * m.vp * m.c == m.deltaVp
    // A is C plus half the fractional density contrast
    ensures m.a == m.c + m.deltaRho / (2.0 * m.rho)
  {
    var deltaVp := l.vp2 - l.vp1;
    var deltaVs := l.vs2 - l.vs1;
    var deltaRho := l.rho2 - l.rho1;
    var vp := Mean(l.vp1, l.vp2);
    var vs := Mean(l.vs1, l.vs2);
    var rho := Mean(l.rho1, l.rho2);
    Model(angle, l, deltaVp, deltaVs, deltaRho, vp, vs, rho,
          AcousticImpedance(l.vp1, l.rho1), AcousticImpedance(l.vp2, l.rho2),
          PoissonRatio(l.vp1, l.vs1), PoissonRatio(l.vp2, l.vs2),
          Intercept(vp, rho, deltaVp, deltaRho),
          Gradient(vp, vs, rho, deltaVp, deltaVs, deltaRho),
          Curvature(vp, deltaVp))
  }

  /** Construction as Python performs it: the first division whose divisor is zero
      raises, and otherwise the model is built. */
  function Construct(angle: Angle, l: Layers): (r: Result<Model, ConstructionError>)
    ensures r.Ok? <==> Constructible(l)
    ensures r.Ok? ==> r.value == NewModel(angle, l)
    ensures r.Err? ==> DivisorZero(r.error, l)
    ensures r.Err? ==> forall e :: Rank(e) < Rank(r.error) ==> !DivisorZero(e, l)
  {
    if !PoissonDefined(l.vp1, l.vs1) then Err(UpperPoissonUndefined)
    else if !PoissonDefined(l.vp2, l.vs2) then Err(LowerPoissonUndefined)
    else if Mean(l.vp1, l.vp2) == 0.0 then Err(ZeroMeanVp)
    else if Mean(l.rho1, l.rho2) == 0.0 then Err(ZeroMeanRho)
    else if Mean(l.vs1, l.vs2) == 0.0 then Err(ZeroMeanVs)
    else Ok(NewModel(angle, l))
  }

  // ---------------------------------------------------------------------------
  // The three approximations
  // ---------------------------------------------------------------------------

  /** Shuey's two-term approximation A + B·sin²θ. */
  function Shuey(m: Model): (r: real)
    ensures m.angle.sin2 == 0.0 ==> r == m.a
  {
    m.a + m.b * m.angle.sin2
  }

  /** Aki-Richards' three-term approximation A + B·sin²θ + C·sin²θ·tan²θ: Shuey's
      approximation plus the curvature term. */
  function AkiRichards(m: Model): (r: real)
    ensures r - Shuey(m) == m.c * m.angle.sin2 * m.angle.tan2
    ensures m.angle.sin2 == 0.0 ==> r == m.a
  {
    m.a + m.b * m.angle.sin2 + m.c * m.angle.sin2 * m.angle.tan2
  }

  function MeanPoisson(m: Model): real {
    Mean(m.poisson2, m.poisson1)
  }

  /** Hilterman's approximation divides by AI_1 + AI_2 and by (1 − mean ν)². */
  predicate HiltermanDefined(m: Model) {
    m.ai2 + m.ai1 != 0.0 && MeanPoisson(m) != 1.0
  }

  /** Normalised impedance contrast (AI_2 − AI_1)/(AI_2 + AI_1), the exact
      normal-incidence reflection coefficient of the interface. */
  function ImpedanceContrast(ai1: real, ai2: real): real
    requires ai2 + ai1 != 0.0
  {
    (ai2 - ai1) / (ai2 + ai1)
  }

  /** Poisson's-ratio contrast over the square of one minus the mean Poisson's ratio,
      (ν2 − ν1)/(1 − ν̄)², written as two divisions by 1 − ν̄ (see SquareDivision). */
  function PoissonContrast(nu1: real, nu2: real): real
    requires Mean(nu2, nu1) != 1.0
  {
    var k := 1.0 - Mean(nu2, nu1);
    ((nu2 - nu1) / k) / k
  }

  /** The two divisions are the source's single division by (1 − ν̄)². */
  lemma PoissonContrastSquaredDenominator(nu1: real, nu2: real, k: real)
    requires k == 1.0 - Mean(nu2, nu1) && k != 0.0
    ensures k * k != 0.0
    ensures PoissonContrast(nu1, nu2) == (nu2 - nu1) / (k * k)
  {
    SquareDivision(nu2 - nu1, k);
  }

  /** The impedance contrast changes sign when the layers are exchanged. */
  lemma ImpedanceContrastAntisymmetric(ai1: real, ai2: real)
    requires ai2 + ai1 != 0.0
    ensures ImpedanceContrast(ai2, ai1) == -ImpedanceContrast(ai1, ai2)
  {
    DivNegate(ai2 - ai1, ai2 + ai1);
  }

  /** The Poisson's-ratio term changes sign when the layers are exchanged. */
  lemma PoissonContrastAntisymmetric(nu1: real, nu2: real)
    requires Mean(nu2, nu1) != 1.0
    ensures Mean(nu1, nu2) != 1.0
    ensures PoissonContrast(nu2, nu1) == -PoissonContrast(nu1, nu2)
  {
    var k := 1.0 - Mean(nu2, nu1);
    assert 1.0 - Mean(nu1, nu2) == k;
    assert nu1 - nu2 == -(nu2 - nu1);
    DivNegate(nu2 - nu1, k);
    DivNegate((nu2 - nu1) / k, k);
  }

  /** Hilterman's approximation: the impedance contrast weighted by cos²θ plus the
      Poisson's-ratio contrast over (1 − mean ν)² weighted by sin²θ. */
  function Hilterman(m: Model): (r: real)
    requires HiltermanDefined(m)
    ensures m.angle.cos2 == 1.0 && m.angle.sin2 == 0.0 ==> r == (m.ai2 - m.ai1) / (m.ai2 + m.ai1)
    ensures m.angle.cos2 == 0.0 && m.angle.sin2 == 1.0 ==>
              r * (1.0 - MeanPoisson(m)) * (1.0 - MeanPoisson(m)) == m.poisson2 - m.poisson1
  {
    var k := 1.0 - MeanPoisson(m);
    DivCancel(m.poisson2 - m.poisson1, k);
    DivCancel((m.poisson2 - m.poisson1) / k, k);
    ImpedanceContrast(m.ai1, m.ai2) * m.angle.cos2 + PoissonContrast(m.poisson1, m.poisson2) * m.angle.sin2
  }

  /** The divisions of `hilterman`, in evaluation order. */
  datatype HiltermanError = ZeroImpedanceSum | UnitMeanPoisson

  /** `hilterman` as Python evaluates it: the impedance division raises first. */
  function TryHilterman(m: Model): (r: Result<real, HiltermanError>)
    ensures r.Ok? <==> HiltermanDefined(m)
    ensures r.Ok? ==> r.value == Hilterman(m)
    ensures r.Err? && r.error == ZeroImpedanceSum <==> m.ai2 + m.ai1 == 0.0
    ensures r.Err? && r.error == UnitMeanPoisson ==> MeanPoisson(m) == 1.0
  {
    if m.ai2 + m.ai1 == 0.0 then Err(ZeroImpedanceSum)
    else if MeanPoisson(m) == 1.0 then Err(UnitMeanPoisson)
    else Ok(Hilterman(m))
  }

  // ---------------------------------------------------------------------------
  // Properties of the model
  // ---------------------------------------------------------------------------

  /** The angle takes no part in the coefficients: a model for another angle differs
      only in the stored angle. */
  lemma AngleOnlyStored(angle: Angle, angle': Angle, l: Layers)
    requires Constructible(l)
    ensures NewModel(angle', l) == NewModel(angle, l).(angle := angle')
  {
  }

  /** The intercept with denominators cleared: 2·vp·rho·A = rho·Δvp + vp·Δrho. */
  lemma InterceptClearedDenominators(vp: real, rho: real, deltaVp: real, deltaRho: real)
    requires vp != 0.0 && rho != 0.0
    ensures 2.0 * vp * rho * Intercept(vp, rho, deltaVp, deltaRho) == rho * deltaVp + vp * deltaRho
  {
  }

  /** The gradient with denominators cleared:
      2·vp²·rho·B = vp·rho·Δvp − 8·vs·rho·Δvs − 4·vs²·Δrho. */
  lemma GradientClearedDenominators(vp: real, vs: real, rho: real, deltaVp: real, deltaVs: real, deltaRho: real)
    requires vp != 0.0 && vs != 0.0 && rho != 0.0
    ensures 2.0 * vp * vp * rho * Gradient(vp, vs, rho, deltaVp, deltaVs, deltaRho)
              == vp * rho * deltaVp - 8.0 * vs * rho * deltaVs - 4.0 * vs * vs * deltaRho
  {
    var q := vs / vp;
    assert q * q * vp * vp == vs * vs;
    assert 2.0 * vp * vp * rho * (deltaVp / (2.0 * vp)) == vp * rho * deltaVp;
    assert 2.0 * vp * vp * rho * (4.0 * q * q * (deltaVs / vs)) == 8.0 * vs * rho * deltaVs;
    assert 2.0 * vp * vp * rho * (2.0 * q * q * (deltaRho / rho)) == 4.0 * vs * vs * deltaRho;
  }

  /** A, B and C are odd in the contrasts: negating every contrast while keeping the
      averages negates each coefficient. */
  lemma CoefficientsOdd(vp: real, vs: real, rho: real, deltaVp: real, deltaVs: real, deltaRho: real)
    requires vp != 0.0 && vs != 0.0 && rho != 0.0
    ensures Intercept(vp, rho, -deltaVp, -deltaRho) == -Intercept(vp, rho, deltaVp, deltaRho)
    ensures Gradient(vp, vs, rho, -deltaVp, -deltaVs, -deltaRho) == -Gradient(vp, vs, rho, deltaVp, deltaVs, deltaRho)
    ensures Curvature(vp, -deltaVp) == -Curvature(vp, deltaVp)
  {
    assert (-deltaVp) / (2.0 * vp) == -(deltaVp / (2.0 * vp));
    assert (-deltaVs) / vs == -(deltaVs / vs);
    assert (-deltaRho) / rho == -(deltaRho / rho);
  }

  /** A null interface (identical layers) does not reflect: A = B = C = 0, Hilterman's
      divisions are then defined, and all three approximations give 0 at every angle. */
  lemma NullInterface(angle: Angle, vp: real, vs: real, rho: real)
    requires Constructible(Layers(vp, vp, vs, vs, rho, rho))
    ensures var m := NewModel(angle, Layers(vp, vp, vs, vs, rho, rho));
      && m.a == 0.0 && m.b == 0.0 && m.c == 0.0
      && HiltermanDefined(m)
      && AkiRichards(m) == 0.0 && Shuey(m) == 0.0 && Hilterman(m) == 0.0
  {
  }

  /** Exchanging the layers keeps the averages and negates every contrast, so it
      negates A, B and C. */
  lemma LayerSwapCoefficients(angle: Angle, l: Layers)
    requires Constructible(l)
    ensures Constructible(Swap(l))
    ensures var m, s := NewModel(angle, l), NewModel(angle, Swap(l));
      && s.vp == m.vp && s.vs == m.vs && s.rho == m.rho
      && s.deltaVp == -m.deltaVp && s.deltaVs == -m.deltaVs && s.deltaRho == -m.deltaRho
      && s.ai1 == m.ai2 && s.ai2 == m.ai1
      && s.poisson1 == m.poisson2 && s.poisson2 == m.poisson1
      && s.a == -m.a && s.b == -m.b && s.c == -m.c
  {
    var m := NewModel(angle, l);
    CoefficientsOdd(m.vp, m.vs, m.rho, m.deltaVp, m.deltaVs, m.deltaRho);
  }

  /** Two models at the same angle whose coefficients are opposite and whose layer
      quantities are exchanged give opposite approximations. */
  lemma OppositeModels(m: Model, s: Model)
    requires s.angle == m.angle
    requires s.a == -m.a && s.b == -m.b && s.c == -m.c
    requires s.ai1 == m.ai2 && s.ai2 == m.ai1
    requires s.poisson1 == m.poisson2 && s.poisson2 == m.poisson1
    ensures AkiRichards(s) == -AkiRichards(m) && Shuey(s) == -Shuey(m)
    ensures HiltermanDefined(s) <==> HiltermanDefined(m)
    ensures HiltermanDefined(m) ==> Hilterman(s) == -Hilterman(m)
  {
    assert MeanPoisson(s) == MeanPoisson(m);
    if HiltermanDefined(m) {
      ImpedanceContrastAntisymmetric(m.ai1, m.ai2);
      PoissonContrastAntisymmetric(m.poisson1, m.poisson2);
    }
  }

  /** Exchanging the layers negates all three approximations; Hilterman's impedance
      and Poisson's-ratio contrasts both change sign while its divisors do not. */
  lemma LayerSwap(angle: Angle, l: Layers)
    requires Constructible(l)
    ensures Constructible(Swap(l))
    ensures var m, s := NewModel(angle, l), NewModel(angle, Swap(l));
      && AkiRichards(s) == -AkiRichards(m) && Shuey(s) == -Shuey(m)
      && (HiltermanDefined(s) <==> HiltermanDefined(m))
      && (HiltermanDefined(m) ==> Hilterman(s) == -Hilterman(m))
  {
    LayerSwapCoefficients(angle, l);
    OppositeModels(NewModel(angle, l), NewModel(angle, Swap(l)));
  }

  /** Polynomial identities behind the normal-incidence comparison: for layers half
      a contrast either side of the averages, the impedances sum and differ as shown. */
  lemma ImpedanceExpansion(vp: real, rho: real, deltaVp: real, deltaRho: real)
    ensures (vp + deltaVp / 2.0) * (rho + deltaRho / 2.0) + (vp - deltaVp / 2.0) * (rho - deltaRho / 2.0)
              == 2.0 * vp * rho + deltaVp * deltaRho / 2.0
    ensures (vp + deltaVp / 2.0) * (rho + deltaRho / 2.0) - (vp - deltaVp / 2.0) * (rho - deltaRho / 2.0)
              == rho * deltaVp + vp * deltaRho
  {
  }

  /** At normal incidence Hilterman's coefficient is the exact impedance contrast D/S
      and Shuey's is A, where D = AI_2 − AI_1 and S = AI_1 + AI_2 = 2·vp·rho + Δvp·Δrho/2
      while 2·vp·rho·A = D: A linearises the impedance contrast. The two agree exactly
      when the impedances are equal (both are then 0) or Δvp·Δrho = 0 (then S = 2·vp·rho). */
  lemma NormalIncidenceOnModel(m: Model)
    requires m.angle.sin2 == 0.0 && m.angle.cos2 == 1.0
    requires HiltermanDefined(m)
    requires m.vp != 0.0 && m.rho != 0.0
    requires 2.0 * m.vp * m.rho * m.a == m.ai2 - m.ai1
    requires m.ai1 + m.ai2 == 2.0 * m.vp * m.rho + m.deltaVp * m.deltaRho / 2.0
    ensures Hilterman(m) * (m.ai1 + m.ai2) == Shuey(m) * (2.0 * m.vp * m.rho)
    ensures m.deltaVp * m.deltaRho == 0.0 ==> Hilterman(m) == Shuey(m)
    ensures Hilterman(m) == Shuey(m) <==> m.ai1 == m.ai2 || m.deltaVp * m.deltaRho == 0.0
  {
    var sum, diff := m.ai1 + m.ai2, m.ai2 - m.ai1;
    var h := Hilterman(m);
    assert h == diff / sum;
    DivCancel(diff, sum);
    if m.vp * m.rho == 0.0 {
      MulZero(m.vp, m.rho);
    }
    if m.deltaVp * m.deltaRho == 0.0 {
      assert (h - m.a) * sum == 0.0;
      MulZero(h - m.a, sum);
    }
    if m.ai1 == m.ai2 {
      assert (2.0 * m.vp * m.rho) * m.a == 0.0;
      MulZero(2.0 * m.vp * m.rho, m.a);
    }
    if h == m.a {
      assert m.a * (m.deltaVp * m.deltaRho / 2.0) == 0.0;
      MulZero(m.a, m.deltaVp * m.deltaRho / 2.0);
    }
  }

  /** The constructor relates the impedances to the averages and contrasts: their sum
      is 2·vp·rho + Δvp·Δrho/2 and their difference is 2·vp·rho·A. */
  lemma ImpedancesFromAverages(angle: Angle, l: Layers)
    requires Constructible(l)
    ensures var m := NewModel(angle, l);
      && m.vp != 0.0 && m.rho != 0.0
      && 2.0 * m.vp * m.rho * m.a == m.ai2 - m.ai1
      && m.ai1 + m.ai2 == 2.0 * m.vp * m.rho + m.deltaVp * m.deltaRho / 2.0
  {
    var m := NewModel(angle, l);
    ImpedanceExpansion(m.vp, m.rho, m.deltaVp, m.deltaRho);
    InterceptClearedDenominators(m.vp, m.rho, m.deltaVp, m.deltaRho);
  }

  /** At normal incidence Hilterman's coefficient is the exact impedance contrast while
      A is its linearisation: AI_1 + AI_2 = 2·vp·rho + Δvp·Δrho/2, so the two agree
      exactly when the impedances are equal or one of the P-velocity and density
      contrasts vanishes. */
  lemma NormalIncidenceAgreement(angle: Angle, l: Layers)
    requires Constructible(l)
    requires angle.sin2 == 0.0 && angle.cos2 == 1.0
    ensures var m := NewModel(angle, l);
      && m.ai1 + m.ai2 == 2.0 * m.vp * m.rho + m.deltaVp * m.deltaRho / 2.0
      && (HiltermanDefined(m) ==>
            Hilterman(m) * (m.ai1 + m.ai2) == Shuey(m) * (2.0 * m.vp * m.rho))
      && (HiltermanDefined(m) && m.deltaVp * m.deltaRho == 0.0 ==> Hilterman(m) == Shuey(m))
      && (HiltermanDefined(m) ==>
            (Hilterman(m) == Shuey(m) <==> m.ai1 == m.ai2 || m.deltaVp * m.deltaRho == 0.0))
  {
    ImpedancesFromAverages(angle, l);
    var m := NewModel(angle, l);
    if HiltermanDefined(m) {
      NormalIncidenceOnModel(m);
    }
  }

  /** A worked interface: a 3000/1500 m/s shale of density 2200 over a 3500/1800 m/s
      sand of density 2300. The coefficients, Poisson's ratios and impedances are the
      exact rational values of the model's formulas. */
  lemma WorkedInterface(angle: Angle)
    ensures Constructible(Layers(3000.0, 3500.0, 1500.0, 1800.0, 2200.0, 2300.0))
    ensures var m := NewModel(angle, Layers(3000.0, 3500.0, 1500.0, 1800.0, 2200.0, 2300.0));
      && m.a == 58.0 / 585.0 && m.b == -2819.0 / 21125.0 && m.c == 1.0 / 13.0
      && m.poisson1 == 1.0 / 3.0 && m.poisson2 == 577.0 / 1802.0
      && m.ai1 == 6600000.0 && m.ai2 == 8050000.0
      && HiltermanDefined(m)
  {
    var l := Layers(3000.0, 3500.0, 1500.0, 1800.0, 2200.0, 2300.0);
    assert Constructible(l);
    var m := NewModel(angle, l);
    assert m.vp == 3250.0 && m.vs == 1650.0 && m.rho == 2250.0;
    assert m.deltaVp == 500.0 && m.deltaVs == 300.0 && m.deltaRho == 100.0;
  }
}
