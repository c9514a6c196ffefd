# Zoeppritz approximations to P-wave reflectivity

This project models the module `seismic_interpretation_tools/Zoeppritz_approximation.py`
in Dafny and proves properties of it. The module computes closed-form approximations to
the Zoeppritz P-wave reflection coefficient at a planar interface between an upper
layer 1 and a lower layer 2. Each layer is described by its P-wave velocity, S-wave
velocity and density.

- `acoustic_impedance(v, rho)` and `poisson_ratio(vp, vs)` are free helpers.
- The class `Zoeppritz_approximation` stores the incidence angle θ and the six layer
  values. Its constructor then derives:
  - the contrasts Δvp, Δvs and Δρ (lower minus upper);
  - the averages vp, vs and ρ;
  - the impedances AI₁ and AI₂ and the Poisson's ratios ν₁ and ν₂;
  - the intercept A, the gradient B and the curvature C.
- Three evaluators read these values: `aki_and_richards` (A + B·sin²θ + C·sin²θ·tan²θ),
  `shuey` (A + B·sin²θ) and `hilterman` (impedance contrast·cos²θ + Poisson's-ratio
  contrast/(1 − ν̄)²·sin²θ).

Nothing is updated after construction, so the class becomes an immutable datatype
`Model`. The function `NewModel` builds it, and the evaluators are functions of it.
Arithmetic is exact over `real`. The angle enters only through its squared sine, cosine
and tangent, which the caller supplies as `Angle(sin2, cos2, tan2)`.

A division by zero raises in Python. It is modelled twice:

- The arithmetic functions require their divisors to be nonzero.
- `Construct` and `TryHilterman` return a `Result` naming the first division whose
  divisor is zero, in the order Python evaluates them.

Files:

- `real_arithmetic.dfy` (module `RealArithmetic`) holds small facts of real arithmetic
  used by the proofs.
- `zoeppritz_approximation.dfy` (module `ZoeppritzApproximation`) holds the model and
  its properties.

Two conditions for construction that are easy to miss:

- The gradient B (line 31) divides by the mean S-wave velocity as well as by the mean
  P-wave velocity and density. A zero mean vs therefore makes construction fail.
- `poisson_ratio` fails whenever vp² = vs², which includes vp = −vs and not only
  vp = vs.

## Model

| member | source | states |
|---|---|---|
| ZoeppritzApproximation.AcousticImpedance | seismic_interpretation_tools/Zoeppritz_approximation.py:1-2 | The impedance is zero exactly when the velocity or the density is zero. It is positive when both are positive. |
| ZoeppritzApproximation.PoissonRatio | seismic_interpretation_tools/Zoeppritz_approximation.py:4-5 | Defined when vp² ≠ vs². The result ν satisfies the textbook inverse relation vp²(1 − 2ν) = 2vs²(1 − ν), with denominators cleared; that relation determines ν. |
| ZoeppritzApproximation.PoissonRatioLandmarks | seismic_interpretation_tools/Zoeppritz_approximation.py:4-5 | ν = 1/2 iff vs = 0 (a fluid). ν = 1 iff vp = 0. ν = 0 iff vp² = 2vs². ν ≤ 1/2 whenever vp² > vs². |
| ZoeppritzApproximation.PoissonRatioExample | seismic_interpretation_tools/Zoeppritz_approximation.py:4-5 | vp = 2000 and vs = 1000 give ν = 1/3. |
| ZoeppritzApproximation.PoissonRatioDeterminesVelocityRatio | seismic_interpretation_tools/Zoeppritz_approximation.py:4-5 | For nonzero vs, two velocity pairs have the same Poisson's ratio iff they have the same squared velocity ratio, in both directions. |
| ZoeppritzApproximation.NewModel | seismic_interpretation_tools/Zoeppritz_approximation.py:9-32 | Stores the angle and the layers. Each layer value is its average minus (upper) or plus (lower) half the contrast. The impedances and Poisson's ratios are those of each layer. A, B and C are the intercept, gradient and curvature of the averages and contrasts. 2·vp·C = Δvp. A = C + Δρ/(2ρ). |
| ZoeppritzApproximation.Construct | seismic_interpretation_tools/Zoeppritz_approximation.py:9-32 | Succeeds iff no divisor of the constructor is zero, and then yields `NewModel`. On failure it names a division whose divisor is zero, and every division Python evaluates earlier has a nonzero divisor. |
| ZoeppritzApproximation.Shuey | seismic_interpretation_tools/Zoeppritz_approximation.py:37-38 | At normal incidence (sin²θ = 0) Shuey's approximation is the intercept A. |
| ZoeppritzApproximation.AkiRichards | seismic_interpretation_tools/Zoeppritz_approximation.py:34-35 | Aki-Richards exceeds Shuey by exactly the curvature term C·sin²θ·tan²θ, and equals A at normal incidence. |
| ZoeppritzApproximation.Hilterman | seismic_interpretation_tools/Zoeppritz_approximation.py:40-42 | Defined when AI₂ + AI₁ ≠ 0 and ν̄ ≠ 1. At normal incidence it is the impedance contrast (AI₂ − AI₁)/(AI₂ + AI₁). At grazing incidence (sin²θ = 1, cos²θ = 0), times (1 − ν̄)² it gives ν₂ − ν₁. |
| ZoeppritzApproximation.TryHilterman | seismic_interpretation_tools/Zoeppritz_approximation.py:40-42 | Succeeds iff both divisors are nonzero, and then yields `Hilterman`. It reports the impedance division exactly when the impedance sum is zero. Otherwise a failure means ν̄ = 1. |
| ZoeppritzApproximation.PoissonContrastSquaredDenominator | seismic_interpretation_tools/Zoeppritz_approximation.py:41-42 | Two divisions by 1 − ν̄ equal the source's single division by (1 − ν̄)², and that square is nonzero. |
| ZoeppritzApproximation.ImpedanceContrastAntisymmetric | seismic_interpretation_tools/Zoeppritz_approximation.py:42 | Exchanging the two impedances negates the normalised impedance contrast. |
| ZoeppritzApproximation.PoissonContrastAntisymmetric | seismic_interpretation_tools/Zoeppritz_approximation.py:41-42 | Exchanging the two Poisson's ratios keeps ν̄, so the term stays defined, and negates the Poisson's-ratio term. |
| ZoeppritzApproximation.AngleOnlyStored | seismic_interpretation_tools/Zoeppritz_approximation.py:9-32 | The angle takes no part in the derived values: models for two angles differ only in the stored angle. |
| ZoeppritzApproximation.InterceptClearedDenominators | seismic_interpretation_tools/Zoeppritz_approximation.py:30 | With denominators cleared, 2·vp·ρ·A = ρ·Δvp + vp·Δρ. |
| ZoeppritzApproximation.GradientClearedDenominators | seismic_interpretation_tools/Zoeppritz_approximation.py:31 | With denominators cleared, 2·vp²·ρ·B = vp·ρ·Δvp − 8·vs·ρ·Δvs − 4·vs²·Δρ. |
| ZoeppritzApproximation.CoefficientsOdd | seismic_interpretation_tools/Zoeppritz_approximation.py:30-32 | Negating every contrast while keeping the averages negates A, B and C. |
| ZoeppritzApproximation.NullInterface | seismic_interpretation_tools/Zoeppritz_approximation.py:17-42 | Identical layers give A = B = C = 0. Hilterman's divisions are then defined, and all three approximations are 0 at every angle. |
| ZoeppritzApproximation.LayerSwapCoefficients | seismic_interpretation_tools/Zoeppritz_approximation.py:17-32 | Exchanging the layers keeps the model constructible. It keeps the averages, negates the contrasts, exchanges the impedances and Poisson's ratios, and negates A, B and C. |
| ZoeppritzApproximation.OppositeModels | seismic_interpretation_tools/Zoeppritz_approximation.py:34-42 | Two models at one angle with opposite coefficients and exchanged impedances and Poisson's ratios give opposite Aki-Richards and Shuey values. Hilterman is defined for one iff for the other, and then gives opposite values. |
| ZoeppritzApproximation.LayerSwap | seismic_interpretation_tools/Zoeppritz_approximation.py:17-42 | Seen from the other side, the interface reflects with the opposite sign under all three approximations, and Hilterman's definedness is unchanged. |
| ZoeppritzApproximation.ImpedanceExpansion | seismic_interpretation_tools/Zoeppritz_approximation.py:24-25 | For layers half a contrast either side of the averages, AI₁ + AI₂ = 2·vp·ρ + Δvp·Δρ/2 and AI₂ − AI₁ = ρ·Δvp + vp·Δρ. |
| ZoeppritzApproximation.NormalIncidenceOnModel | seismic_interpretation_tools/Zoeppritz_approximation.py:37-42 | At normal incidence, take any model with nonzero mean vp and ρ whose A and impedances are related as the constructor relates them. Then Hilterman·(AI₁ + AI₂) = Shuey·2·vp·ρ, and the two coincide iff AI₁ = AI₂ or Δvp·Δρ = 0. |
| ZoeppritzApproximation.ImpedancesFromAverages | seismic_interpretation_tools/Zoeppritz_approximation.py:17-30 | For a constructed model the mean vp and ρ are nonzero, AI₂ − AI₁ = 2·vp·ρ·A and AI₁ + AI₂ = 2·vp·ρ + Δvp·Δρ/2. |
| ZoeppritzApproximation.NormalIncidenceAgreement | seismic_interpretation_tools/Zoeppritz_approximation.py:24-42 | At normal incidence, Hilterman gives the exact impedance contrast and Shuey its linearisation A. Since AI₁ + AI₂ = 2·vp·ρ + Δvp·Δρ/2, they agree iff the impedances are equal (both are then 0) or the P-velocity or the density contrast is zero. |
| ZoeppritzApproximation.WorkedInterface | seismic_interpretation_tools/Zoeppritz_approximation.py:9-32 | Layers 3000/1500 m/s with ρ = 2200 over 3500/1800 m/s with ρ = 2300 give A = 58/585, B = −2819/21125 and C = 1/13. They give ν₁ = 1/3, ν₂ = 577/1802, AI₁ = 6 600 000 and AI₂ = 8 050 000, and Hilterman is defined. |

## Left out

- Trigonometry: the model does not compute sin, cos and tan of θ. The caller supplies
  sin²θ, cos²θ and tan²θ as reals. Their mutual consistency (sin² + cos² = 1) and the
  blow-up of tan θ at 90° are not modelled.
- Floating point: the model uses exact real arithmetic. Rounding, NaN and infinity are
  not modelled. Neither is the case where numpy scalars make a division by zero give
  inf or nan with a warning instead of raising.
- The module calls `np.sin`, `np.cos` and `np.tan` but never imports numpy. As written,
  `aki_and_richards` and `shuey` always fail with a NameError. `hilterman` does too,
  unless its impedance division raises ZeroDivisionError first. The model reads `np`
  as numpy.
- Physical ranges: the source checks no signs or ranges of velocities and densities,
  and neither does the model. Only the divisors are constrained.
- Hilterman: the source divides once by `(1 - mean_poisson)**2`. The model divides
  twice by 1 − ν̄, which `PoissonContrastSquaredDenominator` proves equal.
- Python integer inputs: `(1/2)` and `/` are true division in Python 3, so exact reals
  model them for integer and float inputs alike.
