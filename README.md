# meson_deca amplitude engine in Dafny

This project models the amplitude engine of meson_deca, a partial-wave
analysis package for D-meson decays. Its core is a set of formulas:

- A hand-rolled complex type (a two-element `(re, im)` vector).
- The Dalitz-plot validity test for three-body and four-body decays.
- Zemach angular factors and the Flatté line shape.
- The resonance structs that gate a point on validity, then multiply a real
  barrier-and-angular factor by a complex propagator.
- The aggregation functions of the backup flat-and-Flatté model (`A_c`,
  `A_cv`, `f_model`, `Norm`).
- The Python reference functions of `fct.py`.
- The `array_to_string` serialiser of `save.py`.

Scalars are Dafny `real`. A complex number is the datatype
`ComplexScalar.Complex(re, im)`.

Some helpers are called by the core but are not part of this model:

- `sqrt`
- Blatt-Weisskopf
- the relativistic width
- the Breit-Wigner value
- the squared breakup momentum
- the complex breakup momentum

These are the function-valued fields of `NumericKernels.Kernels`. Each formula
takes them as a parameter. `SqrtLaw(k)` states the one law of `sqrt` that
the proofs use: `x >= 0 ==> sqrt(x) >= 0 && sqrt(x) * sqrt(x) == x`. Where the
source divides, the model requires the divisor to be non-zero (predicates
such as `PolesNonZero`, `Defined`, `DenominatorNonZero`). A division by zero
in the source gives a floating-point infinity or NaN, and that value is not
modelled.

Modules, one per file:

| file | module | source |
|---|---|---|
| arith.dfy | RealArith | (order facts about products and squares) |
| option.dfy | Wrappers | (Option) |
| complex_scalar.dfy | ComplexScalar | lib/c_lib/complex/scalar.hpp |
| kernels.dfy | NumericKernels | the helper functions not part of this model, as parameters |
| particles.dfy | Particles | lib/c_lib/structures/struct_particles.hpp |
| valid.dfy | Validity | lib/c_lib/fct/valid.hpp |
| zemach.dfy | Zemach | lib/c_lib/fct/zemach.hpp |
| flatte.dfy | FlattePropagator | lib/c_lib/fct/flatte.hpp |
| form_factors.dfy | FormFactors | the Blatt-Weisskopf ratios F_P and F_R used by the resonance structs |
| three_body.dfy | ThreeBody | lib/c_lib/structures/three_body/{flat,bw,flatte}.hpp |
| struct_resonances.dfy | StructResonances | lib/c_lib/structures/struct_resonances.hpp |
| four_body.dfy | FourBody | lib/c_lib/structures/four_body/{flat,D_R1d_R2cd_abcd}.hpp |
| model.dfy | AmplitudeModel | models/flat_and_flatte/backup/model.hpp |
| py_fct.dfy | PyReference | lib/py_lib/fct.py |
| save.dfy | ArraySerialiser | lib/py_lib/save.py |

Imperative code keeps its form:

- `A_cv` is a method that fills two fresh arrays in a loop.
- `Norm` is a method with the source's double loop and its two-cell `tmp` array.
- `array_to_string` is a method that extends a string in nested loops and
  deletes the last character after each row.
- The `(J, j, l)` Zemach overload is a method whose three `if`s overwrite one
  local, so the last write wins.

Each of these methods is proved against a specification function. The
properties the source promises are proved about that function.

## Model

| member | source | states |
|---|---|---|
| ComplexScalar.Abs2 | lib/c_lib/complex/scalar.hpp:35-39 | abs2 is never negative |
| ComplexScalar.Abs2Zero | lib/c_lib/complex/scalar.hpp:35-39 | abs2(v) is 0 exactly when v is (0, 0) |
| ComplexScalar.Inverse | lib/c_lib/complex/scalar.hpp:67-77 | for non-zero y, inverse(y) is a two-sided multiplicative inverse, and abs2(inverse(y)) * abs2(y) == 1 |
| ComplexScalar.InverseUnique | lib/c_lib/complex/scalar.hpp:67-77 | any right inverse of a non-zero y equals inverse(y) |
| ComplexScalar.InverseOfReal | lib/c_lib/complex/scalar.hpp:67-77 | the inverse of a non-zero real x is (1/x, 0) |
| ComplexScalar.Mult | lib/c_lib/complex/scalar.hpp:126-133 | no contract of its own; its laws are the MultCommutes, MultAssociates, OneIsIdentity, OneISquared, MultByI and Abs2Mult rows |
| ComplexScalar.MultCommutes | lib/c_lib/complex/scalar.hpp:126-133 | mult is commutative |
| ComplexScalar.MultAssociates | lib/c_lib/complex/scalar.hpp:126-133 | mult is associative |
| ComplexScalar.OneIsIdentity | lib/c_lib/complex/scalar.hpp:88-95 | one is a two-sided identity for mult |
| ComplexScalar.OneISquared | lib/c_lib/complex/scalar.hpp:106-113 | mult(one_i, one_i) == (-1, 0) |
| ComplexScalar.MultByI | lib/c_lib/complex/scalar.hpp:106-133 | multiplying by one_i maps (x, y) to (-y, x) |
| ComplexScalar.Abs2Mult | lib/c_lib/complex/scalar.hpp:126-133 | abs2(mult(v1, v2)) == abs2(v1) * abs2(v2) |
| ComplexScalar.Abs2Scale | lib/c_lib/structures/three_body/bw.hpp:59 | scaling by a real x multiplies abs2 by x^2 |
| ComplexScalar.Add | lib/c_lib/fct/flatte.hpp:44-45 | no contract of its own (the file of `add` is not part of this model); Subtract is proved its inverse, and AddCommutes and ZeroIsAdditiveIdentity state its laws |
| ComplexScalar.Subtract | lib/c_lib/fct/flatte.hpp:48 | subtract is the inverse of add: add(subtract(v1, v2), v2) == v1 |
| ComplexScalar.Scale | lib/c_lib/structures/three_body/bw.hpp:59 | the real-times-complex mult is the complex mult by (x, 0) |
| ComplexScalar.ConjMult | lib/c_lib/complex/scalar.hpp:126-133 | conj(v) * v is the real number abs2(v) |
| Particles.NewParticle | lib/c_lib/structures/struct_particles.hpp:6-12 | m, r and J are stored as given; the subset type fixes m2 == m*m and r2 == r*r |
| Validity.ValidMasses | lib/c_lib/fct/valid.hpp:64-94 | an accepted point lies in the band [a+b+2sqrt(ab), p+c-2sqrt(pc)], has sqrt(m2_ab) != 0 and passes the Dalitz inequality |
| Validity.InsideBandDecidedByDalitzTest | lib/c_lib/fct/valid.hpp:76-93 | inside the band, the result is exactly the inequality \|m2_bc - b - c - 2E_bE_c\| <= 2P_bP_c |
| Validity.OutsideBandRejected | lib/c_lib/fct/valid.hpp:69-72 | a point strictly below the lower edge or strictly above the upper edge is rejected |
| Validity.LowerEdgeIsThreshold | lib/c_lib/fct/valid.hpp:69 | the lower edge a.m2 + b.m2 + 2sqrt(a.m2 b.m2) is (m_a + m_b)^2 |
| Validity.UpperEdgeIsPseudoThreshold | lib/c_lib/fct/valid.hpp:70 | the upper edge p.m2 + c.m2 - 2sqrt(p.m2 c.m2) is (m_p - m_c)^2 |
| Validity.BelowThresholdRejected | lib/c_lib/fct/valid.hpp:41-44 | m2_ab < (m_a + m_b)^2 is rejected |
| Validity.AbovePseudoThresholdRejected | lib/c_lib/fct/valid.hpp:41-44 | m2_ab > (m_p - m_c)^2 is rejected |
| Validity.ThresholdPassesBand | lib/c_lib/fct/valid.hpp:41-57 | at m2_ab == (m_a + m_b)^2 the band check passes (equality is inside) and the Dalitz inequality decides |
| Validity.ValidAwayFromZero | lib/c_lib/fct/valid.hpp:48-49 | an accepted point has m2_ab != 0, so the divisions by sqrt(m2_ab) are defined |
| Validity.RadicandBNonNegative | lib/c_lib/fct/valid.hpp:50 | above threshold, E_b^2 >= m_b^2: P_b is the root of a non-negative number |
| Validity.RadicandCNonNegative | lib/c_lib/fct/valid.hpp:51 | below the pseudo-threshold, E_c^2 >= m_c^2: P_c is the root of a non-negative number |
| Validity.DalitzTestIsRange | lib/c_lib/fct/valid.hpp:48-57 | the inequality holds iff m2_bc lies between (E_b+E_c)^2 - (P_b+P_c)^2 and (E_b+E_c)^2 - (P_b-P_c)^2 |
| Validity.DalitzMinBelowMax | lib/c_lib/fct/valid.hpp:48-57 | that interval is never empty |
| Validity.ValidMassesIffInDalitzRegion | lib/c_lib/fct/valid.hpp:64-94 | for masses >= 0 and m2_ab > 0: accepted iff (m_a+m_b)^2 <= m2_ab <= (m_p-m_c)^2 and m2_bc lies in the Dalitz interval |
| Validity.ValidParticles | lib/c_lib/fct/valid.hpp:35-58 | no contract of its own: the particle overload is ValidMasses on the particles' squared masses; see the ValidIffInDalitzRegion row |
| Validity.ValidIffInDalitzRegion | lib/c_lib/fct/valid.hpp:35-58 | the particle overload: the same region on the particles' masses; both overloads agree on the same squared masses |
| Validity.Valid5d | lib/c_lib/fct/valid.hpp:107-136 | false if the P -> R_2 c d check fails; false if the R_1 -> a b c check fails |
| Validity.Valid5dIffBothChecks | lib/c_lib/fct/valid.hpp:117-136 | valid_5d holds iff both three-body checks pass |
| Validity.Valid5dIgnoresM14AndM13 | lib/c_lib/fct/valid.hpp:108-136 | valid_5d does not depend on m2_14 or m2_13 |
| Validity.Valid5dIffInBothRegions | lib/c_lib/fct/valid.hpp:107-136 | valid_5d holds iff (m2_123, m2_34) and (m2_12, m2_23) each lie in their Dalitz region |
| Zemach.ZemachSpin | lib/c_lib/fct/zemach.hpp:14-33 | no contract of its own; the J = 0, J = 1, J = 2 and other-J cases are stated by the ZemachSWaveIsOne, ZemachPAntisymmetric, ZemachDWaveUnderExchange and ZemachHigherSpinIsZero rows |
| Zemach.ZemachSWaveIsOne | lib/c_lib/fct/zemach.hpp:19 | J = 0 gives 1 for all inputs |
| Zemach.ZemachHigherSpinIsZero | lib/c_lib/fct/zemach.hpp:32 | J outside {0, 1, 2} gives 0 |
| Zemach.ZemachPEqualMasses | lib/c_lib/fct/zemach.hpp:20-23 | J = 1 with a.m2 == b.m2 drops the division term |
| Zemach.ZemachPAntisymmetric | lib/c_lib/fct/zemach.hpp:20-23 | the J = 1 factor changes sign when a and b (and m2_bc and m2_ac) are exchanged |
| Zemach.ZemachDBracketsSymmetric | lib/c_lib/fct/zemach.hpp:25-30 | the product of the two J = 2 brackets is even under exchanging a and b |
| Zemach.ZemachDWaveUnderExchange | lib/c_lib/fct/zemach.hpp:25-30 | because J = 2 reuses the unsquared J = 1 value, exchanging a and b shifts it by -2 times the J = 1 value |
| Zemach.ZemachChannel | lib/c_lib/fct/zemach.hpp:44-67 | the (J, j, l) overload assigns a result exactly for (1, 1, 0); every other triple is None |
| Zemach.ZemachChannelWrites | lib/c_lib/fct/zemach.hpp:44-67 | the three overwriting ifs give ZemachChannel; for (1, 1, 0) the last write, 1 + (3 + 4 z2) cos2, wins |
| FlattePropagator.FlatteDenominator | lib/c_lib/fct/flatte.hpp:36-51 | no contract of its own; its components are the FlatteDenominatorComponents row, and FlatteValue is proved its inverse |
| FlattePropagator.FlatteValue | lib/c_lib/fct/flatte.hpp:27-52 | the result times the denominator (M_R^2 - m2_ab, 0) - (2/sqrt(m2_ab), 0) i (pp + kk) is one |
| FlattePropagator.FlatteValueUnique | lib/c_lib/fct/flatte.hpp:47-51 | any inverse of the denominator is the Flatté value |
| FlattePropagator.FlatteDenominatorComponents | lib/c_lib/fct/flatte.hpp:44-50 | the denominator is (M_R^2 - m2_ab + w Im(pp+kk), -w Re(pp+kk)) with w = 2/sqrt(m2_ab) |
| FlattePropagator.FlatteRealChannelsKeepPole | lib/c_lib/fct/flatte.hpp:44-51 | if pp + kk is real, the denominator's real part is exactly M_R^2 - m2_ab |
| FlattePropagator.FlatteImaginaryChannelsGiveReal | lib/c_lib/fct/flatte.hpp:44-51 | if pp + kk is purely imaginary, the denominator and the value are real |
| FlattePropagator.FlatteClosedChannelsGiveReal | lib/c_lib/fct/flatte.hpp:36-51 | if both complex momenta are imaginary (both channels closed), the value is real |
| FormFactors.FormFactorPAtPole | lib/c_lib/structures/three_body/bw.hpp:37-40 | F_P is 1 at the pole mass |
| FormFactors.FormFactorRAtPole | lib/c_lib/structures/three_body/bw.hpp:43-46 | F_R is 1 at the pole squared mass |
| FormFactors.FormFactorPScales | lib/c_lib/structures/three_body/bw.hpp:37-40 | F_P times the pole Blatt-Weisskopf is the running one |
| FormFactors.FormFactorRScales | lib/c_lib/structures/three_body/bw.hpp:43-46 | F_R times the pole Blatt-Weisskopf is the running one |
| ThreeBody.Flat3.Value | lib/c_lib/structures/three_body/flat.hpp:20-30 | the imaginary part is 0 and the real part is 0 or 1; (1, 0) iff valid and (0, 0) iff not |
| ThreeBody.Flat3IsRegionIndicator | lib/c_lib/structures/three_body/flat.hpp:20-30 | flat_3 is (1, 0) exactly on the Dalitz region |
| ThreeBody.BreitWigner3.Value | lib/c_lib/structures/three_body/bw.hpp:26-67 | an invalid Dalitz point gives (0, 0); at a valid point m2_ab is non-zero and the value is mult(F_P F_R Z, T_R) with the relativistic Breit-Wigner T_R |
| ThreeBody.BarrierAngularAtPole | lib/c_lib/structures/three_body/bw.hpp:34-56 | at m2_ab == M_R^2 (M_R >= 0) both form factors are 1, so F_P F_R Z is the Zemach factor Z alone |
| ThreeBody.BreitWigner3AtPole | lib/c_lib/structures/three_body/bw.hpp:26-67 | at a valid point on the pole m2_ab == M_R^2 the value is mult(Z, T_R) and its abs2 is Z^2 abs2(T_R) |
| ThreeBody.BreitWigner3Intensity | lib/c_lib/structures/three_body/bw.hpp:37-59 | inside, abs2 of the amplitude is (F_P F_R Z)^2 abs2(T_R) |
| ThreeBody.BreitWigner3ValueSymSymmetric | lib/c_lib/structures/three_body/bw.hpp:72-79 | value_sym(x, y) == value_sym(y, x) |
| ThreeBody.BreitWigner3ValueSymOutside | lib/c_lib/structures/three_body/bw.hpp:72-79 | value_sym is (0, 0) when both orderings are invalid |
| ThreeBody.BreitWigner3.ValueSym | lib/c_lib/structures/three_body/bw.hpp:72-79 | no contract of its own: add(value(x, y), value(y, x)); see the BreitWigner3ValueSymSymmetric and BreitWigner3ValueSymOutside rows |
| ThreeBody.Flatte3.Value | lib/c_lib/structures/three_body/flatte.hpp:25-59 | an invalid Dalitz point gives (0, 0); at a valid point m2_ab and sqrt(m2_ab) are non-zero and the value is mult(F_P F_R Z, T_R) with the Flatté T_R |
| ThreeBody.Flatte3AtPole | lib/c_lib/structures/three_body/flatte.hpp:25-59 | at a valid point on the pole m2_ab == M_R^2 the value is mult(Z, T_R), and times the Flatté denominator it is (Z, 0) |
| ThreeBody.Flatte3TimesDenominator | lib/c_lib/structures/three_body/flatte.hpp:35-52 | inside, the amplitude times the Flatté denominator is the real factor F_P F_R Z |
| ThreeBody.Flatte3ClosedChannelsReal | lib/c_lib/structures/three_body/flatte.hpp:25-59 | with both channels closed, the value is real |
| ThreeBody.Flatte3.ValueSym | lib/c_lib/structures/three_body/flatte.hpp:64-71 | no contract of its own: add(value(x, y), value(y, x)); see the Flatte3ValueSymSymmetric row |
| ThreeBody.Flatte3ValueSymSymmetric | lib/c_lib/structures/three_body/flatte.hpp:64-71 | value_sym(x, y) == value_sym(y, x) |
| StructResonances.NewResonBase | lib/c_lib/structures/struct_resonances.hpp:11-21 | J, M and R are stored as given; the subset type fixes M2 == M*M and R2 == R*R |
| StructResonances.BreitWigner.Value | lib/c_lib/structures/struct_resonances.hpp:37-70 | an invalid point gives (0, 0); at a valid point m2_ab is non-zero and the value is T_R scaled by F_P F_R Z |
| StructResonances.BreitWignerIsScaledPropagator | lib/c_lib/structures/struct_resonances.hpp:54-62 | the componentwise (F_P F_R T_R[0] Z, F_P F_R T_R[1] Z) is the real factor F_P F_R Z times T_R |
| StructResonances.BarrierAngularAgrees | lib/c_lib/structures/struct_resonances.hpp:44-58 | F_P F_R Z of a reson_base equals the three-body product for the particle with the same spin, mass and radius |
| StructResonances.BreitWignerAgreesWithThreeBody | lib/c_lib/structures/struct_resonances.hpp:37-70 | the older breit_wigner agrees with the three-body breit_wigner at every point |
| StructResonances.BreitWigner.ValueSym | lib/c_lib/structures/struct_resonances.hpp:78-84 | no contract of its own: add(value(x, y, ...), value(y, x, ...)); see the BreitWignerValueSymSymmetric row |
| StructResonances.BreitWignerValueSymSymmetric | lib/c_lib/structures/struct_resonances.hpp:78-84 | value_sym is symmetric in its two Dalitz arguments |
| StructResonances.Flatte.Value | lib/c_lib/structures/struct_resonances.hpp:99-129 | an invalid point gives (0, 0); at a valid point m2_ab and sqrt(m2_ab) are non-zero and the value is the Flatté T_R scaled by F_P F_R Z |
| StructResonances.FlatteIsScaledPropagator | lib/c_lib/structures/struct_resonances.hpp:104-128 | the componentwise formula is F_P F_R Z times the Flatté T_R |
| StructResonances.FlatteAgreesWithThreeBody | lib/c_lib/structures/struct_resonances.hpp:94-129 | the older flatte agrees with the three-body flatte at every point |
| StructResonances.Flatte.ValueSym | lib/c_lib/structures/struct_resonances.hpp:138-144 | no contract of its own: add(value(x, y, ...), value(y, x, ...)); see the FlatteValueSymSymmetric row |
| StructResonances.FlatteValueSymSymmetric | lib/c_lib/structures/struct_resonances.hpp:138-144 | value_sym is symmetric in its two Dalitz arguments |
| FourBody.M2_123 | lib/c_lib/structures/four_body/flat.hpp:33-34 | no contract of its own; shared by flat_4 and the sequential chain (D_R1d_R2cd_abcd.hpp line 64); see the M2_123SumRule row |
| FourBody.M2_123SumRule | lib/c_lib/structures/four_body/flat.hpp:33-34 | m2_123 is the one squared mass M2 for which m2_12 + m2_13 + m2_23 == M2 + m2_a + m2_b + m2_c, the Dalitz sum rule of M -> a b c |
| FourBody.Flat4.Value | lib/c_lib/structures/four_body/flat.hpp:26-46 | the imaginary part is 0 and the real part is 0 or 1; (1, 0) iff valid_5d at the computed m2_123 |
| FourBody.Flat4IgnoresM14 | lib/c_lib/structures/four_body/flat.hpp:26-46 | flat_4 does not depend on m2_14 |
| FourBody.Flat4IsRegionIndicator | lib/c_lib/structures/four_body/flat.hpp:26-46 | flat_4 is (1, 0) exactly on the product of the two Dalitz regions |
| FourBody.SequentialChain.Value | lib/c_lib/structures/four_body/D_R1d_R2cd_abcd.hpp:53-140 | the amplitude is defined exactly when both Zemach factors are assigned, i.e. both (J, j, l) triples are (1, 1, 0); where defined it is mult(T_R_1, T_R_2) scaled by F_P F_R_1 Z_1 F_R_2 Z_2 |
| FourBody.ChainIgnoresM14 | lib/c_lib/structures/four_body/D_R1d_R2cd_abcd.hpp:53-140 | the chain amplitude does not depend on m2_14 |
| FourBody.ChainUndefinedForSpinZeroParent | lib/c_lib/structures/four_body/D_R1d_R2cd_abcd.hpp:112 | a spin-0 parent leaves Z_1 unassigned |
| FourBody.ChainRealFactorForm | lib/c_lib/structures/four_body/D_R1d_R2cd_abcd.hpp:98-137 | the real factor is F_P F_R_1 F_R_2 times 1 + (3 + 4 z2) cos2 for each of (P -> R_1 d) and (R_1 -> R_2 c) |
| FourBody.ChainIntensity | lib/c_lib/structures/four_body/D_R1d_R2cd_abcd.hpp:136-137 | abs2 of the amplitude is the real factor squared times abs2(T_R_1) abs2(T_R_2) |
| AmplitudeModel.NumResonances | models/flat_and_flatte/backup/model.hpp:147-149 | num_resonances() == 3 |
| AmplitudeModel.NumVariables | models/flat_and_flatte/backup/model.hpp:156-158 | num_variables() == 2 |
| AmplitudeModel.Ac | models/flat_and_flatte/backup/model.hpp:29-61 | res 1 is real and 1 iff (y0, 0) is a valid D -> pi pi pi point; res 2 is (0, 0) outside the plot; res 3 and unknown ids give one |
| AmplitudeModel.AcFlatIsFlat3 | models/flat_and_flatte/backup/model.hpp:36-40 | case 1 is flat_3 at (y0, 0) |
| AmplitudeModel.AcFlatteIsFlatte3 | models/flat_and_flatte/backup/model.hpp:47-52 | case 2 is the toy Flatté of D -> pi pi pi at (y0, y1) |
| AmplitudeModel.Acv | models/flat_and_flatte/backup/model.hpp:70-86 | after the loop, (re[i], im[i]) == A_c(i + 1, y) for every i < NUM_RES |
| AmplitudeModel.CoherentSum | models/flat_and_flatte/backup/model.hpp:104-106 | no contract of its own: the sum over i of A_i theta_i; see the FModel and CoherentSumRotate rows |
| AmplitudeModel.FModel | models/flat_and_flatte/backup/model.hpp:97-107 | f_model is never negative, and it is 0 iff the coherent sum vanishes |
| AmplitudeModel.CoherentSumRotate | models/flat_and_flatte/backup/model.hpp:104-106 | multiplying every theta_i by u multiplies the coherent sum by u |
| AmplitudeModel.FModelPhaseInvariant | models/flat_and_flatte/backup/model.hpp:97-107 | f_model does not change under a global phase u with abs2(u) == 1 |
| AmplitudeModel.NormTermIsRealPart | models/flat_and_flatte/backup/model.hpp:129-134 | the accumulated term is Re(conj(theta_i) * I_ij theta_j) |
| AmplitudeModel.Norm | models/flat_and_flatte/backup/model.hpp:117-139 | the double loop returns the sum over i, j < NUM_RES of Re(conj(theta_i) * I_ij theta_j) |
| AmplitudeModel.RowSumOfIdentity | models/flat_and_flatte/backup/model.hpp:126-136 | with I the identity, the row i sum is abs2(theta_i) |
| AmplitudeModel.NormSumOfIdentity | models/flat_and_flatte/backup/model.hpp:126-136 | with I the identity, the sum over the rows is the sum of abs2(theta_i) |
| AmplitudeModel.NormOfIdentity | models/flat_and_flatte/backup/model.hpp:117-139 | with I the real identity, Norm is the sum of abs2(theta_i), hence non-negative |
| AmplitudeModel.NormTermRotate | models/flat_and_flatte/backup/model.hpp:129-134 | rotating both theta_i and theta_j by u scales the term by abs2(u) |
| AmplitudeModel.NormSumRotate | models/flat_and_flatte/backup/model.hpp:126-136 | rotating theta by u scales the sum by abs2(u) |
| AmplitudeModel.NormPhaseInvariant | models/flat_and_flatte/backup/model.hpp:117-139 | Norm does not change under a global phase u with abs2(u) == 1 |
| PyReference.DefaultTo | lib/py_lib/fct.py:233-236 | a negative m2_b or m2_c defaults to m2_a, and a non-negative one is kept |
| PyReference.PyValid | lib/py_lib/fct.py:228-252 | an accepted point has sqrt(m2_ab) != 0 |
| PyReference.PyValidAgreesWithCpp | lib/py_lib/fct.py:228-252 | after the defaults, Python valid is the C++ valid on the same squared masses |
| PyReference.PyValidIdenticalDaughters | lib/py_lib/fct.py:228-236 | with m2_b and m2_c omitted, all three daughters have m2_a |
| PyReference.PyValidIffInDalitzRegion | lib/py_lib/fct.py:240-252 | for masses >= 0 and m2_ab > 0, Python valid accepts exactly the Dalitz region |
| PyReference.PyP2 | lib/py_lib/fct.py:75-84 | no contract of its own; see the PyP2IdenticalShortcut and PyP2AboveThreshold rows |
| PyReference.PyP2IdenticalShortcut | lib/py_lib/fct.py:82-84 | with m_b < 0, p2 is the general formula with m_b = m_a |
| PyReference.PyP2AboveThreshold | lib/py_lib/fct.py:75-84 | above threshold p2 >= 0, and p2 == 0 at threshold |
| PyReference.PyR2 | lib/py_lib/fct.py:87-90 | r2 times p2(m2_d) is p2(m2_N) |
| PyReference.PyR2AtReference | lib/py_lib/fct.py:87-90 | r2(m2, m2) == 1 |
| PyReference.PyComplexP | lib/py_lib/fct.py:66-72 | the complex momentum is real or purely imaginary |
| PyReference.PyComplexPSquared | lib/py_lib/fct.py:66-72 | its square is p2 |
| PyReference.PyBreitWigner | lib/py_lib/fct.py:94-101 | the result times M_R^2 - m2_ab - i M_R width is one |
| PyReference.PyBreitWignerAtPole | lib/py_lib/fct.py:94-101 | at m2_ab == M_R^2 the value is i / (M_R width) |
| PyReference.PyBreitWignerZeroWidth | lib/py_lib/fct.py:94-101 | with zero width the value is the real 1 / (M_R^2 - m2_ab) |
| PyReference.PyZemach | lib/py_lib/fct.py:255-290 | a value is returned iff J >= 0 (a negative J falls off the end) |
| PyReference.PyZemachDWave | lib/py_lib/fct.py:287-290 | J = 2 squares the J = 1 value, then subtracts a third of the brackets |
| PyReference.PyZemachAgreesWithCpp | lib/py_lib/fct.py:272-285 | for J in {0, 1} and J > 2, Python zemach equals the C++ zemach |
| PyReference.PyZemachDWaveVersusCpp | lib/py_lib/fct.py:287-290 | for J = 2, Python exceeds C++ by Z1^2 - Z1 |
| PyReference.PyZemachDWaveSymmetric | lib/py_lib/fct.py:283-290 | the Python J = 2 factor is even under exchanging a and b (and m2_bc and m2_ac) |
| ArraySerialiser.TerminatedIsJoin | lib/py_lib/save.py:12-16 | appending each entry and a comma is joining with commas plus one trailing comma |
| ArraySerialiser.EntryTexts | lib/py_lib/save.py:12-13 | entry k of a row is str(a[i, k]) |
| ArraySerialiser.RowTexts | lib/py_lib/save.py:9-16 | there are exactly nr row texts, in order |
| ArraySerialiser.ArrayToString | lib/py_lib/save.py:3-20 | the nested loops with the [:-1] deletions give "np.asarray([" + rows joined by "," + "])" (or "np.asarray(])" with no rows) |
| ArraySerialiser.ArrayTextFrame | lib/py_lib/save.py:8-20 | with nr >= 1 the text starts with "np.asarray([" and ends with "])" |
| ArraySerialiser.JoinAppend | lib/py_lib/save.py:16-19 | one more row adds exactly one separator: no leading or trailing comma |
| ArraySerialiser.RowTextOfNonEmptyRow | lib/py_lib/save.py:11-16 | with nc >= 1 a row is "[" + entries joined by "," + "]" |
| ArraySerialiser.RowTextOfOneColumn | lib/py_lib/save.py:11-16 | a one-column row is "[" + str(a[i, 0]) + "]" |

## Left out

- Floating point: NaN, infinities, rounding, `fabs` on doubles, and Boost/Stan type promotion. Scalars are exact reals.
- sqrt, Blatt-Weisskopf, the relativistic width, the C++ Breit-Wigner value, the breakup momentum p2 and the complex momentum: their headers are not part of this model. They are the function fields of `Kernels`. Only sqrt's law (`SqrtLaw`) is assumed about them.
- `complex::scalar::add` and `subtract`, and the scalar-times-complex `mult`: their file is not part of this model. They are defined componentwise.
- `complex::vector::mult` and `sum` used by `f_model`: they are modelled as the coherent sum of products, `AmplitudeModel.CoherentSum`. The complex vectors `theta` and `I` are sequences of `Complex` rather than pairs of real vectors.
- Divisions by zero: where the source divides unguarded, the model requires a non-zero divisor. Examples are `inverse` of (0, 0), a zero Blatt-Weisskopf pole factor, a zero Flatté or Breit-Wigner denominator, and a zero breakup momentum in the four-body chain.
- ComplexScalar.Inverse: requires y != (0, 0), because the source divides by abs2(y) without a check.
- The fatal-error message printed by `A_c` for an unknown resonance id is left out. The dummy `one` it returns is modelled.
- AmplitudeModel.Ac: case 1 is written `return 1.0 * fct::valid(...)`, a real number, where the function returns a `std::vector`. The size constructor of `std::vector` is explicit, so this line does not compile once `A_cv` instantiates `A_c`. The model reads it as the evidently intended pair (indicator, 0), the shape cases 2 and 3 return. The `0*y(1,0)` argument is modelled as 0.
- AmplitudeModel.Ac: requires the toy Flatté's pole factors and denominator to be non-zero for res_id 2, because the source divides by them.
- The resonance catalogue is not part of this model, except the one toy Flatté that `A_c` uses (M = 1.0, R = 1.1, G_pp = 0.329, G_kk = 2 * 0.329) and the D and pi masses. These constants are literals in `Particles` and `AmplitudeModel`.
- Particles.NewParticle: the record also carries a spin `J`, which the structs read (`R.J`, `P.J`) but the shown `struct particle` does not declare.
- Zemach.ZemachChannel: a triple other than (1, 1, 0) leaves `res` uninitialised in the source. The model returns None.
- The source passes `p.m` (a mass, not a squared mass) in the m2_R slot of `zemach` in the resonance structs. `R_1`'s width receives m2_12 and c.m2 in its daughter-mass slots. `valid_5d` checks (m2_123, m2_34) with R_2.m2, c.m2 and d.m2 as the three daughters. All three are modelled as written.
- FourBody.SequentialChain.Value: the source multiplies F_P F_R_1 Z_1 F_R_2 Z_2. The model groups this as (F_P F_R_1 F_R_2) Z_1 Z_2. The two are equal as reals, but the floating-point rounding differs.
- PyReference: the Python `valid` and `zemach` are written with the same helper formulas as the C++ model (`LowerEdge`, `UpperEdge`, `DalitzTest`, `ZemachP`, `ZemachDBrackets`, `Sq`). The Python `breakup_momentum_p2` (`PyP2`) has its own formula, because the C++ p2 is the unconstrained `Kernels.p2`. The NaN that numpy's `sqrt` gives for a negative number is not modelled: there `Kernels.sqrt` is an unconstrained real.
- PyReference.PyValid: a NaN from `m2_ab == 0` makes every comparison false. It is modelled as rejecting the point.
- PyReference.PyZemach: the model returns None where the Python falls off the end and returns `None` (a negative J).
- `uniform_dalitz_points` and `mcint.py`: random sampling is not modelled.
- The Python `blatt_weisskopf` and `flatte`: they refer to undefined names and cannot run.
- The boost::python bindings, setup.py, the I/O and plotting scripts under utils/ and models/D4pi_flat/, and res.py.
- ArraySerialiser.ArrayToString: Python's `str()` of a number is a parameter `show`. numpy's 2-D array is a sequence of rows with a column count `nc` (the array's shape).
