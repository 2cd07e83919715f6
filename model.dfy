// The fit model of models/flat_and_flatte/backup/model.hpp: the resonance
// dispatch A_c, the amplitude vector A_cv, the intensity f_model and the
// normalisation Norm of a coherent sum of NUM_RES partial waves with complex
// fit parameters theta.
//
// The source stores a complex vector as two real vectors (real parts, then
// imaginary parts) and a complex matrix as two real matrices. A_cv fills the
// two vectors of its result; f_model and Norm read their inputs through that
// layout, and here they take a sequence of complex entries instead.
module AmplitudeModel {
  import opened RealArith
  import opened ComplexScalar
  import opened NumericKernels
  import opened Particles
  import opened Validity
  import opened FlattePropagator
  import opened StructResonances
  import ThreeBody

  /** NUM_RES: the number of partial-wave resonances. */
  const NumRes: nat := 3

  /** NUM_VAR: the number of independent masses of a data point (2 for a three-body decay). */
  const NumVar: nat := 2

  /** num_resonances(). */
  function NumResonances(): (n: int)
    ensures n == 3
  {
    NumRes
  }

  /** num_variables(). */
  function NumVariables(): (n: int)
    ensures n == 2
  {
    NumVar
  }

  /** resonances::toy0_flatte: spin 0, mass 1, couplings 0.329 and 2 * 0.329, radius 1.1. */
  const ToyFlatte: Flatte := Flatte(NewResonBase(0, 1.0, 1.1), 0.329, 2.0 * 0.329)

  /** What A_c divides by is non-zero at y: only the toy Flatte (res_id 2) divides. */
  predicate AcDefined(k: Kernels, res_id: int, y: seq<real>)
    requires |y| >= NumVar
  {
    res_id == 2 ==>
      PolesNonZero(k, ToyFlatte.base, DMeson, Pion, Pion, Pion)
      && ToyFlatte.DenominatorNonZero(k, y[0], y[1], DMeson, Pion, Pion, Pion)
  }

  /**
   * A_c(res_id, y) for D -> pi pi pi. Resonance 1 is the Dalitz-region
   * indicator valid(y0, 0 * y1, d, pi, pi, pi) taken as a real amplitude,
   * resonance 2 is the toy Flatte at (y0, y1), resonance 3 is one, and an
   * unknown res_id (after the source's fatal message) returns one as a dummy.
   */
  function Ac(k: Kernels, res_id: int, y: seq<real>): (r: Complex)
    requires SqrtLaw(k) && |y| >= NumVar && AcDefined(k, res_id, y)
    ensures res_id == 1 ==> r.im == 0.0 && (r.re == 0.0 || r.re == 1.0)
    ensures res_id == 1 ==> (r.re == 1.0 <==> ValidParticles(k, y[0], 0.0, DMeson, Pion, Pion, Pion))
    ensures res_id == 2 && !ValidParticles(k, y[0], y[1], DMeson, Pion, Pion, Pion) ==> r == Zero
    ensures res_id != 1 && res_id != 2 ==> r == One
  {
    match res_id
    case 1 => Complex(if ValidParticles(k, 1.0 * y[0], 0.0 * y[1], DMeson, Pion, Pion, Pion) then 1.0 else 0.0, 0.0)
    case 2 => ToyFlatte.Value(k, y[0], y[1], DMeson, Pion, Pion, Pion)
    case 3 => One
    case _ => One
  }

  /** Resonance 1 is the flat three-body amplitude of D -> pi pi pi at (y0, 0). */
  lemma AcFlatIsFlat3(k: Kernels, y: seq<real>)
    requires SqrtLaw(k) && |y| >= NumVar
    ensures Ac(k, 1, y) == ThreeBody.Flat3(DMeson, Pion, Pion, Pion).Value(k, y[0], 0.0)
  {
    var f := ThreeBody.Flat3(DMeson, Pion, Pion, Pion);
    if ValidParticles(k, y[0], 0.0, DMeson, Pion, Pion, Pion) {
      assert f.Value(k, y[0], 0.0) == One;
    } else {
      assert f.Value(k, y[0], 0.0) == Zero;
    }
  }

  /** Resonance 2 is the newer three-body Flatte struct with the toy's resonance as a particle. */
  lemma AcFlatteIsFlatte3(k: Kernels, y: seq<real>)
    requires SqrtLaw(k) && |y| >= NumVar && AcDefined(k, 2, y)
    ensures ThreeBody.PolesNonZero(k, DMeson, Pion, Pion, Pion, AsParticle(ToyFlatte.base))
    ensures ThreeBody.Flatte3(DMeson, Pion, Pion, Pion, AsParticle(ToyFlatte.base), 0.329, 2.0 * 0.329)
              .DenominatorNonZero(k, y[0], y[1])
    ensures Ac(k, 2, y)
         == ThreeBody.Flatte3(DMeson, Pion, Pion, Pion, AsParticle(ToyFlatte.base), 0.329, 2.0 * 0.329)
              .Value(k, y[0], y[1])
  {
    FlatteAgreesWithThreeBody(k, ToyFlatte, y[0], y[1], DMeson, Pion, Pion, Pion);
  }

  /**
   * A_cv(y): fills the real-part and imaginary-part vectors with
   * A_c(1, y) ... A_c(NUM_RES, y), one resonance per iteration.
   */
  method Acv(k: Kernels, y: seq<real>) returns (re: array<real>, im: array<real>)
    requires SqrtLaw(k) && |y| >= NumVar && AcDefined(k, 2, y)
    ensures fresh(re) && fresh(im) && re.Length == NumRes && im.Length == NumRes
    ensures forall i :: 0 <= i < NumRes ==> Complex(re[i], im[i]) == Ac(k, i + 1, y)
  {
    re := new real[NumRes];
    im := new real[NumRes];
    for i := 0 to NumRes
      invariant forall j :: 0 <= j < i ==> Complex(re[j], im[j]) == Ac(k, j + 1, y)
    {
      var tmp := Ac(k, i + 1, y);
      re[i] := tmp.re;
      im[i] := tmp.im;
    }
  }

  /** complex::vector::sum(complex::vector::mult(A, theta)): the coherent sum of A_i theta_i. */
  function CoherentSum(A: seq<Complex>, theta: seq<Complex>): Complex
    requires |A| == |theta|
  {
    if |A| == 0 then Zero else Add(Mult(A[0], theta[0]), CoherentSum(A[1..], theta[1..]))
  }

  /** f_model(A, theta) = abs2 of the coherent sum; an intensity, so never negative. */
  function FModel(A: seq<Complex>, theta: seq<Complex>): (r: real)
    requires |A| == |theta|
    ensures r >= 0.0
    ensures r == 0.0 <==> CoherentSum(A, theta) == Zero
  {
    Abs2Zero(CoherentSum(A, theta));
    Abs2(CoherentSum(A, theta))
  }

  /** Every fit parameter multiplied by the same complex factor u. */
  function Rotate(theta: seq<Complex>, u: Complex): (r: seq<Complex>)
    ensures |r| == |theta|
  {
    seq(|theta|, i requires 0 <= i < |theta| => Mult(theta[i], u))
  }

  lemma MultDistributes(a: Complex, t: Complex, s: Complex, u: Complex)
    ensures Add(Mult(a, Mult(t, u)), Mult(s, u)) == Mult(Add(Mult(a, t), s), u)
  {}

  /** A common factor of the parameters factors out of the coherent sum. */
  lemma {:induction false} CoherentSumRotate(A: seq<Complex>, theta: seq<Complex>, u: Complex)
    requires |A| == |theta|
    ensures CoherentSum(A, Rotate(theta, u)) == Mult(CoherentSum(A, theta), u)
    decreases |A|
  {
    if |A| == 0 {
      assert Mult(Zero, u) == Zero;
    } else {
      assert Rotate(theta, u)[1..] == Rotate(theta[1..], u);
      CoherentSumRotate(A[1..], theta[1..], u);
      MultDistributes(A[0], theta[0], CoherentSum(A[1..], theta[1..]), u);
    }
  }

  /** A global phase of the fit parameters is unobservable in f_model. */
  lemma FModelPhaseInvariant(A: seq<Complex>, theta: seq<Complex>, u: Complex)
    requires |A| == |theta| && Abs2(u) == 1.0
    ensures FModel(A, Rotate(theta, u)) == FModel(A, theta)
  {
    CoherentSumRotate(A, theta, u);
    Abs2Mult(CoherentSum(A, theta), u);
  }

  /** I has at least n rows, each with at least n entries. */
  predicate CoversSquare(I: seq<seq<Complex>>, n: nat)
  {
    |I| >= n && forall i :: 0 <= i < n ==> |I[i]| >= n
  }

  /** The (i, j) contribution Re(conj(theta_i) tmp), with tmp = I_ij theta_j. */
  function NormTerm(theta_i: Complex, i_ij: Complex, theta_j: Complex): real
  {
    var t := Mult(i_ij, theta_j);
    theta_i.re * t.re + theta_i.im * t.im
  }

  /** The term is the real part of conj(theta_i) I_ij theta_j. */
  lemma NormTermIsRealPart(theta_i: Complex, i_ij: Complex, theta_j: Complex)
    ensures NormTerm(theta_i, i_ij, theta_j) == Mult(Conj(theta_i), Mult(i_ij, theta_j)).re
  {}

  /** The source's inline complex product and real-part sum compute the term. */
  lemma NormStep(theta_i: Complex, i_ij: Complex, theta_j: Complex, t_re: real, t_im: real)
    requires t_re == i_ij.re * theta_j.re - i_ij.im * theta_j.im
    requires t_im == i_ij.re * theta_j.im + i_ij.im * theta_j.re
    ensures theta_i.re * t_re + theta_i.im * t_im == NormTerm(theta_i, i_ij, theta_j)
  {}

  /** Row i of the double sum, columns below m. */
  function RowSum(theta: seq<Complex>, I: seq<seq<Complex>>, i: nat, m: nat): real
    requires i < |theta| && i < |I| && m <= |theta| && m <= |I[i]|
  {
    if m == 0 then 0.0 else RowSum(theta, I, i, m - 1) + NormTerm(theta[i], I[i][m - 1], theta[m - 1])
  }

  /** Rows below n of the double sum, columns below m. */
  function NormSum(theta: seq<Complex>, I: seq<seq<Complex>>, n: nat, m: nat): real
    requires n <= |theta| && m <= |theta| && n <= |I| && forall i :: 0 <= i < n ==> m <= |I[i]|
  {
    if n == 0 then 0.0 else NormSum(theta, I, n - 1, m) + RowSum(theta, I, n - 1, m)
  }

  /**
   * Norm(theta, I): Re(conj(theta)' I theta) accumulated over i, j < NUM_RES,
   * the complex product I_ij theta_j held in the two-entry buffer tmp.
   */
  method Norm(theta: seq<Complex>, I: seq<seq<Complex>>) returns (res: real)
    requires |theta| >= NumRes && CoversSquare(I, NumRes)
    ensures res == NormSum(theta, I, NumRes, NumRes)
  {
    res := 0.0;
    var tmp := new real[2];
    for i := 0 to NumRes
      invariant res == NormSum(theta, I, i, NumRes)
      invariant tmp.Length == 2
    {
      for j := 0 to NumRes
        invariant res == NormSum(theta, I, i, NumRes) + RowSum(theta, I, i, j)
        invariant tmp.Length == 2
      {
        var i_ij, theta_i, theta_j := I[i][j], theta[i], theta[j];
        tmp[0] := i_ij.re * theta_j.re - i_ij.im * theta_j.im;
        tmp[1] := i_ij.re * theta_j.im + i_ij.im * theta_j.re;
        var t_re, t_im := tmp[0], tmp[1];
        NormStep(theta_i, i_ij, theta_j, t_re, t_im);
        res := res + theta_i.re * t_re + theta_i.im * t_im;
      }
    }
  }

  /** Sum of abs2(theta_i) over i < n. */
  function SumAbs2(theta: seq<Complex>, n: nat): (r: real)
    requires n <= |theta|
    ensures r >= 0.0
  {
    if n == 0 then 0.0 else SumAbs2(theta, n - 1) + Abs2(theta[n - 1])
  }

  /** I is the n x n identity: one on the diagonal, zero elsewhere. */
  predicate IsIdentity(I: seq<seq<Complex>>, n: nat)
    requires CoversSquare(I, n)
  {
    forall i, j :: 0 <= i < n && 0 <= j < n ==> I[i][j] == (if i == j then One else Zero)
  }

  lemma {:induction false} RowSumOfIdentity(theta: seq<Complex>, I: seq<seq<Complex>>, n: nat, i: nat, m: nat)
    requires n <= |theta| && CoversSquare(I, n) && IsIdentity(I, n) && i < n && m <= n
    ensures RowSum(theta, I, i, m) == if i < m then Abs2(theta[i]) else 0.0
  {
    if m > 0 {
      RowSumOfIdentity(theta, I, n, i, m - 1);
      assert I[i][m - 1] == if i == m - 1 then One else Zero;
    }
  }

  lemma {:induction false} NormSumOfIdentity(theta: seq<Complex>, I: seq<seq<Complex>>, n: nat, rows: nat)
    requires n <= |theta| && CoversSquare(I, n) && IsIdentity(I, n) && rows <= n
    ensures NormSum(theta, I, rows, n) == SumAbs2(theta, rows)
  {
    if rows > 0 {
      NormSumOfIdentity(theta, I, n, rows - 1);
      RowSumOfIdentity(theta, I, n, rows - 1, n);
    }
  }

  /** With I the identity matrix, Norm is the sum of abs2(theta_i), so it is never negative. */
  lemma NormOfIdentity(theta: seq<Complex>, I: seq<seq<Complex>>)
    requires |theta| >= NumRes && CoversSquare(I, NumRes) && IsIdentity(I, NumRes)
    ensures NormSum(theta, I, NumRes, NumRes) == SumAbs2(theta, NumRes)
    ensures NormSum(theta, I, NumRes, NumRes) >= 0.0
  {
    NormSumOfIdentity(theta, I, NumRes, NumRes);
  }

  lemma ConjOfProduct(a: Complex, u: Complex)
    ensures Conj(Mult(a, u)) == Mult(Conj(a), Conj(u))
  {}

  /** One term with both parameters multiplied by u is abs2(u) times the term. */
  lemma NormTermRotate(a: Complex, m: Complex, b: Complex, u: Complex)
    ensures NormTerm(Mult(a, u), m, Mult(b, u)) == Abs2(u) * NormTerm(a, m, b)
  {
    var x := Mult(Conj(a), Mult(m, b));
    calc {
      Mult(Conj(Mult(a, u)), Mult(m, Mult(b, u)));
      { ConjOfProduct(a, u); MultAssociates(m, b, u); }
      Mult(Mult(Conj(a), Conj(u)), Mult(Mult(m, b), u));
      { MultAssociates(Conj(a), Conj(u), Mult(Mult(m, b), u));
        MultAssociates(Conj(u), Mult(m, b), u);
        MultCommutes(Mult(Conj(u), Mult(m, b)), u);
        MultCommutes(Conj(u), Mult(m, b)); }
      Mult(Conj(a), Mult(u, Mult(Mult(m, b), Conj(u))));
      { MultAssociates(Mult(m, b), Conj(u), u);
        MultAssociates(u, Mult(m, b), Conj(u));
        MultCommutes(u, Mult(m, b));
        MultAssociates(Mult(m, b), u, Conj(u));
        MultCommutes(u, Conj(u)); }
      Mult(Conj(a), Mult(Mult(m, b), Mult(Conj(u), u)));
      { ConjMult(u); }
      Mult(Conj(a), Mult(Mult(m, b), Complex(Abs2(u), 0.0)));
      { MultAssociates(Conj(a), Mult(m, b), Complex(Abs2(u), 0.0)); }
      Mult(x, Complex(Abs2(u), 0.0));
    }
    NormTermIsRealPart(Mult(a, u), m, Mult(b, u));
    NormTermIsRealPart(a, m, b);
  }

  lemma {:induction false} RowSumRotate(theta: seq<Complex>, I: seq<seq<Complex>>, u: Complex, i: nat, m: nat)
    requires i < |theta| && i < |I| && m <= |theta| && m <= |I[i]|
    ensures RowSum(Rotate(theta, u), I, i, m) == Abs2(u) * RowSum(theta, I, i, m)
  {
    if m > 0 {
      RowSumRotate(theta, I, u, i, m - 1);
      NormTermRotate(theta[i], I[i][m - 1], theta[m - 1], u);
    }
  }

  lemma {:induction false} NormSumRotate(theta: seq<Complex>, I: seq<seq<Complex>>, u: Complex, n: nat, m: nat)
    requires n <= |theta| && m <= |theta| && n <= |I| && forall i :: 0 <= i < n ==> m <= |I[i]|
    ensures NormSum(Rotate(theta, u), I, n, m) == Abs2(u) * NormSum(theta, I, n, m)
  {
    if n > 0 {
      NormSumRotate(theta, I, u, n - 1, m);
      RowSumRotate(theta, I, u, n - 1, m);
    }
  }

  /** Like f_model, Norm does not see a global phase of the fit parameters. */
  lemma NormPhaseInvariant(theta: seq<Complex>, I: seq<seq<Complex>>, u: Complex)
    requires |theta| >= NumRes && CoversSquare(I, NumRes) && Abs2(u) == 1.0
    ensures NormSum(Rotate(theta, u), I, NumRes, NumRes) == NormSum(theta, I, NumRes, NumRes)
  {
    NormSumRotate(theta, I, u, NumRes, NumRes);
  }
}
