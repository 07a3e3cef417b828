/**
 The dense airspeed expressions: innovation variance and gain, proved equal to `H P Hᵀ + R` and
 `P Hᵀ` for the observation row over the velocity and wind states.
 */
module AirspeedFusion {
  import opened Numeric
  import opened LinearAlgebra
  import opened MagFusion

  /** The values an airspeed update captures: vertical speed and the three common subexpressions. */
  datatype TasGeometry = TasGeometry(vd: real, sh0: real, sh1: real, sh2: real)

  /** `ve`, `vn` are velocities, `vwe`, `vwn` the wind, `vtasPred` the predicted airspeed. */
  function SharedTerms(vn: real, ve: real, vd: real, vwn: real, vwe: real, vtasPred: real): TasGeometry
    requires vtasPred != 0.0
  {
    var sh0 := 1.0 / vtasPred;
    TasGeometry(vd, sh0, (sh0 * (2.0 * ve - 2.0 * vwe)) * 0.5, (sh0 * (2.0 * vn - 2.0 * vwn)) * 0.5)
  }

  /** The bracket the denominator repeats for column `k`. */
  function TasBracket(g: TasGeometry, P: Table, k: int): real {
    P(4, k) * g.sh2 + P(5, k) * g.sh1 - P(22, k) * g.sh2 - P(23, k) * g.sh1 + P(6, k) * g.vd * g.sh0
  }

  function TasOuter(g: TasGeometry, b4: real, b5: real, b22: real, b23: real, b6: real, r: real): real {
    r + g.sh2 * b4 + g.sh1 * b5 - g.sh2 * b22 - g.sh1 * b23 + g.vd * g.sh0 * b6
  }

  /** The dense Kalman gain denominator. */
  function VarInnovTas(g: TasGeometry, P: Table, r: real): real {
    TasOuter(g, TasBracket(g, P, 4), TasBracket(g, P, 5), TasBracket(g, P, 22), TasBracket(g, P, 23), TasBracket(g, P, 6), r)
  }

  /** Gain times the innovation variance, from one row of P. */
  function NumeratorTas(g: TasGeometry, p: Vec): real {
    p(4) * g.sh2 - p(22) * g.sh2 + p(5) * g.sh1 - p(23) * g.sh1 + p(6) * g.vd * g.sh0
  }

  /** H over all states. */
  function DenseTas(g: TasGeometry): Vec {
    Place(Place(Place(Place(Place(i => 0.0, 4, g.sh2), 5, g.sh1), 6, g.vd * g.sh0), 22, -g.sh2), 23, -g.sh1)
  }

  function SparseTas(g: TasGeometry, v: Vec): real {
    Times(g.sh2, v(4)) + Times(g.sh1, v(5)) + Times(g.vd * g.sh0, v(6)) + Times(-g.sh2, v(22)) + Times(-g.sh1, v(23))
  }

  lemma DenseTasDot(g: TasGeometry, u: Vec)
    ensures Dot(N, u, DenseTas(g)) == SparseTas(g, u)
  {
    hide Dot, Times;
    var z: Vec := i => 0.0;
    var v0 := Place(z, 4, g.sh2);
    var v1 := Place(v0, 5, g.sh1);
    var v2 := Place(v1, 6, g.vd * g.sh0);
    var v3 := Place(v2, 22, -g.sh2);
    DotZero(N, u, z);
    DotPlace(u, z, 4, g.sh2);
    DotPlace(u, v0, 5, g.sh1);
    DotPlace(u, v1, 6, g.vd * g.sh0);
    DotPlace(u, v2, 22, -g.sh2);
    DotPlace(u, v3, 23, -g.sh1);
    DotCongruent(N, u, DenseTas(g), u, Place(v3, 23, -g.sh1));
  }

  lemma BracketTas(g: TasGeometry, p: Vec)
    ensures NumeratorTas(g, p) == SparseTas(g, p)
  {}

  lemma ColumnTas(g: TasGeometry, P: Table, k: int)
    ensures TasBracket(g, P, k) == NumeratorTas(g, ColOf(P, k))
  {}

  lemma OuterTas(g: TasGeometry, hp: Vec, r: real)
    ensures TasOuter(g, hp(4), hp(5), hp(22), hp(23), hp(6), r) == NumeratorTas(g, hp) + r
  {}

  lemma VarianceIsFormTas(g: TasGeometry, P: Table, r: real)
    ensures VarInnovTas(g, P, r) == Form(P, DenseTas(g), DenseTas(g)) + r
  {
    hide Dot, DenseTas, SparseTas, NumeratorTas, TasOuter, TasBracket;
    var h := DenseTas(g);
    Adjoint(P, h, h);
    DenseTasDot(g, ApplyT(P, h));
    BracketTas(g, ApplyT(P, h));
    forall k ensures ApplyT(P, h)(k) == TasBracket(g, P, k) {
      HpTas(g, P, k);
      ColumnTas(g, P, k);
    }
    OuterTas(g, ApplyT(P, h), r);
  }

  /** The code's bracket for column `k` is entry `k` of `H P`. */
  lemma HpTas(g: TasGeometry, P: Table, k: int)
    ensures ApplyT(P, DenseTas(g))(k) == NumeratorTas(g, ColOf(P, k))
  {
    hide Dot, DenseTas, SparseTas, NumeratorTas;
    DotCommutes(N, DenseTas(g), ColOf(P, k));
    DenseTasDot(g, ColOf(P, k));
    BracketTas(g, ColOf(P, k));
  }
}
