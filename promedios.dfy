/** The weighted means of gsmlocation.py (`np.sum`, `np.mean`, `np.average`
    with weights), over exact reals: the idealisation of the float code with
    no rounding. */
module Promedios {

  function Suma(s: seq<real>): real
    decreases |s|
  {
    if s == [] then 0.0 else s[0] + Suma(s[1..])
  }

  /** `sum(w * x)` over paired entries. */
  function SumaPonderada(xs: seq<real>, ws: seq<real>): real
    requires |xs| == |ws|
    decreases |xs|
  {
    if xs == [] then 0.0 else xs[0] * ws[0] + SumaPonderada(xs[1..], ws[1..])
  }

  /** `np.average(xs, weights=ws)`; numpy raises ZeroDivisionError when the
      weights sum to zero, which the precondition excludes. */
  function Media(xs: seq<real>, ws: seq<real>): real
    requires |xs| == |ws| && Suma(ws) != 0.0
  {
    SumaPonderada(xs, ws) / Suma(ws)
  }

  /** `np.mean(xs)`. */
  function MediaSimple(xs: seq<real>): real
    requires |xs| > 0
  {
    Suma(xs) / (|xs| as real)
  }

  /** The largest value of a non-empty sequence. */
  function Maximo(s: seq<real>): (r: real)
    requires |s| > 0
    ensures r in s && forall i | 0 <= i < |s| :: s[i] <= r
    decreases |s|
  {
    if |s| == 1 then s[0]
    else
      var m := Maximo(s[1..]);
      if s[0] >= m then s[0] else m
  }

  /** The smallest value of a non-empty sequence. */
  function Minimo(s: seq<real>): (r: real)
    requires |s| > 0
    ensures r in s && forall i | 0 <= i < |s| :: r <= s[i]
    decreases |s|
  {
    if |s| == 1 then s[0]
    else
      var m := Minimo(s[1..]);
      if s[0] <= m then s[0] else m
  }

  /** `np.array(ws) / d`. */
  function Dividir(ws: seq<real>, d: real): (r: seq<real>)
    requires d != 0.0
    ensures |r| == |ws| && forall i | 0 <= i < |ws| :: r[i] == ws[i] / d
  {
    seq(|ws|, i requires 0 <= i < |ws| => ws[i] / d)
  }

  /** `np.ones(n) / n`. */
  function Uniforme(n: nat): (r: seq<real>)
    requires n > 0
    ensures |r| == n && forall i | 0 <= i < n :: r[i] == 1.0 / (n as real)
  {
    seq(n, i => 1.0 / (n as real))
  }

  lemma {:induction false} SumaDividir(ws: seq<real>, d: real)
    requires d != 0.0
    ensures Suma(Dividir(ws, d)) == Suma(ws) / d
    decreases |ws|
  {
    if ws != [] {
      var r := Dividir(ws, d);
      assert r[1..] == Dividir(ws[1..], d);
      SumaDividir(ws[1..], d);
      assert Suma(r) == ws[0] / d + Suma(ws[1..]) / d;
    }
  }

  lemma {:induction false} SumaConstante(s: seq<real>, v: real)
    requires forall i | 0 <= i < |s| :: s[i] == v
    ensures Suma(s) == (|s| as real) * v
    decreases |s|
  {
    if s != [] {
      SumaConstante(s[1..], v);
    }
  }

  /** Dividing by the total, and the uniform fallback, both give weights that
      sum to exactly one. */
  lemma NormalizarSumaUno(ws: seq<real>)
    requires Suma(ws) != 0.0
    ensures Suma(Dividir(ws, Suma(ws))) == 1.0
  {
    SumaDividir(ws, Suma(ws));
    var t := Suma(ws);
    assert t / t == 1.0;
  }

  lemma UniformeSumaUno(n: nat)
    requires n > 0
    ensures Suma(Uniforme(n)) == 1.0
  {
    SumaConstante(Uniforme(n), 1.0 / (n as real));
  }

  lemma {:induction false} SumaNoNegativa(ws: seq<real>)
    requires forall i | 0 <= i < |ws| :: ws[i] >= 0.0
    ensures Suma(ws) >= 0.0
    decreases |ws|
  {
    if ws != [] {
      SumaNoNegativa(ws[1..]);
    }
  }

  lemma {:induction false} SumaPositiva(ws: seq<real>)
    requires |ws| > 0 && forall i | 0 <= i < |ws| :: ws[i] > 0.0
    ensures Suma(ws) > 0.0
    decreases |ws|
  {
    if |ws| > 1 {
      SumaPositiva(ws[1..]);
    }
  }

  lemma {:induction false} SumaPonderadaAcotada(xs: seq<real>, ws: seq<real>, lo: real, hi: real)
    requires |xs| == |ws|
    requires forall i | 0 <= i < |ws| :: ws[i] >= 0.0
    requires forall i | 0 <= i < |xs| :: lo <= xs[i] <= hi
    ensures lo * Suma(ws) <= SumaPonderada(xs, ws) <= hi * Suma(ws)
    decreases |xs|
  {
    if xs == [] {
      assert Suma(ws) == 0.0 && SumaPonderada(xs, ws) == 0.0;
    } else {
      SumaPonderadaAcotada(xs[1..], ws[1..], lo, hi);
      PasoAcotado(xs[0], ws[0], lo, hi, Suma(ws[1..]), SumaPonderada(xs[1..], ws[1..]),
                  Suma(ws), SumaPonderada(xs, ws));
    }
  }

  /** One term added to both sums keeps the bounds: `s2` and `p2` are the sums
      with the weight `w` and the term `x * w` added. */
  lemma PasoAcotado(x: real, w: real, lo: real, hi: real, s: real, p: real, s2: real, p2: real)
    requires lo <= x <= hi && w >= 0.0 && lo * s <= p <= hi * s
    requires s2 == w + s && p2 == x * w + p
    ensures lo * s2 <= p2 <= hi * s2
  {
    assert (x - lo) * w >= 0.0;
    assert (hi - x) * w >= 0.0;
    assert lo * (w + s) == lo * w + lo * s;
    assert hi * (w + s) == hi * w + hi * s;
  }

  /** With non-negative weights of positive total, the weighted mean lies
      between any lower and upper bound of the values. */
  lemma MediaAcotada(xs: seq<real>, ws: seq<real>, lo: real, hi: real)
    requires |xs| == |ws|
    requires forall i | 0 <= i < |ws| :: ws[i] >= 0.0
    requires Suma(ws) > 0.0
    requires forall i | 0 <= i < |xs| :: lo <= xs[i] <= hi
    ensures lo <= Media(xs, ws) <= hi
  {
    SumaPonderadaAcotada(xs, ws, lo, hi);
    MediaEntreCotas(xs, ws, lo, hi, Suma(ws), SumaPonderada(xs, ws));
  }

  /** Bounds on the weighted sum, scaled by the total, bound the mean. The sums
      are passed as values so the quotient is reasoned about on plain reals. */
  lemma MediaEntreCotas(xs: seq<real>, ws: seq<real>, lo: real, hi: real, s: real, p: real)
    requires |xs| == |ws| && s == Suma(ws) && p == SumaPonderada(xs, ws)
    requires s > 0.0 && lo * s <= p <= hi * s
    ensures lo <= Media(xs, ws) <= hi
  {
    CocienteAcotado(lo, p, hi, s);
  }

  lemma CocienteAcotado(lo: real, p: real, hi: real, s: real)
    requires s > 0.0 && lo * s <= p <= hi * s
    ensures lo <= p / s <= hi
  {
    assert p / s * s == p;
  }

  /** The mean of a single value is that value, whatever its non-zero weight. */
  lemma MediaUnica(x: real, w: real)
    requires w != 0.0
    ensures Media([x], [w]) == x
  {
    assert [x][1..] == [] && [w][1..] == [];
    assert SumaPonderada([x], [w]) == x * w;
    assert Suma([w]) == w;
    assert x * w / w == x;
  }
}
