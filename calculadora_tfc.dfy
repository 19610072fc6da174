/**
 * The Fundamental Theorem of Calculus service (`CalculadoraTFC`): the
 * composite trapezoid rule with a fixed number of subintervals, the checks of
 * the theorem's two parts, and the pattern-matched antiderivative table.
 *
 * Arithmetic is over `real`; floating-point rounding is not modelled.
 */
module CalculadoraTFC {
  import opened Comun
  import opened Sumas
  import opened Cadenas
  import opened TeoremaFundamental

  /** Number of subintervals of the trapezoid rule (`this.precision`). */
  const Precision: nat := 1000

  /** Step of the forward difference in the second part. */
  const PasoDerivada: real := 0.0001

  /** Tolerance of the second part: `diferencia < 0.01`. */
  const ToleranciaSegundaParte: real := 0.01

  // ---------------------------------------------------------------------
  // The trapezoid rule as a specification
  // ---------------------------------------------------------------------

  /** Weight of node `i` of `n`: one half at both ends, one inside. */
  function Peso(i: int, n: int): real
  {
    if i == 0 || i == n then 0.5 else 1.0
  }

  /** Node `i` of the partition that starts at `a` with step `h`. */
  function Nodo(a: real, h: real, i: int): real
  {
    a + (i as real) * h
  }

  /** Width of each of the `n` subintervals of `[a, b]`, negative when `b < a`. */
  function Paso(a: real, b: real, n: nat): real
    requires n > 0
  {
    (b - a) / (n as real)
  }

  /** The weighted samples `peso(i) * f(a + i*h)` for `i = 0..n`. */
  function Terminos(f: real -> real, a: real, h: real, n: nat): seq<real>
  {
    seq(n + 1, i requires 0 <= i <= n => Peso(i, n) * f(Nodo(a, h, i)))
  }

  /** The weights alone. */
  function Pesos(n: nat): seq<real>
  {
    seq(n + 1, i requires 0 <= i <= n => Peso(i, n))
  }

  /** The composite trapezoid rule on `[a, b]` with `n` subintervals. */
  function Trapecio(f: real -> real, a: real, b: real, n: nat): real
    requires n > 0
  {
    Suma(Terminos(f, a, Paso(a, b, n), n)) * Paso(a, b, n)
  }

  // ---------------------------------------------------------------------
  // integralNumerica
  // ---------------------------------------------------------------------

  /**
   * `integralNumerica(funcion, a, b)`: the counted loop over the 1001 nodes,
   * accumulating `peso * f(x)` and scaling by `h` at the end.
   */
  method IntegralNumerica(f: real -> real, a: real, b: real) returns (r: real)
    ensures r == Trapecio(f, a, b, Precision)
  {
    var n := Precision;
    var h := (b - a) / (n as real);
    var suma := 0.0;
    ghost var terminos := Terminos(f, a, h, n);
    for i := 0 to n + 1
      invariant suma == Suma(terminos[..i])
    {
      var x := a + (i as real) * h;
      var peso := if i == 0 || i == n then 0.5 else 1.0;
      assert x == Nodo(a, h, i) && peso == Peso(i, n);
      assert terminos[i] == peso * f(x);
      assert terminos[..i + 1][..i] == terminos[..i];
      assert Suma(terminos[..i + 1]) == Suma(terminos[..i]) + terminos[i];
      suma := suma + peso * f(x);
    }
    assert terminos[..n + 1] == terminos;
    r := suma * h;
  }

  /** The rule with 1000 subintervals as an integrator over intervals. */
  function Trapecios(): (I: Integrador)
    ensures forall f, iv :: I(f, iv) == Trapecio(f, iv.inicio, iv.fin, Precision)
  {
    (f: real -> real, iv: Intervalo) => Trapecio(f, iv.inicio, iv.fin, Precision)
  }

  // ---------------------------------------------------------------------
  // Algebra of the trapezoid rule
  // ---------------------------------------------------------------------

  /** The weights of the first `k` nodes add up to `k - 1/2`. */
  lemma {:induction false} SumaPesosPrefijo(n: nat, k: nat)
    requires 1 <= k <= n
    ensures Suma(Pesos(n)[..k]) == (k as real) - 0.5
    decreases k
  {
    var p := Pesos(n);
    if k == 1 {
      assert p[..1][..0] == [];
    } else {
      SumaPesosPrefijo(n, k - 1);
      assert p[..k][..k - 1] == p[..k - 1];
    }
  }

  /** The weights add up to `n`: half, `n - 1` ones, half. */
  lemma SumaPesos(n: nat)
    requires n >= 1
    ensures Suma(Pesos(n)) == n as real
  {
    SumaPesosPrefijo(n, n);
  }

  /** A degenerate interval integrates to zero: the step is zero. */
  lemma TrapecioDegenerado(f: real -> real, a: real, n: nat)
    requires n > 0
    ensures Trapecio(f, a, a, n) == 0.0
  {
  }

  /** `n` steps of width `Paso(a, b, n)` lead from `a` to `b`; the reverse step is its negation. */
  lemma PasoAlReves(a: real, b: real, n: nat)
    requires n > 0
    ensures (n as real) * Paso(a, b, n) == b - a
    ensures Paso(b, a, n) == -Paso(a, b, n)
  {
    var m := n as real;
    var q, r := (b - a) / m, (a - b) / m;
    assert q * m == b - a;
    assert r * m == a - b;
    assert (r + q) * m == 0.0;
  }

  /** Node `i` walking back from `b` is node `n - i` walking forward from `a`. */
  lemma NodoEspejo(a: real, b: real, n: nat, i: int)
    requires n > 0
    ensures Nodo(b, Paso(b, a, n), i) == Nodo(a, Paso(a, b, n), n - i)
  {
    var h := Paso(a, b, n);
    PasoAlReves(a, b, n);
    calc {
      Nodo(b, Paso(b, a, n), i);
      b + (i as real) * (-h);
      (a + (n as real) * h) - (i as real) * h;
      a + ((n as real) - (i as real)) * h;
    }
  }

  /** Walking back from `b` samples the same weighted values in reverse order. */
  lemma TerminosEspejo(f: real -> real, a: real, b: real, n: nat)
    requires n > 0
    ensures Terminos(f, b, Paso(b, a, n), n) == Reverso(Terminos(f, a, Paso(a, b, n), n))
  {
    var t := Terminos(f, a, Paso(a, b, n), n);
    var t' := Terminos(f, b, Paso(b, a, n), n);
    forall i | 0 <= i <= n
      ensures t'[i] == Reverso(t)[i]
    {
      NodoEspejo(a, b, n, i);
      assert Peso(i, n) == Peso(n - i, n);
    }
  }

  /** Swapping the limits negates the result: the nodes mirror and the weights are symmetric. */
  lemma TrapecioInvertido(f: real -> real, a: real, b: real, n: nat)
    requires n > 0
    ensures Trapecio(f, b, a, n) == -Trapecio(f, a, b, n)
  {
    var t := Terminos(f, a, Paso(a, b, n), n);
    TerminosEspejo(f, a, b, n);
    SumaReverso(t);
    PasoAlReves(a, b, n);
    Negar(Suma(t), Paso(a, b, n), Paso(b, a, n));
  }

  /** `s * (-h) == -(s * h)`. */
  lemma Negar(s: real, h: real, h': real)
    requires h' == -h
    ensures s * h' == -(s * h)
  {
  }

  /** The weighted samples of `k = c1 f + c2 g` are that combination of the samples of `f` and `g`. */
  lemma TerminosLineales(f: real -> real, g: real -> real, k: real -> real, c1: real, c2: real,
                         a: real, h: real, n: nat)
    requires forall x :: k(x) == c1 * f(x) + c2 * g(x)
    ensures Terminos(k, a, h, n) == Combinacion(c1, Terminos(f, a, h, n), c2, Terminos(g, a, h, n))
  {
    forall i | 0 <= i <= n
      ensures Terminos(k, a, h, n)[i] == Combinacion(c1, Terminos(f, a, h, n), c2, Terminos(g, a, h, n))[i]
    {
      TerminoLineal(f, g, k, c1, c2, a, h, n, i);
    }
  }

  lemma TerminoLineal(f: real -> real, g: real -> real, k: real -> real, c1: real, c2: real,
                      a: real, h: real, n: nat, i: nat)
    requires i <= n
    requires k(Nodo(a, h, i)) == c1 * f(Nodo(a, h, i)) + c2 * g(Nodo(a, h, i))
    ensures Terminos(k, a, h, n)[i] == Combinacion(c1, Terminos(f, a, h, n), c2, Terminos(g, a, h, n))[i]
  {
    var x := Nodo(a, h, i);
    Distribuir(Peso(i, n), c1, f(x), c2, g(x));
  }

  /** The rule is linear in the integrand. */
  lemma TrapecioLineal(f: real -> real, g: real -> real, k: real -> real, c1: real, c2: real,
                       a: real, b: real, n: nat)
    requires n > 0
    requires forall x :: k(x) == c1 * f(x) + c2 * g(x)
    ensures Trapecio(k, a, b, n) == c1 * Trapecio(f, a, b, n) + c2 * Trapecio(g, a, b, n)
  {
    TerminosLineales(f, g, k, c1, c2, a, Paso(a, b, n), n);
    TrapecioDeTerminos(f, g, k, c1, c2, a, b, n);
  }

  /** Linearity once the weighted samples are known to combine. */
  lemma TrapecioDeTerminos(f: real -> real, g: real -> real, k: real -> real, c1: real, c2: real,
                           a: real, b: real, n: nat)
    requires n > 0
    requires var h := Paso(a, b, n);
      Terminos(k, a, h, n) == Combinacion(c1, Terminos(f, a, h, n), c2, Terminos(g, a, h, n))
    ensures Trapecio(k, a, b, n) == c1 * Trapecio(f, a, b, n) + c2 * Trapecio(g, a, b, n)
  {
    SumasLineales(f, g, k, c1, c2, a, Paso(a, b, n), n);
    TrapecioDeCombinacion(f, g, k, c1, c2, a, b, n);
  }

  /** The sums of the weighted samples combine as the samples do. */
  lemma SumasLineales(f: real -> real, g: real -> real, k: real -> real, c1: real, c2: real,
                      a: real, h: real, n: nat)
    requires Terminos(k, a, h, n) == Combinacion(c1, Terminos(f, a, h, n), c2, Terminos(g, a, h, n))
    ensures Suma(Terminos(k, a, h, n)) == c1 * Suma(Terminos(f, a, h, n)) + c2 * Suma(Terminos(g, a, h, n))
  {
    SumaDeCombinacion(Terminos(k, a, h, n), c1, Terminos(f, a, h, n), c2, Terminos(g, a, h, n));
  }

  /** Linearity once the sums of the weighted samples are known to combine. */
  lemma TrapecioDeCombinacion(f: real -> real, g: real -> real, k: real -> real, c1: real, c2: real,
                              a: real, b: real, n: nat)
    requires n > 0
    requires var h := Paso(a, b, n);
      Suma(Terminos(k, a, h, n)) == c1 * Suma(Terminos(f, a, h, n)) + c2 * Suma(Terminos(g, a, h, n))
    ensures Trapecio(k, a, b, n) == c1 * Trapecio(f, a, b, n) + c2 * Trapecio(g, a, b, n)
  {
    var h := Paso(a, b, n);
    var sf, sg, sk := Suma(Terminos(f, a, h, n)), Suma(Terminos(g, a, h, n)), Suma(Terminos(k, a, h, n));
    Distribuir(h, c1, sf, c2, sg);
    Sustituir(Trapecio(k, a, b, n), Trapecio(f, a, b, n), Trapecio(g, a, b, n),
              sk * h, sf * h, sg * h, c1, c2);
  }

  /** Replacing three values by equal ones in `x == c1*y + c2*z`. */
  lemma Sustituir(x: real, y: real, z: real, x': real, y': real, z': real, c1: real, c2: real)
    requires x == x' && y == y' && z == z'
    requires x' == c1 * y' + c2 * z'
    ensures x == c1 * y + c2 * z
  {
  }

  /** Scaling a combination of sums by the step scales each sum. */
  lemma ReglaLineal(tf: seq<real>, tg: seq<real>, c1: real, c2: real, h: real)
    requires |tf| == |tg|
    ensures Suma(Combinacion(c1, tf, c2, tg)) * h == c1 * (Suma(tf) * h) + c2 * (Suma(tg) * h)
  {
    SumaCombinacion(c1, tf, c2, tg);
    Distribuir(h, c1, Suma(tf), c2, Suma(tg));
  }

  /** `w * (c1 * p + c2 * q) == c1 * (w * p) + c2 * (w * q)`, in both orders of the product. */
  lemma Distribuir(w: real, c1: real, p: real, c2: real, q: real)
    ensures w * (c1 * p + c2 * q) == c1 * (w * p) + c2 * (w * q)
    ensures (c1 * p + c2 * q) * w == c1 * (p * w) + c2 * (q * w)
  {
  }

  /** The weighted samples of a constant `c` are `c` times the weights. */
  lemma TerminosConstantes(f: real -> real, c: real, a: real, h: real, n: nat)
    requires forall x :: f(x) == c
    ensures Terminos(f, a, h, n) == Combinacion(c, Pesos(n), 0.0, Pesos(n))
  {
    var t := Terminos(f, a, h, n);
    forall i | 0 <= i <= n
      ensures t[i] == Combinacion(c, Pesos(n), 0.0, Pesos(n))[i]
    {
    }
  }

  /** A constant `c` integrates to `c * (b - a)`: the weights add up to `n`. */
  lemma TrapecioConstante(f: real -> real, c: real, a: real, b: real, n: nat)
    requires n > 0
    requires forall x :: f(x) == c
    ensures Trapecio(f, a, b, n) == c * (b - a)
  {
    var h := Paso(a, b, n);
    TerminosConstantes(f, c, a, h, n);
    SumaCombinacion(c, Pesos(n), 0.0, Pesos(n));
    SumaPesos(n);
    PasoAlReves(a, b, n);
    Escalar(Suma(Terminos(f, a, h, n)), Suma(Pesos(n)), h, c, n as real, b - a);
  }

  /** If `s == c*m` and `m*h == d` then `s*h == c*d`. */
  lemma Escalar(s: real, sp: real, h: real, c: real, m: real, d: real)
    requires s == c * sp + 0.0 * sp && sp == m && m * h == d
    ensures s * h == c * d
  {
  }

  /**
   * On a forward interval, an integrand no larger at every node gives no
   * larger a result.
   */
  lemma TrapecioMonotono(f: real -> real, g: real -> real, a: real, b: real, n: nat)
    requires n > 0 && a <= b
    requires forall i :: 0 <= i <= n ==> f(Nodo(a, Paso(a, b, n), i)) <= g(Nodo(a, Paso(a, b, n), i))
    ensures Trapecio(f, a, b, n) <= Trapecio(g, a, b, n)
  {
    var h := Paso(a, b, n);
    TerminosMonotonos(f, g, a, h, n);
    SumaMonotona(Terminos(f, a, h, n), Terminos(g, a, h, n));
    TrapecioDeSumasMonotonas(f, g, a, b, n);
  }

  /** Positive weights keep the order of the samples. */
  lemma TerminosMonotonos(f: real -> real, g: real -> real, a: real, h: real, n: nat)
    requires forall i :: 0 <= i <= n ==> f(Nodo(a, h, i)) <= g(Nodo(a, h, i))
    ensures forall i :: 0 <= i < |Terminos(f, a, h, n)| ==> Terminos(f, a, h, n)[i] <= Terminos(g, a, h, n)[i]
  {
    forall i | 0 <= i < |Terminos(f, a, h, n)|
      ensures Terminos(f, a, h, n)[i] <= Terminos(g, a, h, n)[i]
    {
      assert Peso(i, n) > 0.0 && f(Nodo(a, h, i)) <= g(Nodo(a, h, i));
    }
  }

  /** Monotonicity once the sums are known to be ordered: the step is not negative. */
  lemma TrapecioDeSumasMonotonas(f: real -> real, g: real -> real, a: real, b: real, n: nat)
    requires n > 0 && a <= b
    requires Suma(Terminos(f, a, Paso(a, b, n), n)) <= Suma(Terminos(g, a, Paso(a, b, n), n))
    ensures Trapecio(f, a, b, n) <= Trapecio(g, a, b, n)
  {
    var h := Paso(a, b, n);
    assert h >= 0.0;
    Escalonar(Suma(Terminos(f, a, h, n)), Suma(Terminos(g, a, h, n)), h);
  }

  /** Multiplying by a non-negative factor keeps an order. */
  lemma Escalonar(x: real, y: real, h: real)
    requires x <= y && h >= 0.0
    ensures x * h <= y * h
  {
    assert y * h - x * h == (y - x) * h;
  }

  // ---------------------------------------------------------------------
  // Exactness on polynomials of degree at most one, and the square
  // ---------------------------------------------------------------------

  /** `peso(i) * i` for `i = 0..n`. */
  function PesosPorIndice(n: nat): seq<real>
  {
    seq(n + 1, i requires 0 <= i <= n => Peso(i, n) * (i as real))
  }

  /** `0 + 1 + ... + (k - 1) == (k - 1) * k / 2` over the inner weights. */
  lemma {:induction false} SumaPesosPorIndicePrefijo(n: nat, k: nat)
    requires 1 <= k <= n
    ensures Suma(PesosPorIndice(n)[..k]) == ((k - 1) as real) * (k as real) / 2.0
    decreases k
  {
    var p := PesosPorIndice(n);
    if k == 1 {
      assert p[..1][..0] == [];
    } else {
      SumaPesosPorIndicePrefijo(n, k - 1);
      assert p[..k][..k - 1] == p[..k - 1];
    }
  }

  /** The weighted indices add up to `n * n / 2`. */
  lemma SumaPesosPorIndice(n: nat)
    requires n >= 1
    ensures Suma(PesosPorIndice(n)) == (n as real) * (n as real) / 2.0
  {
    SumaPesosPorIndicePrefijo(n, n);
  }

  /** The weighted samples of the identity are `a` times the weights plus `h` times the weighted indices. */
  lemma TerminosIdentidad(f: real -> real, a: real, h: real, n: nat)
    requires forall x :: f(x) == x
    ensures Terminos(f, a, h, n) == Combinacion(a, Pesos(n), h, PesosPorIndice(n))
  {
    forall i | 0 <= i <= n
      ensures Terminos(f, a, h, n)[i] == Combinacion(a, Pesos(n), h, PesosPorIndice(n))[i]
    {
      TerminoIdentidad(f, a, h, n, i);
    }
  }

  lemma TerminoIdentidad(f: real -> real, a: real, h: real, n: nat, i: nat)
    requires i <= n
    requires f(Nodo(a, h, i)) == Nodo(a, h, i)
    ensures Terminos(f, a, h, n)[i] == Combinacion(a, Pesos(n), h, PesosPorIndice(n))[i]
  {
    var w, x := Peso(i, n), i as real;
    assert Terminos(f, a, h, n)[i] == w * (a + x * h);
    assert Combinacion(a, Pesos(n), h, PesosPorIndice(n))[i] == a * w + h * (w * x);
  }

  /** The closing algebra of `TrapecioIdentidad`, with `d = m*h = b - a`. */
  lemma AlgebraIdentidad(st: real, sp: real, sq: real, a: real, b: real, h: real, m: real)
    requires st == a * sp + h * sq
    requires sp == m && sq == m * m / 2.0
    requires m * h == b - a
    ensures st * h == (b * b - a * a) / 2.0
  {
    var d := m * h;
    calc {
      st * h;
      (a * m + h * (m * m / 2.0)) * h;
      a * d + d * d / 2.0;
      a * (b - a) + (b - a) * (b - a) / 2.0;
      (b * b - a * a) / 2.0;
    }
  }

  /** The identity integrates exactly to `(b^2 - a^2) / 2`. */
  lemma TrapecioIdentidad(f: real -> real, a: real, b: real, n: nat)
    requires n > 0
    requires forall x :: f(x) == x
    ensures Trapecio(f, a, b, n) == (b * b - a * a) / 2.0
  {
    TerminosIdentidad(f, a, Paso(a, b, n), n);
    PasoAlReves(a, b, n);
    ReglaIdentidad(a, b, Paso(a, b, n), n);
  }

  /** The sum behind `TrapecioIdentidad`, for any step with `n*h = b - a`. */
  lemma ReglaIdentidad(a: real, b: real, h: real, n: nat)
    requires n > 0 && (n as real) * h == b - a
    ensures Suma(Combinacion(a, Pesos(n), h, PesosPorIndice(n))) * h == (b * b - a * a) / 2.0
  {
    SumaCombinacion(a, Pesos(n), h, PesosPorIndice(n));
    SumaPesos(n);
    SumaPesosPorIndice(n);
    AlgebraIdentidad(Suma(Combinacion(a, Pesos(n), h, PesosPorIndice(n))), Suma(Pesos(n)),
                     Suma(PesosPorIndice(n)), a, b, h, n as real);
  }

  /** An affine integrand `p*x + q` integrates exactly. */
  lemma TrapecioAfin(f: real -> real, p: real, q: real, a: real, b: real, n: nat)
    requires n > 0
    requires forall x :: f(x) == p * x + q
    ensures Trapecio(f, a, b, n) == p * ((b * b - a * a) / 2.0) + q * (b - a)
  {
    var identidad: real -> real := x => x;
    var uno: real -> real := x => 1.0;
    forall x
      ensures f(x) == p * identidad(x) + q * uno(x)
    {
    }
    TrapecioLineal(identidad, uno, f, p, q, a, b, n);
    var ti, tu := Trapecio(identidad, a, b, n), Trapecio(uno, a, b, n);
    TrapecioIdentidad(identidad, a, b, n);
    TrapecioConstante(uno, 1.0, a, b, n);
    calc {
      Trapecio(f, a, b, n);
      p * ti + q * tu;
      { assert ti == (b * b - a * a) / 2.0; }
      p * ((b * b - a * a) / 2.0) + q * tu;
      { assert tu == b - a; }
      p * ((b * b - a * a) / 2.0) + q * (b - a);
    }
  }

  /** `peso(i) * i^2` for `i = 0..n`. */
  function PesosPorCuadrado(n: nat): seq<real>
  {
    seq(n + 1, i requires 0 <= i <= n => Peso(i, n) * ((i as real) * (i as real)))
  }

  /** `0 + 1 + 4 + ... + (k - 1)^2 == (k - 1) * k * (2k - 1) / 6` over the inner weights. */
  lemma {:induction false} SumaPesosPorCuadradoPrefijo(n: nat, k: nat)
    requires 1 <= k <= n
    ensures Suma(PesosPorCuadrado(n)[..k]) == ((k - 1) as real) * (k as real) * ((2 * k - 1) as real) / 6.0
    decreases k
  {
    var p := PesosPorCuadrado(n);
    if k == 1 {
      assert p[..1][..0] == [];
    } else {
      SumaPesosPorCuadradoPrefijo(n, k - 1);
      assert p[..k][..k - 1] == p[..k - 1];
      var m := (k - 1) as real;
      assert p[k - 1] == m * m;
      assert (m - 1.0) * m * (2.0 * m - 1.0) / 6.0 + m * m == m * (m + 1.0) * (2.0 * m + 1.0) / 6.0;
    }
  }

  /** The weighted squared indices add up to `n^3 / 3 + n / 6`. */
  lemma SumaPesosPorCuadrado(n: nat) returns (sq: real)
    requires n >= 1
    ensures sq == Suma(PesosPorCuadrado(n))
    ensures sq == (n as real) * (n as real) * (n as real) / 3.0 + (n as real) / 6.0
  {
    var p := PesosPorCuadrado(n);
    SumaPesosPorCuadradoPrefijo(n, n);
    assert p[..n + 1][..n] == p[..n];
    assert p[..n + 1] == p;
    var m := n as real;
    assert p[n] == 0.5 * (m * m);
    assert (m - 1.0) * m * (2.0 * m - 1.0) / 6.0 + 0.5 * (m * m) == m * m * m / 3.0 + m / 6.0;
    sq := m * m * m / 3.0 + m / 6.0;
  }

  /** The squared distance to `a` samples to `h^2` times the weighted squared indices. */
  lemma TerminosCuadradoRelativo(f: real -> real, a: real, h: real, hh: real, n: nat)
    requires hh == h * h
    requires forall x :: f(x) == (x - a) * (x - a)
    ensures Terminos(f, a, h, n) == Combinacion(hh, PesosPorCuadrado(n), 0.0, PesosPorCuadrado(n))
  {
    var t, u := Terminos(f, a, h, n), Combinacion(hh, PesosPorCuadrado(n), 0.0, PesosPorCuadrado(n));
    forall i | 0 <= i <= n
      ensures t[i] == u[i]
    {
      var x := i as real;
      assert Nodo(a, h, i) - a == x * h;
      assert (x * h) * (x * h) == hh * (x * x);
    }
  }

  /** The squared distance to `a` integrates to `(b - a)^3 / 3` plus `(b - a) * h^2 / 6`. */
  lemma TrapecioCuadradoRelativo(f: real -> real, a: real, b: real, n: nat)
    requires n > 0
    requires forall x :: f(x) == (x - a) * (x - a)
    ensures Trapecio(f, a, b, n) == (b - a) * (b - a) * (b - a) / 3.0 + (b - a) * Paso(a, b, n) * Paso(a, b, n) / 6.0
  {
    var hh := Paso(a, b, n) * Paso(a, b, n);
    TerminosCuadradoRelativo(f, a, Paso(a, b, n), hh, n);
    TrapecioDeCuadradosDeIndices(f, a, b, n, hh);
  }

  /** The rule applied to samples that are `h^2` times the weighted squared indices. */
  lemma TrapecioDeCuadradosDeIndices(f: real -> real, a: real, b: real, n: nat, hh: real)
    requires n > 0 && hh == Paso(a, b, n) * Paso(a, b, n)
    requires Terminos(f, a, Paso(a, b, n), n) == Combinacion(hh, PesosPorCuadrado(n), 0.0, PesosPorCuadrado(n))
    ensures Trapecio(f, a, b, n) == (b - a) * (b - a) * (b - a) / 3.0 + (b - a) * Paso(a, b, n) * Paso(a, b, n) / 6.0
  {
    var st := TrapecioComoSuma(f, a, b, n);
    var sq := SumaPesosPorCuadrado(n);
    var su := SumaDeCombinacionNombrada(hh, PesosPorCuadrado(n), 0.0, PesosPorCuadrado(n), sq, sq);
    PasoAlReves(a, b, n);
    AlgebraCuadradoRelativo(st, sq, a, b, Paso(a, b, n), hh, n as real);
  }

  /** Names the summed weighted samples of `Trapecio`. */
  lemma TrapecioComoSuma(f: real -> real, a: real, b: real, n: nat) returns (st: real)
    requires n > 0
    ensures st == Suma(Terminos(f, a, Paso(a, b, n), n))
    ensures Trapecio(f, a, b, n) == st * Paso(a, b, n)
  {
    st := Suma(Terminos(f, a, Paso(a, b, n), n));
  }

  /** The closing algebra of `TrapecioCuadradoRelativo`, with `m * h = b - a`. */
  lemma AlgebraCuadradoRelativo(st: real, sq: real, a: real, b: real, h: real, hh: real, m: real)
    requires hh == h * h && st == hh * sq + 0.0 * sq
    requires sq == m * m * m / 3.0 + m / 6.0 && m * h == b - a
    ensures st * h == (b - a) * (b - a) * (b - a) / 3.0 + (b - a) * h * h / 6.0
  {
    var d := m * h;
    calc {
      st * h;
      h * h * h * (m * m * m / 3.0 + m / 6.0);
      d * d * d / 3.0 + d * h * h / 6.0;
    }
  }

  /**
   * The square integrates to `(b^3 - a^3) / 3` plus the rule's error
   * `(b - a) * h^2 / 6`, where `h` is the step: `x^2` is the squared
   * distance to `a` plus the line `2*a*x - a^2`, which the rule integrates
   * exactly.
   */
  lemma TrapecioCuadrado(f: real -> real, a: real, b: real, n: nat)
    requires n > 0
    requires forall x :: f(x) == x * x
    ensures Trapecio(f, a, b, n) == (b * b * b - a * a * a) / 3.0 + (b - a) * Paso(a, b, n) * Paso(a, b, n) / 6.0
  {
    var p, q := 2.0 * a, -(a * a);
    var relativo: real -> real := x => (x - a) * (x - a);
    var recta: real -> real := x => p * x + q;
    forall x
      ensures f(x) == 1.0 * relativo(x) + 1.0 * recta(x)
    {
    }
    TrapecioDescompuesto(f, relativo, recta, p, q, a, b, n);
  }

  /** `TrapecioCuadrado` for an integrand split into the squared distance to `a` and a line. */
  lemma TrapecioDescompuesto(f: real -> real, relativo: real -> real, recta: real -> real, p: real, q: real,
                             a: real, b: real, n: nat)
    requires n > 0 && p == 2.0 * a && q == -(a * a)
    requires forall x :: relativo(x) == (x - a) * (x - a)
    requires forall x :: recta(x) == p * x + q
    requires forall x :: f(x) == 1.0 * relativo(x) + 1.0 * recta(x)
    ensures Trapecio(f, a, b, n) == (b * b * b - a * a * a) / 3.0 + (b - a) * Paso(a, b, n) * Paso(a, b, n) / 6.0
  {
    TrapecioCuadradoRelativo(relativo, a, b, n);
    TrapecioAfin(recta, p, q, a, b, n);
    TrapecioLineal(relativo, recta, f, 1.0, 1.0, a, b, n);
    var e := (b - a) * Paso(a, b, n) * Paso(a, b, n) / 6.0;
    AlgebraCuadrado(Trapecio(f, a, b, n), Trapecio(relativo, a, b, n), Trapecio(recta, a, b, n), a, b, p, q, e);
  }

  /** The closing algebra of `TrapecioCuadrado`, `e` being the rule's error. */
  lemma AlgebraCuadrado(t: real, tr: real, tg: real, a: real, b: real, p: real, q: real, e: real)
    requires t == 1.0 * tr + 1.0 * tg
    requires tr == (b - a) * (b - a) * (b - a) / 3.0 + e
    requires p == 2.0 * a && q == -(a * a) && tg == p * ((b * b - a * a) / 2.0) + q * (b - a)
    ensures t == (b * b * b - a * a * a) / 3.0 + e
  {
  }

  /** With 1000 subintervals the error of the square is `(b - a)^3 / 6000000`. */
  lemma TrapecioCuadradoPrecision(f: real -> real, a: real, b: real)
    requires forall x :: f(x) == x * x
    ensures Trapecio(f, a, b, Precision) == (b * b * b - a * a * a) / 3.0 + (b - a) * (b - a) * (b - a) / 6000000.0
  {
    TrapecioCuadrado(f, a, b, Precision);
    var h := Paso(a, b, Precision);
    assert h == (b - a) / 1000.0;
    assert (b - a) * h * h / 6.0 == (b - a) * (b - a) * (b - a) / 6000000.0;
  }

  // ---------------------------------------------------------------------
  // calcularPrimeraParte
  // ---------------------------------------------------------------------

  /** The message thrown when the first part has no antiderivative. */
  const SinAntiderivada: string := "Se requiere una antiderivada para la primera parte del TFC"

  /** The object `calcularPrimeraParte` returns. */
  datatype ResultadoPrimeraParte = ResultadoPrimeraParte(
    fa: real,
    fb: real,
    valorAntiderivada: real,
    valorIntegral: real,
    diferencia: real,
    esValido: bool)

  /**
   * `calcularPrimeraParte(teorema)`: `F(b) - F(a)` against the trapezoid
   * value of the integral, stored in the theorem through `setResultados`.
   * Without an antiderivative it throws and the theorem is untouched.
   */
  method CalcularPrimeraParte(teorema: TeoremaFundamental) returns (r: Result<ResultadoPrimeraParte>)
    modifies teorema`valorIntegral, teorema`valorAntiderivada, teorema`diferencia, teorema`esValido
    ensures teorema.antiderivada.None? ==> r == Error(SinAntiderivada) && unchanged(teorema)
    ensures teorema.antiderivada.Some? ==> r.Ok?
    ensures r.Ok? ==>
      var F, v := teorema.antiderivada.value.evaluar, r.value;
      && teorema.antiderivada.Some?
      && v.fa == F(teorema.a) && v.fb == F(teorema.b)
      && v.valorAntiderivada == v.fb - v.fa
      && v.valorIntegral == Trapecio(teorema.funcion.evaluar, teorema.a, teorema.b, Precision)
      && v.diferencia == Abs(v.valorIntegral - v.valorAntiderivada)
      && (v.esValido <==> v.diferencia < ToleranciaPrimeraParte)
      && teorema.valorIntegral == Some(v.valorIntegral)
      && teorema.valorAntiderivada == Some(v.valorAntiderivada)
      && teorema.diferencia == Some(v.diferencia)
      && teorema.esValido == v.esValido
  {
    if teorema.antiderivada.None? {
      return Error(SinAntiderivada);
    }
    var F := teorema.antiderivada.value.evaluar;
    var fb := F(teorema.b);
    var fa := F(teorema.a);
    var valorAntiderivada := fb - fa;
    var valorIntegral := IntegralNumerica(teorema.funcion.evaluar, teorema.a, teorema.b);
    var diferencia := Abs(valorIntegral - valorAntiderivada);
    teorema.SetResultados(valorIntegral, valorAntiderivada, diferencia);
    r := Ok(ResultadoPrimeraParte(fa, fb, valorAntiderivada, valorIntegral, diferencia, teorema.esValido));
  }

  /**
   * For an affine integrand `p*x + q` and its antiderivative
   * `p*x^2/2 + q*x + C`, the first part finds no difference at all.
   */
  lemma PrimeraParteAfinExacta(f: real -> real, F: real -> real, p: real, q: real, c: real, a: real, b: real)
    requires forall x :: f(x) == p * x + q
    requires forall x :: F(x) == p * (x * x / 2.0) + q * x + c
    ensures Trapecio(f, a, b, Precision) == F(b) - F(a)
    ensures Abs(Trapecio(f, a, b, Precision) - (F(b) - F(a))) < ToleranciaPrimeraParte
  {
    TrapecioAfin(f, p, q, a, b, Precision);
    AlgebraPrimitivaAfin(Trapecio(f, a, b, Precision), F(a), F(b), p, q, c, a, b);
  }

  /** `F(b) - F(a)` for `F(x) = p*x^2/2 + q*x + c`. */
  lemma AlgebraPrimitivaAfin(t: real, fa: real, fb: real, p: real, q: real, c: real, a: real, b: real)
    requires t == p * ((b * b - a * a) / 2.0) + q * (b - a)
    requires fa == p * (a * a / 2.0) + q * a + c && fb == p * (b * b / 2.0) + q * b + c
    ensures t == fb - fa
  {
  }

  // ---------------------------------------------------------------------
  // calcularSegundaParte
  // ---------------------------------------------------------------------

  /** The object `calcularSegundaParte` returns. */
  datatype ResultadoSegundaParte = ResultadoSegundaParte(
    integralHastaX: real,
    derivada: real,
    valorFuncion: real,
    diferencia: real,
    esValido: bool)

  /**
   * The forward difference of `x |-> integral of f over [a, x]` with step
   * 0.0001. On a constant integrand it recovers the constant exactly.
   */
  function DerivadaNumerica(f: real -> real, a: real, x: real): (d: real)
    ensures (forall t :: f(t) == f(x)) ==> d == f(x)
  {
    assert (forall t :: f(t) == f(x)) ==>
        Trapecio(f, a, x + PasoDerivada, Precision) - Trapecio(f, a, x, Precision) == f(x) * PasoDerivada by {
      if forall t :: f(t) == f(x) {
        TrapecioConstante(f, f(x), a, x + PasoDerivada, Precision);
        TrapecioConstante(f, f(x), a, x, Precision);
      }
    }
    (Trapecio(f, a, x + PasoDerivada, Precision) - Trapecio(f, a, x, Precision)) / PasoDerivada
  }

  /**
   * `calcularSegundaParte(teorema, x)`: differentiates the accumulated
   * integral numerically and compares it with `f(x)` within 0.01. The
   * theorem is only read.
   */
  method CalcularSegundaParte(teorema: TeoremaFundamental, x: real) returns (r: ResultadoSegundaParte)
    ensures r.integralHastaX == Trapecio(teorema.funcion.evaluar, teorema.a, x, Precision)
    ensures r.derivada == DerivadaNumerica(teorema.funcion.evaluar, teorema.a, x)
    ensures r.valorFuncion == teorema.funcion.evaluar(x)
    ensures r.diferencia == Abs(r.derivada - r.valorFuncion)
    ensures r.esValido <==> Abs(r.derivada - r.valorFuncion) < ToleranciaSegundaParte
  {
    var f := teorema.funcion.evaluar;
    var integralHastaX := IntegralNumerica(f, teorema.a, x);
    var h := PasoDerivada;
    var integralHastaXMasH := IntegralNumerica(f, teorema.a, x + h);
    var derivada := (integralHastaXMasH - integralHastaX) / h;
    var valorFuncion := f(x);
    var diferencia := Abs(derivada - valorFuncion);
    r := ResultadoSegundaParte(integralHastaX, derivada, valorFuncion, diferencia, diferencia < ToleranciaSegundaParte);
  }

  /**
   * For an affine integrand `p*x + q` the forward difference overshoots
   * `f(x)` by exactly `p * 0.0001 / 2`, whatever `a` and `x` are.
   */
  lemma DerivadaAfin(f: real -> real, p: real, q: real, a: real, x: real)
    requires forall t :: f(t) == p * t + q
    ensures DerivadaNumerica(f, a, x) == f(x) + p * PasoDerivada / 2.0
  {
    var y := x + PasoDerivada;
    TrapecioAfin(f, p, q, a, y, Precision);
    TrapecioAfin(f, p, q, a, x, Precision);
    CocienteAfin(Trapecio(f, a, y, Precision), Trapecio(f, a, x, Precision), p, q, a, x, y);
  }

  /** The closing algebra of `DerivadaAfin`, with `y = x + 0.0001`. */
  lemma CocienteAfin(t1: real, t0: real, p: real, q: real, a: real, x: real, y: real)
    requires y == x + PasoDerivada
    requires t1 == p * ((y * y - a * a) / 2.0) + q * (y - a)
    requires t0 == p * ((x * x - a * a) / 2.0) + q * (x - a)
    ensures (t1 - t0) / PasoDerivada == p * x + q + p * PasoDerivada / 2.0
  {
    assert t1 - t0 == (p * x + q + p * PasoDerivada / 2.0) * PasoDerivada;
  }

  /**
   * Hence the second part accepts an affine integrand exactly when its slope
   * is below 200 in absolute value.
   */
  lemma SegundaParteAfin(f: real -> real, p: real, q: real, a: real, x: real)
    requires forall t :: f(t) == p * t + q
    ensures Abs(DerivadaNumerica(f, a, x) - f(x)) < ToleranciaSegundaParte <==> Abs(p) < 200.0
  {
    DerivadaAfin(f, p, q, a, x);
    assert DerivadaNumerica(f, a, x) - f(x) == p * PasoDerivada / 2.0;
  }

  // ---------------------------------------------------------------------
  // encontrarAntiderivada
  // ---------------------------------------------------------------------

  /** `Math.sin` and `Math.cos`, which the model does not define. */
  datatype Trigonometria = Trigonometria(seno: real -> real, coseno: real -> real)

  /** The four antiderivatives of the table. */
  function Cubica(): FuncionMatematica
  {
    FuncionMatematica("x^3/3", x => x * x * x / 3.0)
  }

  function Cuadratica(): FuncionMatematica
  {
    FuncionMatematica("x^2/2", x => x * x / 2.0)
  }

  function MenosCoseno(trig: Trigonometria): FuncionMatematica
  {
    FuncionMatematica("-cos(x)", x => -trig.coseno(x))
  }

  function Seno(trig: Trigonometria): FuncionMatematica
  {
    FuncionMatematica("sin(x)", x => trig.seno(x))
  }

  /**
   * `encontrarAntiderivada(funcion)`: a substring test on the expression, in
   * the order "x^2", "x", "sin", "cos"; `null` when none matches.
   */
  function EncontrarAntiderivada(funcion: FuncionMatematica, trig: Trigonometria): (r: Option<FuncionMatematica>)
    ensures r.None? <==> !Contiene(funcion.expresion, "x") && !Contiene(funcion.expresion, "sin")
                         && !Contiene(funcion.expresion, "cos")
    ensures r.Some? ==> r.value.expresion in {"x^3/3", "x^2/2", "-cos(x)", "sin(x)"}
    ensures r.Some? && r.value.expresion in {"-cos(x)", "sin(x)"} ==> !Contiene(funcion.expresion, "x")
    ensures Contiene(funcion.expresion, "x^2") ==> r == Some(Cubica())
    ensures !Contiene(funcion.expresion, "x^2") && Contiene(funcion.expresion, "x") ==> r == Some(Cuadratica())
    ensures !Contiene(funcion.expresion, "x") && Contiene(funcion.expresion, "sin") ==> r == Some(MenosCoseno(trig))
    ensures !Contiene(funcion.expresion, "x") && !Contiene(funcion.expresion, "sin") && Contiene(funcion.expresion, "cos")
            ==> r == Some(Seno(trig))
  {
    var e := funcion.expresion;
    if Contiene(e, "x^2") then
      assert "x^2"[0..1] == "x";
      ContieneParte(e, "x^2", 0, 1);
      Some(Cubica())
    else if Contiene(e, "x") then Some(Cuadratica())
    else if Contiene(e, "sin") then Some(MenosCoseno(trig))
    else if Contiene(e, "cos") then Some(Seno(trig))
    else None
  }

  /** "sin(x)" has an "x" but no "x^2", so the table answers `x^2/2`. */
  lemma SenoDeXEsCuadratica(f: real -> real, trig: Trigonometria)
    ensures EncontrarAntiderivada(FuncionMatematica("sin(x)", f), trig) == Some(Cuadratica())
  {
    NoContieneSinCaracter("sin(x)", "x^2", '^');
    assert EnPosicion("sin(x)", "x", 4);
  }

  /**
   * The identity `"x"` gets `x^2/2`, and with it the first part is exact:
   * the trapezoid value equals `F(b) - F(a)`.
   */
  lemma AntiderivadaDeIdentidad(funcion: FuncionMatematica, trig: Trigonometria, a: real, b: real)
    requires funcion.expresion == "x"
    requires forall t :: funcion.evaluar(t) == t
    ensures EncontrarAntiderivada(funcion, trig) == Some(Cuadratica())
    ensures Trapecio(funcion.evaluar, a, b, Precision) == Cuadratica().evaluar(b) - Cuadratica().evaluar(a)
  {
    NoContieneSinCaracter("x", "x^2", '^');
    assert EnPosicion("x", "x", 0);
    var F := Cuadratica().evaluar;
    forall t
      ensures funcion.evaluar(t) == 1.0 * t + 0.0
      ensures F(t) == 1.0 * (t * t / 2.0) + 0.0 * t + 0.0
    {
    }
    PrimeraParteAfinExacta(funcion.evaluar, F, 1.0, 0.0, 0.0, a, b);
  }

  /**
   * The table with the trigonometric rows tested first, so that "sin(x)"
   * and "cos(x)" reach them; expressions naming neither are answered as
   * before.
   */
  function EncontrarAntiderivadaCorregida(funcion: FuncionMatematica, trig: Trigonometria): (r: Option<FuncionMatematica>)
    ensures Contiene(funcion.expresion, "sin") ==> r == Some(MenosCoseno(trig))
    ensures !Contiene(funcion.expresion, "sin") && Contiene(funcion.expresion, "cos") ==> r == Some(Seno(trig))
    ensures !Contiene(funcion.expresion, "sin") && !Contiene(funcion.expresion, "cos")
            ==> r == EncontrarAntiderivada(funcion, trig)
  {
    var e := funcion.expresion;
    if Contiene(e, "sin") then Some(MenosCoseno(trig))
    else if Contiene(e, "cos") then Some(Seno(trig))
    else if Contiene(e, "x^2") then Some(Cubica())
    else if Contiene(e, "x") then Some(Cuadratica())
    else None
  }

  /** With the corrected order "sin(x)" and "cos(x)" get `-cos(x)` and `sin(x)`. */
  lemma TrigonometricasCorregidas(f: real -> real, trig: Trigonometria)
    ensures EncontrarAntiderivadaCorregida(FuncionMatematica("sin(x)", f), trig) == Some(MenosCoseno(trig))
    ensures EncontrarAntiderivadaCorregida(FuncionMatematica("cos(x)", f), trig) == Some(Seno(trig))
  {
    assert EnPosicion("sin(x)", "sin", 0);
    NoContieneSinCaracter("cos(x)", "sin", 'i');
    assert EnPosicion("cos(x)", "cos", 0);
  }

  // ---------------------------------------------------------------------
  // The default integrand x^2
  // ---------------------------------------------------------------------

  /** "x^2" gets `x^3/3` from the table. */
  lemma AntiderivadaDelCuadrado(funcion: FuncionMatematica, trig: Trigonometria)
    requires funcion.expresion == "x^2"
    ensures EncontrarAntiderivada(funcion, trig) == Some(Cubica())
  {
    assert EnPosicion("x^2", "x^2", 0);
  }

  /**
   * With `x^3/3` as the antiderivative of `x^2`, the first part misses
   * `F(b) - F(a)` by exactly `(b - a)^3 / 6000000`.
   */
  lemma PrimeraParteCuadratica(f: real -> real, a: real, b: real)
    requires forall t :: f(t) == t * t
    ensures Trapecio(f, a, b, Precision) - (Cubica().evaluar(b) - Cubica().evaluar(a))
            == (b - a) * (b - a) * (b - a) / 6000000.0
  {
    TrapecioCuadradoPrecision(f, a, b);
    DiferenciaCubica(Trapecio(f, a, b, Precision), Cubica().evaluar(a), Cubica().evaluar(b), a, b);
  }

  /**
   * Hence the first part accepts `x^2` exactly when the interval is shorter
   * than the cube root of 6000 (about 18.17).
   */
  lemma PrimeraParteCuadraticaAcepta(f: real -> real, a: real, b: real)
    requires forall t :: f(t) == t * t
    ensures (Abs(Trapecio(f, a, b, Precision) - (Cubica().evaluar(b) - Cubica().evaluar(a)))
             < ToleranciaPrimeraParte) <==> Abs(b - a) * Abs(b - a) * Abs(b - a) < 6000.0
  {
    TrapecioCuadradoPrecision(f, a, b);
    DiferenciaCubica(Trapecio(f, a, b, Precision), Cubica().evaluar(a), Cubica().evaluar(b), a, b);
  }

  /** The closing algebra of `PrimeraParteCuadratica`. */
  lemma DiferenciaCubica(t: real, fa: real, fb: real, a: real, b: real)
    requires t == (b * b * b - a * a * a) / 3.0 + (b - a) * (b - a) * (b - a) / 6000000.0
    requires fa == a * a * a / 3.0 && fb == b * b * b / 3.0
    ensures t - (fb - fa) == (b - a) * (b - a) * (b - a) / 6000000.0
    ensures (Abs(t - (fb - fa)) < ToleranciaPrimeraParte) <==> Abs(b - a) * Abs(b - a) * Abs(b - a) < 6000.0
  {
    var d := b - a;
    assert t - (fb - fa) == d * d * d / 6000000.0;
    CuboAbsoluto(d);
    assert Abs(b - a) == Abs(d);
    assert Abs(t - (fb - fa)) == Abs(d * d * d / 6000000.0);
    assert Abs(b - a) * Abs(b - a) * Abs(b - a) == Abs(d) * Abs(d) * Abs(d);
    assert (Abs(t - (fb - fa)) < ToleranciaPrimeraParte) <==> Abs(d) * Abs(d) * Abs(d) < 6000.0;
  }

  /** `|d^3| / 6000000 < 0.001` exactly when `|d|^3 < 6000`. */
  lemma CuboAbsoluto(d: real)
    ensures Abs(d * d * d / 6000000.0) < ToleranciaPrimeraParte <==> Abs(d) * Abs(d) * Abs(d) < 6000.0
  {
    assert Abs(d) * Abs(d) * Abs(d) == Abs(d * d * d) by {
      if d < 0.0 {
        assert Abs(d) * Abs(d) * Abs(d) == -(d * d * d);
        assert d * d * d < 0.0 by { assert d * d > 0.0; }
      }
    }
  }

  /** How far the forward difference of the accumulated integral of `x^2` lands above `x^2`. */
  function ErrorDerivadaCuadrado(a: real, x: real): real
  {
    var d, u := PasoDerivada, x - a;
    x * d + d * d / 3.0 + (u * u + u * d + d * d / 3.0) / 2000000.0
  }

  /** The second part's forward difference for `x^2`: the square plus that error. */
  lemma DerivadaCuadrado(f: real -> real, a: real, x: real)
    requires forall t :: f(t) == t * t
    ensures DerivadaNumerica(f, a, x) == f(x) + ErrorDerivadaCuadrado(a, x)
  {
    var y := x + PasoDerivada;
    TrapecioCuadradoPrecision(f, a, y);
    TrapecioCuadradoPrecision(f, a, x);
    CocienteCuadrado(Trapecio(f, a, y, Precision), Trapecio(f, a, x, Precision), a, x, y);
  }

  /** The closing algebra of `DerivadaCuadrado`, with `y = x + 0.0001`. */
  lemma CocienteCuadrado(t1: real, t0: real, a: real, x: real, y: real)
    requires y == x + PasoDerivada
    requires t1 == (y * y * y - a * a * a) / 3.0 + (y - a) * (y - a) * (y - a) / 6000000.0
    requires t0 == (x * x * x - a * a * a) / 3.0 + (x - a) * (x - a) * (x - a) / 6000000.0
    ensures (t1 - t0) / PasoDerivada == x * x + ErrorDerivadaCuadrado(a, x)
  {
    var cx := DiferenciaDeCubos(x, y, PasoDerivada);
    var cu := DiferenciaDeCubos(x - a, y - a, PasoDerivada);
    CocienteDeCubos(t1, t0, y * y * y - a * a * a, x * x * x - a * a * a,
                    (y - a) * (y - a) * (y - a), (x - a) * (x - a) * (x - a), cx, cu);
    AlgebraCocienteCuadrado(cx, cu, a, x);
  }

  /** `(x + d)^3 - x^3`, factored by `d`. */
  lemma DiferenciaDeCubos(x: real, y: real, d: real) returns (c: real)
    requires y == x + d
    ensures c == 3.0 * x * x + 3.0 * x * d + d * d
    ensures y * y * y - x * x * x == c * d
  {
    c := 3.0 * x * x + 3.0 * x * d + d * d;
  }

  /** The forward difference of `p/3 + q/6000000` once both differences are factored by the step. */
  lemma CocienteDeCubos(t1: real, t0: real, p1: real, p0: real, q1: real, q0: real, cx: real, cu: real)
    requires t1 == p1 / 3.0 + q1 / 6000000.0 && t0 == p0 / 3.0 + q0 / 6000000.0
    requires p1 - p0 == cx * PasoDerivada && q1 - q0 == cu * PasoDerivada
    ensures (t1 - t0) / PasoDerivada == cx / 3.0 + cu / 6000000.0
  {
  }

  /** The factored differences of the square's integral, divided by the step. */
  lemma AlgebraCocienteCuadrado(cx: real, cu: real, a: real, x: real)
    requires cx == 3.0 * x * x + 3.0 * x * PasoDerivada + PasoDerivada * PasoDerivada
    requires cu == 3.0 * (x - a) * (x - a) + 3.0 * (x - a) * PasoDerivada + PasoDerivada * PasoDerivada
    ensures cx / 3.0 + cu / 6000000.0 == x * x + ErrorDerivadaCuadrado(a, x)
  {
  }

  /**
   * Starting at a non-negative `a`, the second part accepts `x^2` at every
   * `x` up to 40 and rejects it from 100 on, where the step alone
   * overshoots by `x * 0.0001 >= 0.01`.
   */
  lemma SegundaParteCuadratica(f: real -> real, a: real, x: real)
    requires forall t :: f(t) == t * t
    requires 0.0 <= a <= x
    ensures x <= 40.0 ==> Abs(DerivadaNumerica(f, a, x) - f(x)) < ToleranciaSegundaParte
    ensures x >= 100.0 ==> Abs(DerivadaNumerica(f, a, x) - f(x)) >= ToleranciaSegundaParte
  {
    DerivadaCuadrado(f, a, x);
    var e := ErrorDerivadaCuadrado(a, x);
    assert DerivadaNumerica(f, a, x) - f(x) == e;
    CotasErrorCuadrado(a, x);
  }

  /** Bounds on `ErrorDerivadaCuadrado` for `0 <= a <= x`. */
  lemma CotasErrorCuadrado(a: real, x: real)
    requires 0.0 <= a <= x
    ensures ErrorDerivadaCuadrado(a, x) >= x * PasoDerivada
    ensures x <= 40.0 ==> ErrorDerivadaCuadrado(a, x) < 0.005
  {
    var d, u := PasoDerivada, x - a;
    assert 0.0 <= u <= x;
    assert u * u >= 0.0 && u * d >= 0.0;
    if x <= 40.0 {
      assert u * u <= 1600.0 by { assert u * u <= u * 40.0 <= 1600.0; }
      assert x * d <= 0.004;
      assert u * d <= 0.004;
    }
  }

  /**
   * The bridge page's default: "x^2" on [0, 4] with the point at 2. The
   * first part misses by 64 / 6000000 and accepts, and so does the second.
   */
  lemma PuentePorDefecto(funcion: FuncionMatematica, trig: Trigonometria)
    requires funcion.expresion == "x^2"
    requires forall t :: funcion.evaluar(t) == t * t
    ensures EncontrarAntiderivada(funcion, trig) == Some(Cubica())
    ensures Trapecio(funcion.evaluar, 0.0, 4.0, Precision) - (Cubica().evaluar(4.0) - Cubica().evaluar(0.0))
            == 64.0 / 6000000.0
    ensures Abs(Trapecio(funcion.evaluar, 0.0, 4.0, Precision) - (Cubica().evaluar(4.0) - Cubica().evaluar(0.0)))
            < ToleranciaPrimeraParte
    ensures Abs(DerivadaNumerica(funcion.evaluar, 0.0, 2.0) - funcion.evaluar(2.0)) < ToleranciaSegundaParte
  {
    AntiderivadaDelCuadrado(funcion, trig);
    PrimeraParteCuadratica(funcion.evaluar, 0.0, 4.0);
    assert Abs(4.0 - 0.0) == 4.0;
    SegundaParteCuadratica(funcion.evaluar, 0.0, 2.0);
  }
}
