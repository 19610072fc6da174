/**
 * The comparison check (`VerificadorComparacion`): `f <= g` is sampled at
 * 101 evenly spaced points with a slack of 0.001, and the integral of `f`
 * must not exceed the integral of `g`.
 */
module VerificadorComparacion {
  import opened Comun
  import CalculadoraTFC

  /** Number of subintervals of the sampling grid. */
  const Pasos: nat := 100

  /** Slack allowed at each sample. */
  const Holgura: real := 0.001

  /** Sample `i` of the grid over `iv`. */
  function Muestra(iv: Intervalo, i: int): real
  {
    iv.inicio + (i as real) * ((iv.fin - iv.inicio) / (Pasos as real))
  }

  /** `f` exceeds `g` by more than the slack at sample `i`. */
  predicate Excede(f: real -> real, g: real -> real, iv: Intervalo, i: int)
  {
    f(Muestra(iv, i)) > g(Muestra(iv, i)) + Holgura
  }

  /** No sample of the grid `i = 0..100` shows `f` above `g` beyond the slack. */
  predicate CondicionEnMuestras(f: real -> real, g: real -> real, iv: Intervalo)
  {
    forall i :: 0 <= i <= Pasos ==> !Excede(f, g, iv, i)
  }

  /**
   * `verificarCondicion(funcion1, funcion2, intervalo)`: the sampling loop,
   * returning false at the first sample where `f` exceeds `g + 0.001`.
   */
  method VerificarCondicion(f: real -> real, g: real -> real, iv: Intervalo) returns (r: bool)
    ensures r <==> CondicionEnMuestras(f, g, iv)
    ensures !r ==> exists i :: 0 <= i <= Pasos && Excede(f, g, iv, i)
  {
    var deltaX := (iv.fin - iv.inicio) / (Pasos as real);
    for i := 0 to Pasos + 1
      invariant forall j :: 0 <= j < i ==> !Excede(f, g, iv, j)
    {
      var x := iv.inicio + (i as real) * deltaX;
      assert x == Muestra(iv, i);
      if f(x) > g(x) + Holgura {
        assert Excede(f, g, iv, i);
        return false;
      }
    }
    return true;
  }

  /** Samples where `f <= g` outright satisfy the sampled condition. */
  lemma CondicionSiMenorOIgual(f: real -> real, g: real -> real, iv: Intervalo)
    requires forall i :: 0 <= i <= Pasos ==> f(Muestra(iv, i)) <= g(Muestra(iv, i))
    ensures CondicionEnMuestras(f, g, iv)
  {
    forall i | 0 <= i <= Pasos
      ensures !Excede(f, g, iv, i)
    {
      assert f(Muestra(iv, i)) <= g(Muestra(iv, i));
    }
  }

  /** The object `verificar` returns. */
  datatype ResultadoComparacion = ResultadoComparacion(
    cumple: bool,
    cumpleCondicion: bool,
    integral1: real,
    integral2: real,
    diferencia: real)

  /**
   * `verificar(funcion1, funcion2, intervalo)` with the integrator `I`: the
   * sampled condition and the order of the two integrals must both hold.
   */
  method Verificar(I: Integrador, f: real -> real, g: real -> real, iv: Intervalo) returns (r: ResultadoComparacion)
    ensures r.cumpleCondicion <==> CondicionEnMuestras(f, g, iv)
    ensures r.integral1 == I(f, iv) && r.integral2 == I(g, iv)
    ensures r.cumple <==> r.cumpleCondicion && r.integral1 <= r.integral2
    ensures r.diferencia == r.integral2 - r.integral1
    ensures r.cumple ==> r.cumpleCondicion && r.diferencia >= 0.0
    ensures (exists i :: 0 <= i <= Pasos && Excede(f, g, iv, i)) ==> !r.cumple
  {
    var cumpleCondicion := VerificarCondicion(f, g, iv);
    var integral1 := I(f, iv);
    var integral2 := I(g, iv);
    r := ResultadoComparacion(cumpleCondicion && integral1 <= integral2, cumpleCondicion,
                              integral1, integral2, integral2 - integral1);
  }

  /**
   * With the trapezoid rule as the integrator, an `f` no larger than `g`
   * everywhere on a forward interval satisfies both halves of the check.
   */
  lemma CumpleConTrapecios(f: real -> real, g: real -> real, iv: Intervalo)
    requires iv.inicio <= iv.fin
    requires forall x :: f(x) <= g(x)
    ensures CondicionEnMuestras(f, g, iv)
    ensures CalculadoraTFC.Trapecios()(f, iv) <= CalculadoraTFC.Trapecios()(g, iv)
  {
    CondicionSiMenorOIgual(f, g, iv);
    CalculadoraTFC.TrapecioMonotono(f, g, iv.inicio, iv.fin, CalculadoraTFC.Precision);
  }
}
