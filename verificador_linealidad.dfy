/**
 * The linearity check (`VerificadorLinealidad`): the integral of
 * `c1*f + c2*g` against `c1` times the integral of `f` plus `c2` times the
 * integral of `g`, all over the same interval, compared within 0.01.
 */
module VerificadorLinealidad {
  import opened Comun
  import CalculadoraTFC

  /** Tolerance of the comparison. */
  const Tolerancia: real := 0.01

  /** The object `verificar` returns, without `errorRelativo`. */
  datatype ResultadoLinealidad = ResultadoLinealidad(
    cumple: bool,
    ladoIzquierdo: real,
    ladoDerecho: real,
    error: real)

  /** `crearFuncionCombinada`: the pointwise combination `c1*f(x) + c2*g(x)`. */
  function CrearFuncionCombinada(f: FuncionMatematica, g: FuncionMatematica, c1: real, c2: real): (k: real -> real)
    ensures forall x :: k(x) == c1 * f.evaluar(x) + c2 * g.evaluar(x)
  {
    x => c1 * f.evaluar(x) + c2 * g.evaluar(x)
  }

  /** `verificar(funcion1, funcion2, constante1, constante2, intervalo)` with the integrator `I`. */
  function Verificar(I: Integrador, f: FuncionMatematica, g: FuncionMatematica, c1: real, c2: real,
                     iv: Intervalo): (r: ResultadoLinealidad)
    ensures r.ladoIzquierdo == I(CrearFuncionCombinada(f, g, c1, c2), iv)
    ensures r.ladoDerecho == c1 * I(f.evaluar, iv) + c2 * I(g.evaluar, iv)
    ensures r.error == Abs(r.ladoIzquierdo - r.ladoDerecho) && r.error >= 0.0
    ensures r.cumple <==> r.error < Tolerancia
  {
    var ladoIzquierdo := I(CrearFuncionCombinada(f, g, c1, c2), iv);
    var integral1 := I(f.evaluar, iv);
    var integral2 := I(g.evaluar, iv);
    var ladoDerecho := c1 * integral1 + c2 * integral2;
    var error := Abs(ladoIzquierdo - ladoDerecho);
    ResultadoLinealidad(error < Tolerancia, ladoIzquierdo, ladoDerecho, error)
  }

  /**
   * With the trapezoid rule as the integrator the two sides agree exactly,
   * so the check passes for every pair of functions and constants.
   */
  lemma CumpleConTrapecios(f: FuncionMatematica, g: FuncionMatematica, c1: real, c2: real, iv: Intervalo)
    ensures Verificar(CalculadoraTFC.Trapecios(), f, g, c1, c2, iv).error == 0.0
    ensures Verificar(CalculadoraTFC.Trapecios(), f, g, c1, c2, iv).cumple
  {
    var k := CrearFuncionCombinada(f, g, c1, c2);
    var n := CalculadoraTFC.Precision;
    CalculadoraTFC.TrapecioLineal(f.evaluar, g.evaluar, k, c1, c2, iv.inicio, iv.fin, n);
    var T := CalculadoraTFC.Trapecios();
    var r := Verificar(T, f, g, c1, c2, iv);
    var tk, tf, tg := T(k, iv), T(f.evaluar, iv), T(g.evaluar, iv);
    assert tk == CalculadoraTFC.Trapecio(k, iv.inicio, iv.fin, n);
    assert tf == CalculadoraTFC.Trapecio(f.evaluar, iv.inicio, iv.fin, n);
    assert tg == CalculadoraTFC.Trapecio(g.evaluar, iv.inicio, iv.fin, n);
    assert r.ladoIzquierdo == tk && r.ladoDerecho == c1 * tf + c2 * tg;
  }
}
