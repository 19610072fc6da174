/**
 * The limit-reversal check (`VerificadorInversionLimites`): the integral over
 * `[inicio, fin]` plus the integral over `[fin, inicio]` should vanish within
 * 0.01.
 */
module VerificadorInversionLimites {
  import opened Comun
  import CalculadoraTFC

  /** Tolerance of the comparison. */
  const Tolerancia: real := 0.01

  /** The object `verificar` returns. */
  datatype ResultadoInversion = ResultadoInversion(
    cumple: bool,
    integralOriginal: real,
    integralInvertida: real,
    suma: real,
    cumpleRelacion: bool)

  /** `verificar(funcion, intervalo)` with the integrator `I`. */
  function Verificar(I: Integrador, f: real -> real, iv: Intervalo): (r: ResultadoInversion)
    ensures r.integralOriginal == I(f, iv)
    ensures r.integralInvertida == I(f, Intervalo(iv.fin, iv.inicio))
    ensures r.suma == r.integralOriginal + r.integralInvertida
    ensures r.cumple <==> Abs(r.suma) < Tolerancia
    ensures r.cumpleRelacion == r.cumple
  {
    var integralOriginal := I(f, iv);
    var integralInvertida := I(f, Invertir(iv));
    var suma := integralOriginal + integralInvertida;
    ResultadoInversion(Abs(suma) < Tolerancia, integralOriginal, integralInvertida, suma,
                       Abs(integralOriginal + integralInvertida) < Tolerancia)
  }

  /** Checking the reversed interval swaps the two integrals and changes nothing else. */
  lemma VerificarInvertido(I: Integrador, f: real -> real, iv: Intervalo)
    ensures Verificar(I, f, Invertir(iv)).integralOriginal == Verificar(I, f, iv).integralInvertida
    ensures Verificar(I, f, Invertir(iv)).integralInvertida == Verificar(I, f, iv).integralOriginal
    ensures Verificar(I, f, Invertir(iv)).suma == Verificar(I, f, iv).suma
    ensures Verificar(I, f, Invertir(iv)).cumple == Verificar(I, f, iv).cumple
  {
    assert Invertir(Invertir(iv)) == iv;
  }

  /** With the trapezoid rule as the integrator the sum vanishes and the check passes. */
  lemma CumpleConTrapecios(f: real -> real, iv: Intervalo)
    ensures Verificar(CalculadoraTFC.Trapecios(), f, iv).suma == 0.0
    ensures Verificar(CalculadoraTFC.Trapecios(), f, iv).cumple
  {
    CalculadoraTFC.TrapecioInvertido(f, iv.inicio, iv.fin, CalculadoraTFC.Precision);
  }
}
