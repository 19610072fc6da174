/**
 * The additivity check (`VerificadorAditividad.verificar`): the integral over
 * `[inicio, fin]` against the two integrals split at an interior point,
 * compared within 0.01. The integrator is a parameter.
 */
module VerificadorAditividad {
  import opened Comun

  /** The message thrown when the point is not strictly inside the interval. */
  const PuntoFuera: string := "El punto intermedio debe estar dentro del intervalo"

  /** Tolerance of the comparison. */
  const Tolerancia: real := 0.01

  /** The object `verificar` returns. */
  datatype ResultadoAditividad = ResultadoAditividad(
    cumple: bool,
    integralCompleta: real,
    integralesParciales: real,
    integral1: real,
    integral2: real,
    error: real)

  /** `verificar(funcion, intervalo, puntoIntermedio)` with the integrator `I`. */
  function Verificar(I: Integrador, f: real -> real, iv: Intervalo, punto: real): (r: Result<ResultadoAditividad>)
    ensures r.Error? <==> punto <= iv.inicio || punto >= iv.fin
    ensures r.Error? ==> r.mensaje == PuntoFuera
    ensures r.Ok? ==>
      && r.value.integralCompleta == I(f, iv)
      && r.value.integral1 == I(f, Intervalo(iv.inicio, punto))
      && r.value.integral2 == I(f, Intervalo(punto, iv.fin))
      && r.value.integralesParciales == r.value.integral1 + r.value.integral2
      && r.value.error == Abs(r.value.integralCompleta - r.value.integralesParciales)
      && r.value.error >= 0.0
      && (r.value.cumple <==> r.value.error < Tolerancia)
  {
    if punto <= iv.inicio || punto >= iv.fin then
      Error(PuntoFuera)
    else
      var integralCompleta := I(f, iv);
      var integral1 := I(f, Intervalo(iv.inicio, punto));
      var integral2 := I(f, Intervalo(punto, iv.fin));
      var integralesParciales := integral1 + integral2;
      var error := Abs(integralCompleta - integralesParciales);
      Ok(ResultadoAditividad(error < Tolerancia, integralCompleta, integralesParciales, integral1, integral2, error))
  }

  /** A reversed or degenerate interval has no interior point: the check always throws. */
  lemma IntervaloSinInterior(I: Integrador, f: real -> real, iv: Intervalo, punto: real)
    requires iv.inicio >= iv.fin
    ensures Verificar(I, f, iv, punto) == Error(PuntoFuera)
  {
  }

  /**
   * The check passes exactly when the integrator is additive at that point
   * up to the tolerance; an integrator that is exactly additive there
   * always passes with error 0.
   */
  lemma CumpleSiAditivo(I: Integrador, f: real -> real, iv: Intervalo, punto: real)
    requires iv.inicio < punto < iv.fin
    requires I(f, iv) == I(f, Intervalo(iv.inicio, punto)) + I(f, Intervalo(punto, iv.fin))
    ensures Verificar(I, f, iv, punto).Ok?
    ensures Verificar(I, f, iv, punto).value.cumple
    ensures Verificar(I, f, iv, punto).value.error == 0.0
  {
  }
}
