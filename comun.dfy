/**
 * Shared values of the calculus engine: optional values, results with an
 * error message (the source's thrown `Error`), absolute value, intervals and
 * the mathematical functions the services receive (`FuncionMatematica`).
 */
module Comun {

  /** A value that may be missing (`null` / `undefined` in the source). */
  datatype Option<+T> = None | Some(value: T)

  /** The outcome of an operation that may throw: `Error` carries the message. */
  datatype Result<+T> = Ok(value: T) | Error(mensaje: string)

  /** `Math.abs` over reals. */
  function Abs(x: real): (r: real)
    ensures r >= 0.0
    ensures r == x || r == -x
    ensures r >= x && r >= -x
  {
    if x < 0.0 then -x else x
  }

  /** `Math.max` over reals. */
  function Max(x: real, y: real): (r: real)
    ensures r >= x && r >= y
    ensures r == x || r == y
  {
    if x >= y then x else y
  }

  /** `Math.min` over reals. */
  function Min(x: real, y: real): (r: real)
    ensures r <= x && r <= y
    ensures r == x || r == y
  {
    if x <= y then x else y
  }

  /** An interval `{ inicio, fin }`; a reversed or degenerate one is allowed. */
  datatype Intervalo = Intervalo(inicio: real, fin: real)

  /** The same interval with its limits swapped. */
  function Invertir(iv: Intervalo): (r: Intervalo)
    ensures r.inicio == iv.fin && r.fin == iv.inicio
  {
    Intervalo(iv.fin, iv.inicio)
  }

  /**
   * A mathematical function as the services see it: the expression text and
   * point evaluation (`FuncionMatematica`, or an object literal with the same
   * two members).
   */
  datatype FuncionMatematica = FuncionMatematica(expresion: string, evaluar: real -> real)

  /** The "exact" integral service `calcularIntegralExacta(funcion, intervalo)`. */
  type Integrador = (real -> real, Intervalo) -> real
}
