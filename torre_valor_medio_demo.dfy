/**
 * Two helpers of the mean value tower page: its time formatter, always
 * "M:SS", and the grading of an estimate's error into four levels.
 */
module TorreValorMedioDemo {
  import opened Cadenas
  import opened Tiempo

  /** `formatearTiempo(ms)`: always minutes, a colon and padded seconds. */
  function FormatearTiempo(ms: int): string
  {
    var p := Descomponer(ms);
    MinutosYSegundos(p.minutos, p.segundos)
  }

  /**
   * For a non-negative count the text is the minutes' digits, a colon and
   * two second digits ("0:SS" below a minute), and it reads back as the
   * whole seconds.
   */
  lemma FormatoTiempo(ms: nat)
    ensures var p := Descomponer(ms);
      FormatearTiempo(ms) == NatACadena(p.minutos) + ":" + [Digito(p.segundos / 10), Digito(p.segundos % 10)]
    ensures ms < 60000 ==> FormatearTiempo(ms)[..2] == "0:"
    ensures LeerMinutosYSegundos(FormatearTiempo(ms)) == ms / 1000
  {
    var p := Descomponer(ms);
    MinutosYSegundosForma(p.minutos, p.segundos);
    MinutosYSegundosInversa(p.minutos, p.segundos);
  }

  /** The four grades, best first. */
  datatype Nivel = Perfecto | Excelente | Bueno | Intenta
  {
    /** 0 for the best grade up to 3 for the worst. */
    function Rango(): nat
    {
      match this
      case Perfecto => 0
      case Excelente => 1
      case Bueno => 2
      case Intenta => 3
    }
  }

  /** `{ nivel, emoji, color }`. */
  datatype Clasificacion = Clasificacion(nivel: Nivel, emoji: string, color: string)

  /**
   * `obtenerClasificacionError(error)`: below 0.1 Perfecto, below 0.3
   * Excelente, below 0.6 Bueno, otherwise Intenta.
   */
  function ObtenerClasificacionError(error: real): (c: Clasificacion)
    ensures c.nivel == Perfecto <==> error < 0.1
    ensures c.nivel == Excelente <==> 0.1 <= error < 0.3
    ensures c.nivel == Bueno <==> 0.3 <= error < 0.6
    ensures c.nivel == Intenta <==> error >= 0.6
  {
    if error < 0.1 then Clasificacion(Perfecto, "🎯", "bg-green-100 text-green-800")
    else if error < 0.3 then Clasificacion(Excelente, "✨", "bg-blue-100 text-blue-800")
    else if error < 0.6 then Clasificacion(Bueno, "👍", "bg-yellow-100 text-yellow-800")
    else Clasificacion(Intenta, "🔄", "bg-red-100 text-red-800")
  }

  /** A larger error never gets a better grade. */
  lemma ClasificacionMonotona(e1: real, e2: real)
    requires e1 <= e2
    ensures ObtenerClasificacionError(e1).nivel.Rango() <= ObtenerClasificacionError(e2).nivel.Rango()
  {
  }
}
