/**
 * The entity `Logro`: an achievement that unlocks once, when its condition
 * holds on the data of the current scenario, and the `datos` object the
 * conditions read.
 */
module Logros {
  import opened Comun

  /**
   * `datos.estimacionUsuario`: absent from the object (`undefined`),
   * explicitly `null`, or a number.
   */
  datatype Estimacion = Indefinida | Nula | Estimada(valor: real)

  /**
   * The `datos` object handed to the conditions. Each scenario fills only
   * some fields; a field it leaves out is `None` (`undefined`).
   */
  datatype Datos = Datos(
    errorAbsoluto: Option<real>,
    tiempo: Option<real>,
    macetas: Option<real>,
    posicionX: Option<real>,
    limiteA: Option<real>,
    limiteB: Option<real>,
    verificacionTeorema: Option<bool>,
    funcionesExploradas: Option<real>,
    diferenciaVerificacion: Option<real>,
    integralAcumulada: Option<real>,
    verificacionesExitosas: Option<real>,
    tiempoExploracion: Option<real>,
    estimacionUsuario: Estimacion,
    errorEstimacion: Option<real>,
    estimacionesExcelentes: Option<real>,
    ejemplosCompletados: Option<real>,
    tiempoCompletado: Option<real>)

  /** `v < c` in JavaScript, where `undefined < c` is false. */
  predicate Menor(v: Option<real>, c: real)
  {
    v.Some? && v.value < c
  }

  /** `v > c`, false for `undefined`. */
  predicate Mayor(v: Option<real>, c: real)
  {
    v.Some? && v.value > c
  }

  /** `v >= c`, false for `undefined`. */
  predicate MayorOIgual(v: Option<real>, c: real)
  {
    v.Some? && v.value >= c
  }

  /** A condition on the data: the `condicion` callback of a `Logro`. */
  type Condicion = Datos -> bool

  class Logro {
    // The descriptive fields and the condition are fixed at construction.
    const id: string
    const nombre: string
    const descripcion: string
    const icono: string
    const condicion: Condicion
    var desbloqueado: bool
    /** When it was unlocked, as a clock reading in milliseconds. */
    var fechaDesbloqueo: Option<int>

    /** A new achievement is locked and has no unlocking date. */
    constructor (id: string, nombre: string, descripcion: string, icono: string, condicion: Condicion)
      ensures this.id == id && this.nombre == nombre && this.descripcion == descripcion
      ensures this.icono == icono && this.condicion == condicion
      ensures !desbloqueado && fechaDesbloqueo == None
    {
      this.id := id;
      this.nombre := nombre;
      this.descripcion := descripcion;
      this.icono := icono;
      this.condicion := condicion;
      desbloqueado := false;
      fechaDesbloqueo := None;
    }

    /**
     * `verificarDesbloqueo(datos)`: unlocks, and answers true, only when
     * still locked and the condition holds; otherwise nothing changes.
     * `ahora` is the clock reading `new Date()` would take.
     */
    method VerificarDesbloqueo(datos: Datos, ahora: int) returns (r: bool)
      modifies this
      ensures r <==> !old(desbloqueado) && condicion(datos)
      ensures r ==> desbloqueado && fechaDesbloqueo == Some(ahora)
      ensures !r ==> unchanged(this)
      ensures desbloqueado <==> old(desbloqueado) || condicion(datos)
    {
      if !desbloqueado && condicion(datos) {
        Desbloquear(ahora);
        return true;
      }
      return false;
    }

    /** `desbloquear()`: unlocked, dated `ahora`. */
    method Desbloquear(ahora: int)
      modifies this
      ensures desbloqueado && fechaDesbloqueo == Some(ahora)
    {
      desbloqueado := true;
      fechaDesbloqueo := Some(ahora);
    }

    /** `obtenerProgreso(datos)`: all or nothing, whatever the data. */
    function ObtenerProgreso(datos: Datos): (p: real)
      reads this
      ensures 0.0 <= p <= 1.0
      ensures p == 1.0 <==> desbloqueado
      ensures p == 0.0 <==> !desbloqueado
    {
      if desbloqueado then 1.0 else 0.0
    }
  }
}
