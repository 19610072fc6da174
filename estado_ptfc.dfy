/**
 * The entity `EstadoPTFC`: the state of the bridge scenario of the first
 * fundamental theorem — the limits and the position `x` between them, the
 * last computed results, the animation, the session clock, the achievements
 * unlocked so far and the last validation of the limits.
 */
module EstadoPTFC {
  import opened Comun
  import opened Logros

  /** The message when the lower limit is not below the upper one. */
  const LimitesInvertidos: string := "El límite inferior debe ser menor que el superior"

  /** The message when the position lies outside the limits. */
  const PosicionFuera: string := "La posición x debe estar entre los límites"

  /** The five results `obtenerCalculos()` returns and `establecerCalculos` takes. */
  datatype Calculos = Calculos(
    valorFuncion: real,
    integralAcumulada: real,
    derivadaIntegral: real,
    verificacionTeorema: bool,
    diferenciaVerificacion: real)

  /** The results after a reset: all zero and the theorem not verified. */
  const CalculosEnCero: Calculos := Calculos(0.0, 0.0, 0.0, false, 0.0)

  /** `{ esValida, errores, advertencias }`. */
  datatype EstadoValidacion = EstadoValidacion(esValida: bool, errores: seq<string>, advertencias: seq<string>)

  /** The errors `validarLimites` reports for limits `a`, `b` and position `x`, in order. */
  function Errores(a: real, b: real, x: real): (errores: seq<string>)
    ensures |errores| <= 2
    ensures LimitesInvertidos in errores <==> a >= b
    ensures PosicionFuera in errores <==> x < a || x > b
  {
    (if a >= b then [LimitesInvertidos] else []) + (if x < a || x > b then [PosicionFuera] else [])
  }

  /** There are no errors exactly when `a < b` and `x` lies between them. */
  lemma SinErrores(a: real, b: real, x: real)
    ensures Errores(a, b, x) == [] <==> a < b && a <= x <= b
  {
    if Errores(a, b, x) == [] {
      assert LimitesInvertidos !in Errores(a, b, x);
      assert PosicionFuera !in Errores(a, b, x);
    }
  }

  /** No two achievements of `ls` share an id. */
  predicate IdsUnicos(ls: seq<Logro>)
  {
    forall i, j :: 0 <= i < |ls| && 0 <= j < |ls| && i != j ==> ls[i].id != ls[j].id
  }

  /** Some achievement of `ls` has the id `id`. */
  predicate TieneId(ls: seq<Logro>, id: string)
  {
    exists i :: 0 <= i < |ls| && ls[i].id == id
  }

  class EstadoPTFC {
    var funcionSeleccionada: string
    var funcionActual: Option<FuncionMatematica>
    var dominio: Intervalo
    var limiteA: real
    var limiteB: real
    var posicionX: real
    var valorFuncion: real
    var integralAcumulada: real
    var derivadaIntegral: real
    var verificacionTeorema: bool
    var diferenciaVerificacion: real
    var animacionActiva: bool
    var velocidadAnimacion: real
    var posicionAnimacion: real
    /** Clock readings and durations, in milliseconds. */
    var tiempoInicio: int
    var tiempoSesion: int
    var tiempoExploracion: int
    var logrosDesbloqueados: seq<Logro>
    var progresoLogros: real
    var estadoValidacion: EstadoValidacion

    /**
     * The initial state: the quadratic selected, limits 0 and 4 with `x` at
     * 2 (limits that pass the validation), zero results, no animation, no
     * achievements, and a valid validation state. `ahora` is the clock
     * reading `Date.now()` would take.
     */
    constructor (ahora: int)
      ensures funcionSeleccionada == "cuadratica" && funcionActual == None
      ensures dominio == Intervalo(-2.0, 6.0)
      ensures limiteA == 0.0 && limiteB == 4.0 && posicionX == 2.0
      ensures ObtenerCalculos() == CalculosEnCero
      ensures !animacionActiva && velocidadAnimacion == 1.0 && posicionAnimacion == 0.0
      ensures tiempoInicio == ahora && tiempoSesion == 0 && tiempoExploracion == 0
      ensures logrosDesbloqueados == [] && progresoLogros == 0.0
      ensures estadoValidacion == EstadoValidacion(true, [], [])
      ensures Errores(limiteA, limiteB, posicionX) == []
    {
      funcionSeleccionada := "cuadratica";
      funcionActual := None;
      dominio := Intervalo(-2.0, 6.0);
      limiteA := 0.0;
      limiteB := 4.0;
      posicionX := 2.0;
      valorFuncion := 0.0;
      integralAcumulada := 0.0;
      derivadaIntegral := 0.0;
      verificacionTeorema := false;
      diferenciaVerificacion := 0.0;
      animacionActiva := false;
      velocidadAnimacion := 1.0;
      posicionAnimacion := 0.0;
      tiempoInicio := ahora;
      tiempoSesion := 0;
      tiempoExploracion := 0;
      logrosDesbloqueados := [];
      progresoLogros := 0.0;
      estadoValidacion := EstadoValidacion(true, [], []);
      new;
      SinErrores(0.0, 4.0, 2.0);
    }

    /** `establecerLimites(a, b)`: writes the two limits only; `x` is not clamped again. */
    method EstablecerLimites(a: real, b: real)
      modifies this`limiteA, this`limiteB
      ensures limiteA == a && limiteB == b
    {
      limiteA := a;
      limiteB := b;
    }

    /**
     * `establecerPosicionX(x)`: `x` clamped into the limits. With ordered
     * limits the position lies between them and equals `x` when `x`
     * already does; with crossed limits it is the lower limit.
     */
    method EstablecerPosicionX(x: real)
      modifies this`posicionX
      ensures limiteA <= limiteB ==> limiteA <= posicionX <= limiteB
      ensures limiteA <= x <= limiteB ==> posicionX == x
      ensures limiteA <= limiteB && x < limiteA ==> posicionX == limiteA
      ensures limiteA <= limiteB && x > limiteB ==> posicionX == limiteB
      ensures limiteA > limiteB ==> posicionX == limiteA
    {
      posicionX := Max(limiteA, Min(limiteB, x));
    }

    /** `obtenerCalculos()`: the five stored results, each under its own name. */
    function ObtenerCalculos(): (c: Calculos)
      reads this
      ensures c.valorFuncion == valorFuncion && c.integralAcumulada == integralAcumulada
      ensures c.derivadaIntegral == derivadaIntegral && c.verificacionTeorema == verificacionTeorema
      ensures c.diferenciaVerificacion == diferenciaVerificacion
    {
      Calculos(valorFuncion, integralAcumulada, derivadaIntegral, verificacionTeorema, diferenciaVerificacion)
    }

    /** `establecerCalculos(calculos)`: reading the results back gives `calculos`. */
    method EstablecerCalculos(calculos: Calculos)
      modifies this`valorFuncion, this`integralAcumulada, this`derivadaIntegral
      modifies this`verificacionTeorema, this`diferenciaVerificacion
      ensures ObtenerCalculos() == calculos
    {
      valorFuncion := calculos.valorFuncion;
      integralAcumulada := calculos.integralAcumulada;
      derivadaIntegral := calculos.derivadaIntegral;
      verificacionTeorema := calculos.verificacionTeorema;
      diferenciaVerificacion := calculos.diferenciaVerificacion;
    }

    /**
     * `validarLimites()`: valid exactly when `a < b` and `x` lies between
     * them; stores the verdict with the errors found, which are none
     * exactly when it is valid.
     */
    method ValidarLimites() returns (esValida: bool)
      modifies this`estadoValidacion
      ensures esValida <==> limiteA < limiteB && limiteA <= posicionX <= limiteB
      ensures estadoValidacion == EstadoValidacion(esValida, Errores(limiteA, limiteB, posicionX), [])
      ensures esValida <==> estadoValidacion.errores == []
    {
      var errores: seq<string> := [];
      if limiteA >= limiteB {
        errores := errores + [LimitesInvertidos];
      }
      if posicionX < limiteA || posicionX > limiteB {
        errores := errores + [PosicionFuera];
      }
      esValida := |errores| == 0;
      estadoValidacion := EstadoValidacion(esValida, errores, []);
      SinErrores(limiteA, limiteB, posicionX);
    }

    /**
     * `agregarLogroDesbloqueado(logro)`: appends `logro` unless an entry
     * already has its id; existing entries are kept, and ids stay unique.
     */
    method AgregarLogroDesbloqueado(logro: Logro)
      modifies this`logrosDesbloqueados
      ensures TieneId(old(logrosDesbloqueados), logro.id) ==> logrosDesbloqueados == old(logrosDesbloqueados)
      ensures !TieneId(old(logrosDesbloqueados), logro.id) ==> logrosDesbloqueados == old(logrosDesbloqueados) + [logro]
      ensures TieneId(logrosDesbloqueados, logro.id)
      ensures IdsUnicos(old(logrosDesbloqueados)) ==> IdsUnicos(logrosDesbloqueados)
    {
      if !TieneId(logrosDesbloqueados, logro.id) {
        logrosDesbloqueados := logrosDesbloqueados + [logro];
        assert logrosDesbloqueados[|logrosDesbloqueados| - 1] == logro;
      }
    }

    /**
     * `reiniciar()`: `x` back to the lower limit, the animation stopped and
     * rewound, the clock restarted at `ahora`, the results zeroed; the
     * limits and the achievements are kept.
     */
    method Reiniciar(ahora: int)
      modifies this`posicionX, this`animacionActiva, this`posicionAnimacion, this`tiempoInicio
      modifies this`tiempoExploracion, this`valorFuncion, this`integralAcumulada, this`derivadaIntegral
      modifies this`verificacionTeorema, this`diferenciaVerificacion
      ensures posicionX == limiteA
      ensures !animacionActiva && posicionAnimacion == 0.0
      ensures tiempoInicio == ahora && tiempoExploracion == 0
      ensures ObtenerCalculos() == CalculosEnCero
    {
      posicionX := limiteA;
      animacionActiva := false;
      posicionAnimacion := 0.0;
      tiempoInicio := ahora;
      tiempoExploracion := 0;
      EstablecerCalculos(CalculosEnCero);
    }
  }
}
