/**
 * The service `GestorLogros`: the fixed list of eighteen achievements of the
 * three scenarios, unlocking them against the data of a scenario, progress,
 * reset, and selection by scenario.
 */
module GestorLogros {
  import opened Comun
  import opened Cadenas
  import opened Logros

  /** The ids of the achievement list, in list order. */
  function Ids(): (ids: seq<string>)
    ensures |ids| == 18
  {
    [
      "primer-exito",
      "aproximacion-excelente",
      "maestro-perfecto",
      "velocista-magico",
      "experto-eficiencia",
      "explorador-ptfc",
      "maestro-teorema-ptfc",
      "animador-ptfc",
      "explorador-funciones-ptfc",
      "verificador-precision-ptfc",
      "constructor-puente-ptfc",
      "matematico-avanzado-ptfc",
      "explorador-tiempo-ptfc",
      "primera-estimacion-tvm",
      "ojo-aguila-tvm",
      "perfeccionista-tvm",
      "explorador-tvm",
      "velocista-tvm"
    ]
  }

  /** The unlocking conditions, in the same order. */
  function Condiciones(): (cs: seq<Condicion>)
    ensures |cs| == 18
  {
    [
      (d: Datos) => Menor(d.errorAbsoluto, 0.5),
      (d: Datos) => Menor(d.errorAbsoluto, 0.1),
      (d: Datos) => Menor(d.errorAbsoluto, 0.01),
      (d: Datos) => Menor(d.errorAbsoluto, 0.1) && Menor(d.tiempo, 30.0),
      (d: Datos) => Menor(d.errorAbsoluto, 0.1) && Menor(d.macetas, 50.0),
      (d: Datos) => d.posicionX.Some? && d.limiteA.Some? && d.posicionX.value > d.limiteA.value + 0.1,
      (d: Datos) => d.verificacionTeorema == Some(true),
      (d: Datos) => d.posicionX.Some? && d.limiteB.Some? && d.posicionX.value >= d.limiteB.value - 0.1,
      (d: Datos) => Mayor(d.funcionesExploradas, 1.0),
      (d: Datos) => Menor(d.diferenciaVerificacion, 0.001),
      (d: Datos) => Mayor(d.integralAcumulada, 10.0),
      (d: Datos) => MayorOIgual(d.verificacionesExitosas, 5.0),
      (d: Datos) => Mayor(d.tiempoExploracion, 120000.0),
      (d: Datos) => d.estimacionUsuario != Nula,
      (d: Datos) => Menor(d.errorEstimacion, 0.2),
      (d: Datos) => MayorOIgual(d.estimacionesExcelentes, 3.0),
      (d: Datos) => MayorOIgual(d.ejemplosCompletados, 5.0),
      (d: Datos) => Menor(d.tiempoCompletado, 30000.0)
    ]
  }

  /** The ids of the table are pairwise distinct. */
  lemma IdsDistintos()
    ensures forall i, j :: 0 <= i < j < |Ids()| ==> Ids()[i] != Ids()[j]
  {
    var c := Ids();
    forall i, j | 0 <= i < j < |c|
      ensures c[i] != c[j]
    {
      IdsDistintosEn(c, i, j);
    }
  }

  lemma IdsDistintosEn(c: seq<string>, i: int, j: int)
    requires c == Ids() && 0 <= i < j < |c|
    ensures c[i] != c[j]
  {
    if |c[i]| == |c[j]| {
      assert c[i][0] != c[j][0] || c[i][1] != c[j][1] || c[i][|c[i]| - 1] != c[j][|c[j]| - 1];
    }
  }

  /**
   * The name, description and icon shown for each achievement, in table
   * order. They are only displayed, so no property depends on them.
   */
  method Textos() returns (ts: seq<(string, string, string)>)
    ensures |ts| == 18
  {
    var riemann := TextosRiemann();
    var ptfc := TextosPtfc();
    var tvm := TextosTvm();
    ts := riemann + ptfc + tvm;
  }

  /** The texts of the five Riemann garden achievements. */
  method TextosRiemann() returns (ts: seq<(string, string, string)>)
    ensures |ts| == 5
  {
    ts := [
      ("Primer Éxito", "Logra tu primera aproximación con error < 0.5", "🌱"),
      ("Aproximación Excelente", "Consigue una aproximación excelente (error < 0.1)", "🎯"),
      ("Maestro Perfecto", "Alcanza la perfección con error < 0.01", "👑"),
      ("Velocista Mágico", "Consigue excelencia con menos de 30 segundos", "⚡"),
      ("Experto en Eficiencia", "Logra excelencia con menos de 50 macetas", "💎")
    ];
  }

  /** The texts of the eight achievements of the bridge (PTFC) scenario. */
  method TextosPtfc() returns (ts: seq<(string, string, string)>)
    ensures |ts| == 8
  {
    ts := [
      ("🧭 Explorador del Puente", "Primera exploración del puente mágico", "🧭"),
      ("🎓 Maestro del Teorema", "Verificaste F'(x) = f(x) correctamente", "🎓"),
      ("🎬 Animador del Puente", "Completaste una animación completa", "🎬"),
      ("🔬 Explorador de Funciones", "Exploraste múltiples funciones matemáticas", "🔬"),
      ("🎯 Verificador de Precisión", "Lograste una verificación con diferencia < 0.001", "🎯"),
      ("🏗️ Constructor del Puente", "Construiste el puente completo con área > 10", "🏗️"),
      ("🧮 Matemático Avanzado", "Verificaste el teorema en 5 funciones diferentes", "🧮"),
      ("⏱️ Explorador del Tiempo", "Exploraste por más de 2 minutos", "⏱️")
    ];
  }

  /** The texts of the five achievements of the mean value tower (TVM) scenario. */
  method TextosTvm() returns (ts: seq<(string, string, string)>)
    ensures |ts| == 5
  {
    ts := [
      ("🎯 Primera Estimación", "Haz tu primera estimación de c", "🎯"),
      ("🦅 Ojo de Águila", "Estima c con error < 0.2", "🦅"),
      ("🏆 Perfeccionista", "Consigue 3 estimaciones excelentes", "🏆"),
      ("🔍 Explorador", "Prueba los 5 ejemplos", "🔍"),
      ("⚡ Velocista", "Completa un ejemplo en < 30s", "⚡")
    ];
  }

  /** The data a scenario passes: every field absent. */
  function SinDatos(): Datos
  {
    Datos(None, None, None, None, None, None, None, None, None, None, None, None, Indefinida, None, None, None, None)
  }

  // ---------------------------------------------------------------------
  // Scenario markers in the ids
  // ---------------------------------------------------------------------

  /** Whether `id` carries the "-ptfc" and "-tvm" markers; none carries "-antiderivadas". */
  predicate Marcas(id: string, ptfc: bool, tvm: bool)
  {
    (Contiene(id, "-ptfc") <==> ptfc) && (Contiene(id, "-tvm") <==> tvm) && !Contiene(id, "-antiderivadas")
  }

  // One lemma per id: which markers it carries.

  lemma MarcasPrimerExito()
    ensures Marcas("primer-exito", false, false)
  {
    NoContieneSinCaracter("primer-exito", "-ptfc", 'f');
    NoContieneSinCaracter("primer-exito", "-tvm", 'v');
  }

  lemma MarcasAproximacionExcelente()
    ensures Marcas("aproximacion-excelente", false, false)
  {
    NoContieneSinCaracter("aproximacion-excelente", "-ptfc", 'f');
    NoContieneSinCaracter("aproximacion-excelente", "-tvm", 'v');
    NoContieneSinCaracter("aproximacion-excelente", "-antiderivadas", 'd');
  }

  lemma MarcasMaestroPerfecto()
    ensures Marcas("maestro-perfecto", false, false)
  {
    NoContieneTres("maestro-perfecto", "-ptfc");
    NoContieneSinCaracter("maestro-perfecto", "-tvm", 'v');
    NoContieneSinCaracter("maestro-perfecto", "-antiderivadas", 'n');
  }

  lemma MarcasVelocistaMagico()
    ensures Marcas("velocista-magico", false, false)
  {
    NoContieneSinCaracter("velocista-magico", "-ptfc", 'p');
    NoContieneTres("velocista-magico", "-tvm");
    NoContieneSinCaracter("velocista-magico", "-antiderivadas", 'n');
  }

  lemma MarcasExpertoEficiencia()
    ensures Marcas("experto-eficiencia", false, false)
  {
    NoContieneTres("experto-eficiencia", "-ptfc");
    NoContieneSinCaracter("experto-eficiencia", "-tvm", 'v');
    NoContieneSinCaracter("experto-eficiencia", "-antiderivadas", 'd');
  }

  lemma MarcasExploradorPtfc()
    ensures Marcas("explorador-ptfc", true, false)
  {
    ContieneSufijo("explorador-ptfc", "-ptfc");
    NoContieneSinCaracter("explorador-ptfc", "-tvm", 'v');
    NoContieneSinCaracter("explorador-ptfc", "-antiderivadas", 'n');
  }

  lemma MarcasMaestroTeoremaPtfc()
    ensures Marcas("maestro-teorema-ptfc", true, false)
  {
    ContieneSufijo("maestro-teorema-ptfc", "-ptfc");
    NoContieneSinCaracter("maestro-teorema-ptfc", "-tvm", 'v');
    NoContieneSinCaracter("maestro-teorema-ptfc", "-antiderivadas", 'n');
  }

  lemma MarcasAnimadorPtfc()
    ensures Marcas("animador-ptfc", true, false)
  {
    ContieneSufijo("animador-ptfc", "-ptfc");
    NoContieneSinCaracter("animador-ptfc", "-tvm", 'v');
  }

  lemma MarcasExploradorFuncionesPtfc()
    ensures Marcas("explorador-funciones-ptfc", true, false)
  {
    ContieneSufijo("explorador-funciones-ptfc", "-ptfc");
    NoContieneSinCaracter("explorador-funciones-ptfc", "-tvm", 'v');
    NoContieneSinCaracter("explorador-funciones-ptfc", "-antiderivadas", 'v');
  }

  lemma MarcasVerificadorPrecisionPtfc()
    ensures Marcas("verificador-precision-ptfc", true, false)
  {
    ContieneSufijo("verificador-precision-ptfc", "-ptfc");
    NoContieneSinCaracter("verificador-precision-ptfc", "-tvm", 'm');
    NoContieneTres("verificador-precision-ptfc", "-antiderivadas");
  }

  lemma MarcasConstructorPuentePtfc()
    ensures Marcas("constructor-puente-ptfc", true, false)
  {
    ContieneSufijo("constructor-puente-ptfc", "-ptfc");
    NoContieneSinCaracter("constructor-puente-ptfc", "-tvm", 'v');
    NoContieneSinCaracter("constructor-puente-ptfc", "-antiderivadas", 'a');
  }

  lemma MarcasMatematicoAvanzadoPtfc()
    ensures Marcas("matematico-avanzado-ptfc", true, false)
  {
    ContieneSufijo("matematico-avanzado-ptfc", "-ptfc");
    NoContieneTres("matematico-avanzado-ptfc", "-tvm");
    NoContieneSinCaracter("matematico-avanzado-ptfc", "-antiderivadas", 'r');
  }

  lemma MarcasExploradorTiempoPtfc()
    ensures Marcas("explorador-tiempo-ptfc", true, false)
  {
    ContieneSufijo("explorador-tiempo-ptfc", "-ptfc");
    NoContieneSinCaracter("explorador-tiempo-ptfc", "-tvm", 'v');
    NoContieneSinCaracter("explorador-tiempo-ptfc", "-antiderivadas", 'n');
  }

  lemma MarcasPrimeraEstimacionTvm()
    ensures Marcas("primera-estimacion-tvm", false, true)
  {
    NoContieneSinCaracter("primera-estimacion-tvm", "-ptfc", 'f');
    ContieneSufijo("primera-estimacion-tvm", "-tvm");
    NoContieneSinCaracter("primera-estimacion-tvm", "-antiderivadas", 'd');
  }

  lemma MarcasOjoAguilaTvm()
    ensures Marcas("ojo-aguila-tvm", false, true)
  {
    NoContieneSinCaracter("ojo-aguila-tvm", "-ptfc", 'p');
    ContieneSufijo("ojo-aguila-tvm", "-tvm");
    NoContieneSinCaracter("ojo-aguila-tvm", "-antiderivadas", 'n');
  }

  lemma MarcasPerfeccionistaTvm()
    ensures Marcas("perfeccionista-tvm", false, true)
  {
    NoContieneTres("perfeccionista-tvm", "-ptfc");
    ContieneSufijo("perfeccionista-tvm", "-tvm");
    NoContieneSinCaracter("perfeccionista-tvm", "-antiderivadas", 'd');
  }

  lemma MarcasExploradorTvm()
    ensures Marcas("explorador-tvm", false, true)
  {
    NoContieneSinCaracter("explorador-tvm", "-ptfc", 'f');
    ContieneSufijo("explorador-tvm", "-tvm");
    NoContieneSinCaracter("explorador-tvm", "-antiderivadas", 'n');
  }

  lemma MarcasVelocistaTvm()
    ensures Marcas("velocista-tvm", false, true)
  {
    NoContieneSinCaracter("velocista-tvm", "-ptfc", 'p');
    ContieneSufijo("velocista-tvm", "-tvm");
  }

  /**
   * The first five ids carry no marker, the next eight carry "-ptfc" and the
   * last five "-tvm"; none carries "-antiderivadas".
   */
  lemma MarcasIds()
    ensures forall i :: 0 <= i < |Ids()| ==> Marcas(Ids()[i], 5 <= i < 13, 13 <= i)
  {
    MarcasPrimerExito();
    MarcasAproximacionExcelente();
    MarcasMaestroPerfecto();
    MarcasVelocistaMagico();
    MarcasExpertoEficiencia();
    MarcasExploradorPtfc();
    MarcasMaestroTeoremaPtfc();
    MarcasAnimadorPtfc();
    MarcasExploradorFuncionesPtfc();
    MarcasVerificadorPrecisionPtfc();
    MarcasConstructorPuentePtfc();
    MarcasMatematicoAvanzadoPtfc();
    MarcasExploradorTiempoPtfc();
    MarcasPrimeraEstimacionTvm();
    MarcasOjoAguilaTvm();
    MarcasPerfeccionistaTvm();
    MarcasExploradorTvm();
    MarcasVelocistaTvm();
  }

  // ---------------------------------------------------------------------
  // Selections over a list of achievements
  // ---------------------------------------------------------------------

  /** The achievements of `ls` whose entry in `marca` is set, in list order. */
  function Filtrar(ls: seq<Logro>, marca: seq<bool>): (r: seq<Logro>)
    requires |marca| == |ls|
    ensures |r| <= |ls|
  {
    if ls == [] then []
    else
      var n := |ls| - 1;
      Filtrar(ls[..n], marca[..n]) + (if marca[n] then [ls[n]] else [])
  }

  /** Filtering one more entry appends it when it is marked. */
  lemma FiltrarPaso(ls: seq<Logro>, marca: seq<bool>, i: int)
    requires |marca| == |ls| && 0 <= i < |ls|
    ensures Filtrar(ls[..i + 1], marca[..i + 1]) == Filtrar(ls[..i], marca[..i]) + (if marca[i] then [ls[i]] else [])
  {
    assert ls[..i + 1][..i] == ls[..i];
    assert marca[..i + 1][..i] == marca[..i];
  }

  /** What is kept is exactly the marked achievements. */
  lemma {:induction false} FiltrarMiembros(ls: seq<Logro>, marca: seq<bool>)
    requires |marca| == |ls|
    ensures forall k :: 0 <= k < |Filtrar(ls, marca)| ==> Marcado(ls, marca, Filtrar(ls, marca)[k])
    ensures forall i :: 0 <= i < |ls| && marca[i] ==> ls[i] in Filtrar(ls, marca)
    decreases |ls|
  {
    var r := Filtrar(ls, marca);
    if ls != [] {
      var n := |ls| - 1;
      FiltrarMiembros(ls[..n], marca[..n]);
      var r' := Filtrar(ls[..n], marca[..n]);
      assert r == r' + (if marca[n] then [ls[n]] else []);
      forall k | 0 <= k < |r|
        ensures Marcado(ls, marca, r[k])
      {
        if k < |r'| {
          assert Marcado(ls[..n], marca[..n], r'[k]);
          var i :| 0 <= i < n && ls[..n][i] == r'[k] && marca[..n][i];
          assert ls[i] == r[k] && marca[i];
        } else {
          assert ls[n] == r[k] && marca[n];
        }
      }
      forall i | 0 <= i < |ls| && marca[i]
        ensures ls[i] in r
      {
        if i < n {
          assert ls[..n][i] in r';
        }
      }
    }
  }

  /** `x` is one of the marked achievements of `ls`. */
  predicate Marcado(ls: seq<Logro>, marca: seq<bool>, x: Logro)
    requires |marca| == |ls|
  {
    exists i :: 0 <= i < |ls| && ls[i] == x && marca[i]
  }

  /** Filtering with the marks set exactly at positions `a` to `b` keeps that slice. */
  lemma {:induction false} FiltrarTramo(ls: seq<Logro>, marca: seq<bool>, a: nat, b: nat)
    requires |marca| == |ls| && a <= b <= |ls|
    requires forall i :: 0 <= i < |ls| ==> (marca[i] <==> a <= i < b)
    ensures Filtrar(ls, marca) == ls[a..b]
    decreases |ls|
  {
    if ls != [] {
      var n := |ls| - 1;
      if b <= n {
        FiltrarTramo(ls[..n], marca[..n], a, b);
        assert ls[..n][a..b] == ls[a..b];
      } else if a <= n {
        FiltrarTramo(ls[..n], marca[..n], a, n);
        assert ls[..n][a..n] + [ls[n]] == ls[a..b];
      } else {
        FiltrarTramo(ls[..n], marca[..n], n, n);
      }
    }
  }

  /** With no mark set nothing is kept. */
  lemma {:induction false} FiltrarNada(ls: seq<Logro>, marca: seq<bool>)
    requires |marca| == |ls|
    requires forall i :: 0 <= i < |ls| ==> !marca[i]
    ensures Filtrar(ls, marca) == []
    decreases |ls|
  {
    if ls != [] {
      var n := |ls| - 1;
      FiltrarNada(ls[..n], marca[..n]);
    }
  }

  /** Everything is kept exactly when every mark is set. */
  lemma {:induction false} FiltrarTodo(ls: seq<Logro>, marca: seq<bool>)
    requires |marca| == |ls|
    ensures |Filtrar(ls, marca)| == |ls| <==> forall i :: 0 <= i < |ls| ==> marca[i]
    decreases |ls|
  {
    if ls != [] {
      var n := |ls| - 1;
      FiltrarTodo(ls[..n], marca[..n]);
      assert forall i :: 0 <= i < n ==> marca[..n][i] == marca[i];
    }
  }

  /** Whether `obtenerLogrosPorEscenario(escenario)` keeps the achievement with this id. */
  predicate DelEscenario(id: string, escenario: string)
  {
    if escenario == "riemann" then
      !Contiene(id, "-ptfc") && !Contiene(id, "-tvm") && !Contiene(id, "-antiderivadas")
    else if escenario == "ptfc" then Contiene(id, "-ptfc")
    else if escenario == "tvm" then Contiene(id, "-tvm")
    else if escenario == "antiderivadas" then Contiene(id, "-antiderivadas")
    else true
  }

  /** Which achievements of `ls` belong to `escenario`. */
  function Escenario(ls: seq<Logro>, escenario: string): (marca: seq<bool>)
    ensures |marca| == |ls|
  {
    seq(|ls|, i requires 0 <= i < |ls| => DelEscenario(ls[i].id, escenario))
  }

  /** The lock state of each achievement of `ls`. */
  function Estados(ls: seq<Logro>): (e: seq<bool>)
    reads set l | l in ls
    ensures |e| == |ls|
    ensures forall i :: 0 <= i < |ls| ==> e[i] == ls[i].desbloqueado
  {
    seq(|ls|, i reads set l | l in ls requires 0 <= i < |ls| => ls[i].desbloqueado)
  }

  /** The unlocking date of each achievement of `ls`. */
  function Fechas(ls: seq<Logro>): (f: seq<Option<int>>)
    reads set l | l in ls
    ensures |f| == |ls|
    ensures forall i :: 0 <= i < |ls| ==> f[i] == ls[i].fechaDesbloqueo
  {
    seq(|ls|, i reads set l | l in ls requires 0 <= i < |ls| => ls[i].fechaDesbloqueo)
  }

  /** The unlocked achievements of `ls`, in list order. */
  function Desbloqueados(ls: seq<Logro>): seq<Logro>
    reads set l | l in ls
  {
    Filtrar(ls, Estados(ls))
  }

  /** The lock states after checking `datos`, from the states `antes`. */
  function Tras(antes: seq<bool>, ls: seq<Logro>, datos: Datos): (e: seq<bool>)
    requires |antes| == |ls|
    ensures |e| == |ls|
  {
    seq(|ls|, i requires 0 <= i < |ls| => antes[i] || ls[i].condicion(datos))
  }

  /** Which achievements of `ls` were locked in `antes` and meet their condition on `datos`. */
  function Candidatos(antes: seq<bool>, ls: seq<Logro>, datos: Datos): (c: seq<bool>)
    requires |antes| == |ls|
    ensures |c| == |ls|
  {
    seq(|ls|, i requires 0 <= i < |ls| => !antes[i] && ls[i].condicion(datos))
  }

  /** The achievements that checking `datos` newly unlocks, in list order. */
  function Nuevos(ls: seq<Logro>, antes: seq<bool>, datos: Datos): seq<Logro>
    requires |antes| == |ls|
  {
    Filtrar(ls, Candidatos(antes, ls, datos))
  }

  /**
   * The newly unlocked achievements are exactly those that were locked and
   * whose condition holds.
   */
  lemma NuevosSon(ls: seq<Logro>, antes: seq<bool>, datos: Datos)
    requires |antes| == |ls|
    ensures forall k :: 0 <= k < |Nuevos(ls, antes, datos)| ==> NuevoEn(ls, antes, datos, Nuevos(ls, antes, datos)[k])
    ensures forall i :: 0 <= i < |ls| && !antes[i] && ls[i].condicion(datos) ==> ls[i] in Nuevos(ls, antes, datos)
  {
    var c := Candidatos(antes, ls, datos);
    var r := Nuevos(ls, antes, datos);
    FiltrarMiembros(ls, c);
    forall k | 0 <= k < |r|
      ensures NuevoEn(ls, antes, datos, r[k])
    {
      assert Marcado(ls, c, r[k]);
      var i :| 0 <= i < |ls| && ls[i] == r[k] && c[i];
      assert !antes[i] && ls[i].condicion(datos);
    }
  }

  /** `x` is an achievement of `ls` that was locked in `antes` and whose condition holds on `datos`. */
  predicate NuevoEn(ls: seq<Logro>, antes: seq<bool>, datos: Datos, x: Logro)
    requires |antes| == |ls|
  {
    exists i :: 0 <= i < |ls| && ls[i] == x && !antes[i] && ls[i].condicion(datos)
  }

  /** Once checked against `datos`, checking again unlocks nothing new. */
  lemma NadaNuevoDosVeces(ls: seq<Logro>, antes: seq<bool>, datos: Datos)
    requires |antes| == |ls|
    ensures Nuevos(ls, Tras(antes, ls, datos), datos) == []
  {
    FiltrarNada(ls, Candidatos(Tras(antes, ls, datos), ls, datos));
  }

  /** The progress report: totals and the percentage unlocked. */
  datatype Progreso = Progreso(total: nat, desbloqueados: nat, porcentaje: real)

  /** `desbloqueados / total * 100` lies between 0 and 100 and is 100 exactly when all are unlocked. */
  lemma PorcentajeAcotado(d: nat, t: nat)
    requires 0 < t && d <= t
    ensures 0.0 <= (d as real / t as real) * 100.0 <= 100.0
    ensures (d as real / t as real) * 100.0 == 100.0 <==> d == t
  {
    Cociente(d as real, t as real);
  }

  /** A quotient of a non-negative number by a larger positive one lies in [0, 1], and is 1 only when they are equal. */
  lemma Cociente(x: real, y: real)
    requires 0.0 <= x <= y && 0.0 < y
    ensures 0.0 <= x / y <= 1.0
    ensures x / y == 1.0 <==> x == y
  {
    var q := x / y;
    assert q * y == x;
    assert (1.0 - q) * y == y - x;
  }

  /**
   * Builds one locked achievement per entry of the table, in table order,
   * each newly allocated.
   */
  method CrearLogros(ids: seq<string>, textos: seq<(string, string, string)>, cs: seq<Condicion>) returns (ls: seq<Logro>)
    requires |ids| == |textos| == |cs|
    ensures DeLaTabla(ls, ids, cs) && Bloqueados(ls) && SinRepetir(ls)
    ensures forall i :: 0 <= i < |ls| ==>
      ls[i].nombre == textos[i].0 && ls[i].descripcion == textos[i].1 && ls[i].icono == textos[i].2
    ensures forall i :: 0 <= i < |ls| ==> fresh(ls[i])
  {
    ls := [];
    for i := 0 to |ids|
      invariant |ls| == i
      invariant forall j :: 0 <= j < i ==> ls[j].id == ids[j] && ls[j].condicion == cs[j]
      invariant forall j :: 0 <= j < i ==>
        ls[j].nombre == textos[j].0 && ls[j].descripcion == textos[j].1 && ls[j].icono == textos[j].2
      invariant forall j :: 0 <= j < i ==> !ls[j].desbloqueado && ls[j].fechaDesbloqueo == None && fresh(ls[j])
      invariant SinRepetir(ls)
    {
      var l := new Logro(ids[i], textos[i].0, textos[i].1, textos[i].2, cs[i]);
      ls := ls + [l];
    }
  }

  /** Each achievement of `ls` has the id and condition at its position of the table. */
  ghost predicate DeLaTabla(ls: seq<Logro>, ids: seq<string>, cs: seq<Condicion>)
  {
    |ls| == |ids| == |cs| && forall i :: 0 <= i < |ls| ==> ls[i].id == ids[i] && ls[i].condicion == cs[i]
  }

  /** Every achievement of `ls` is locked and undated. */
  predicate Bloqueados(ls: seq<Logro>)
    reads set l | l in ls
  {
    forall i :: 0 <= i < |ls| ==> !ls[i].desbloqueado && ls[i].fechaDesbloqueo == None
  }

  /** No achievement is listed twice in `ls`. */
  ghost predicate SinRepetir(ls: seq<Logro>)
  {
    forall i, j :: 0 <= i < |ls| && 0 <= j < |ls| && i != j ==> ls[i] != ls[j]
  }

  /**
   * `inicializarLogros()`: the eighteen achievements of the table, in
   * table order, all locked and newly allocated.
   */
  method InicializarLogros() returns (ls: seq<Logro>)
    ensures DeLaTabla(ls, Ids(), Condiciones()) && Bloqueados(ls) && SinRepetir(ls)
    ensures forall i :: 0 <= i < |ls| ==> fresh(ls[i])
  {
    var textos := Textos();
    ls := CrearLogros(Ids(), textos, Condiciones());
  }

  class GestorLogros {
    const logros: seq<Logro>

    /** The list is the table, entry by entry, with no achievement listed twice. */
    ghost predicate Valid()
    {
      DeLaTabla(logros, Ids(), Condiciones()) && SinRepetir(logros)
    }

    /** A new manager holds the eighteen achievements, with distinct ids, all locked. */
    constructor ()
      ensures Valid() && Bloqueados(logros)
      ensures forall i, j :: 0 <= i < j < |logros| ==> logros[i].id != logros[j].id
      ensures forall i :: 0 <= i < |logros| ==> fresh(logros[i])
    {
      var ls := InicializarLogros();
      logros := ls;
      new;
      IdsDistintos();
    }

    /**
     * `verificarLogros(datos)`: checks every achievement in list order,
     * unlocks (dated `ahora`) the locked ones whose condition holds, and
     * returns those, in list order.
     */
    method VerificarLogros(datos: Datos, ahora: int) returns (desbloqueados: seq<Logro>)
      requires SinRepetir(logros)
      modifies set l | l in logros
      ensures desbloqueados == Nuevos(logros, old(Estados(logros)), datos)
      ensures Estados(logros) == Tras(old(Estados(logros)), logros, datos)
      ensures forall i :: 0 <= i < |logros| ==> old(logros[i].desbloqueado) ==> logros[i].desbloqueado
      ensures forall i :: 0 <= i < |logros| ==>
        logros[i].fechaDesbloqueo
          == if !old(logros[i].desbloqueado) && logros[i].condicion(datos) then Some(ahora) else old(logros[i].fechaDesbloqueo)
    {
      ghost var antes := Estados(logros);
      ghost var fechas := Fechas(logros);
      ghost var nuevos := Candidatos(antes, logros, datos);
      ghost var despues := Tras(antes, logros, datos);
      desbloqueados := [];
      for i := 0 to |logros|
        invariant forall j :: 0 <= j < |logros| ==> logros[j].desbloqueado == if j < i then despues[j] else antes[j]
        invariant forall j :: 0 <= j < |logros| ==> logros[j].fechaDesbloqueo == if j < i && nuevos[j] then Some(ahora) else fechas[j]
        invariant desbloqueados == Filtrar(logros[..i], nuevos[..i])
      {
        var l := logros[i];
        var nuevo := l.VerificarDesbloqueo(datos, ahora);
        if nuevo {
          desbloqueados := desbloqueados + [l];
        }
        FiltrarPaso(logros, nuevos, i);
      }
      assert logros[..|logros|] == logros;
      assert nuevos[..|logros|] == nuevos;
    }

    /** `obtenerLogrosDesbloqueados()`: the unlocked achievements, in list order. */
    function ObtenerLogrosDesbloqueados(): (r: seq<Logro>)
      reads set l | l in logros
      ensures r == Filtrar(logros, Estados(logros))
      ensures |r| <= |logros|
      ensures forall k :: 0 <= k < |r| ==> r[k] in logros && r[k].desbloqueado
      ensures forall i :: 0 <= i < |logros| && logros[i].desbloqueado ==> logros[i] in r
    {
      FiltrarMiembros(logros, Estados(logros));
      Desbloqueados(logros)
    }

    /**
     * `obtenerProgreso()`: the total, the number unlocked, and the
     * percentage unlocked, at most 100 and 100 exactly when all are.
     */
    function ObtenerProgreso(): (p: Progreso)
      requires Valid()
      reads set l | l in logros
      ensures p.total == 18 && p.desbloqueados == |ObtenerLogrosDesbloqueados()| <= p.total
      ensures p.porcentaje == (p.desbloqueados as real / 18.0) * 100.0
      ensures 0.0 <= p.porcentaje <= 100.0
      ensures p.porcentaje == 100.0 <==> forall i :: 0 <= i < |logros| ==> logros[i].desbloqueado
    {
      var total := |logros|;
      var desbloqueados := |Desbloqueados(logros)|;
      PorcentajeAcotado(desbloqueados, total);
      FiltrarTodo(logros, Estados(logros));
      Progreso(total, desbloqueados, (desbloqueados as real / total as real) * 100.0)
    }

    /** `reiniciar()`: every achievement locked again and undated; the list is kept. */
    method Reiniciar()
      modifies set l | l in logros
      ensures forall i :: 0 <= i < |logros| ==> !logros[i].desbloqueado && logros[i].fechaDesbloqueo == None
      ensures ObtenerLogrosDesbloqueados() == []
    {
      for i := 0 to |logros|
        invariant forall j :: 0 <= j < i ==> !logros[j].desbloqueado && logros[j].fechaDesbloqueo == None
      {
        logros[i].desbloqueado := false;
        logros[i].fechaDesbloqueo := None;
      }
      FiltrarNada(logros, Estados(logros));
    }

    /**
     * `obtenerLogrosPorEscenario(escenario)`: the achievements whose id
     * carries the scenario's marker ('riemann': none of the three
     * markers), in list order; any other name keeps them all.
     */
    function ObtenerLogrosPorEscenario(escenario: string): (r: seq<Logro>)
      ensures |r| <= |logros|
      ensures forall k :: 0 <= k < |r| ==> r[k] in logros && DelEscenario(r[k].id, escenario)
      ensures forall i :: 0 <= i < |logros| && DelEscenario(logros[i].id, escenario) ==> logros[i] in r
    {
      FiltrarMiembros(logros, Escenario(logros, escenario));
      Filtrar(logros, Escenario(logros, escenario))
    }

    /**
     * `obtenerProgresoPorEscenario(escenario)`: progress within the
     * selection, with percentage 0 when the selection is empty.
     */
    function ObtenerProgresoPorEscenario(escenario: string): (p: Progreso)
      reads set l | l in logros
      ensures p.total == |ObtenerLogrosPorEscenario(escenario)| <= |logros|
      ensures p.desbloqueados == |Desbloqueados(ObtenerLogrosPorEscenario(escenario))| <= p.total
      ensures 0.0 <= p.porcentaje <= 100.0
      ensures p.total == 0 ==> p.porcentaje == 0.0
      ensures p.total > 0 ==> p.porcentaje == (p.desbloqueados as real / p.total as real) * 100.0
    {
      var seleccion := ObtenerLogrosPorEscenario(escenario);
      FiltrarMiembros(logros, Escenario(logros, escenario));
      var total := |seleccion|;
      var desbloqueados := |Desbloqueados(seleccion)|;
      if total > 0 then
        PorcentajeAcotado(desbloqueados, total);
        Progreso(total, desbloqueados, (desbloqueados as real / total as real) * 100.0)
      else
        Progreso(total, desbloqueados, 0.0)
    }

    /**
     * On the table, 'riemann' selects the first five achievements, 'ptfc'
     * the next eight, 'tvm' the last five, 'antiderivadas' none, and any
     * other name all of them; in particular the three scenarios are
     * disjoint.
     */
    lemma Selecciones()
      requires Valid()
      ensures ObtenerLogrosPorEscenario("riemann") == logros[..5]
      ensures ObtenerLogrosPorEscenario("ptfc") == logros[5..13]
      ensures ObtenerLogrosPorEscenario("tvm") == logros[13..]
      ensures ObtenerLogrosPorEscenario("antiderivadas") == []
    {
      SeleccionRiemann();
      SeleccionPtfc();
      SeleccionTvm();
      SeleccionAntiderivadas();
    }

    /** On the table, 'riemann' selects the first five achievements. */
    lemma SeleccionRiemann()
      requires Valid()
      ensures ObtenerLogrosPorEscenario("riemann") == logros[..5]
    {
      MarcasIds();
      FiltrarTramo(logros, Escenario(logros, "riemann"), 0, 5);
    }

    /** On the table, 'ptfc' selects the eight achievements after the first five. */
    lemma SeleccionPtfc()
      requires Valid()
      ensures ObtenerLogrosPorEscenario("ptfc") == logros[5..13]
    {
      MarcasIds();
      FiltrarTramo(logros, Escenario(logros, "ptfc"), 5, 13);
    }

    /** On the table, 'tvm' selects the last five achievements. */
    lemma SeleccionTvm()
      requires Valid()
      ensures ObtenerLogrosPorEscenario("tvm") == logros[13..]
    {
      MarcasIds();
      FiltrarTramo(logros, Escenario(logros, "tvm"), 13, 18);
    }

    /** On the table, 'antiderivadas' selects nothing. */
    lemma SeleccionAntiderivadas()
      requires Valid()
      ensures ObtenerLogrosPorEscenario("antiderivadas") == []
    {
      MarcasIds();
      FiltrarNada(logros, Escenario(logros, "antiderivadas"));
    }

    /** No achievement belongs to two of the 'riemann', 'ptfc' and 'tvm' selections. */
    lemma SeleccionesDisjuntas()
      requires Valid()
      ensures forall l :: l in ObtenerLogrosPorEscenario("riemann") ==> l !in ObtenerLogrosPorEscenario("ptfc")
      ensures forall l :: l in ObtenerLogrosPorEscenario("riemann") ==> l !in ObtenerLogrosPorEscenario("tvm")
      ensures forall l :: l in ObtenerLogrosPorEscenario("ptfc") ==> l !in ObtenerLogrosPorEscenario("tvm")
    {
      Selecciones();
      TramosDisjuntos(logros, 0, 5, 13);
      TramosDisjuntos(logros, 5, 13, 18);
      TramosDisjuntos(logros, 0, 13, 18);
    }

    /** Any name other than the four scenarios selects the whole list. */
    lemma OtroEscenario(escenario: string)
      requires escenario !in ["riemann", "ptfc", "tvm", "antiderivadas"]
      ensures ObtenerLogrosPorEscenario(escenario) == logros
    {
      FiltrarTramo(logros, Escenario(logros, escenario), 0, |logros|);
    }

    /** The 'antiderivadas' scenario has no achievements, so its progress is zero. */
    lemma ProgresoAntiderivadas()
      requires Valid()
      ensures ObtenerProgresoPorEscenario("antiderivadas") == Progreso(0, 0, 0.0)
    {
      SeleccionAntiderivadas();
    }
  }

  /** Two adjacent slices of a list without repetitions share no element. */
  lemma TramosDisjuntos(ls: seq<Logro>, a: nat, b: nat, c: nat)
    requires SinRepetir(ls) && a <= b <= c <= |ls|
    ensures forall l :: l in ls[a..b] ==> l !in ls[b..c]
  {
    forall l | l in ls[a..b]
      ensures l !in ls[b..c]
    {
      var k :| 0 <= k < b - a && ls[a..b][k] == l;
      assert ls[a + k] == l;
      forall m | 0 <= m < c - b
        ensures ls[b..c][m] != l
      {
        assert ls[b..c][m] == ls[b + m];
      }
    }
  }

  // ---------------------------------------------------------------------
  // The "primera-estimacion-tvm" condition
  // ---------------------------------------------------------------------

  /**
   * The data the Riemann garden passes when it checks achievements: the
   * absolute error, the time and the number of pots, and nothing else.
   */
  function DatosRiemann(errorAbsoluto: real, tiempo: real, macetas: real): (d: Datos)
    ensures d.estimacionUsuario == Indefinida
  {
    SinDatos().(errorAbsoluto := Some(errorAbsoluto), tiempo := Some(tiempo), macetas := Some(macetas))
  }

  /**
   * As written, the condition of "primera-estimacion-tvm" holds on data
   * that carry no estimate at all, such as the Riemann garden's.
   */
  lemma PrimeraEstimacionSinEstimar(errorAbsoluto: real, tiempo: real, macetas: real)
    ensures Ids()[13] == "primera-estimacion-tvm"
    ensures Condiciones()[13](DatosRiemann(errorAbsoluto, tiempo, macetas))
  {
  }

  /** The intended condition: an estimate has been made. */
  predicate PrimeraEstimacion(d: Datos)
  {
    d.estimacionUsuario.Estimada?
  }

  /**
   * The intended condition holds exactly when the data carry an estimate,
   * and so never on the Riemann garden's data; it differs from the written
   * one only on data without the field.
   */
  lemma PrimeraEstimacionCorregida(d: Datos)
    ensures PrimeraEstimacion(d) <==> d.estimacionUsuario !in {Indefinida, Nula}
    ensures PrimeraEstimacion(d) != Condiciones()[13](d) <==> d.estimacionUsuario == Indefinida
    ensures !PrimeraEstimacion(DatosRiemann(0.0, 0.0, 0.0))
  {
  }
}
