# Calculus tutor core in Dafny

A model of the calculation core of the POOCSI calculus tutor. The tutor is a
web application with three scenarios: a Riemann garden, a bridge for the
first fundamental theorem (PTFC), and a mean value tower (TVM). The model
covers:

- `CalculadoraTFC`. The composite trapezoid rule with 1000 subintervals,
  the checks of both parts of the Fundamental Theorem of Calculus, and the
  substring-matched table of antiderivatives.
- `TeoremaFundamental`. The entity that stores the last check's results.
- The four property checkers: additivity, linearity, comparison and limit
  reversal. Their "exact" integrator belongs to a service that is not part
  of this model, so each checker takes it as a parameter.
- `TransformadorCoordenadas`. The affine map between mathematical and canvas
  coordinates.
- `EstadoPTFC`. The state of the bridge scenario.
- `Logro` and `GestorLogros`. Achievements and the manager of the eighteen
  achievements.
- The two time formatters and the error grading of the tower page.

Arithmetic is over `real`. Entities whose fields the source updates in place
are classes:

- `TeoremaFundamental`
- `EstadoPTFC`
- `Logro`
- `GestorLogros`

Loops stay loops, each proved against a specification function:

- the trapezoid loop of `integralNumerica`;
- the 101-sample loop of `verificarCondicion`;
- the unlocking and reset loops of `GestorLogros`.

Over reals the trapezoid rule has exact algebra, and the model proves it:

- a degenerate interval gives 0;
- swapping the limits negates the result;
- the rule is linear and monotone;
- a constant `c` integrates to `c*(b-a)`, and an affine integrand is
  integrated exactly;
- the square `x*x` integrates to `(b³-a³)/3` plus exactly `(b-a)*h*h/6`,
  where `h` is the step.

From this algebra the model derives:

- with the trapezoid rule as integrator, the linearity and limit-reversal
  checks always pass;
- for an affine integrand, the forward difference of the second part
  overshoots `f(x)` by exactly `p*0.0001/2`;
- for the bridge page's default function `x²` on [0, 4] with x = 2, both
  parts of the theorem pass.

Two readers exist only in the model: `Tiempo.LeerMinutosYSegundos` and
`EscenarioPTFC.LeerTiempo`. They read a formatted time back, so that the
formatters can be stated as round trips.

## Model

| member | source | states |
|---|---|---|
| TeoremaFundamental.TeoremaFundamental.constructor | src/entidades/TeoremaFundamental.js:7-17 | stores the function, limits and antiderivative; the part is "primera", the three results are absent and the theorem is not valid |
| TeoremaFundamental.TeoremaFundamental.SetResultados | src/entidades/TeoremaFundamental.js:19-24 | the three values are stored and `esValido` holds iff the absolute difference is below 0.001; only those four fields change |
| TeoremaFundamental.TeoremaFundamental.SetParte | src/entidades/TeoremaFundamental.js:26-28 | only `parte` changes; function and limits are constants |
| TeoremaFundamental.TeoremaFundamental.SetAntiderivada | src/entidades/TeoremaFundamental.js:30-32 | only `antiderivada` changes |
| CalculadoraTFC.IntegralNumerica | src/servicios/CalculadoraTFC.js:74-86 | the counted loop returns exactly the trapezoid sum `Trapecio(f, a, b, 1000)` (weights 1/2 at both ends, 1 inside, times h) |
| CalculadoraTFC.SumaPesos | src/servicios/CalculadoraTFC.js:79-85 | the n+1 weights add up to n |
| CalculadoraTFC.TrapecioDegenerado | src/servicios/CalculadoraTFC.js:74-86 | a degenerate interval integrates to 0 |
| CalculadoraTFC.TrapecioInvertido | src/servicios/CalculadoraTFC.js:74-86 | swapping the limits negates the result (the nodes mirror and the weights are symmetric) |
| CalculadoraTFC.TrapecioLineal | src/servicios/CalculadoraTFC.js:79-85 | the rule applied to c1·f + c2·g is c1 times the rule on f plus c2 times the rule on g |
| CalculadoraTFC.TrapecioConstante | src/servicios/CalculadoraTFC.js:79-85 | a constant c integrates to c·(b−a) |
| CalculadoraTFC.TrapecioMonotono | src/servicios/CalculadoraTFC.js:74-86 | on a forward interval, f ≤ g at every node gives a result no larger |
| CalculadoraTFC.TrapecioIdentidad | src/servicios/CalculadoraTFC.js:74-86 | the identity integrates exactly to (b²−a²)/2 |
| CalculadoraTFC.TrapecioAfin | src/servicios/CalculadoraTFC.js:74-86 | p·x + q integrates exactly to p·(b²−a²)/2 + q·(b−a) |
| CalculadoraTFC.SumaPesosPorCuadrado | src/servicios/CalculadoraTFC.js:79-85 | the weights times the squared node indices, 0², 1², …, n², add up to n³/3 + n/6 |
| CalculadoraTFC.TrapecioCuadradoRelativo | src/servicios/CalculadoraTFC.js:74-86 | (x − a)² integrates to (b−a)³/3 plus exactly (b−a)·h²/6 |
| CalculadoraTFC.TrapecioCuadrado | src/servicios/CalculadoraTFC.js:74-86 | x² integrates to (b³−a³)/3 plus exactly (b−a)·h²/6, for every a, b and n ≥ 1 |
| CalculadoraTFC.TrapecioCuadradoPrecision | src/servicios/CalculadoraTFC.js:74-86 | with 1000 subintervals the rule overestimates the integral of x² by exactly (b−a)³/6000000 |
| CalculadoraTFC.CalcularPrimeraParte | src/servicios/CalculadoraTFC.js:14-41 | without an antiderivative it fails with the source's message and leaves the theorem untouched; otherwise F(b)−F(a), the trapezoid value, their absolute difference and the validity (< 0.001) are returned and stored in the theorem |
| CalculadoraTFC.PrimeraParteAfinExacta | src/servicios/CalculadoraTFC.js:14-41 | for an affine integrand and its antiderivative the first part finds difference 0 and passes |
| CalculadoraTFC.PrimeraParteCuadratica | src/servicios/CalculadoraTFC.js:14-41 | for x² with the table's x³/3 the first part's difference is exactly (b−a)³/6000000 |
| CalculadoraTFC.PrimeraParteCuadraticaAcepta | src/servicios/CalculadoraTFC.js:14-41 | for x² with the table's x³/3 the first part passes iff abs(b−a)³ < 6000 |
| CalculadoraTFC.CalcularSegundaParte | src/servicios/CalculadoraTFC.js:46-69 | the integral up to x, the forward difference with step 0.0001, f(x), their absolute difference, and validity iff that difference is below 0.01; the theorem is only read |
| CalculadoraTFC.DerivadaNumerica | src/servicios/CalculadoraTFC.js:50-55 | on a constant integrand the forward difference of the accumulated integral is exactly that constant |
| CalculadoraTFC.DerivadaAfin | src/servicios/CalculadoraTFC.js:50-55 | for p·x + q the forward difference equals f(x) + p·0.0001/2 exactly |
| CalculadoraTFC.SegundaParteAfin | src/servicios/CalculadoraTFC.js:46-69 | the second part accepts an affine integrand iff the slope's absolute value is below 200 |
| CalculadoraTFC.DerivadaCuadrado | src/servicios/CalculadoraTFC.js:50-55 | for x² the forward difference is x² plus the closed-form error x·0.0001 + 0.0001²/3 + ((x−a)² + (x−a)·0.0001 + 0.0001²/3)/2000000 |
| CalculadoraTFC.CotasErrorCuadrado | src/servicios/CalculadoraTFC.js:50-55 | for 0 ≤ a ≤ x that error is at least x·0.0001, and below 0.005 when x ≤ 40 |
| CalculadoraTFC.SegundaParteCuadratica | src/servicios/CalculadoraTFC.js:46-69 | for x² and 0 ≤ a ≤ x the second part passes when x ≤ 40 and fails when x ≥ 100 |
| CalculadoraTFC.EncontrarAntiderivada | src/servicios/CalculadoraTFC.js:91-119 | the row each input gets: "x^2" anywhere gives x³/3; otherwise "x" gives x²/2; without "x", "sin" gives −cos(x), and "cos" without "sin" gives sin(x); none of the three gives no antiderivative |
| CalculadoraTFC.SenoDeXEsCuadratica | src/servicios/CalculadoraTFC.js:96-106 | "sin(x)" is answered with x²/2 |
| CalculadoraTFC.AntiderivadaDeIdentidad | src/servicios/CalculadoraTFC.js:91-119 | "x" is answered with x²/2, and with it the trapezoid value equals F(b)−F(a) |
| CalculadoraTFC.EncontrarAntiderivadaCorregida | src/servicios/CalculadoraTFC.js:91-119 | with the trigonometric rows first: "sin" gives −cos(x), "cos" (without "sin") gives sin(x), everything else as in the original table |
| CalculadoraTFC.TrigonometricasCorregidas | src/servicios/CalculadoraTFC.js:106-115 | with the corrected order, "sin(x)" gets −cos(x) and "cos(x)" gets sin(x) |
| CalculadoraTFC.AntiderivadaDelCuadrado | src/servicios/CalculadoraTFC.js:96-100 | "x^2" is answered with x³/3 |
| CalculadoraTFC.PuentePorDefecto | app/escenario-puente-teorema/page.tsx:20-28 | for the page's default x² on [0, 4]: the antiderivative is x³/3, the first part's difference is 64/6000000 and passes, and the second part at x = 2 passes |
| VerificadorAditividad.Verificar | src/servicios/VerificadorAditividad.js:12-43 | fails with the source's message iff the point is not strictly inside; otherwise the whole integral, the two integrals split at the point, their sum, the non-negative error and `cumple` iff error < 0.01 |
| VerificadorAditividad.IntervaloSinInterior | src/servicios/VerificadorAditividad.js:14-16 | a reversed or degenerate interval always fails, whatever the point |
| VerificadorAditividad.CumpleSiAditivo | src/servicios/VerificadorAditividad.js:19-36 | an integrator that is additive at an interior point passes with error 0 |
| VerificadorLinealidad.CrearFuncionCombinada | src/servicios/VerificadorLinealidad.js:34-38 | the combined function is c1·f(x) + c2·g(x) at every x |
| VerificadorLinealidad.Verificar | src/servicios/VerificadorLinealidad.js:12-32 | left side is the integral of the combination, right side c1·I(f) + c2·I(g) over the same interval, a non-negative error, and `cumple` iff error < 0.01 |
| VerificadorLinealidad.CumpleConTrapecios | src/servicios/VerificadorLinealidad.js:12-26 | with the trapezoid rule as integrator the error is 0 and the check passes for every pair of functions and constants |
| VerificadorComparacion.VerificarCondicion | src/servicios/VerificadorComparacion.js:29-41 | true iff no sample inicio + i·(fin−inicio)/100, i = 0..100, has f(x) > g(x) + 0.001; false names such a sample |
| VerificadorComparacion.CondicionSiMenorOIgual | src/servicios/VerificadorComparacion.js:33-37 | f ≤ g at every sample satisfies the sampled condition |
| VerificadorComparacion.Verificar | src/servicios/VerificadorComparacion.js:12-27 | `cumple` iff the sampled condition holds and integral1 ≤ integral2; diferencia = integral2 − integral1, non-negative when it passes; one sample where f exceeds g + 0.001 makes it fail |
| VerificadorComparacion.CumpleConTrapecios | src/servicios/VerificadorComparacion.js:12-27 | with the trapezoid rule, f ≤ g everywhere on a forward interval satisfies both halves of the check |
| VerificadorInversionLimites.Verificar | src/servicios/VerificadorInversionLimites.js:12-33 | the second integral is over the swapped interval, `suma` is their sum, `cumple` iff abs(suma) < 0.01, and `cumpleRelacion` equals `cumple` |
| VerificadorInversionLimites.VerificarInvertido | src/servicios/VerificadorInversionLimites.js:12-33 | checking the swapped interval exchanges the two integrals and keeps `suma` and `cumple` |
| VerificadorInversionLimites.CumpleConTrapecios | src/servicios/VerificadorInversionLimites.js:12-33 | with the trapezoid rule the sum is 0 and the check passes |
| TransformadorCoordenadas.Origen | src/servicios/TransformadorCoordenadas.js:16-17 | the axis origin is `min` when present, otherwise `inicio` |
| TransformadorCoordenadas.Transformador.MatematicasACanvas | src/servicios/TransformadorCoordenadas.js:14-23 | the canvas offset from the area's left edge is (x − origin)·scaleX, and the offset up from its bottom edge is (y − origin)·scaleY |
| TransformadorCoordenadas.Transformador.CanvasAMatematicas | src/servicios/TransformadorCoordenadas.js:25-33 | the inverse relation: (x − origin)·scaleX is the pixel offset, and likewise for y on the flipped axis |
| TransformadorCoordenadas.IdaYVuelta | src/servicios/TransformadorCoordenadas.js:14-33 | to the canvas and back returns the mathematical point when both scales are non-zero |
| TransformadorCoordenadas.VueltaEIda | src/servicios/TransformadorCoordenadas.js:14-33 | from the canvas and back returns the pixel when both scales are non-zero |
| TransformadorCoordenadas.OrigenAbajoIzquierda | src/servicios/TransformadorCoordenadas.js:19-20 | the origin maps to (area.x, area.y + area.alto) |
| TransformadorCoordenadas.EjesOrientados | src/servicios/TransformadorCoordenadas.js:19-20 | with positive scales a larger x is further right and a larger y is higher (smaller canvas y) |
| TransformadorCoordenadas.Transformador.EscalarAncho | src/servicios/TransformadorCoordenadas.js:35-37 | dividing the pixel width by a non-zero x scale gives the width back; a positive scale keeps its sign and zero |
| TransformadorCoordenadas.Transformador.EscalarAlto | src/servicios/TransformadorCoordenadas.js:39-41 | dividing the pixel height by a non-zero y scale gives the height back; a positive scale keeps its sign and zero |
| TransformadorCoordenadas.Desplazamiento | src/servicios/TransformadorCoordenadas.js:14-41 | moving by w across or h up moves the pixel by `escalarAncho(w)` right and `escalarAlto(h)` up |
| EstadoPTFC.Errores | src/entidades/EstadoPTFC.js:158-167 | at most two messages; the limits message iff a ≥ b, the position message iff x is outside [a, b] |
| EstadoPTFC.SinErrores | src/entidades/EstadoPTFC.js:158-169 | there are no errors iff a < b and a ≤ x ≤ b |
| EstadoPTFC.EstadoPTFC.constructor | src/entidades/EstadoPTFC.js:7-45 | every field's initial value, the clock reading as start time, and the initial limits 0, 4 with x = 2 produce no validation errors |
| EstadoPTFC.EstadoPTFC.EstablecerLimites | src/entidades/EstadoPTFC.js:69-72 | writes the two limits and nothing else (x is not clamped again) |
| EstadoPTFC.EstadoPTFC.EstablecerPosicionX | src/entidades/EstadoPTFC.js:78-80 | with ordered limits x lands in [limiteA, limiteB], unchanged when already inside, clamped to the nearer limit otherwise; with crossed limits it is limiteA |
| EstadoPTFC.EstadoPTFC.ObtenerCalculos | src/entidades/EstadoPTFC.js:83-91 | the record carries each of the five stored result fields under its own name |
| EstadoPTFC.EstadoPTFC.EstablecerCalculos | src/entidades/EstadoPTFC.js:83-99 | reading the results back with `ObtenerCalculos` gives the five values stored |
| EstadoPTFC.EstadoPTFC.ValidarLimites | src/entidades/EstadoPTFC.js:158-178 | returns true iff limiteA < limiteB and x is between them; stores that verdict with the error list and no warnings; the verdict holds iff the list is empty |
| EstadoPTFC.EstadoPTFC.AgregarLogroDesbloqueado | src/entidades/EstadoPTFC.js:134-138 | appends only when no entry has the same id, otherwise leaves the list as it was; afterwards the id is present, and unique ids stay unique |
| EstadoPTFC.EstadoPTFC.Reiniciar | src/entidades/EstadoPTFC.js:181-194 | x back to limiteA, animation stopped at 0, clock restarted, exploration time and results zeroed; limits and achievements are outside its frame |
| Logros.Logro.constructor | src/entidades/Logro.js:6-14 | stores the id, texts and condition; a new achievement is locked and undated |
| Logros.Logro.VerificarDesbloqueo | src/entidades/Logro.js:16-22 | answers true iff it was locked and the condition holds, and then it is unlocked and dated; otherwise nothing changes; afterwards it is unlocked iff it was before or the condition holds |
| Logros.Logro.Desbloquear | src/entidades/Logro.js:24-27 | unlocked and dated with the clock reading |
| Logros.Logro.ObtenerProgreso | src/entidades/Logro.js:29-32 | 1 when unlocked and 0 when locked, whatever the data |
| GestorLogros.Ids | src/servicios/GestorLogros.js:12-146 | the catalogue lists eighteen ids, one per entry |
| GestorLogros.Condiciones | src/servicios/GestorLogros.js:12-146 | the catalogue lists eighteen unlocking conditions, one per entry, in the ids' order |
| GestorLogros.IdsDistintos | src/servicios/GestorLogros.js:12-146 | the eighteen ids are pairwise distinct |
| GestorLogros.MarcasIds | src/servicios/GestorLogros.js:12-146 | ids 5..12 carry "-ptfc", ids 13..17 carry "-tvm", no other id carries either, and none carries "-antiderivadas" |
| GestorLogros.CrearLogros | src/servicios/GestorLogros.js:12-146 | one new, locked, undated achievement per table entry, in order, with that entry's id, texts and condition, none listed twice |
| GestorLogros.InicializarLogros | src/servicios/GestorLogros.js:12-146 | the eighteen achievements of the table in order, all locked, new and distinct |
| GestorLogros.FiltrarMiembros | src/servicios/GestorLogros.js:162-164 | a filter keeps only marked entries of the list and keeps every marked entry |
| GestorLogros.FiltrarTramo | src/servicios/GestorLogros.js:184-197 | marks set exactly on positions a..b−1 keep exactly that slice |
| GestorLogros.FiltrarNada | src/servicios/GestorLogros.js:162-164 | with no mark set the filter is empty |
| GestorLogros.FiltrarTodo | src/servicios/GestorLogros.js:166-174 | the filter keeps the whole length iff every mark is set |
| GestorLogros.NuevosSon | src/servicios/GestorLogros.js:148-156 | what a check returns are exactly the achievements that were locked and whose condition holds |
| GestorLogros.NadaNuevoDosVeces | src/servicios/GestorLogros.js:148-156 | a second check with the same data unlocks nothing |
| GestorLogros.PorcentajeAcotado | src/servicios/GestorLogros.js:166-174 | desbloqueados/total·100 lies in [0, 100] and is 100 iff all are unlocked |
| GestorLogros.GestorLogros.constructor | src/servicios/GestorLogros.js:8-146 | the manager holds the table's eighteen achievements with distinct ids, all locked and new |
| GestorLogros.GestorLogros.VerificarLogros | src/servicios/GestorLogros.js:148-156 | returns, in list order, the previously locked achievements whose condition holds; they become unlocked and dated, every other state and date is kept, nothing is ever locked again, and the list is unchanged |
| GestorLogros.GestorLogros.ObtenerLogrosDesbloqueados | src/servicios/GestorLogros.js:162-164 | the unlocked achievements of the list, in list order, each once: only unlocked ones, and every unlocked one |
| GestorLogros.GestorLogros.ObtenerProgreso | src/servicios/GestorLogros.js:166-174 | total 18, the unlocked count is the length of `ObtenerLogrosDesbloqueados`, percentage = unlocked/18·100, so it lies in [0, 100] and is 100 iff every achievement is unlocked |
| GestorLogros.GestorLogros.Reiniciar | src/servicios/GestorLogros.js:176-181 | every achievement locked and undated, so none is reported unlocked; the list is kept |
| GestorLogros.GestorLogros.ObtenerLogrosPorEscenario | src/servicios/GestorLogros.js:184-197 | keeps exactly the achievements whose id carries the scenario's marker ("riemann": none of the three), in list order; any other name keeps all |
| GestorLogros.GestorLogros.ObtenerProgresoPorEscenario | src/servicios/GestorLogros.js:205-215 | total is the selection's size, unlocked is the number of unlocked achievements in the selection, percentage in [0, 100], 0 for an empty selection and unlocked/total·100 otherwise |
| GestorLogros.GestorLogros.Selecciones | src/servicios/GestorLogros.js:184-197 | on the table: "riemann" selects the first five, "ptfc" the next eight, "tvm" the last five, "antiderivadas" none |
| GestorLogros.GestorLogros.SeleccionRiemann | src/servicios/GestorLogros.js:185-188 | "riemann" selects exactly the first five achievements |
| GestorLogros.GestorLogros.SeleccionPtfc | src/servicios/GestorLogros.js:189-190 | "ptfc" selects exactly achievements 5..12 |
| GestorLogros.GestorLogros.SeleccionTvm | src/servicios/GestorLogros.js:191-192 | "tvm" selects exactly the last five achievements |
| GestorLogros.GestorLogros.SeleccionAntiderivadas | src/servicios/GestorLogros.js:193-194 | "antiderivadas" selects nothing |
| GestorLogros.GestorLogros.SeleccionesDisjuntas | src/servicios/GestorLogros.js:184-192 | no achievement is in two of the riemann, ptfc and tvm selections |
| GestorLogros.GestorLogros.OtroEscenario | src/servicios/GestorLogros.js:196 | any other scenario name selects the whole list |
| GestorLogros.GestorLogros.ProgresoAntiderivadas | src/servicios/GestorLogros.js:205-215 | the "antiderivadas" progress is total 0, unlocked 0, percentage 0 |
| GestorLogros.PrimeraEstimacionSinEstimar | src/servicios/GestorLogros.js:110-116 | as written, the condition of "primera-estimacion-tvm" holds on the Riemann garden's data, which carry no estimate |
| GestorLogros.PrimeraEstimacionCorregida | src/servicios/GestorLogros.js:110-116 | the intended condition holds iff a number was estimated; it differs from the written one only when the field is absent, and fails on the Riemann garden's data |
| Tiempo.Descomponer | src/escenarios/EscenarioPTFC.js:253-255 | for a non-negative count: minutes ≥ 0, 0 ≤ seconds < 60, minutes·60 + seconds = ⌊ms/1000⌋, and minutes > 0 iff ms ≥ 60000 |
| Tiempo.MinutosYSegundosForma | src/escenarios/EscenarioPTFC.js:257-259 | with seconds below 60, "M:SS" is the minutes' digits, a colon and exactly two second digits |
| Tiempo.MinutosYSegundosInversa | app/escenario-torre-valor-medio/TorreValorMedioDemo.tsx:281-286 | reading "M:SS" back gives minutes·60 + seconds |
| EscenarioPTFC.FormatoTiempo | src/escenarios/EscenarioPTFC.js:252-261 | from 60000 ms the text is minutes, colon and two-digit seconds; below it is the unpadded seconds followed by "s" |
| EscenarioPTFC.TiempoInverso | src/escenarios/EscenarioPTFC.js:252-261 | the text reads back as ⌊ms/1000⌋: only the sub-second part is lost |
| TorreValorMedioDemo.FormatoTiempo | app/escenario-torre-valor-medio/TorreValorMedioDemo.tsx:281-286 | always minutes, colon and two-digit seconds ("0:SS" below a minute), and it reads back as ⌊ms/1000⌋ |
| TorreValorMedioDemo.ObtenerClasificacionError | app/escenario-torre-valor-medio/TorreValorMedioDemo.tsx:289-294 | Perfecto iff error < 0.1, Excelente iff 0.1 ≤ error < 0.3, Bueno iff 0.3 ≤ error < 0.6, Intenta iff error ≥ 0.6 |
| TorreValorMedioDemo.ClasificacionMonotona | app/escenario-torre-valor-medio/TorreValorMedioDemo.tsx:289-294 | a larger error never gets a better grade |

## Left out

- Floating point. Numbers are `real`, so IEEE-754 rounding, NaN and Infinity are not modelled. This matters most for the forward difference of the second part: the model computes it exactly.
- `CalculadoraRiemann.calcularIntegralExacta` is not part of this model. The four checkers take the integrator as a parameter (`Comun.Integrador`). The model proves nothing about whether the real integrator passes the checks, only what each check computes from it and what happens with the trapezoid rule.
- `errorRelativo` in the linearity result is left out, because `calcularErrorRelativo` is not part of this model.
- `Math.sin` and `Math.cos` are parameters (`CalculadoraTFC.Trigonometria`).
- Clock readings are parameters named `ahora`. This covers `Date.now()` in `EstadoPTFC` and `new Date()` in `Logro.desbloquear`, and an unlocking date is that reading as a number of milliseconds.
- Texts. The names, descriptions and icons of the achievements are stored as given, but no property is stated about their contents.
- Plain getters and setters of `EstadoPTFC` are not modelled, since each reads or writes one field:
  - function selection;
  - `obtenerLimites`, `obtenerPosicionX`;
  - the animation state;
  - the progress and validation state;
  - `obtenerTiempoSesion` and `actualizarTiempoExploracion` (clock arithmetic).

  `ObtenerCalculos` is modelled, because it is the partner of `EstablecerCalculos`.
- Plain getters of `GestorLogros` are not modelled as members of their own:
  - `obtenerLogros` is the `logros` field;
  - `obtenerLogrosDesbloqueadosPorEscenario` is the filter that `ObtenerProgresoPorEscenario` applies to the selection.
- GestorLogros.GestorLogros.VerificarLogros requires that no achievement object appears twice in the list. The constructor establishes this, and the list is never reassigned. With a repeated object the source would report it once, and the model does not cover that case.
- GestorLogros.GestorLogros.ObtenerProgreso requires the manager's invariant, so that the total is 18. On an empty list the source divides by zero (NaN), which reals cannot express.
- TransformadorCoordenadas.Transformador.CanvasAMatematicas requires both scales to be non-zero, because a zero scale divides by zero (Infinity or NaN). The configuration object that supplies the area and the scales is not part of this model.
- Tiempo.Descomponer states its properties for non-negative counts only, which is what the elapsed-time clocks produce. A negative count is still computed with a truncating remainder, as in the source.
- Time counts are integers. A fractional number of milliseconds is not modelled.
- `EscenarioPTFC` apart from `formatearTiempo`, and `TorreValorMedioDemo` apart from `formatearTiempo` and `obtenerClasificacionError`, are rendering and UI wiring. So are the pages, hooks and renderers.
- The catalogue keeps the written condition of "primera-estimacion-tvm", so that the manager behaves as the source does. The corrected condition is stated and proved beside it (see Findings).

## Findings

| source | as written | input that shows it | evidently intended | confidence | as-written member | corrected member |
|---|---|---|---|---|---|---|
| src/servicios/CalculadoraTFC.js:96-115 | "x" is tested before "sin" and "cos", so every expression that mentions its variable gets x²/2. The trigonometric rows are reachable only by expressions without an "x". | the expression "sin(x)" gets x²/2 instead of −cos(x) | "sin(x)" gets −cos(x) and "cos(x)" gets sin(x) | high; not executed | CalculadoraTFC.SenoDeXEsCuadratica | CalculadoraTFC.TrigonometricasCorregidas |
| src/servicios/GestorLogros.js:115 | `datos.estimacionUsuario !== null` is true when the field is absent (`undefined`), so data without any estimate unlock "primera-estimacion-tvm". | the Riemann garden's `{ errorAbsoluto, tiempo, macetas }` (app/escenario-jardin-riemann/page.tsx:119-123) | unlocked only once a number has been estimated | high; not executed | GestorLogros.PrimeraEstimacionSinEstimar | GestorLogros.PrimeraEstimacionCorregida |
