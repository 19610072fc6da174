/**
 * `TransformadorCoordenadas`: the affine map between mathematical
 * coordinates and canvas pixels, with the y axis flipped. The drawing area
 * and the scales come from the configuration object, which is not part of
 * this model; here they are plain values fixed at construction.
 */
module TransformadorCoordenadas {
  import opened Comun

  /** The drawing area of the canvas (`obtenerAreaDibujo()`). */
  datatype Area = Area(x: real, y: real, ancho: real, alto: real)

  /** Pixels per unit on each axis (`calcularEscalas(...)`). */
  datatype Escalas = Escalas(escalaX: real, escalaY: real)

  /** An axis range: `min` when present, otherwise `inicio`, is the origin. */
  datatype RangoEje = RangoEje(min: Option<real>, inicio: real)

  /** A point, mathematical or on the canvas. */
  datatype Punto = Punto(x: real, y: real)

  datatype Transformador = Transformador(area: Area, intervaloX: RangoEje, intervaloY: RangoEje, escalas: Escalas)
  {
    /** Both directions can be computed: neither scale is zero. */
    predicate Invertible()
    {
      escalas.escalaX != 0.0 && escalas.escalaY != 0.0
    }

    /** `matematicasACanvas(x, y)`. */
    function MatematicasACanvas(x: real, y: real): (p: Punto)
      ensures p.x - area.x == (x - Origen(intervaloX)) * escalas.escalaX
      ensures area.y + area.alto - p.y == (y - Origen(intervaloY)) * escalas.escalaY
    {
      var inicioX := Origen(intervaloX);
      var inicioY := Origen(intervaloY);
      Punto(area.x + (x - inicioX) * escalas.escalaX,
            area.y + area.alto - (y - inicioY) * escalas.escalaY)
    }

    /** `canvasAMatematicas(canvasX, canvasY)`. */
    function CanvasAMatematicas(cx: real, cy: real): (p: Punto)
      requires Invertible()
      ensures (p.x - Origen(intervaloX)) * escalas.escalaX == cx - area.x
      ensures (p.y - Origen(intervaloY)) * escalas.escalaY == area.y + area.alto - cy
    {
      var inicioX := Origen(intervaloX);
      var inicioY := Origen(intervaloY);
      Punto(inicioX + (cx - area.x) / escalas.escalaX,
            inicioY + (area.y + area.alto - cy) / escalas.escalaY)
    }

    /**
     * `escalarAncho(ancho)`: a width in pixels. Dividing by a non-zero scale
     * gives the width back, and a positive scale keeps its sign.
     */
    function EscalarAncho(ancho: real): (w: real)
      ensures escalas.escalaX != 0.0 ==> w / escalas.escalaX == ancho
      ensures escalas.escalaX > 0.0 ==> (w > 0.0 <==> ancho > 0.0) && (w == 0.0 <==> ancho == 0.0)
    {
      ancho * escalas.escalaX
    }

    /**
     * `escalarAlto(alto)`: a height in pixels. Dividing by a non-zero scale
     * gives the height back, and a positive scale keeps its sign.
     */
    function EscalarAlto(alto: real): (h: real)
      ensures escalas.escalaY != 0.0 ==> h / escalas.escalaY == alto
      ensures escalas.escalaY > 0.0 ==> (h > 0.0 <==> alto > 0.0) && (h == 0.0 <==> alto == 0.0)
    {
      alto * escalas.escalaY
    }
  }

  /** The origin of an axis: `min` when defined, `inicio` otherwise. */
  function Origen(r: RangoEje): (o: real)
    ensures r.min.Some? ==> o == r.min.value
    ensures r.min.None? ==> o == r.inicio
  {
    if r.min.Some? then r.min.value else r.inicio
  }

  /** Going to the canvas and back returns the mathematical point. */
  lemma IdaYVuelta(t: Transformador, x: real, y: real)
    requires t.Invertible()
    ensures t.CanvasAMatematicas(t.MatematicasACanvas(x, y).x, t.MatematicasACanvas(x, y).y) == Punto(x, y)
  {
    var p := t.MatematicasACanvas(x, y);
    var q := t.CanvasAMatematicas(p.x, p.y);
    Cancelar(q.x - Origen(t.intervaloX), x - Origen(t.intervaloX), t.escalas.escalaX);
    Cancelar(q.y - Origen(t.intervaloY), y - Origen(t.intervaloY), t.escalas.escalaY);
  }

  /** Coming from the canvas and going back returns the pixel. */
  lemma VueltaEIda(t: Transformador, cx: real, cy: real)
    requires t.Invertible()
    ensures t.MatematicasACanvas(t.CanvasAMatematicas(cx, cy).x, t.CanvasAMatematicas(cx, cy).y) == Punto(cx, cy)
  {
  }

  /** A non-zero factor can be cancelled. */
  lemma Cancelar(u: real, v: real, e: real)
    requires e != 0.0 && u * e == v * e
    ensures u == v
  {
    assert (u - v) * e == 0.0;
  }

  /** The origin of the axes lands on the bottom-left corner of the area. */
  lemma OrigenAbajoIzquierda(t: Transformador)
    ensures t.MatematicasACanvas(Origen(t.intervaloX), Origen(t.intervaloY)) == Punto(t.area.x, t.area.y + t.area.alto)
  {
  }

  /**
   * With positive scales the x axis keeps its direction and the y axis is
   * flipped: a larger `y` is drawn higher, at a smaller canvas `y`.
   */
  lemma EjesOrientados(t: Transformador, x1: real, y1: real, x2: real, y2: real)
    requires t.escalas.escalaX > 0.0 && t.escalas.escalaY > 0.0
    ensures x1 < x2 ==> t.MatematicasACanvas(x1, y1).x < t.MatematicasACanvas(x2, y2).x
    ensures y1 < y2 ==> t.MatematicasACanvas(x1, y1).y > t.MatematicasACanvas(x2, y2).y
  {
    var p1, p2 := t.MatematicasACanvas(x1, y1), t.MatematicasACanvas(x2, y2);
    var ox, oy := Origen(t.intervaloX), Origen(t.intervaloY);
    var ex, ey := t.escalas.escalaX, t.escalas.escalaY;
    assert p1.x - t.area.x == (x1 - ox) * ex && p2.x - t.area.x == (x2 - ox) * ex;
    assert t.area.y + t.area.alto - p1.y == (y1 - oy) * ey && t.area.y + t.area.alto - p2.y == (y2 - oy) * ey;
    if x1 < x2 {
      Creciente(x1 - ox, x2 - ox, ex);
      assert p1.x < p2.x;
    }
    if y1 < y2 {
      Creciente(y1 - oy, y2 - oy, ey);
      assert p1.y > p2.y;
    }
  }

  /** Multiplying by a positive factor keeps a strict order. */
  lemma Creciente(u: real, v: real, e: real)
    requires u < v && e > 0.0
    ensures u * e < v * e
  {
    assert v * e - u * e == (v - u) * e;
  }

  /**
   * A displacement by `w` across or `h` up moves the canvas point by the
   * scaled width to the right and the scaled height upwards.
   */
  lemma Desplazamiento(t: Transformador, x: real, y: real, w: real, h: real)
    ensures t.MatematicasACanvas(x + w, y).x - t.MatematicasACanvas(x, y).x == t.EscalarAncho(w)
    ensures t.MatematicasACanvas(x, y).y - t.MatematicasACanvas(x, y + h).y == t.EscalarAlto(h)
  {
    var ox, oy := Origen(t.intervaloX), Origen(t.intervaloY);
    assert (x + w - ox) * t.escalas.escalaX - (x - ox) * t.escalas.escalaX == w * t.escalas.escalaX;
    assert (y + h - oy) * t.escalas.escalaY - (y - oy) * t.escalas.escalaY == h * t.escalas.escalaY;
  }
}
