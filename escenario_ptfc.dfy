/**
 * From the coordinator of the bridge scenario (`EscenarioPTFC`), only its
 * time formatter: minutes and zero-padded seconds from one minute on, plain
 * seconds with an "s" below a minute.
 */
module EscenarioPTFC {
  import opened Cadenas
  import opened Tiempo

  /** `formatearTiempo(milisegundos)`. */
  function FormatearTiempo(milisegundos: int): string
  {
    var p := Descomponer(milisegundos);
    if p.minutos > 0 then MinutosYSegundos(p.minutos, p.segundos)
    else EnteroACadena(p.segundos) + "s"
  }

  /**
   * From one minute on the text is "M:SS" with two second digits; below a
   * minute it is the unpadded seconds followed by "s".
   */
  lemma FormatoTiempo(milisegundos: nat)
    ensures var p := Descomponer(milisegundos);
      milisegundos >= 60000 ==>
        FormatearTiempo(milisegundos)
          == NatACadena(p.minutos) + ":" + [Digito(p.segundos / 10), Digito(p.segundos % 10)]
    ensures milisegundos < 60000 ==> FormatearTiempo(milisegundos) == NatACadena(milisegundos / 1000) + "s"
  {
    var p := Descomponer(milisegundos);
    if milisegundos >= 60000 {
      MinutosYSegundosForma(p.minutos, p.segundos);
    }
  }

  /** Reads a formatted time back as whole seconds: "Ns" or "M:SS". */
  function LeerTiempo(s: string): int
  {
    if |s| >= 1 && s[|s| - 1] == 's' then ValorDecimal(s[..|s| - 1])
    else if |s| >= 3 then LeerMinutosYSegundos(s)
    else 0
  }

  /**
   * Reading the text back gives the whole seconds: the minutes and seconds
   * shown account for every second, and only the sub-second part is lost.
   */
  lemma TiempoInverso(milisegundos: nat)
    ensures LeerTiempo(FormatearTiempo(milisegundos)) == milisegundos / 1000
  {
    var p := Descomponer(milisegundos);
    FormatoTiempo(milisegundos);
    if milisegundos >= 60000 {
      MinutosYSegundosInversa(p.minutos, p.segundos);
      var s := FormatearTiempo(milisegundos);
      assert s[|s| - 1] == Digito(p.segundos % 10);
    } else {
      var t := NatACadena(milisegundos / 1000);
      assert (t + "s")[..|t + "s"| - 1] == t;
      NatACadenaInversa(milisegundos / 1000);
    }
  }
}
