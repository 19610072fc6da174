/**
 * Elapsed times as the scenarios show them: a count of milliseconds split
 * into whole minutes and remaining seconds, and the "M:SS" text both
 * scenarios build from those two numbers.
 */
module Tiempo {
  import opened Cadenas

  /** Whole minutes and the seconds left over. */
  datatype Partes = Partes(minutos: int, segundos: int)

  /**
   * `Math.floor(ms / 1000)` seconds, `Math.floor(segundos / 60)` minutes and
   * `segundos % 60` left over (a truncating remainder). For a non-negative
   * count the minutes and seconds give back the whole seconds, the seconds
   * left over are below 60, and the sub-second part is dropped.
   */
  function Descomponer(ms: int): (p: Partes)
    ensures ms >= 0 ==> p.minutos >= 0 && 0 <= p.segundos < 60
    ensures ms >= 0 ==> p.minutos * 60 + p.segundos == ms / 1000
    ensures ms >= 0 ==> (p.minutos > 0 <==> ms >= 60000)
  {
    // For a positive divisor Dafny's `/` rounds down, as Math.floor does.
    var segundos := ms / 1000;
    Partes(segundos / 60, RestoTruncado(segundos, 60))
  }

  /** `${minutos}:${segundos.toString().padStart(2, '0')}`. */
  function MinutosYSegundos(minutos: int, segundos: int): string
  {
    EnteroACadena(minutos) + ":" + RellenarInicio(EnteroACadena(segundos), 2, '0')
  }

  /** Reads an "M:SS" text back as a number of seconds. */
  function LeerMinutosYSegundos(s: string): int
    requires |s| >= 3
  {
    ValorDecimal(s[..|s| - 3]) * 60 + ValorDecimal(s[|s| - 2..])
  }

  /**
   * With seconds below 60, "M:SS" is the minutes' digits, a colon and
   * exactly two second digits.
   */
  lemma MinutosYSegundosForma(m: nat, r: nat)
    requires r < 60
    ensures MinutosYSegundos(m, r) == NatACadena(m) + ":" + [Digito(r / 10), Digito(r % 10)]
  {
    DosDigitos(r);
  }

  /** Reading "M:SS" back gives the total number of seconds. */
  lemma MinutosYSegundosInversa(m: nat, r: nat)
    requires r < 60
    ensures LeerMinutosYSegundos(MinutosYSegundos(m, r)) == m * 60 + r
  {
    MinutosYSegundosForma(m, r);
    var t := NatACadena(m);
    var d := [Digito(r / 10), Digito(r % 10)];
    LeerPartes(t, d);
    NatACadenaInversa(m);
    ValorDosDigitos(r);
  }

  /** The text before the colon and the two characters after it are read separately. */
  lemma LeerPartes(t: string, d: string)
    requires |d| == 2
    ensures LeerMinutosYSegundos(t + ":" + d) == ValorDecimal(t) * 60 + ValorDecimal(d)
  {
    var s := t + ":" + d;
    assert s[..|s| - 3] == t;
    assert s[|s| - 2..] == d;
  }

  /** Two digits read back as their value. */
  lemma ValorDosDigitos(r: nat)
    requires r < 100
    ensures ValorDecimal([Digito(r / 10), Digito(r % 10)]) == r
  {
    var d := [Digito(r / 10), Digito(r % 10)];
    var u := [Digito(r / 10)];
    assert d[..|d| - 1] == u && d[|d| - 1] == Digito(r % 10);
    assert u[..|u| - 1] == [] && u[|u| - 1] == Digito(r / 10);
    assert ValorDecimal(u) == ValorDigito(Digito(r / 10)) == r / 10;
    assert ValorDecimal(d) == ValorDecimal(u) * 10 + ValorDigito(Digito(r % 10));
  }
}
