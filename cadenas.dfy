/**
 * The few string operations of JavaScript the core relies on:
 * `String.prototype.includes`, `Number.prototype.toString` on integers,
 * `padStart`, and the truncating remainder operator `%`.
 */
module Cadenas {

  /** `sub` occurs in `s` starting at position `i`. */
  predicate EnPosicion(s: string, sub: string, i: int)
  {
    0 <= i && i + |sub| <= |s| && s[i..i + |sub|] == sub
  }

  /** `s.includes(sub)`. */
  predicate Contiene(s: string, sub: string)
  {
    exists i | 0 <= i <= |s| - |sub| :: EnPosicion(s, sub, i)
  }

  /** A string that contains `sub` contains every piece of `sub`. */
  lemma ContieneParte(s: string, sub: string, j: int, k: int)
    requires 0 <= j <= k <= |sub|
    requires Contiene(s, sub)
    ensures Contiene(s, sub[j..k])
  {
    var i :| 0 <= i <= |s| - |sub| && EnPosicion(s, sub, i);
    assert forall t :: 0 <= t < |sub| ==> s[i + t] == s[i..i + |sub|][t] == sub[t];
    assert s[i + j..i + k] == sub[j..k];
    assert EnPosicion(s, sub[j..k], i + j);
  }

  /** A string none of whose characters is `c` does not contain a string that has `c`. */
  lemma NoContieneSinCaracter(s: string, sub: string, c: char)
    requires c in sub && c !in s
    ensures !Contiene(s, sub)
  {
    var k :| 0 <= k < |sub| && sub[k] == c;
    forall i | 0 <= i <= |s| - |sub|
      ensures !EnPosicion(s, sub, i)
    {
      assert s[i + k] != c;
      assert s[i..i + |sub|][k] != sub[k];
    }
  }

  /**
   * A string in which the first three characters of `sub` never occur in a
   * row does not contain `sub`.
   */
  lemma NoContieneTres(s: string, sub: string)
    requires |sub| >= 3
    requires forall i :: 0 <= i <= |s| - 3 ==> s[i] != sub[0] || s[i + 1] != sub[1] || s[i + 2] != sub[2]
    ensures !Contiene(s, sub)
  {
    forall i | 0 <= i <= |s| - |sub|
      ensures !EnPosicion(s, sub, i)
    {
      var t := s[i..i + |sub|];
      assert t[0] == s[i] && t[1] == s[i + 1] && t[2] == s[i + 2];
    }
  }

  /** A string ending in `suf` contains it. */
  lemma ContieneSufijo(s: string, suf: string)
    requires |suf| <= |s| && s[|s| - |suf|..] == suf
    ensures Contiene(s, suf)
  {
    assert EnPosicion(s, suf, |s| - |suf|);
  }

  /** The decimal digit character of `d`. */
  function Digito(d: nat): (c: char)
    requires d < 10
    ensures '0' <= c <= '9'
  {
    (('0' as int) + d) as char
  }

  /** The value of a decimal digit character. */
  function ValorDigito(c: char): int
  {
    (c as int) - ('0' as int)
  }

  /** `n.toString()` for a natural number: its decimal digits, no leading zero. */
  function NatACadena(n: nat): (s: string)
    decreases n
  {
    if n < 10 then [Digito(n)] else NatACadena(n / 10) + [Digito(n % 10)]
  }

  /** `i.toString()` for an integer: a minus sign before the digits when negative. */
  function EnteroACadena(i: int): (s: string)
  {
    if i < 0 then "-" + NatACadena(-i) else NatACadena(i)
  }

  /** The number a string of decimal digits denotes. */
  function ValorDecimal(s: string): int
  {
    if s == [] then 0 else ValorDecimal(s[..|s| - 1]) * 10 + ValorDigito(s[|s| - 1])
  }

  /** Decimal digits of a natural number: non-empty, only digits, no leading zero. */
  lemma {:induction false} NatACadenaDigitos(n: nat)
    ensures |NatACadena(n)| >= 1
    ensures forall k :: 0 <= k < |NatACadena(n)| ==> '0' <= NatACadena(n)[k] <= '9'
    ensures n >= 10 ==> NatACadena(n)[0] != '0'
    decreases n
  {
    if n >= 10 {
      NatACadenaDigitos(n / 10);
      assert NatACadena(n)[0] == NatACadena(n / 10)[0];
    }
  }

  /** Reading back the digits of `n` gives `n`. */
  lemma {:induction false} NatACadenaInversa(n: nat)
    ensures ValorDecimal(NatACadena(n)) == n
    decreases n
  {
    var s := NatACadena(n);
    if n < 10 {
      assert s[..0] == [];
    } else {
      NatACadenaInversa(n / 10);
      assert s[..|s| - 1] == NatACadena(n / 10);
    }
  }

  /** `c` repeated `k` times. */
  function Repetir(c: char, k: nat): (r: string)
    ensures |r| == k
    ensures forall j :: 0 <= j < k ==> r[j] == c
  {
    if k == 0 then [] else Repetir(c, k - 1) + [c]
  }

  /** `s.padStart(longitud, c)` with a one-character pad string. */
  function RellenarInicio(s: string, longitud: nat, c: char): (r: string)
    ensures |s| >= longitud ==> r == s
    ensures |s| < longitud ==> |r| == longitud && r[longitud - |s|..] == s
    ensures forall j :: 0 <= j < longitud - |s| ==> r[j] == c
  {
    if |s| >= longitud then s else Repetir(c, longitud - |s|) + s
  }

  /**
   * Seconds below a hundred, padded with `padStart(2, '0')`, are exactly their
   * tens digit followed by their units digit.
   */
  lemma DosDigitos(n: nat)
    requires n < 100
    ensures RellenarInicio(NatACadena(n), 2, '0') == [Digito(n / 10), Digito(n % 10)]
  {
    if n >= 10 {
      assert NatACadena(n) == NatACadena(n / 10) + [Digito(n % 10)];
    }
  }

  /** JavaScript's `a % d` on integers: the remainder takes the sign of `a`. */
  function RestoTruncado(a: int, d: int): (r: int)
    requires d > 0
    ensures a >= 0 ==> 0 <= r < d && r == a % d
    ensures a < 0 ==> -d < r <= 0
  {
    if a >= 0 then a % d else -((-a) % d)
  }
}
