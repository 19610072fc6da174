/**
 * Finite sums of reals, accumulated left to right as the integration loop
 * does, and the algebra of those sums that the trapezoid rule inherits.
 */
module Sumas {

  /** `s[0] + s[1] + ... + s[|s|-1]`, adding the last term last. */
  function Suma(s: seq<real>): real
  {
    if s == [] then 0.0 else Suma(s[..|s| - 1]) + s[|s| - 1]
  }

  /** Summing a concatenation sums the two parts. */
  lemma {:induction false} SumaConcatenada(s: seq<real>, t: seq<real>)
    ensures Suma(s + t) == Suma(s) + Suma(t)
    decreases |t|
  {
    if t == [] {
      assert s + t == s;
    } else {
      var t' := t[..|t| - 1];
      assert (s + t)[..|s + t| - 1] == s + t';
      SumaConcatenada(s, t');
    }
  }

  /** Summing the terms in reverse order gives the same total. */
  lemma {:induction false} SumaInvertida(s: seq<real>, t: seq<real>)
    requires |s| == |t|
    requires forall i :: 0 <= i < |s| ==> t[i] == s[|s| - 1 - i]
    ensures Suma(t) == Suma(s)
    decreases |s|
  {
    if s != [] {
      var n := |s|;
      var s' := s[..n - 1];
      var t' := t[1..];
      forall i | 0 <= i < n - 1
        ensures t'[i] == s'[|s'| - 1 - i]
      {
        assert t'[i] == t[i + 1] == s[n - 2 - i];
      }
      SumaInvertida(s', t');
      assert t == [t[0]] + t';
      SumaConcatenada([t[0]], t');
      assert [t[0]][..0] == [];
    }
  }

  /** A sum of a pointwise linear combination is that combination of the sums. */
  lemma {:induction false} SumaCombinada(s: seq<real>, t: seq<real>, u: seq<real>, c1: real, c2: real)
    requires |u| == |s| == |t|
    requires forall i :: 0 <= i < |u| ==> u[i] == c1 * s[i] + c2 * t[i]
    ensures Suma(u) == c1 * Suma(s) + c2 * Suma(t)
    decreases |u|
  {
    if u != [] {
      var n := |u|;
      SumaCombinada(s[..n - 1], t[..n - 1], u[..n - 1], c1, c2);
      assert c1 * (Suma(s[..n - 1]) + s[n - 1]) + c2 * (Suma(t[..n - 1]) + t[n - 1])
          == (c1 * Suma(s[..n - 1]) + c2 * Suma(t[..n - 1])) + (c1 * s[n - 1] + c2 * t[n - 1]);
    }
  }

  /** The termwise combination `c1*s[i] + c2*t[i]`. */
  function Combinacion(c1: real, s: seq<real>, c2: real, t: seq<real>): (u: seq<real>)
    requires |s| == |t|
    ensures |u| == |s|
  {
    seq(|s|, i requires 0 <= i < |s| => c1 * s[i] + c2 * t[i])
  }

  /** Summing a combination combines the sums. */
  lemma SumaCombinacion(c1: real, s: seq<real>, c2: real, t: seq<real>)
    requires |s| == |t|
    ensures Suma(Combinacion(c1, s, c2, t)) == c1 * Suma(s) + c2 * Suma(t)
  {
    SumaCombinada(s, t, Combinacion(c1, s, c2, t), c1, c2);
  }

  /** A sequence known to be a combination sums to that combination of the sums. */
  lemma SumaDeCombinacion(u: seq<real>, c1: real, s: seq<real>, c2: real, t: seq<real>)
    requires |s| == |t| && u == Combinacion(c1, s, c2, t)
    ensures Suma(u) == c1 * Suma(s) + c2 * Suma(t)
  {
    SumaCombinacion(c1, s, c2, t);
  }

  /**
   * The sum of a combination, from the sums `ss` and `st` of its two parts,
   * named so that a caller can go on with plain values.
   */
  lemma SumaDeCombinacionNombrada(c1: real, s: seq<real>, c2: real, t: seq<real>, ss: real, st: real)
    returns (su: real)
    requires |s| == |t| && ss == Suma(s) && st == Suma(t)
    ensures su == Suma(Combinacion(c1, s, c2, t)) && su == c1 * ss + c2 * st
  {
    SumaCombinacion(c1, s, c2, t);
    su := Suma(Combinacion(c1, s, c2, t));
  }

  /** The sequence read backwards. */
  function Reverso(s: seq<real>): (r: seq<real>)
    ensures |r| == |s|
  {
    seq(|s|, i requires 0 <= i < |s| => s[|s| - 1 - i])
  }

  /** Reading the terms backwards does not change their sum. */
  lemma SumaReverso(s: seq<real>)
    ensures Suma(Reverso(s)) == Suma(s)
  {
    SumaInvertida(s, Reverso(s));
  }

  /** Termwise smaller terms give a smaller sum. */
  lemma {:induction false} SumaMonotona(s: seq<real>, t: seq<real>)
    requires |s| == |t|
    requires forall i :: 0 <= i < |s| ==> s[i] <= t[i]
    ensures Suma(s) <= Suma(t)
    decreases |s|
  {
    if s != [] {
      SumaMonotona(s[..|s| - 1], t[..|t| - 1]);
    }
  }
}
