/**
 * The entity `TeoremaFundamental`: the function and limits under study, the
 * antiderivative used by the first part, and the last check's results.
 */
module TeoremaFundamental {
  import opened Comun

  /** Tolerance of `setResultados`: `esValido = |diferencia| < 0.001`. */
  const ToleranciaPrimeraParte: real := 0.001

  class TeoremaFundamental {
    // The function and the limits are fixed at construction: nothing writes them.
    const funcion: FuncionMatematica
    const a: real
    const b: real
    var antiderivada: Option<FuncionMatematica>
    var parte: string
    var valorIntegral: Option<real>
    var valorAntiderivada: Option<real>
    var diferencia: Option<real>
    var esValido: bool

    /** A new theorem is in its first part, with no results and not valid. */
    constructor (funcion: FuncionMatematica, a: real, b: real, antiderivada: Option<FuncionMatematica>)
      ensures this.funcion == funcion && this.a == a && this.b == b
      ensures this.antiderivada == antiderivada
      ensures parte == "primera"
      ensures valorIntegral == None && valorAntiderivada == None && diferencia == None
      ensures !esValido
    {
      this.funcion := funcion;
      this.a := a;
      this.b := b;
      this.antiderivada := antiderivada;
      parte := "primera";
      valorIntegral := None;
      valorAntiderivada := None;
      diferencia := None;
      esValido := false;
    }

    /** Stores the three results; the theorem holds when the difference is under 0.001. */
    method SetResultados(valorIntegral: real, valorAntiderivada: real, diferencia: real)
      modifies this`valorIntegral, this`valorAntiderivada, this`diferencia, this`esValido
      ensures this.valorIntegral == Some(valorIntegral)
      ensures this.valorAntiderivada == Some(valorAntiderivada)
      ensures this.diferencia == Some(diferencia)
      ensures esValido <==> Abs(diferencia) < ToleranciaPrimeraParte
    {
      this.valorIntegral := Some(valorIntegral);
      this.valorAntiderivada := Some(valorAntiderivada);
      this.diferencia := Some(diferencia);
      esValido := Abs(diferencia) < ToleranciaPrimeraParte;
    }

    /** Changes only which part is shown. */
    method SetParte(parte: string)
      modifies this`parte
      ensures this.parte == parte
    {
      this.parte := parte;
    }

    /** Changes only the antiderivative. */
    method SetAntiderivada(antiderivada: Option<FuncionMatematica>)
      modifies this`antiderivada
      ensures this.antiderivada == antiderivada
    {
      this.antiderivada := antiderivada;
    }
  }
}
