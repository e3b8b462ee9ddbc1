/** The daily record (DatoDiario) of model/DatoDiario.js and the schema's constraints. */
module Records {

  /** One DatoDiario document. `fecha` is kept as the string Mongoose is given to cast. */
  datatype DatoDiario = DatoDiario(
    infectadosHoy: int,  // new cases on this date
    acumulados: int,     // cumulative cases up to this date
    ia7: real,           // 7-day cumulative incidence per 100,000 inhabitants
    ia14: real,          // 14-day cumulative incidence per 100,000 inhabitants
    fecha: string)       // date of the record

  /** What `save()` and `insertMany` accept: the four numbers are required with `min: 0`,
      and `fecha` is a required Date, which Mongoose casts from "" to no value at all. */
  predicate ValidDato(d: DatoDiario)
  {
    d.infectadosHoy >= 0 && d.acumulados >= 0 && d.ia7 >= 0.0 && d.ia14 >= 0.0 && d.fecha != ""
  }

  predicate AllValid(s: seq<DatoDiario>)
  {
    forall i :: 0 <= i < |s| ==> ValidDato(s[i])
  }
}
