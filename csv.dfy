/** The rows of the semicolon-separated feed after parsing, and the two ways index.js picks
    rows out of it: `filter` by zone name and `find` by date and zone name. */
module Csv {
  import opened Wrappers

  /** One parsed row: the `Fecha`, `Zona Básica` and `Casos acumulados` columns. */
  datatype FilaCsv = FilaCsv(fecha: string, zona: string, acumulados: int)

  /** `datos.filter(d => d["Zona Básica"] === nombre)`: the rows of one zone, in file order. */
  function FilasDeZona(filas: seq<FilaCsv>, nombre: string): (r: seq<FilaCsv>)
    ensures |r| <= |filas|
    ensures forall i :: 0 <= i < |r| ==> r[i].zona == nombre
  {
    if filas == [] then []
    else
      var last := filas[|filas| - 1];
      FilasDeZona(filas[..|filas| - 1], nombre) + (if last.zona == nombre then [last] else [])
  }

  /** Filtering commutes with concatenation, so the kept rows stay in file order. */
  lemma {:induction false} FilasDeZonaConcat(a: seq<FilaCsv>, b: seq<FilaCsv>, nombre: string)
    ensures FilasDeZona(a + b, nombre) == FilasDeZona(a, nombre) + FilasDeZona(b, nombre)
    decreases |b|
  {
    if b == [] {
      assert a + b == a;
    } else {
      assert (a + b)[..|a + b| - 1] == a + b[..|b| - 1];
      FilasDeZonaConcat(a, b[..|b| - 1], nombre);
    }
  }

  /** A row is kept exactly when it is in the file and names the zone. */
  lemma {:induction false} FilasDeZonaKeeps(filas: seq<FilaCsv>, nombre: string, f: FilaCsv)
    ensures f in FilasDeZona(filas, nombre) <==> f in filas && f.zona == nombre
    decreases |filas|
  {
    if filas != [] {
      FilasDeZonaKeeps(filas[..|filas| - 1], nombre, f);
      assert filas == filas[..|filas| - 1] + [filas[|filas| - 1]];
    }
  }

  predicate Matches(f: FilaCsv, fecha: string, nombre: string)
  {
    f.fecha == fecha && f.zona == nombre
  }

  function FindFilaFrom(filas: seq<FilaCsv>, fecha: string, nombre: string, from: nat): (r: Option<nat>)
    requires from <= |filas|
    ensures r.Some? ==> from <= r.value < |filas| && Matches(filas[r.value], fecha, nombre)
    ensures r.Some? ==> forall k :: from <= k < r.value ==> !Matches(filas[k], fecha, nombre)
    ensures r.None? ==> forall k :: from <= k < |filas| ==> !Matches(filas[k], fecha, nombre)
    decreases |filas| - from
  {
    if from == |filas| then None
    else if Matches(filas[from], fecha, nombre) then Some(from)
    else FindFilaFrom(filas, fecha, nombre, from + 1)
  }

  /** `datos.find(d => d.Fecha === fecha && d["Zona Básica"] === nombre)`: the first matching row. */
  function FindFila(filas: seq<FilaCsv>, fecha: string, nombre: string): (r: Option<FilaCsv>)
    ensures r.Some? ==> exists i :: 0 <= i < |filas| && filas[i] == r.value && Matches(filas[i], fecha, nombre)
                                    && forall k :: 0 <= k < i ==> !Matches(filas[k], fecha, nombre)
    ensures r.None? <==> forall k :: 0 <= k < |filas| ==> !Matches(filas[k], fecha, nombre)
  {
    match FindFilaFrom(filas, fecha, nombre, 0)
    case None => None
    case Some(i) => Some(filas[i])
  }
}
