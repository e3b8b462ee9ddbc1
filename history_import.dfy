/** The history import run by `/zonasanitaria`: the zone's rows of the CSV file, in file order,
    folded into daily records, each derived from the records built before it, with the
    cumulative count clamped so that it never goes back. */
module HistoryImport {
  import opened Records
  import opened Incidence
  import opened Dates
  import opened Csv

  /** `Math.max`. */
  function Max(a: int, b: int): (m: int)
  {
    if a >= b then a else b
  }

  /** One turn of the `map` callback: the record derived from `fila` after the records `anteriores`. */
  function Paso(anteriores: seq<DatoDiario>, fila: FilaCsv, habitantes: int): (d: DatoDiario)
    requires habitantes != 0
    ensures d.acumulados == Max(fila.acumulados, Acumulado(anteriores))
    ensures d.infectadosHoy >= 0
    ensures d.infectadosHoy + Acumulado(anteriores) == d.acumulados
    ensures d.fecha == ConvertirFecha(fila.fecha)
  {
    Derive(Max(fila.acumulados, Acumulado(anteriores)), anteriores, habitantes, ConvertirFecha(fila.fecha))
  }

  /** The records the callback has pushed after visiting `filas`, starting from an empty array. */
  function Historico(filas: seq<FilaCsv>, habitantes: int): (h: seq<DatoDiario>)
    requires habitantes != 0
    ensures |h| == |filas|
  {
    if filas == [] then []
    else
      var anteriores := Historico(filas[..|filas| - 1], habitantes);
      anteriores + [Paso(anteriores, filas[|filas| - 1], habitantes)]
  }

  /** The largest cumulative count seen in `filas`, and 0 before any. */
  function RunningMax(filas: seq<FilaCsv>): (m: int)
    ensures m >= 0
  {
    if filas == [] then 0 else Max(RunningMax(filas[..|filas| - 1]), filas[|filas| - 1].acumulados)
  }

  /** The history of the first `k` rows is the first `k` records of the history: every record is
      derived from the records before it and from its own row only. */
  lemma {:induction false} HistoricoPrefix(filas: seq<FilaCsv>, habitantes: int, k: nat)
    requires habitantes != 0 && k <= |filas|
    ensures Historico(filas[..k], habitantes) == Historico(filas, habitantes)[..k]
    decreases |filas|
  {
    if k < |filas| {
      var init := filas[..|filas| - 1];
      HistoricoPrefix(init, habitantes, k);
      assert init[..k] == filas[..k];
    } else {
      assert filas[..k] == filas;
    }
  }

  /** Record `i` is `Paso` applied to the records before it and to row `i`. */
  lemma HistoricoStep(filas: seq<FilaCsv>, habitantes: int, i: nat)
    requires habitantes != 0 && i < |filas|
    ensures var h := Historico(filas, habitantes); h[i] == Paso(h[..i], filas[i], habitantes)
  {
    var h := Historico(filas, habitantes);
    HistoricoPrefix(filas, habitantes, i + 1);
    HistoricoPrefix(filas, habitantes, i);
    assert filas[..i + 1][..i] == filas[..i];
    assert h[..i + 1][..i] == h[..i];
  }

  /** Visiting one more row pushes one more record, derived from the records before it. */
  lemma HistoricoSnoc(filas: seq<FilaCsv>, fila: FilaCsv, habitantes: int)
    requires habitantes != 0
    ensures Historico(filas + [fila], habitantes)
            == Historico(filas, habitantes) + [Paso(Historico(filas, habitantes), fila, habitantes)]
  {
  }

  /** Every record carries the converted date of its row. */
  lemma HistoricoFechas(filas: seq<FilaCsv>, habitantes: int)
    requires habitantes != 0
    ensures forall i :: 0 <= i < |filas| ==> Historico(filas, habitantes)[i].fecha == ConvertirFecha(filas[i].fecha)
  {
    forall i | 0 <= i < |filas|
      ensures Historico(filas, habitantes)[i].fecha == ConvertirFecha(filas[i].fecha)
    {
      HistoricoStep(filas, habitantes, i);
    }
  }

  /** Each record's new cases sit on top of the cumulative count of the record before it. */
  lemma HistoricoChains(filas: seq<FilaCsv>, habitantes: int)
    requires habitantes != 0
    ensures Telescopes(Historico(filas, habitantes))
  {
    var h := Historico(filas, habitantes);
    forall i | 0 <= i < |h|
      ensures h[i].infectadosHoy + Acumulado(h[..i]) == h[i].acumulados
    {
      HistoricoStep(filas, habitantes, i);
    }
  }

  /** The stored cumulative count after the last row is the running maximum of the CSV counts. */
  lemma {:induction false} HistoricoAcumulado(filas: seq<FilaCsv>, habitantes: int)
    requires habitantes != 0
    ensures Acumulado(Historico(filas, habitantes)) == RunningMax(filas)
    decreases |filas|
  {
    if filas != [] {
      HistoricoAcumulado(filas[..|filas| - 1], habitantes);
    }
  }

  /** Each cumulative count is at least the one before it. */
  lemma HistoricoClamp(filas: seq<FilaCsv>, habitantes: int, j: nat)
    requires habitantes != 0 && 0 < j < |filas|
    ensures Historico(filas, habitantes)[j - 1].acumulados <= Historico(filas, habitantes)[j].acumulados
  {
  }

  /** Cumulative counts that never drop between neighbours never drop at all. */
  lemma ChainNonDecreasing(s: seq<DatoDiario>, i: nat, j: nat)
    requires forall k :: 0 < k < |s| ==> s[k - 1].acumulados <= s[k].acumulados
    requires i <= j < |s|
    ensures s[i].acumulados <= s[j].acumulados
    decreases j - i
  {
    if i < j {
      ChainNonDecreasing(s, i, j - 1);
    }
  }

  /** The cumulative counts of the history never decrease. */
  lemma HistoricoNonDecreasing(filas: seq<FilaCsv>, habitantes: int, i: nat, j: nat)
    requires habitantes != 0 && i <= j < |filas|
    ensures Historico(filas, habitantes)[i].acumulados <= Historico(filas, habitantes)[j].acumulados
  {
    var h := Historico(filas, habitantes);
    forall k | 0 < k < |h| ensures h[k - 1].acumulados <= h[k].acumulados {
      HistoricoClamp(filas, habitantes, k);
    }
    ChainNonDecreasing(h, i, j);
  }

  /** Every record of the history passes `insertMany`'s validation. */
  lemma {:induction false} HistoricoValid(filas: seq<FilaCsv>, habitantes: int)
    requires habitantes > 0
    ensures AllValid(Historico(filas, habitantes))
    decreases |filas|
  {
    if filas != [] {
      var anteriores := Historico(filas[..|filas| - 1], habitantes);
      HistoricoValid(filas[..|filas| - 1], habitantes);
      var fila := filas[|filas| - 1];
      DerivedValidIff(Max(fila.acumulados, Acumulado(anteriores)), anteriores, habitantes, ConvertirFecha(fila.fecha));
    }
  }

  /** No record of the history has negative new cases, whatever the population. */
  lemma {:induction false} HistoricoNonNegative(filas: seq<FilaCsv>, habitantes: int)
    requires habitantes != 0
    ensures NonNegative(Historico(filas, habitantes))
    decreases |filas|
  {
    if filas != [] {
      var h := Historico(filas, habitantes);
      HistoricoNonNegative(filas[..|filas| - 1], habitantes);
      assert h[..|h| - 1] == Historico(filas[..|filas| - 1], habitantes);
    }
  }

  /** The new cases of the whole history add up to its final cumulative count. */
  lemma {:induction false} HistoricoTelescopes(filas: seq<FilaCsv>, habitantes: int)
    requires habitantes != 0
    ensures Sum(Historico(filas, habitantes)) == Acumulado(Historico(filas, habitantes))
    decreases |filas|
  {
    if filas != [] {
      var h := Historico(filas, habitantes);
      HistoricoTelescopes(filas[..|filas| - 1], habitantes);
      assert h[..|h| - 1] == Historico(filas[..|filas| - 1], habitantes);
    }
  }

  /** A regressive CSV count is lifted to the previous cumulative count and gives no new cases:
      previous 100 and row 90 give cumulative 100 and 0 new cases. */
  lemma ClampedRegression(anteriores: seq<DatoDiario>, fila: FilaCsv, habitantes: int)
    requires habitantes != 0 && |anteriores| > 0 && fila.acumulados <= Acumulado(anteriores)
    ensures Paso(anteriores, fila, habitantes).acumulados == anteriores[|anteriores| - 1].acumulados
    ensures Paso(anteriores, fila, habitantes).infectadosHoy == 0
  {
  }

  /** After records with no cases at all, a negative population gives a valid next record exactly
      when its row carries no case: then every rate is `-0`, which `min: 0` accepts, and any case
      gives a negative rate. */
  lemma ZeroHistoryStep(a: seq<DatoDiario>, fila: FilaCsv, habitantes: int)
    requires habitantes < 0 && NonNegative(a) && Sum(a) == 0 && Acumulado(a) == 0
    ensures ValidDato(Paso(a, fila, habitantes)) <==> fila.acumulados <= 0
  {
    var d := Paso(a, fila, habitantes);
    assert a[0..] == a;
    SumSuffixMonotone(a, 0, SliceStart(|a|, -6));
    SumSuffixMonotone(a, 0, SliceStart(|a|, -13));
    assert NonNegative(Window(a, 6)) && NonNegative(Window(a, 13));
    SumNonNegative(Window(a, 6));
    SumNonNegative(Window(a, 13));
    assert d.ia7 == Rate(d.infectadosHoy, habitantes) && d.ia14 == d.ia7;
    RateNegativePopulation(d.infectadosHoy, habitantes);
    assert |d.fecha| >= 9;
  }

  /** For a negative population (which the zone's schema refuses only when the zone itself is
      saved) the history passes `insertMany`'s validation exactly when no CSV count is positive. */
  lemma {:induction false} NegativePopulationHistory(filas: seq<FilaCsv>, habitantes: int)
    requires habitantes < 0
    ensures AllValid(Historico(filas, habitantes)) <==> RunningMax(filas) == 0
    decreases |filas|
  {
    if filas != [] {
      var init := filas[..|filas| - 1];
      var fila := filas[|filas| - 1];
      var a := Historico(init, habitantes);
      var d := Paso(a, fila, habitantes);
      assert Historico(filas, habitantes) == a + [d];
      NegativePopulationHistory(init, habitantes);
      if RunningMax(init) == 0 {
        HistoricoAcumulado(init, habitantes);
        HistoricoTelescopes(init, habitantes);
        HistoricoNonNegative(init, habitantes);
        ZeroHistoryStep(a, fila, habitantes);
        assert forall i :: 0 <= i < |a| ==> (a + [d])[i] == a[i];
        assert (a + [d])[|a|] == d;
      } else {
        var i :| 0 <= i < |a| && !ValidDato(a[i]);
        assert (a + [d])[i] == a[i];
      }
    }
  }

  /** The body of the `map` callback: convert the date, clamp the count, derive the record. */
  method PasoDato(datosDiarios: seq<DatoDiario>, d: FilaCsv, habitantes: int) returns (dato: DatoDiario)
    requires habitantes != 0
    ensures dato == Paso(datosDiarios, d, habitantes)
  {
    var fecha := ConvertirFecha(d.fecha);
    var n := |datosDiarios|;
    var acumuladosAyer := if n > 0 then datosDiarios[n - 1].acumulados else 0;
    var acumulados := Max(d.acumulados, acumuladosAyer);
    dato := DeriveDato(acumulados, datosDiarios, habitantes, fecha);
  }

  /** The loop of the `/zonasanitaria` handler: filter the zone's rows and push one derived record
      per kept row onto `datosDiarios`. */
  method ImportarHistorico(datos: seq<FilaCsv>, nombre: string, habitantes: int)
    returns (datosDiarios: seq<DatoDiario>)
    requires habitantes != 0
    ensures datosDiarios == Historico(FilasDeZona(datos, nombre), habitantes)
    ensures |datosDiarios| == |FilasDeZona(datos, nombre)|
    ensures forall i :: 0 <= i < |datosDiarios| ==> datosDiarios[i].fecha == ConvertirFecha(FilasDeZona(datos, nombre)[i].fecha)
    ensures habitantes > 0 ==> AllValid(datosDiarios)
  {
    datosDiarios := [];
    ghost var kept: seq<FilaCsv> := [];
    for i := 0 to |datos|
      invariant kept == FilasDeZona(datos[..i], nombre)
      invariant datosDiarios == Historico(kept, habitantes)
    {
      assert datos[..i + 1][..i] == datos[..i];
      var d := datos[i];
      if d.zona == nombre {
        var dato := PasoDato(datosDiarios, d, habitantes);
        HistoricoSnoc(kept, d, habitantes);
        datosDiarios := datosDiarios + [dato];
        kept := kept + [d];
      }
    }
    assert datos[..|datos|] == datos;
    if habitantes > 0 {
      HistoricoValid(kept, habitantes);
    }
    HistoricoFechas(kept, habitantes);
  }
}
