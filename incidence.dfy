/** The incidence computation of index.js: the rolling-window sum `ultimosXDias` and the
    per-day derivation of `infectadosHoy`, `acumulados`, `ia7` and `ia14`, written out four times
    in the source (the `/datodiario` and `/zonasanitaria` handlers, the background tick and
    `/datosporfecha`) and defined once here. */
module Incidence {
  import opened Records

  /** Total of `infectadosHoy` over `s`, added front to back. */
  function Sum(s: seq<DatoDiario>): (r: int)
  {
    if s == [] then 0 else Sum(s[..|s| - 1]) + s[|s| - 1].infectadosHoy
  }

  function Min(a: int, b: int): (m: int)
    ensures m <= a && m <= b && (m == a || m == b)
  {
    if a <= b then a else b
  }

  /** The index at which JavaScript's `Array.prototype.slice(start)` begins on an array of length `n`:
      a negative start counts from the end and is clipped at 0, a non-negative one is clipped at `n`. */
  function SliceStart(n: nat, start: int): (k: nat)
    ensures k <= n
  {
    if start < 0 then (if n + start < 0 then 0 else n + start)
    else if start < n then start else n
  }

  /** `diasAnteriores.slice(-x)`. */
  function Window(d: seq<DatoDiario>, x: int): (w: seq<DatoDiario>)
  {
    d[SliceStart(|d|, -x)..]
  }

  /** The last `min(|s|, n)` elements of `s`. */
  function LastN(s: seq<DatoDiario>, n: nat): (w: seq<DatoDiario>)
    ensures |w| == Min(|s|, n)
  {
    s[|s| - Min(|s|, n)..]
  }

  /** `slice(-x)` keeps the last `min(|d|, x)` records for positive `x`, all of them for `x` = 0, and
      drops the first `-x` for negative `x`. */
  lemma WindowIsLastN(d: seq<DatoDiario>, x: int)
    ensures x > 0 ==> Window(d, x) == LastN(d, x)
    ensures x == 0 ==> Window(d, x) == d
    ensures x < 0 ==> Window(d, x) == d[Min(|d|, -x)..]
  {
  }

  predicate NonNegative(s: seq<DatoDiario>)
  {
    forall i :: 0 <= i < |s| ==> s[i].infectadosHoy >= 0
  }

  /** `ultimosXDias(diasAnteriores, x)`: the new cases of the last `x` prior records. With `x` = 0 the
      slice `slice(-0)` is the whole array; the source only ever passes 6 and 13. */
  method UltimosXDias(diasAnteriores: seq<DatoDiario>, x: int) returns (resultado: int)
    ensures resultado == Sum(Window(diasAnteriores, x))
    ensures x > 0 ==> resultado == Sum(LastN(diasAnteriores, x))
    ensures x == 0 ==> resultado == Sum(diasAnteriores)
    ensures diasAnteriores == [] ==> resultado == 0
    ensures NonNegative(diasAnteriores) ==> resultado >= 0
  {
    var ultimosDias := Window(diasAnteriores, x);
    resultado := 0;
    for i := 0 to |ultimosDias|
      invariant resultado == Sum(ultimosDias[..i])
    {
      assert ultimosDias[..i + 1][..i] == ultimosDias[..i];
      resultado := resultado + ultimosDias[i].infectadosHoy;
    }
    assert ultimosDias[..|ultimosDias|] == ultimosDias;
    if NonNegative(diasAnteriores) {
      SumNonNegative(ultimosDias);
    }
  }

  lemma {:induction false} SumAppend(a: seq<DatoDiario>, b: seq<DatoDiario>)
    ensures Sum(a + b) == Sum(a) + Sum(b)
    decreases |b|
  {
    if b == [] {
      assert a + b == a;
    } else {
      assert (a + b)[..|a + b| - 1] == a + b[..|b| - 1];
      SumAppend(a, b[..|b| - 1]);
    }
  }

  lemma {:induction false} SumNonNegative(s: seq<DatoDiario>)
    requires NonNegative(s)
    ensures Sum(s) >= 0
    decreases |s|
  {
    if s != [] {
      SumNonNegative(s[..|s| - 1]);
    }
  }

  /** With no negative new cases, the sum over a suffix never exceeds the sum over a longer suffix. */
  lemma SumSuffixMonotone(s: seq<DatoDiario>, i: nat, j: nat)
    requires i <= j <= |s| && NonNegative(s)
    ensures Sum(s[i..]) >= Sum(s[j..])
  {
    assert s[i..] == s[i..j] + s[j..];
    SumAppend(s[i..j], s[j..]);
    SumNonNegative(s[i..j]);
  }

  /** `cases * 100000 / habitantes`, computed exactly. */
  function Rate(cases: int, habitantes: int): (r: real)
    requires habitantes != 0
  {
    (cases * 100000) as real / habitantes as real
  }

  lemma RateMonotone(a: int, b: int, habitantes: int)
    requires habitantes > 0 && a <= b
    ensures Rate(a, habitantes) <= Rate(b, habitantes)
  {
  }

  /** For a negative population the rate is non-negative only for no cases at all: `0 * 100000 / -h`
      is `-0`, which `min: 0` accepts, and any positive count gives a negative rate. */
  lemma RateNegativePopulation(cases: int, habitantes: int)
    requires habitantes < 0 && cases >= 0
    ensures Rate(cases, habitantes) >= 0.0 <==> cases == 0
  {
  }

  /** The cumulative count of the last prior record, 0 with none (`acumuladosAyer`). */
  function Acumulado(prior: seq<DatoDiario>): (a: int)
  {
    if |prior| > 0 then prior[|prior| - 1].acumulados else 0
  }

  /** Every record's cumulative count is its new cases on top of the cumulative count of the record
      before it: the chain that deriving each record from the zone's earlier ones builds. */
  predicate Telescopes(s: seq<DatoDiario>)
  {
    forall i :: 0 <= i < |s| ==> s[i].infectadosHoy + Acumulado(s[..i]) == s[i].acumulados
  }

  /** Appending a record derived from the list keeps the chain. */
  lemma TelescopesSnoc(s: seq<DatoDiario>, r: DatoDiario)
    requires Telescopes(s) && r.infectadosHoy + Acumulado(s) == r.acumulados
    ensures Telescopes(s + [r])
  {
  }

  /** With no negative new cases, a chained list's cumulative counts never drop between neighbours. */
  lemma TelescopesNonDecreasing(s: seq<DatoDiario>)
    requires Telescopes(s) && NonNegative(s)
    ensures forall k :: 0 < k < |s| ==> s[k - 1].acumulados <= s[k].acumulados
  {
  }

  /** The new cases of a chained list add up to its last cumulative count. */
  lemma {:induction false} TelescopesSum(s: seq<DatoDiario>)
    requires Telescopes(s)
    ensures Sum(s) == Acumulado(s)
    decreases |s|
  {
    if s != [] {
      var p := s[..|s| - 1];
      assert Telescopes(p) by {
        forall i | 0 <= i < |p|
          ensures p[i].infectadosHoy + Acumulado(p[..i]) == p[i].acumulados
        {
          assert p[..i] == s[..i];
        }
      }
      TelescopesSum(p);
      assert s[..|s| - 1] == p;
    }
  }

  /** The record derived from today's cumulative count `acumuladosHoy`, the zone's prior
      records and its population. */
  function Derive(acumuladosHoy: int, prior: seq<DatoDiario>, habitantes: int, fecha: string): (r: DatoDiario)
    requires habitantes != 0
    ensures r.acumulados == acumuladosHoy
    ensures r.infectadosHoy + Acumulado(prior) == acumuladosHoy
    ensures r.fecha == fecha
  {
    var infectadosHoy := if |prior| > 0 then acumuladosHoy - prior[|prior| - 1].acumulados else acumuladosHoy;
    var ultimos7Dias := Sum(Window(prior, 6)) + infectadosHoy;
    var ultimos14Dias := Sum(Window(prior, 13)) + infectadosHoy;
    var acumulados := if |prior| > 0 then prior[|prior| - 1].acumulados + infectadosHoy else infectadosHoy;
    DatoDiario(infectadosHoy, acumulados, Rate(ultimos7Dias, habitantes), Rate(ultimos14Dias, habitantes), fecha)
  }

  /** The derivation as the handlers run it, calling `ultimosXDias` for both windows. */
  method DeriveDato(acumuladosHoy: int, diasAnteriores: seq<DatoDiario>, habitantes: int, fecha: string)
    returns (dato: DatoDiario)
    requires habitantes != 0
    ensures dato == Derive(acumuladosHoy, diasAnteriores, habitantes, fecha)
  {
    var n := |diasAnteriores|;
    var infectadosHoy := if n > 0 then acumuladosHoy - diasAnteriores[n - 1].acumulados else acumuladosHoy;
    var semana := UltimosXDias(diasAnteriores, 6);
    var quincena := UltimosXDias(diasAnteriores, 13);
    var ultimos7Dias := semana + infectadosHoy;
    var ultimos14Dias := quincena + infectadosHoy;
    var ia7 := Rate(ultimos7Dias, habitantes);
    var ia14 := Rate(ultimos14Dias, habitantes);
    var acumulados := if n > 0 then diasAnteriores[n - 1].acumulados + infectadosHoy else infectadosHoy;
    dato := DatoDiario(infectadosHoy, acumulados, ia7, ia14, fecha);
  }

  /** `ia7` is the incidence of the 7 most recent days counting the new record itself, and `ia14`
      that of the 14 most recent: the windows of 6 and 13 prior days plus today. */
  lemma WindowsIncludeToday(acumuladosHoy: int, prior: seq<DatoDiario>, habitantes: int, fecha: string)
    requires habitantes != 0
    ensures var r := Derive(acumuladosHoy, prior, habitantes, fecha);
      && r.ia7 == Rate(Sum(LastN(prior + [r], 7)), habitantes)
      && r.ia14 == Rate(Sum(LastN(prior + [r], 14)), habitantes)
  {
    var r := Derive(acumuladosHoy, prior, habitantes, fecha);
    WindowPlusToday(prior, r, 6);
    WindowPlusToday(prior, r, 13);
  }

  /** The last `n + 1` records after appending `r` are the window of `n` prior ones and `r`. */
  lemma WindowPlusToday(prior: seq<DatoDiario>, r: DatoDiario, n: nat)
    requires n >= 1
    ensures Sum(LastN(prior + [r], n + 1)) == Sum(Window(prior, n)) + r.infectadosHoy
  {
    var w := LastN(prior, n);
    assert Window(prior, n) == w;
    assert LastN(prior + [r], n + 1) == w + [r];
    assert (w + [r])[..|w + [r]| - 1] == w;
  }

  /** Over records that passed `save()`, every window has a non-negative sum. */
  lemma WindowNonNegative(prior: seq<DatoDiario>, x: int)
    requires AllValid(prior)
    ensures Sum(Window(prior, x)) >= 0
  {
    var w := Window(prior, x);
    assert forall i :: 0 <= i < |w| ==> ValidDato(w[i]);
    SumNonNegative(w);
  }

  /** `save()` accepts a derived record exactly when the cumulative count did not go back and the date
      is present: a drop in the cumulative count gives negative `infectadosHoy`, so that record is refused. */
  lemma DerivedValidIff(acumuladosHoy: int, prior: seq<DatoDiario>, habitantes: int, fecha: string)
    requires habitantes > 0 && AllValid(prior)
    ensures ValidDato(Derive(acumuladosHoy, prior, habitantes, fecha)) <==> acumuladosHoy >= Acumulado(prior) && fecha != ""
  {
    var r := Derive(acumuladosHoy, prior, habitantes, fecha);
    if acumuladosHoy >= Acumulado(prior) && fecha != "" {
      WindowNonNegative(prior, 6);
      WindowNonNegative(prior, 13);
      RateMonotone(0, Sum(Window(prior, 6)) + r.infectadosHoy, habitantes);
      RateMonotone(0, Sum(Window(prior, 13)) + r.infectadosHoy, habitantes);
      assert |prior| > 0 ==> ValidDato(prior[|prior| - 1]);
    }
  }

  /** With valid prior records, the 14-day incidence is never below the 7-day one. */
  lemma Ia14AtLeastIa7(acumuladosHoy: int, prior: seq<DatoDiario>, habitantes: int, fecha: string)
    requires habitantes > 0 && AllValid(prior)
    ensures Derive(acumuladosHoy, prior, habitantes, fecha).ia7 <= Derive(acumuladosHoy, prior, habitantes, fecha).ia14
  {
    assert NonNegative(prior) by {
      assert forall i :: 0 <= i < |prior| ==> ValidDato(prior[i]);
    }
    SumSuffixMonotone(prior, SliceStart(|prior|, -13), SliceStart(|prior|, -6));
    var t := Derive(acumuladosHoy, prior, habitantes, fecha).infectadosHoy;
    RateMonotone(Sum(Window(prior, 6)) + t, Sum(Window(prior, 13)) + t, habitantes);
  }
}
