/** The two collections behind index.js (DatoDiario and ZonaSanitaria documents) and the handlers
    that change them: `/datodiario`, `/zonasanitaria`, the background tick, `/datosporfecha`, and
    the read of `/datosporzona`. `save()` is modelled as refusing records that fail `ValidDato`. */
module Store {
  import opened Wrappers
  import opened Records
  import opened Zones
  import opened Incidence
  import opened Dates
  import opened Csv
  import opened HistoryImport

  datatype Error =
    | NoAccess        // `auth` differs from the configured secret (400)
    | MissingCode     // `/datosporzona` without `code` (500)
    | ZoneNotFound    // no zone with that code (404, or an error body from `/datodiario`)
    | ZeroPopulation  // a zone with `habitantes` = 0, whose rates would divide by zero
    | InvalidRecord   // `save()` refused the derived record
    | InvalidZone     // `save()` refused the new zone

  predicate InRange(ids: seq<nat>, n: nat)
  {
    forall k :: 0 <= k < |ids| ==> ids[k] < n
  }

  /** Each id is larger than the ones before it, as ids handed out in storing order are. */
  predicate Increasing(ids: seq<nat>)
  {
    forall a, b :: 0 <= a < b < |ids| ==> ids[a] < ids[b]
  }

  /** The records `ids` refer to, in the order of the ids (`DatoDiario.find({_id: {$in: ids}})`). */
  function Lookup(datos: seq<DatoDiario>, ids: seq<nat>): (r: seq<DatoDiario>)
    requires InRange(ids, |datos|)
    ensures |r| == |ids| && forall k :: 0 <= k < |ids| ==> r[k] == datos[ids[k]]
  {
    seq(|ids|, k requires 0 <= k < |ids| => datos[ids[k]])
  }

  lemma LookupExtend(a: seq<DatoDiario>, b: seq<DatoDiario>, ids: seq<nat>)
    requires InRange(ids, |a|) && a <= b
    ensures InRange(ids, |b|) && Lookup(b, ids) == Lookup(a, ids)
  {
  }

  lemma LookupPush(datos: seq<DatoDiario>, ids: seq<nat>, id: nat)
    requires InRange(ids, |datos|) && id < |datos|
    ensures InRange(ids + [id], |datos|) && Lookup(datos, ids + [id]) == Lookup(datos, ids) + [datos[id]]
  {
  }

  /** The ids handed out by `insertMany` resolve to the inserted records, in order. */
  lemma LookupInserted(datos: seq<DatoDiario>, nuevos: seq<DatoDiario>)
    ensures InRange(Ids(|datos|, |nuevos|), |datos + nuevos|)
    ensures Lookup(datos + nuevos, Ids(|datos|, |nuevos|)) == nuevos
  {
  }

  /** The ids `n`, `n + 1`, ..., `n + m - 1` that `insertMany` gives to `m` new records. */
  function Ids(n: nat, m: nat): (r: seq<nat>)
    ensures |r| == m && forall k :: 0 <= k < m ==> r[k] == n + k
  {
    seq(m, k requires 0 <= k < m => (n + k) as nat)
  }

  /** `DatoDiario.find({..., fecha})` is non-empty. */
  predicate HasFecha(recs: seq<DatoDiario>, fecha: string)
  {
    exists k :: 0 <= k < |recs| && recs[k].fecha == fecha
  }

  function AsSeq(o: Option<DatoDiario>): (r: seq<DatoDiario>)
  {
    match o
    case None => []
    case Some(d) => [d]
  }

  /** No record id is referenced twice, within a zone or across zones: every record has one owner. */
  predicate Disjoint(zonas: seq<ZonaSanitaria>)
  {
    forall j, k, a, b ::
      (0 <= j < |zonas| && 0 <= k < |zonas| &&
       0 <= a < |zonas[j].datosDiarios| && 0 <= b < |zonas[k].datosDiarios| &&
       zonas[j].datosDiarios[a] == zonas[k].datosDiarios[b])
      ==> j == k && a == b
  }

  lemma PushKeepsDisjoint(zonas: seq<ZonaSanitaria>, j: nat, id: nat)
    requires j < |zonas| && Disjoint(zonas)
    requires forall k :: 0 <= k < |zonas| ==> InRange(zonas[k].datosDiarios, id)
    ensures Disjoint(zonas[j := Push(zonas[j], id)])
  {
  }

  lemma AppendKeepsDisjoint(zonas: seq<ZonaSanitaria>, z: ZonaSanitaria, n: nat)
    requires Disjoint(zonas)
    requires forall k :: 0 <= k < |zonas| ==> InRange(zonas[k].datosDiarios, n)
    requires z.datosDiarios == Ids(n, |z.datosDiarios|)
    ensures Disjoint(zonas + [z])
  {
  }

  /** Every stored document passed `save()`, every reference resolves, no record has two owners,
      and each zone's ids increase (so its list order is storing order) and its records, in that
      order, chain each cumulative count onto the one before it. */
  ghost predicate StoreValid(datos: seq<DatoDiario>, zonas: seq<ZonaSanitaria>)
  {
    && AllValid(datos)
    && (forall j :: 0 <= j < |zonas| ==>
          && ValidZona(zonas[j]) && InRange(zonas[j].datosDiarios, |datos|)
          && Increasing(zonas[j].datosDiarios) && Telescopes(Lookup(datos, zonas[j].datosDiarios)))
    && Disjoint(zonas)
  }

  /** `insertMany` of valid records keeps the store valid. */
  lemma InsertKeepsValid(datos: seq<DatoDiario>, zonas: seq<ZonaSanitaria>, nuevos: seq<DatoDiario>)
    requires StoreValid(datos, zonas) && AllValid(nuevos)
    ensures StoreValid(datos + nuevos, zonas)
  {
    forall j | 0 <= j < |zonas|
      ensures InRange(zonas[j].datosDiarios, |datos + nuevos|)
      ensures Lookup(datos + nuevos, zonas[j].datosDiarios) == Lookup(datos, zonas[j].datosDiarios)
    {
      LookupExtend(datos, datos + nuevos, zonas[j].datosDiarios);
    }
  }

  /** Saving a valid zone whose ids are those of the last records, chained, keeps the store valid. */
  lemma AddZoneKeepsValid(datos: seq<DatoDiario>, zonas: seq<ZonaSanitaria>, zona: ZonaSanitaria, n: nat)
    requires StoreValid(datos, zonas) && ValidZona(zona)
    requires forall k :: 0 <= k < |zonas| ==> InRange(zonas[k].datosDiarios, n)
    requires n <= |datos| && zona.datosDiarios == Ids(n, |datos| - n)
    requires Telescopes(Lookup(datos, zona.datosDiarios))
    ensures StoreValid(datos, zonas + [zona])
  {
    AppendKeepsDisjoint(zonas, zona, n);
  }

  /** Storing, for zone `j`, a valid record derived from the zone's records and pushing its id keeps
      the store valid, and the zone's records gain that record at the end. */
  lemma PushKeepsValid(datos: seq<DatoDiario>, zonas: seq<ZonaSanitaria>, j: nat, dato: DatoDiario)
    requires StoreValid(datos, zonas) && j < |zonas| && ValidDato(dato)
    requires dato.infectadosHoy + Acumulado(Lookup(datos, zonas[j].datosDiarios)) == dato.acumulados
    ensures InRange(Push(zonas[j], |datos|).datosDiarios, |datos + [dato]|)
    ensures StoreValid(datos + [dato], zonas[j := Push(zonas[j], |datos|)])
    ensures Lookup(datos + [dato], Push(zonas[j], |datos|).datosDiarios) == Lookup(datos, zonas[j].datosDiarios) + [dato]
  {
    var datos1, id := datos + [dato], |datos|;
    var zonas1 := zonas[j := Push(zonas[j], id)];
    PushKeepsDisjoint(zonas, j, id);
    LookupExtend(datos, datos1, zonas[j].datosDiarios);
    LookupPush(datos1, zonas[j].datosDiarios, id);
    TelescopesSnoc(Lookup(datos, zonas[j].datosDiarios), dato);
    forall k | 0 <= k < |zonas1|
      ensures InRange(zonas1[k].datosDiarios, |datos1|) && Increasing(zonas1[k].datosDiarios)
      ensures Telescopes(Lookup(datos1, zonas1[k].datosDiarios))
    {
      if k != j {
        LookupExtend(datos, datos1, zonas[k].datosDiarios);
      }
    }
  }

  /** Within a zone, in list order, the cumulative counts never decrease. */
  lemma ZoneNonDecreasing(datos: seq<DatoDiario>, zonas: seq<ZonaSanitaria>, j: nat, a: nat, b: nat)
    requires StoreValid(datos, zonas) && j < |zonas| && a <= b < |zonas[j].datosDiarios|
    ensures Lookup(datos, zonas[j].datosDiarios)[a].acumulados <= Lookup(datos, zonas[j].datosDiarios)[b].acumulados
  {
    var s := Lookup(datos, zonas[j].datosDiarios);
    assert NonNegative(s) by {
      assert forall i :: 0 <= i < |s| ==> ValidDato(datos[zonas[j].datosDiarios[i]]);
    }
    TelescopesNonDecreasing(s);
    ChainNonDecreasing(s, a, b);
  }

  /** A zone's new cases add up to the cumulative count of its last record. */
  lemma ZoneSum(datos: seq<DatoDiario>, zonas: seq<ZonaSanitaria>, j: nat)
    requires StoreValid(datos, zonas) && j < |zonas|
    ensures Sum(Lookup(datos, zonas[j].datosDiarios)) == Acumulado(Lookup(datos, zonas[j].datosDiarios))
  {
    TelescopesSum(Lookup(datos, zonas[j].datosDiarios));
  }

  /** What `/datodiario` answers for a zone with prior records `prior`. */
  function DatoDiarioOutcome(prior: seq<DatoDiario>, habitantes: int, acumuladosHoy: int, fecha: string)
    : (r: Result<DatoDiario, Error>)
    ensures r.Success? ==> ValidDato(r.value) && r.value.fecha == fecha
    ensures r.Success? ==> r.value.acumulados == acumuladosHoy && r.value.infectadosHoy + Acumulado(prior) == acumuladosHoy
  {
    if habitantes <= 0 then Failure(ZeroPopulation)
    else
      var dato := Derive(acumuladosHoy, prior, habitantes, fecha);
      if ValidDato(dato) then Success(dato) else Failure(InvalidRecord)
  }

  /** `/datodiario` stores a record exactly when the cumulative count did not go back. */
  lemma DatoDiarioAccepted(prior: seq<DatoDiario>, habitantes: int, acumuladosHoy: int, fecha: string)
    requires AllValid(prior) && habitantes > 0
    ensures DatoDiarioOutcome(prior, habitantes, acumuladosHoy, fecha).Success?
            <==> acumuladosHoy >= Acumulado(prior) && fecha != ""
  {
    DerivedValidIff(acumuladosHoy, prior, habitantes, fecha);
  }

  /** What one zone's callback of the reconciler adds for the stored date `fechaEnBD`: nothing when
      the zone already has a record for it, when no row matches both the CSV date `fecha` and the
      zone's name, or when `save()` refuses the derived record. */
  function Nuevo(recs: seq<DatoDiario>, zona: ZonaSanitaria, filas: seq<FilaCsv>, fecha: string, fechaEnBD: string)
    : (r: Option<DatoDiario>)
    ensures r.Some? ==> !HasFecha(recs, fechaEnBD) && ValidDato(r.value) && r.value.fecha == fechaEnBD
    ensures r.Some? ==> FindFila(filas, fecha, zona.nombre).Some?
                        && r.value.acumulados == FindFila(filas, fecha, zona.nombre).value.acumulados
  {
    if HasFecha(recs, fechaEnBD) then None
    else
      match FindFila(filas, fecha, zona.nombre)
      case None => None
      case Some(fila) =>
        if zona.habitantes <= 0 then None
        else
          var dato := Derive(fila.acumulados, recs, zona.habitantes, fechaEnBD);
          if ValidDato(dato) then Some(dato) else None
  }

  /** A zone gains a record exactly when it lacks the date, a row matches, it has inhabitants,
      and the matching row's cumulative count did not go back. */
  lemma NuevoIff(recs: seq<DatoDiario>, zona: ZonaSanitaria, filas: seq<FilaCsv>, fecha: string, fechaEnBD: string)
    requires AllValid(recs)
    ensures Nuevo(recs, zona, filas, fecha, fechaEnBD).Some? <==>
      && !HasFecha(recs, fechaEnBD)
      && FindFila(filas, fecha, zona.nombre).Some?
      && zona.habitantes > 0
      && FindFila(filas, fecha, zona.nombre).value.acumulados >= Acumulado(recs)
      && fechaEnBD != ""
  {
    var f := FindFila(filas, fecha, zona.nombre);
    if !HasFecha(recs, fechaEnBD) && f.Some? && zona.habitantes > 0 {
      DerivedValidIff(f.value.acumulados, recs, zona.habitantes, fechaEnBD);
    }
  }

  /** Running a zone's step again after it added a record adds nothing. */
  lemma NuevoIdempotent(recs: seq<DatoDiario>, zona: ZonaSanitaria, filas: seq<FilaCsv>, fecha: string, fechaEnBD: string)
    requires Nuevo(recs, zona, filas, fecha, fechaEnBD).Some?
    ensures Nuevo(recs + AsSeq(Nuevo(recs, zona, filas, fecha, fechaEnBD)), zona, filas, fecha, fechaEnBD).None?
  {
  }

  /** The per-zone lists of new records, one after the other. */
  function Flatten(s: seq<seq<DatoDiario>>): (r: seq<DatoDiario>)
  {
    if s == [] then [] else Flatten(s[..|s| - 1]) + s[|s| - 1]
  }

  /** What the reconciler adds to each zone of `zonas0`, in zone order. */
  ghost function Additions(datos0: seq<DatoDiario>, zonas0: seq<ZonaSanitaria>,
                           filas: seq<FilaCsv>, fecha: string, fechaEnBD: string): (r: seq<seq<DatoDiario>>)
    requires forall k :: 0 <= k < |zonas0| ==> InRange(zonas0[k].datosDiarios, |datos0|)
    ensures |r| == |zonas0|
  {
    seq(|zonas0|, k requires 0 <= k < |zonas0| =>
      AsSeq(Nuevo(Lookup(datos0, zonas0[k].datosDiarios), zonas0[k], filas, fecha, fechaEnBD)))
  }

  /** Zone `z1` in store `datos1` is zone `z0` of store `datos0` with the records `added`:
      same name, code and population, its list extended at the end by ids of records stored
      after `datos0`, and its records those of before followed by `added`. */
  ghost predicate ZoneReconciled(datos0: seq<DatoDiario>, z0: ZonaSanitaria, datos1: seq<DatoDiario>, z1: ZonaSanitaria,
                                 added: seq<DatoDiario>)
  {
    && InRange(z0.datosDiarios, |datos0|) && InRange(z1.datosDiarios, |datos1|)
    && z1.nombre == z0.nombre && z1.code == z0.code && z1.habitantes == z0.habitantes
    && z0.datosDiarios <= z1.datosDiarios
    && |z1.datosDiarios| == |z0.datosDiarios| + |added|
    && (forall a :: |z0.datosDiarios| <= a < |z1.datosDiarios| ==> |datos0| <= z1.datosDiarios[a])
    && Lookup(datos1, z1.datosDiarios) == Lookup(datos0, z0.datosDiarios) + added
  }

  /** The store `datos`, `zonas` is `datos0`, `zonas0` after the steps of the first `j` zones,
      zone `k` gaining `nuevos[k]`: the records stored are exactly those gains in zone order, every
      new one carries `fechaEnBD`, zones from `j` on are untouched, and nothing was stored exactly
      when none of the first `j` zones gained anything. */
  ghost predicate Progress(datos0: seq<DatoDiario>, zonas0: seq<ZonaSanitaria>,
                           datos: seq<DatoDiario>, zonas: seq<ZonaSanitaria>, j: nat,
                           nuevos: seq<seq<DatoDiario>>, fechaEnBD: string)
  {
    && j <= |zonas0| && |zonas| == |zonas0| == |nuevos| && datos0 <= datos
    && datos == datos0 + Flatten(nuevos[..j])
    && (forall k :: |datos0| <= k < |datos| ==> datos[k].fecha == fechaEnBD)
    && (forall k :: j <= k < |zonas0| ==> zonas[k] == zonas0[k])
    && (forall k :: 0 <= k < j ==> ZoneReconciled(datos0, zonas0[k], datos, zonas[k], nuevos[k]))
    && (datos == datos0 <==> forall k :: 0 <= k < j ==> nuevos[k] == [])
  }

  /** The store `datos1`, `zonas1` is `datos0`, `zonas0` after one pass of the reconciler over all
      zones for the CSV date `fecha`, stored as `fechaEnBD`. */
  ghost predicate Reconciled(datos0: seq<DatoDiario>, zonas0: seq<ZonaSanitaria>,
                             datos1: seq<DatoDiario>, zonas1: seq<ZonaSanitaria>,
                             filas: seq<FilaCsv>, fecha: string, fechaEnBD: string)
  {
    && (forall k :: 0 <= k < |zonas0| ==> InRange(zonas0[k].datosDiarios, |datos0|))
    && Progress(datos0, zonas0, datos1, zonas1, |zonas0|, Additions(datos0, zonas0, filas, fecha, fechaEnBD), fechaEnBD)
  }

  lemma ZoneReconciledExtend(datos0: seq<DatoDiario>, z0: ZonaSanitaria, datos1: seq<DatoDiario>, datos2: seq<DatoDiario>,
                             z1: ZonaSanitaria, added: seq<DatoDiario>)
    requires ZoneReconciled(datos0, z0, datos1, z1, added) && datos1 <= datos2
    ensures ZoneReconciled(datos0, z0, datos2, z1, added)
  {
  }

  /** One more zone step, adding `nuevos[j]` to zone `j`, extends `Progress` by one zone. */
  lemma ProgressStep(datos0: seq<DatoDiario>, zonas0: seq<ZonaSanitaria>,
                     datosM: seq<DatoDiario>, zonasM: seq<ZonaSanitaria>,
                     datos1: seq<DatoDiario>, zonas1: seq<ZonaSanitaria>, j: nat,
                     nuevos: seq<seq<DatoDiario>>, fechaEnBD: string)
    requires Progress(datos0, zonas0, datosM, zonasM, j, nuevos, fechaEnBD) && j < |zonas0|
    requires InRange(zonas0[j].datosDiarios, |datos0|)
    requires |nuevos[j]| <= 1 && forall x :: x in nuevos[j] ==> x.fecha == fechaEnBD
    requires datos1 == datosM + nuevos[j]
    requires zonas1 == if nuevos[j] != [] then zonasM[j := Push(zonasM[j], |datosM|)] else zonasM
    ensures Progress(datos0, zonas0, datos1, zonas1, j + 1, nuevos, fechaEnBD)
  {
    var z0 := zonas0[j];
    assert zonasM[j] == z0;
    assert nuevos[..j + 1][..j] == nuevos[..j];
    LookupExtend(datos0, datosM, z0.datosDiarios);
    LookupExtend(datosM, datos1, z0.datosDiarios);
    if nuevos[j] != [] {
      LookupPush(datos1, z0.datosDiarios, |datosM|);
      assert |datos1| == |datosM| + 1;
      assert datos1[|datosM|] in nuevos[j];
    } else {
      assert datos1 == datosM;
    }
    assert ZoneReconciled(datos0, z0, datos1, zonas1[j], nuevos[j]);
    forall k | 0 <= k < j
      ensures ZoneReconciled(datos0, zonas0[k], datos1, zonas1[k], nuevos[k])
    {
      assert zonas1[k] == zonasM[k];
      ZoneReconciledExtend(datos0, zonas0[k], datosM, datos1, zonasM[k], nuevos[k]);
    }
  }

  /** A zone that gained nothing is left as it was. */
  lemma ZoneNothingStored(datos0: seq<DatoDiario>, z0: ZonaSanitaria, datos1: seq<DatoDiario>, z1: ZonaSanitaria)
    requires ZoneReconciled(datos0, z0, datos1, z1, [])
    ensures z1 == z0
  {
  }

  /** A pass that stored no record left every zone as it was, and no zone had anything to add. */
  lemma ReconciledNothingStored(datos0: seq<DatoDiario>, zonas0: seq<ZonaSanitaria>, zonas1: seq<ZonaSanitaria>,
                                filas: seq<FilaCsv>, fecha: string, fechaEnBD: string)
    requires Reconciled(datos0, zonas0, datos0, zonas1, filas, fecha, fechaEnBD)
    ensures zonas1 == zonas0
    ensures forall k :: 0 <= k < |zonas0| ==> Additions(datos0, zonas0, filas, fecha, fechaEnBD)[k] == []
  {
    var nuevos := Additions(datos0, zonas0, filas, fecha, fechaEnBD);
    forall k | 0 <= k < |zonas0|
      ensures zonas1[k] == zonas0[k]
    {
      ZoneNothingStored(datos0, zonas0[k], datos0, zonas1[k]);
    }
  }

  /** After a pass, each zone: keeps its name, code and population; is untouched if it already had
      a record for `fechaEnBD`; and gained exactly one record precisely when it lacked the date,
      a row matched both the date and its name, it has inhabitants, and the count did not go back. */
  lemma ReconciledZoneOutcome(datos0: seq<DatoDiario>, zonas0: seq<ZonaSanitaria>,
                              datos1: seq<DatoDiario>, zonas1: seq<ZonaSanitaria>,
                              filas: seq<FilaCsv>, fecha: string, fechaEnBD: string, k: nat)
    requires StoreValid(datos0, zonas0) && k < |zonas0|
    requires Reconciled(datos0, zonas0, datos1, zonas1, filas, fecha, fechaEnBD)
    ensures zonas1[k].nombre == zonas0[k].nombre && zonas1[k].code == zonas0[k].code
    ensures zonas1[k].habitantes == zonas0[k].habitantes
    ensures HasFecha(Lookup(datos0, zonas0[k].datosDiarios), fechaEnBD) ==> zonas1[k] == zonas0[k]
    ensures |zonas1[k].datosDiarios| <= |zonas0[k].datosDiarios| + 1
    ensures |zonas1[k].datosDiarios| == |zonas0[k].datosDiarios| + 1 <==>
      && !HasFecha(Lookup(datos0, zonas0[k].datosDiarios), fechaEnBD)
      && FindFila(filas, fecha, zonas0[k].nombre).Some?
      && zonas0[k].habitantes > 0
      && FindFila(filas, fecha, zonas0[k].nombre).value.acumulados >= Acumulado(Lookup(datos0, zonas0[k].datosDiarios))
      && fechaEnBD != ""
  {
    var recs := Lookup(datos0, zonas0[k].datosDiarios);
    var added := Additions(datos0, zonas0, filas, fecha, fechaEnBD)[k];
    assert added == AsSeq(Nuevo(recs, zonas0[k], filas, fecha, fechaEnBD));
    assert ZoneReconciled(datos0, zonas0[k], datos1, zonas1[k], added);
    NuevoIff(recs, zonas0[k], filas, fecha, fechaEnBD);
    if added == [] {
      ZoneNothingStored(datos0, zonas0[k], datos1, zonas1[k]);
    }
  }

  /** The health-zone and daily-record collections. A record's id is its position in `datos`. */
  class Almacen {
    var datos: seq<DatoDiario>
    var zonas: seq<ZonaSanitaria>

    ghost predicate Valid()
      reads this
    {
      StoreValid(datos, zonas)
    }

    constructor ()
      ensures Valid() && datos == [] && zonas == []
    {
      datos, zonas := [], [];
    }

    /** The records of zone `j`, in list order. */
    function Registros(j: nat): (r: seq<DatoDiario>)
      reads this
      requires Valid() && j < |zonas|
      ensures |r| == |zonas[j].datosDiarios| && AllValid(r) && Telescopes(r)
    {
      Lookup(datos, zonas[j].datosDiarios)
    }

    /** POST `/datodiario`: derive and store one record for the first zone with code `idzona`. */
    method AddDatoDiario(acumuladosHoy: int, fecha: string, auth: string, idzona: string, secret: string)
      returns (r: Result<DatoDiario, Error>)
      requires Valid()
      modifies this
      ensures Valid()
      ensures r.Failure? ==> datos == old(datos) && zonas == old(zonas)
      ensures auth != secret ==> r == Failure(NoAccess)
      ensures auth == secret && FindByCode(old(zonas), idzona).None? ==> r == Failure(ZoneNotFound)
      ensures auth == secret && FindByCode(old(zonas), idzona).Some? ==>
        var j := FindByCode(old(zonas), idzona).value;
        && r == DatoDiarioOutcome(old(Registros(j)), old(zonas[j].habitantes), acumuladosHoy, fecha)
        && (r.Success? ==>
              && datos == old(datos) + [r.value]
              && zonas == old(zonas)[j := Push(old(zonas[j]), |old(datos)|)]
              && Registros(j) == old(Registros(j)) + [r.value])
    {
      if auth != secret {
        return Failure(NoAccess);
      }
      var found := FindByCode(zonas, idzona);
      if found.None? {
        return Failure(ZoneNotFound);
      }
      var j := found.value;
      var zona := zonas[j];
      var diasAnteriores := Lookup(datos, zona.datosDiarios);
      if zona.habitantes <= 0 {
        return Failure(ZeroPopulation);
      }
      var dato := DeriveDato(acumuladosHoy, diasAnteriores, zona.habitantes, fecha);
      if !ValidDato(dato) {
        return Failure(InvalidRecord);
      }
      var id := |datos|;
      PushKeepsValid(datos, zonas, j, dato);
      datos := datos + [dato];
      zonas := zonas[j := Push(zona, id)];
      r := Success(dato);
    }

    /** POST `/zonasanitaria`: import the zone's history from the CSV rows, insert the records,
        then save the zone referring to them. `insertMany` refuses the whole batch when one record
        fails validation; a refused zone leaves the inserted records without an owner. */
    method CreateZona(nombre: string, code: string, habitantes: int, filas: seq<FilaCsv>, auth: string, secret: string)
      returns (r: Result<ZonaSanitaria, Error>)
      requires Valid()
      modifies this
      ensures Valid()
      ensures auth != secret ==> r == Failure(NoAccess) && datos == old(datos) && zonas == old(zonas)
      ensures auth == secret && habitantes == 0 ==>
        r == Failure(ZeroPopulation) && datos == old(datos) && zonas == old(zonas)
      ensures auth == secret && habitantes != 0 ==>
        var h := Historico(FilasDeZona(filas, nombre), habitantes);
        if !AllValid(h) then
          r == Failure(InvalidRecord) && datos == old(datos) && zonas == old(zonas)
        else
          && datos == old(datos) + h
          && (if nombre != "" && code != "" && habitantes > 0 then
                && r == Success(ZonaSanitaria(nombre, code, habitantes, Ids(|old(datos)|, |h|)))
                && zonas == old(zonas) + [r.value]
                && Registros(|zonas| - 1) == h
              else
                r == Failure(InvalidZone) && zonas == old(zonas))
      ensures auth == secret && habitantes > 0 ==> datos == old(datos) + Historico(FilasDeZona(filas, nombre), habitantes)
    {
      if auth != secret {
        return Failure(NoAccess);
      }
      if habitantes == 0 {
        return Failure(ZeroPopulation);
      }
      var nuevos := ImportarHistorico(filas, nombre, habitantes);
      if !AllValid(nuevos) {
        return Failure(InvalidRecord);  // `insertMany` rejects; the promise rejection goes unhandled
      }
      var n := |datos|;
      var ids := Ids(n, |nuevos|);
      InsertKeepsValid(datos, zonas, nuevos);
      LookupInserted(datos, nuevos);
      HistoricoChains(FilasDeZona(filas, nombre), habitantes);
      datos := datos + nuevos;
      var zona := ZonaSanitaria(nombre, code, habitantes, ids);
      if !ValidZona(zona) {
        return Failure(InvalidZone);
      }
      AddZoneKeepsValid(datos, zonas, zona, n);
      zonas := zonas + [zona];
      r := Success(zona);
    }

    /** One zone's callback of the reconciler (index.js:196-215, and 249-265 for `/datosporfecha`). */
    method ReconcileZone(j: nat, filas: seq<FilaCsv>, fecha: string, fechaEnBD: string)
      requires Valid() && j < |zonas|
      modifies this
      ensures Valid()
      ensures var nuevo := Nuevo(old(Registros(j)), old(zonas[j]), filas, fecha, fechaEnBD);
        && datos == old(datos) + AsSeq(nuevo)
        && zonas == (if nuevo.Some? then old(zonas)[j := Push(old(zonas[j]), |old(datos)|)] else old(zonas))
        && Registros(j) == old(Registros(j)) + AsSeq(nuevo)
    {
      var zona := zonas[j];
      var diasAnteriores := Lookup(datos, zona.datosDiarios);
      if HasFecha(diasAnteriores, fechaEnBD) {
        return;
      }
      var dato := FindFila(filas, fecha, zona.nombre);
      if dato.None? || zona.habitantes <= 0 {
        return;
      }
      var datoNuevo := DeriveDato(dato.value.acumulados, diasAnteriores, zona.habitantes, fechaEnBD);
      if !ValidDato(datoNuevo) {
        return;  // `save()` throws; the error is only logged
      }
      var id := |datos|;
      PushKeepsValid(datos, zonas, j, datoNuevo);
      datos := datos + [datoNuevo];
      zonas := zonas[j := Push(zona, id)];
    }

    /** The per-zone step for every zone, one after the other. */
    method ReconcileAll(filas: seq<FilaCsv>, fecha: string, fechaEnBD: string)
      requires Valid()
      modifies this
      ensures Valid()
      ensures Reconciled(old(datos), old(zonas), datos, zonas, filas, fecha, fechaEnBD)
    {
      ghost var datos0, zonas0 := datos, zonas;
      ghost var nuevos := Additions(datos0, zonas0, filas, fecha, fechaEnBD);
      assert datos == datos0 + Flatten(nuevos[..0]);
      for j := 0 to |zonas|
        invariant Valid()
        invariant Progress(datos0, zonas0, datos, zonas, j, nuevos, fechaEnBD)
      {
        ReconcileNext(j, filas, fecha, fechaEnBD, datos0, zonas0, nuevos);
      }
    }

    /** Zone `j`'s step of a pass that started from `datos0`, `zonas0` extends its progress by one zone. */
    method ReconcileNext(j: nat, filas: seq<FilaCsv>, fecha: string, fechaEnBD: string,
                         ghost datos0: seq<DatoDiario>, ghost zonas0: seq<ZonaSanitaria>,
                         ghost nuevos: seq<seq<DatoDiario>>)
      requires Valid() && j < |zonas0|
      requires forall k :: 0 <= k < |zonas0| ==> InRange(zonas0[k].datosDiarios, |datos0|)
      requires nuevos == Additions(datos0, zonas0, filas, fecha, fechaEnBD)
      requires Progress(datos0, zonas0, datos, zonas, j, nuevos, fechaEnBD)
      modifies this
      ensures Valid() && Progress(datos0, zonas0, datos, zonas, j + 1, nuevos, fechaEnBD)
    {
      ghost var datosMid, zonasMid := datos, zonas;
      assert zonas[j] == zonas0[j];
      LookupExtend(datos0, datos, zonas0[j].datosDiarios);
      assert Registros(j) == Lookup(datos0, zonas0[j].datosDiarios);
      ReconcileZone(j, filas, fecha, fechaEnBD);
      ProgressStep(datos0, zonas0, datosMid, zonasMid, datos, zonas, j, nuevos, fechaEnBD);
    }

    /** The body of the 30-second `setInterval` tick, once the feed is fetched and parsed: take the
        date of the last row, stop if any record carries it, else reconcile every zone. */
    method Tick(filas: seq<FilaCsv>)
      requires Valid()
      modifies this
      ensures Valid()
      ensures filas == [] ==> datos == old(datos) && zonas == old(zonas)
      ensures filas != [] && HasFecha(old(datos), ConvertirFecha(filas[|filas| - 1].fecha)) ==>
        datos == old(datos) && zonas == old(zonas)
      ensures filas != [] && !HasFecha(old(datos), ConvertirFecha(filas[|filas| - 1].fecha)) ==>
        Reconciled(old(datos), old(zonas), datos, zonas,
                   filas, filas[|filas| - 1].fecha, ConvertirFecha(filas[|filas| - 1].fecha))
      ensures filas != [] && datos != old(datos) ==> HasFecha(datos, ConvertirFecha(filas[|filas| - 1].fecha))
    {
      if filas == [] {
        return;  // `Object.keys(datos[0])` throws; the error is only logged
      }
      var fecha := filas[|filas| - 1].fecha;
      var fechaEnBD := ConvertirFecha(fecha);
      if HasFecha(datos, fechaEnBD) {
        return;
      }
      ReconcileAll(filas, fecha, fechaEnBD);
      if datos != old(datos) {
        assert datos[|old(datos)|].fecha == fechaEnBD;
      }
    }

    /** Two ticks over the same feed: the second leaves the store as the first left it. */
    method TickTwice(filas: seq<FilaCsv>) returns (ghost datos1: seq<DatoDiario>, ghost zonas1: seq<ZonaSanitaria>)
      requires Valid()
      modifies this
      ensures Valid()
      ensures filas != [] && !HasFecha(old(datos), ConvertirFecha(filas[|filas| - 1].fecha)) ==>
        Reconciled(old(datos), old(zonas), datos1, zonas1,
                   filas, filas[|filas| - 1].fecha, ConvertirFecha(filas[|filas| - 1].fecha))
      ensures datos == datos1 && zonas == zonas1
    {
      ghost var datos0, zonas0 := datos, zonas;
      Tick(filas);
      datos1, zonas1 := datos, zonas;
      var stale := filas != [] && datos1 == datos0 && !HasFecha(datos0, ConvertirFecha(filas[|filas| - 1].fecha));
      if stale {
        var fecha := filas[|filas| - 1].fecha;
        ReconciledNothingStored(datos0, zonas0, zonas1, filas, fecha, ConvertirFecha(fecha));
      }
      Tick(filas);
      if stale {
        var fecha := filas[|filas| - 1].fecha;
        ReconciledNothingStored(datos1, zonas1, zonas, filas, fecha, ConvertirFecha(fecha));
      }
    }

    /** POST `/datosporfecha`: the per-zone step for one explicit CSV date, without the global check. */
    method DatosPorFecha(auth: string, fecha: string, filas: seq<FilaCsv>, secret: string) returns (r: Result<(), Error>)
      requires Valid()
      modifies this
      ensures Valid()
      ensures auth != secret ==> r == Failure(NoAccess) && datos == old(datos) && zonas == old(zonas)
      ensures auth == secret ==>
        r == Success(()) && Reconciled(old(datos), old(zonas), datos, zonas, filas, fecha, ConvertirFecha(fecha))
    {
      if auth != secret {
        return Failure(NoAccess);
      }
      ReconcileAll(filas, fecha, ConvertirFecha(fecha));
      r := Success(());
    }

    /** GET `/datosporzona`: the records of the first zone with code `code`. */
    method DatosPorZona(code: string) returns (r: Result<seq<DatoDiario>, Error>)
      requires Valid()
      ensures code == "" ==> r == Failure(MissingCode)
      ensures code != "" && FindByCode(zonas, code).None? ==> r == Failure(ZoneNotFound)
      ensures code != "" && FindByCode(zonas, code).Some? ==> r == Success(Registros(FindByCode(zonas, code).value))
    {
      if code == "" {
        return Failure(MissingCode);
      }
      var found := FindByCode(zonas, code);
      if found.None? {
        return Failure(ZoneNotFound);
      }
      r := Success(Lookup(datos, zonas[found.value].datosDiarios));
    }
  }
}
