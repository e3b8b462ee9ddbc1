/** The health zone (ZonaSanitaria) of model/ZonaSanitaria.js. */
module Zones {
  import opened Wrappers

  /** One ZonaSanitaria document; `datosDiarios` holds the ids of its daily records, oldest first. */
  datatype ZonaSanitaria = ZonaSanitaria(
    nombre: string,            // display name, matched against the CSV zone column
    code: string,              // identifier used by the HTTP surface; not declared unique
    habitantes: int,           // population, the incidence denominator
    datosDiarios: seq<nat>)    // references to DatoDiario documents

  /** What `save()` accepts: required strings refuse "", `habitantes` is required with `min: 0`. */
  predicate ValidZona(z: ZonaSanitaria)
  {
    z.nombre != "" && z.code != "" && z.habitantes >= 0
  }

  /** `zona.datosDiarios.push(id)`: the only way a zone's list ever changes. */
  function Push(z: ZonaSanitaria, id: nat): (r: ZonaSanitaria)
    ensures r.nombre == z.nombre && r.code == z.code && r.habitantes == z.habitantes
    ensures r.datosDiarios == z.datosDiarios + [id]
  {
    z.(datosDiarios := z.datosDiarios + [id])
  }

  /** The first zone at or after `from` whose code is `code`. */
  function FindByCodeFrom(zonas: seq<ZonaSanitaria>, code: string, from: nat): (r: Option<nat>)
    requires from <= |zonas|
    ensures r.Some? ==> from <= r.value < |zonas| && zonas[r.value].code == code
    ensures r.Some? ==> forall k :: from <= k < r.value ==> zonas[k].code != code
    ensures r.None? ==> forall k :: from <= k < |zonas| ==> zonas[k].code != code
    decreases |zonas| - from
  {
    if from == |zonas| then None
    else if zonas[from].code == code then Some(from)
    else FindByCodeFrom(zonas, code, from + 1)
  }

  /** `ZonaSanitaria.findOne({code})`: since codes may repeat, the first zone carrying it. */
  function FindByCode(zonas: seq<ZonaSanitaria>, code: string): (r: Option<nat>)
    ensures r.Some? ==> r.value < |zonas| && zonas[r.value].code == code
    ensures r.Some? ==> forall k :: 0 <= k < r.value ==> zonas[k].code != code
    ensures r.None? <==> forall k :: 0 <= k < |zonas| ==> zonas[k].code != code
  {
    FindByCodeFrom(zonas, code, 0)
  }
}
