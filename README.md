# covid-dashboard-api core, modelled in Dafny

covid-dashboard-api is a small Express/MongoDB service. It keeps daily COVID-19 records
(`DatoDiario`) for health zones (`ZonaSanitaria`) and derives two figures for each day: the new
cases and the 7- and 14-day cumulative incidence per 100,000 inhabitants. It gets its data from a
semicolon-separated feed published by the regional government. This project models the logic
behind that:

- the rolling-window sum `ultimosXDias`;
- the per-day derivation shared by four handlers;
- the history import of `/zonasanitaria`, a fold that clamps regressive cumulative counts;
- the `DD/MM/YYYY` → `YYYY-MM-DD 00:00:00` date conversion;
- the two Mongoose schemas, whose `required`/`min: 0` constraints become validity predicates that
  `save()` enforces;
- the store and its handlers: `/datodiario`, `/zonasanitaria`, the 30-second reconciler tick,
  `/datosporfecha` and `/datosporzona`.

Layout, one module per file:

- `wrappers.dfy`: `Option` and `Result`.
- `records.dfy`: the daily record and `ValidDato`.
- `zones.dfy`: the health zone, `ValidZona`, `push` and `findOne({code})`.
- `incidence.dfy`: the window sum, the derivation, and their lemmas.
- `dates.dfy`: JavaScript `split`/`join` and the date conversion.
- `csv.dfy`: parsed feed rows, plus `filter` and `find` over them.
- `history_import.dfy`: the history fold and the import loop.
- `store.dfy`: the class `Almacen`, which holds both collections. Its methods are the handlers.

The store keeps its records in a sequence, and a record's id is its position in it. Each zone
holds the ids of its records. The invariant `Valid()` says five things:

- every stored record and zone passes `save()`;
- every id resolves;
- no record belongs to two zones;
- each zone's ids increase, so its list order is the order in which its records were stored;
- in that order, each record's cumulative count is its new cases on top of the cumulative count
  of the zone's record before it (`Telescopes`). Every handler that stores a record derives it
  from the zone's earlier records, and it keeps this chain.

Because each callback of the reconciler's concurrent `zonas.map` touches only its own zone, the
model runs the callbacks as one sequential pass.

Numbers are unbounded integers and exact reals: `ia = (casos * 100000) / habitantes`. The store
methods take explicit parameters for the things the service reads from outside:

- the shared secret (`process.env.AUTH`) is `secret`;
- the parsed feed rows are `filas`.

## Model

| member | source | states |
|---|---|---|
| Records.ValidDato | model/DatoDiario.js:6-31 | The four numbers are at least 0 and the given date is non-empty. This is what `save()` and `insertMany` accept of a record built with a date (the schema's default date is not modelled). |
| Zones.ValidZona | model/ZonaSanitaria.js:6-19 | The name and code are non-empty and the population is at least 0. This is what a zone's `save()` accepts. |
| Zones.Push | model/ZonaSanitaria.js:20-22 | `datosDiarios.push(id)` appends the id at the end and leaves name, code and population unchanged. |
| Zones.FindByCodeFrom | index.js:68 | The first zone at or after `from` carrying the code, or None when no later zone carries it. |
| Zones.FindByCode | index.js:68 | `findOne({code})` (codes are not unique) returns the first zone with that code. It returns None exactly when no zone has it. |
| Incidence.Sum | index.js:56-57 | Definition: the total of `infectadosHoy`, added front to back as the `map` callback accumulates it. |
| Incidence.Window | index.js:55 | Definition: `slice(-x)` through `SliceStart`. What it keeps is stated by `Incidence.WindowIsLastN`. |
| Incidence.WindowIsLastN | index.js:55 | `slice(-x)` keeps the last `min(n, x)` records for x > 0, all of them for x = 0, and drops the first `-x` for x < 0. |
| Incidence.UltimosXDias | index.js:54-59 | The loop returns the sum of new cases over `slice(-x)`. That is the last `min(n, x)` records for x > 0, all of them for x = 0, 0 for no records, and never negative over non-negative records. |
| Incidence.SumAppend | index.js:57 | The sum over a concatenation is the sum of the two sums. |
| Incidence.SumNonNegative | model/DatoDiario.js:7-10 | The sum over records with non-negative new cases is non-negative. |
| Incidence.SumSuffixMonotone | index.js:55-57 | A longer suffix of non-negative records has at least as large a sum. |
| Incidence.Rate | index.js:73-74 | Definition: `cases * 100000 / habitantes`, computed exactly. |
| Incidence.RateMonotone | index.js:73-74 | For a positive population, the incidence rate does not decrease as the case count grows. |
| Incidence.RateNegativePopulation | index.js:115-116 | For a negative population, a non-negative case count gives a non-negative rate if and only if it is 0 (`0 * 100000 / -h` is `-0`, which `min: 0` accepts). |
| Incidence.SliceStart | index.js:55 | The start index of JavaScript `slice(start)` stays within the array. |
| Incidence.LastN | index.js:55 | The last `n` records, of length `min(len, n)`. |
| Incidence.Acumulado | index.js:110 | Definition: the last prior cumulative count, 0 with no prior record (`acumuladosAyer`). |
| Incidence.Telescopes | index.js:70-75 | Definition of the chain invariant: every record's cumulative count is its new cases plus the cumulative count of the record before it (0 before the first). |
| Incidence.TelescopesSnoc | index.js:70-75 | Appending a record whose new cases close the gap to the list's last cumulative count keeps the chain. |
| Incidence.TelescopesNonDecreasing | index.js:70-75 | In a chained list with no negative new cases, no cumulative count is below the one before it. |
| Incidence.TelescopesSum | index.js:70-75 | The new cases of a chained list add up to its last cumulative count. |
| Incidence.Derive | index.js:70-76 | The derived record stores today's cumulative count. Its new cases are today's count minus the last prior cumulative count, or 0 prior when there is none, and it carries the given date. |
| Incidence.DeriveDato | index.js:70-76 | Running the derivation with the two window loops gives exactly `Derive`. |
| Incidence.WindowsIncludeToday | index.js:71-74 | `ia7` and `ia14` are the rates over the last 7 and 14 records including today's. |
| Incidence.WindowPlusToday | index.js:71-72 | The sum of the last n+1 records after appending today equals the window of n prior records plus today's cases. |
| Incidence.WindowNonNegative | index.js:71-72 | Over records that passed `save()`, every `slice(-x)` window has a non-negative sum. |
| Incidence.DerivedValidIff | index.js:76-77 | Over valid prior records, the derived record passes `save()` if and only if today's count is not below the last cumulative count and the date is present. |
| Incidence.Ia14AtLeastIa7 | index.js:71-74 | Over valid prior records, the 14-day incidence is at least the 7-day incidence. |
| Dates.Split | index.js:108 | JavaScript `split` yields at least one part, and no part contains the separator. |
| Dates.JoinSplit | index.js:108 | Joining the parts of a split with the separator gives back the string. |
| Dates.SplitNoSeparator | index.js:108 | Splitting a string without the separator yields the string alone. |
| Dates.SplitAfterPrefix | index.js:108 | Splitting `a + sep + b` gives `a` followed by the parts of `b`, when `a` has no separator. |
| Dates.SplitJoin | index.js:108 | Splitting a join of separator-free parts gives back the parts. |
| Dates.JoinThree | index.js:109 | Joining three parts puts one separator between each pair. |
| Dates.Campo | index.js:109 | Definition: `campos[k]`, or the text `undefined` that concatenation gives past the end. |
| Dates.ConvertirFecha | index.js:108-109 | The converted date always ends in ` 00:00:00`. |
| Dates.ConvertirFechaReorders | index.js:108-109 | `DD/MM/YYYY hh:mm` and a bare `DD/MM/YYYY` both become `YYYY-MM-DD 00:00:00`. |
| Dates.ConvertirFechaInjective | index.js:187-188 | Two well-formed feed dates convert to the same stored date only when their day, month and year agree. |
| Dates.CanonicalSplits | index.js:109 | The converted date splits on `-` back into year, month and day-plus-time. |
| Csv.FilasDeZona | index.js:107 | Filtering by zone keeps only rows of that zone and never adds rows. |
| Csv.FilasDeZonaConcat | index.js:107 | Filtering commutes with concatenation, so the kept rows stay in file order. |
| Csv.FilasDeZonaKeeps | index.js:107 | A row is kept if and only if it is in the file and names the zone. |
| Csv.Matches | index.js:199 | Definition: the `find` predicate, which compares the row's date and zone name. |
| Csv.FindFilaFrom | index.js:199 | The first row at or after `from` matching both date and zone name, or None when none matches. |
| Csv.FindFila | index.js:199 | `datos.find` returns the first row matching both date and zone name. It returns None exactly when no row matches. |
| HistoryImport.Max | index.js:111 | Definition: `Math.max` of two integers. |
| HistoryImport.Paso | index.js:110-117 | One import step clamps the cumulative count to `max(row, previous)`, previous being 0 at first. It never yields negative new cases, its new cases close the gap to the previous count, and it stores the converted date. |
| HistoryImport.Historico | index.js:106-119 | The fold yields one record per kept row. |
| HistoryImport.RunningMax | index.js:110-111 | The running maximum of the rows' counts starts at 0 and is never negative. |
| HistoryImport.HistoricoSnoc | index.js:118 | Visiting one more row pushes one record, derived from the records before it. |
| HistoryImport.HistoricoFechas | index.js:108-109 | Every imported record carries the converted date of its row. |
| HistoryImport.HistoricoClamp | index.js:110-111 | Each imported cumulative count is at least the one before it. |
| HistoryImport.ChainNonDecreasing | index.js:111 | Counts that never drop between neighbouring records never drop at all. |
| HistoryImport.HistoricoNonNegative | index.js:111-112 | Whatever the population, no imported record has negative new cases. |
| HistoryImport.ZeroHistoryStep | index.js:110-117 | With a negative population, after records without cases, the next record is valid if and only if its row carries no case. |
| HistoryImport.NegativePopulationHistory | index.js:106-120 | With a negative population, the whole history passes `insertMany`'s validation if and only if no row's count is positive. |
| HistoryImport.PasoDato | index.js:108-117 | The `map` callback's body, with its two window loops, computes exactly one import step. |
| HistoryImport.HistoricoPrefix | index.js:118 | The fold's first k records are the fold of the first k rows: each record depends only on the rows before it. |
| HistoryImport.HistoricoStep | index.js:110-118 | Record i is the step applied to the records before it. |
| HistoryImport.HistoricoChains | index.js:110-112 | The imported history is chained: each record's new cases sit on top of the cumulative count before it. |
| HistoryImport.HistoricoAcumulado | index.js:110-111 | The last cumulative count of the history is the running maximum of the rows' counts (0 for none). |
| HistoryImport.HistoricoNonDecreasing | index.js:111 | The cumulative counts of the imported history never decrease. |
| HistoryImport.HistoricoValid | index.js:120 | Every imported record passes the schema, so `insertMany` accepts the whole history. |
| HistoryImport.HistoricoTelescopes | index.js:112 | The new cases of the history sum to its last cumulative count. |
| HistoryImport.ClampedRegression | index.js:111-112 | A row whose count fell below the previous one (say 90 after 100) keeps the previous count and has 0 new cases. |
| HistoryImport.ImportarHistorico | index.js:106-119 | The import loop computes exactly the fold over the zone's rows. It returns one record per kept row, each with the converted date of its row, all valid when the population is positive. |
| Store.Lookup | index.js:202 | One record per id, each the record that id names. Taking them in id-list order is an assumption of the model: an unsorted `$in` query promises no order. `Store.Increasing`, kept by `Valid()`, makes id-list order the order of storing (see the first `Store.Almacen.AddDatoDiario` line under "Left out"). |
| Store.Increasing | index.js:120-121 | Definition: each id of a zone's list is larger than the ones before it, as ids handed out in storing order are. |
| Store.HasFecha | index.js:189-197 | Definition: some record carries exactly this date string (`find({fecha})` non-empty); see the `Store.HasFecha` line under "Left out". |
| Store.LookupExtend | index.js:202 | Storing more records does not change what existing ids resolve to. |
| Store.LookupPush | index.js:211 | Pushing an id adds its record at the end of the zone's records. |
| Store.Ids | index.js:120-121 | `insertMany` of m records hands out the m consecutive ids after the existing ones. |
| Store.LookupInserted | index.js:120-121 | The ids `insertMany` hands out resolve to the inserted records, in order. |
| Store.PushKeepsDisjoint | index.js:211 | Pushing a fresh id keeps every record owned by one zone. |
| Store.AppendKeepsDisjoint | index.js:121-122 | Adding a zone over freshly inserted ids keeps every record owned by one zone. |
| Store.StoreValid | index.js:120-122 | Definition of the invariant `Valid()`: every record valid, each zone valid with in-range, increasing ids whose records are chained (`Incidence.Telescopes`), and no record owned twice. |
| Store.InsertKeepsValid | index.js:120 | `insertMany` of valid records keeps the store valid: existing zones still resolve to the same records. |
| Store.AddZoneKeepsValid | index.js:121-122 | Saving a valid zone over the freshly inserted ids, whose records are chained, keeps the store valid. |
| Store.PushKeepsValid | index.js:209-212 | Storing a valid record for one zone, derived from that zone's records, and pushing its id keeps the store valid, chain included; the zone's records gain it at the end. |
| Store.ZoneNonDecreasing | index.js:209-211 | In a valid store, within each zone in list order, no cumulative count is below an earlier one. |
| Store.ZoneSum | index.js:209-211 | In a valid store, a zone's new cases add up to the cumulative count of its last record. |
| Store.DatoDiarioOutcome | index.js:70-83 | A successful `/datodiario` record is valid, carries the given date and cumulative count, and its new cases close the gap to the last record. |
| Store.DatoDiarioAccepted | index.js:76-83 | `/datodiario` succeeds if and only if the count did not go back and the date is present (given a populated zone). |
| Store.Nuevo | index.js:196-212 | Whatever a zone's reconciler step adds is valid and carries `fechaEnBD`. It adds only if the zone lacked that date and a row matched, and the record's count is that row's. |
| Store.NuevoIff | index.js:196-212 | A zone gains a record if and only if all of these hold: it lacks the date, a row matches date and name, it has inhabitants, the count did not go back, and the date is present. |
| Store.NuevoIdempotent | index.js:196-197 | Running a zone's step again after it added its record adds nothing. |
| Store.Additions | index.js:195-218 | The reconciler's additions come one list per zone, in zone order. |
| Store.ZoneReconciledExtend | index.js:195 | Records stored for other zones do not disturb a reconciled zone. |
| Store.ProgressStep | index.js:195-218 | Each zone's step extends the pass invariant from the first j zones to the first j + 1. The invariant says that the records stored are exactly the zones' gains in zone order. |
| Store.ZoneNothingStored | index.js:197 | A zone that gained nothing is left exactly as it was. |
| Store.ReconciledNothingStored | index.js:189-218 | A pass that stored no record left every zone unchanged, and no zone had anything to add. |
| Store.ReconciledZoneOutcome | index.js:196-212 | After a pass, each zone keeps its metadata. A zone that had the date is untouched. Otherwise it gains exactly one record if and only if a row matched its name, it has inhabitants, and the count did not go back. |
| Store.Almacen.constructor | index.js:7-8 | The two collections start empty and valid. |
| Store.Almacen.Registros | index.js:202 | A zone's records are as many as its ids, all of them valid, and chained. |
| Store.Almacen.AddDatoDiario | index.js:62-84 | Refuses a wrong secret and an unknown code. Otherwise the answer is the derivation's outcome for the first zone with the code. On success the record is appended to the store and to that zone's list, and nothing else changes. |
| Store.Almacen.CreateZona | index.js:92-128 | Refuses a wrong secret. It imports the zone's history. If a record fails validation, `insertMany` stores nothing. Otherwise it inserts the history, then saves the zone referring to exactly those records, or refuses the zone for an empty name or code or a negative population (leaving the inserted records behind). For a positive population the history is always inserted. |
| Store.Almacen.ReconcileZone | index.js:196-215 | One zone's callback appends exactly `Nuevo`'s record to the store and to that zone, and changes nothing else. |
| Store.Almacen.ReconcileNext | index.js:195-218 | One zone's callback inside a pass keeps the store valid and extends the pass invariant by that zone. |
| Store.Almacen.ReconcileAll | index.js:195-218 | A sequential pass over all zones gives exactly the `Reconciled` state: each zone gains its `Nuevo` record, and the records stored are exactly those gains in zone order. |
| Store.Almacen.Tick | index.js:183-218 | An empty feed changes nothing. If any record already carries the last row's date, nothing changes. Otherwise every zone is reconciled for that date, and anything stored carries it. |
| Store.Almacen.TickTwice | index.js:164-218 | A second tick over the same feed leaves the store as the first left it. |
| Store.Almacen.DatosPorFecha | index.js:232-270 | Refuses a wrong secret. Otherwise it answers OK and reconciles every zone for the given date, without the global "date present" check. |
| Store.Almacen.DatosPorZona | index.js:131-143 | A missing code gives a 500 error and an unknown code a 404. Otherwise the answer is the records of the first zone with that code. |

## Left out

- HTTP (Express routing, CORS, JSON bodies), MongoDB connections, multer uploads, `fs` reads and writes, `iconv` decoding, the axios fetch, the `setInterval` timer and CSV parsing are all I/O. The feed arrives as already-parsed rows. The tick's `columnas[1]`, `[4]` and `[5]` are taken to be the `Fecha`, `Zona Básica` and `Casos acumulados` columns.
- Store.Almacen.AddDatoDiario: does not apply the `.sort({fecha: 1})` of index.js:69. The zone's records are taken in `datosDiarios` (insertion) order, as the reconciler's unsorted query at index.js:202 takes them. The two orders agree only when records are added in date order, and `/datodiario` does not enforce that: it stores whatever `fecha` the request carries. After a back-dated `/datodiario`, the source's sort takes the newest-dated record as the previous day, while the model takes the back-dated one, so the `infectadosHoy` both derive differ.
- Store.Almacen.DatosPorZona: answers in `datosDiarios` order, instead of the `.sort({fecha: 1})` of index.js:138.
- Incidence.Derive: requires a non-zero population. For a zone with 0 inhabitants (which the schema allows), `/datodiario` answers `ZeroPopulation` and the reconciler adds nothing. The source instead divides by zero. When the window has cases, it gets `ia7 = Infinity`, which passes `min: 0`, and stores that record. It gets `NaN`, which Mongoose's Number cast refuses, only when the window has no cases.
- Store.Almacen.CreateZona: a population of exactly 0 is refused with `ZeroPopulation` before the import, for the same reason. The source would import the history with `Infinity` rates, or refuse it when a `NaN` rate occurs. A negative population is modelled exactly: the import runs, and then the zone save fails.
- Floating-point division and rounding of `ia7`/`ia14` are not modelled; the rates are exact reals.
- Store.HasFecha: compares date strings exactly. In the source, `find({fecha: ...})` casts both sides to a Date and compares instants. So `2021-03-05 00:00:00` and `2021-3-5 00:00:00` are the same date to the source and two dates to the model. As a result, Store.Almacen.ReconcileZone and Store.Almacen.Tick can store a second record for a day that the source would find already present, when a record stored through `/datodiario` spells that day differently (`2020-10-13T00:00:00`, say), or when the feed writes one day two ways (`1/10/2020` and `01/10/2020` convert to different strings).
- The Date cast: `fecha` is kept as the string handed to Mongoose. Only the empty string is refused, and a string the Date parser rejects is not modelled.
- Records.ValidDato: the `default: new Date()` of model/DatoDiario.js:30 is not modelled. A `/datodiario` body without `fecha` is saved in the source with the date at which the server started. In the model, every record is built with a given date string.
- Store.Almacen.constructor: the service connects to an existing database (index.js:39-44). The model starts from empty collections, and it reaches only states that the modelled handlers build.
- The reconciler reads the feed's cumulative count as a string (index.js:201, 254), so `ultimosXDias(...) + infectadosHoy` with no prior records concatenates digits before `* 100000` coerces them back. Cumulative counts are modelled as integers. This gives the same numbers for the non-negative counts the feed carries, but it does not reproduce string concatenation.
- The concurrency of `zonas.map(async ...)` is not modelled. The callbacks run as one sequential pass in zone order, and the disjoint ownership of records makes their order irrelevant to the result.
- Store.Almacen.Tick: the global check at index.js:189-192 skips the whole pass once any record carries the date. A zone whose row appeared in a later download for a date already stored elsewhere therefore never gets it from the tick. The model reproduces this and does not prove anything about it.
- Store.Almacen.AddDatoDiario: `/datodiario` does not check for an existing record with the same date, and the model does not either.
- Store.Almacen.DatosPorFecha: the save at index.js:262 is outside any try/catch, so a refused record makes that zone's callback reject unhandled. The model adds nothing to that zone, as it does in the tick.
- Store.Almacen.CreateZona: when `insertMany` or the zone save fails, the source's `.then` callback rejects unhandled and no response is sent. The model answers `InvalidRecord` or `InvalidZone`. The model takes `insertMany` to run with Mongoose's default `ordered` mode, in which one invalid document makes the whole call fail before anything is inserted.
- `/zonas` and `/datosdiarios` (index.js:48-51, 146-149) are read-only listings whose only logic is a database sort. They are not modelled.
- `/actualizarfichero` (index.js:152-158) only re-encodes a file and is not modelled.
