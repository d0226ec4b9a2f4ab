/**
 * The aggregation in the collection service: `calcularHistorialStats`,
 * which summarises the sales history, the getters' fallback to an empty
 * list, and the counters `getDashboardStatsRealtime` computes over what
 * its six getters return.
 */
module FirebaseCollections {
  import opened Wrappers
  import opened Text
  import opened Seqs
  import opened Sorting
  import opened Dictionary
  import opened Types
  import opened Tallies

  /** `rutaCount[h.paradaNombre]`: every record is filed, with no emptiness check. */
  function RouteKey(h: Historial): Option<string> {
    Some(JsKey(h.paradaNombre))
  }

  /** `if (h.fechaSalida) diaCount[h.fechaSalida]`. */
  function DayKey(h: Historial): Option<string> {
    if Truthy(h.fechaSalida) then h.fechaSalida else None
  }

  /** `if (h.horaSalida) horaCount[h.horaSalida]`. */
  function HourKey(h: Historial): Option<string> {
    if Truthy(h.horaSalida) then h.horaSalida else None
  }

  /** `gananciaBus[h.numeroBus]`: every record is filed. */
  function BusKey(h: Historial): Option<string> {
    Some(JsKey(h.numeroBus))
  }

  predicate IsEfectivo(h: Historial) {
    h.metodoPago == Some("efectivo")
  }

  predicate IsTransferencia(h: Historial) {
    h.metodoPago == Some("transferencia")
  }

  /** `entries[0]?.[0] || 'N/A'`. */
  function KeyOrNA(top: Option<Entry<int>>): string {
    if top.Some? && top.value.key != "" then top.value.key else "N/A"
  }

  /** `entries[0] || ['N/A', 0]`: an entry array is truthy even when its key is empty. */
  function EntryOrNA(top: Option<Entry<int>>): Entry<int> {
    if top.Some? then top.value else Entry("N/A", 0)
  }

  /** `.map(([bus, ganancia]) => ({ bus, ganancia }))`. */
  function ToRevenues(d: seq<Entry<int>>): (r: seq<BusRevenue>)
    ensures |r| == |d|
    ensures forall i :: 0 <= i < |d| ==> r[i] == BusRevenue(d[i].key, d[i].value)
  {
    if d == [] then [] else [BusRevenue(d[0].key, d[0].value)] + ToRevenues(d[1..])
  }

  function BusOf(b: BusRevenue): string {
    b.bus
  }

  function Ganancia(b: BusRevenue): int {
    b.ganancia
  }

  /** The comparator `(a, b) => b.ganancia - a.ganancia`. */
  predicate ByGananciaDesc(a: BusRevenue, b: BusRevenue) {
    a.ganancia >= b.ganancia
  }

  lemma ByGananciaDescPreorder()
    ensures TotalPreorder(ByGananciaDesc)
  {
  }

  /** `Object.entries(gananciaBus).map(...).sort((a, b) => b.ganancia - a.ganancia)`. */
  function RevenueRanking(d: seq<Entry<int>>): (r: seq<BusRevenue>)
    ensures |r| == |d| && multiset(r) == multiset(ToRevenues(d))
    ensures Sorted(r, ByGananciaDesc)
  {
    ByGananciaDescPreorder();
    SortBy(ToRevenues(d), ByGananciaDesc)
  }

  /** What `calcularHistorialStats(historial)` returns. */
  function Stats(h: seq<Historial>): HistorialStats {
    var ruta := EntryOrNA(MostFrequent(Group(Pairs(h, RouteKey, One))));
    HistorialStats(
      rutaMasDemandada := ruta.key,
      rutaCount := ruta.value,
      diaMasVendido := KeyOrNA(MostFrequent(Group(Pairs(h, DayKey, One)))),
      horaMasVendida := KeyOrNA(MostFrequent(Group(Pairs(h, HourKey, One)))),
      metodoPagoEfectivo := Count(h, IsEfectivo),
      metodoPagoTransferencia := Count(h, IsTransferencia),
      gananciaPorBus := RevenueRanking(Group(Pairs(h, BusKey, PrecioOrZero))))
  }

  /**
   * `calcularHistorialStats`: four `forEach` loops fill the route, day, hour
   * and bus dictionaries in place; the rest is sorting and filtering.
   */
  method CalcularHistorialStats(h: seq<Historial>) returns (s: HistorialStats)
    ensures s == Stats(h)
  {
    var rutaCount := GroupRecords(h, RouteKey, One);
    var rutaMasDemandada := EntryOrNA(MostFrequent(rutaCount));
    var diaCount := GroupRecords(h, DayKey, One);
    var horaCount := GroupRecords(h, HourKey, One);
    var gananciaBus := GroupRecords(h, BusKey, PrecioOrZero);
    s := HistorialStats(
      rutaMasDemandada := rutaMasDemandada.key,
      rutaCount := rutaMasDemandada.value,
      diaMasVendido := KeyOrNA(MostFrequent(diaCount)),
      horaMasVendida := KeyOrNA(MostFrequent(horaCount)),
      metodoPagoEfectivo := Count(h, IsEfectivo),
      metodoPagoTransferencia := Count(h, IsTransferencia),
      gananciaPorBus := RevenueRanking(gananciaBus));
  }

  /** Every record is counted under its route, so the route counts add up to the history's length. */
  lemma RouteCountsSumToLength(h: seq<Historial>)
    ensures Total(Group(Pairs(h, RouteKey, One))) == |h|
  {
    TotalPairs(h, RouteKey, One);
    RevenueOne(h, RouteKey, "");
    TalliedAll(h, RouteKey, One);
  }

  /**
   * The most requested route is a route with the largest number of sales,
   * and `rutaCount` is that number; an empty history gives `'N/A'` and 0.
   */
  lemma StatsRoute(h: seq<Historial>)
    ensures h == [] ==> Stats(h).rutaMasDemandada == "N/A" && Stats(h).rutaCount == 0
    ensures h != [] ==> Stats(h).rutaCount == Tally(h, RouteKey, Stats(h).rutaMasDemandada) >= 1
    ensures h != [] ==> exists i :: 0 <= i < |h| && JsKey(h[i].paradaNombre) == Stats(h).rutaMasDemandada
    ensures forall k :: Tally(h, RouteKey, k) <= Stats(h).rutaCount
  {
    TopOfTally(h, RouteKey);
    TalliedAll(h, RouteKey, One);
    var s := Stats(h);
    if h != [] {
      TallyWitness(h, RouteKey, s.rutaMasDemandada);
    } else {
      forall k ensures Tally(h, RouteKey, k) <= s.rutaCount {
        TallyBelowTallied(h, RouteKey, k);
      }
    }
  }

  /**
   * The name of a count tally: `'N/A'` exactly when no record is filed,
   * otherwise a key of some filed record whose count no other key exceeds.
   */
  lemma TopLabel(h: seq<Historial>, key: Historial -> Option<string>)
    requires forall x :: key(x) != Some("")
    ensures var name := KeyOrNA(MostFrequent(Group(Pairs(h, key, One))));
      && (Tallied(h, key) == 0 ==> name == "N/A")
      && (Tallied(h, key) > 0 ==> exists i :: 0 <= i < |h| && key(h[i]) == Some(name))
      && (Tallied(h, key) > 0 ==> forall k :: Tally(h, key, k) <= Tally(h, key, name))
  {
    TopOfTally(h, key);
    var t := MostFrequent(Group(Pairs(h, key, One)));
    if t.Some? {
      TallyWitness(h, key, t.value.key);
    }
  }

  /** The busiest day: a date with the most sales, or `'N/A'` when no sale has a date. */
  lemma StatsDay(h: seq<Historial>)
    ensures Tallied(h, DayKey) == 0 ==> Stats(h).diaMasVendido == "N/A"
    ensures Tallied(h, DayKey) > 0 ==>
      exists i :: 0 <= i < |h| && Truthy(h[i].fechaSalida) && h[i].fechaSalida.value == Stats(h).diaMasVendido
    ensures Tallied(h, DayKey) > 0 ==> forall k :: Tally(h, DayKey, k) <= Tally(h, DayKey, Stats(h).diaMasVendido)
  {
    TopLabel(h, DayKey);
  }

  /** The busiest hour: an hour with the most sales, or `'N/A'` when no sale has an hour. */
  lemma StatsHour(h: seq<Historial>)
    ensures Tallied(h, HourKey) == 0 ==> Stats(h).horaMasVendida == "N/A"
    ensures Tallied(h, HourKey) > 0 ==>
      exists i :: 0 <= i < |h| && Truthy(h[i].horaSalida) && h[i].horaSalida.value == Stats(h).horaMasVendida
    ensures Tallied(h, HourKey) > 0 ==> forall k :: Tally(h, HourKey, k) <= Tally(h, HourKey, Stats(h).horaMasVendida)
  {
    TopLabel(h, HourKey);
  }

  /** Cash and transfer sales are exact matches of one field, so together they are at most all sales. */
  lemma StatsPayments(h: seq<Historial>)
    ensures Stats(h).metodoPagoEfectivo + Stats(h).metodoPagoTransferencia <= |h|
  {
    CountDisjoint(h, IsEfectivo, IsTransferencia);
  }

  /** A grouped dictionary mapped to `{ bus, ganancia }` objects names each bus once. */
  lemma ToRevenuesDistinct(d: seq<Entry<int>>)
    requires DistinctKeys(d)
    ensures DistinctBy(ToRevenues(d), BusOf)
  {
    var r := ToRevenues(d);
    forall i, j | 0 <= i < j < |r| ensures BusOf(r[i]) != BusOf(r[j]) {
      DistinctKeysAt(d, i, j);
    }
  }

  lemma {:induction false} ToRevenuesSum(d: seq<Entry<int>>)
    ensures SumBy(ToRevenues(d), Ganancia) == Total(d)
    decreases |d|
  {
    if d != [] {
      ToRevenuesSum(d[1..]);
    }
  }

  /**
   * A revenue tally mapped to `{ bus, ganancia }` objects and sorted: one
   * entry per key some record is filed under, and only for such keys, each holding the summed weight
   * of that key's records, ordered by non-increasing revenue, adding up to the
   * weight of every filed record.
   */
  lemma RankingOfTally(h: seq<Historial>, key: Historial -> Option<string>, weight: Historial -> int)
    ensures var r := RevenueRanking(Group(Pairs(h, key, weight)));
      && DistinctBy(r, BusOf)
      && Sorted(r, ByGananciaDesc)
      && (forall j :: 0 <= j < |r| ==> r[j].ganancia == Revenue(h, key, weight, r[j].bus))
      && (forall j :: 0 <= j < |r| ==> Tally(h, key, r[j].bus) > 0)
      && (forall i :: 0 <= i < |h| && key(h[i]).Some? ==> exists j :: 0 <= j < |r| && Some(r[j].bus) == key(h[i]))
      && SumBy(r, Ganancia) == TalliedRevenue(h, key, weight)
  {
    var pairs := Pairs(h, key, weight);
    var d := Group(pairs);
    var m := ToRevenues(d);
    var r := RevenueRanking(d);
    ByGananciaDescPreorder();
    ToRevenuesDistinct(d);
    SortByDistinct(m, ByGananciaDesc, BusOf);
    forall j | 0 <= j < |r|
      ensures r[j].ganancia == Revenue(h, key, weight, r[j].bus) && Tally(h, key, r[j].bus) > 0
    {
      PermutationMember(r, m, j);
      var n :| 0 <= n < |m| && m[n] == r[j];
      GroupEntry(pairs, n);
      WeightOfPairs(h, key, weight, d[n].key);
      KeysPairs(h, key, weight, d[n].key);
    }
    forall i | 0 <= i < |h| && key(h[i]).Some? ensures exists j :: 0 <= j < |r| && Some(r[j].bus) == key(h[i]) {
      var k := key(h[i]).value;
      TallyPositive(h, key, k, i);
      KeysPairs(h, key, weight, k);
      KeyMember(d, k);
      var n :| 0 <= n < |d| && d[n].key == k;
      assert m[n] in multiset(r);
      var j :| 0 <= j < |r| && r[j] == m[n];
    }
    SortBySum(m, ByGananciaDesc, Ganancia);
    ToRevenuesSum(d);
    TotalPairs(h, key, weight);
  }

  /**
   * Revenue per bus: one entry per distinct bus number of the history, and
   * no entry for any other bus, each holding the sum
   * of `precio || 0` over that bus's sales, ordered by non-increasing revenue,
   * adding up to the revenue of the whole history.
   */
  lemma StatsGananciaPorBus(h: seq<Historial>)
    ensures var r := Stats(h).gananciaPorBus;
      && DistinctBy(r, BusOf)
      && Sorted(r, ByGananciaDesc)
      && (forall j :: 0 <= j < |r| ==> r[j].ganancia == Revenue(h, BusKey, PrecioOrZero, r[j].bus))
      && (forall j :: 0 <= j < |r| ==> Tally(h, BusKey, r[j].bus) > 0)
      && (forall i :: 0 <= i < |h| ==> exists j :: 0 <= j < |r| && r[j].bus == JsKey(h[i].numeroBus))
      && SumBy(r, Ganancia) == SumBy(h, PrecioOrZero)
  {
    RankingOfTally(h, BusKey, PrecioOrZero);
    TalliedAll(h, BusKey, PrecioOrZero);
  }

  /** Every bus in the revenue ranking is the bus number of some sale: no bus appears with a phantom revenue of 0. */
  lemma RankedBusHasSale(h: seq<Historial>, j: int)
    requires 0 <= j < |Stats(h).gananciaPorBus|
    ensures exists i :: 0 <= i < |h| && JsKey(h[i].numeroBus) == Stats(h).gananciaPorBus[j].bus
  {
    var b := Stats(h).gananciaPorBus[j].bus;
    StatsGananciaPorBus(h);
    TallyWitness(h, BusKey, b);
    var i :| 0 <= i < |h| && BusKey(h[i]) == Some(b);
  }

  /**
   * A collection getter (`getUsuariosRegistrados`, `getBusesLaEsperanza`,
   * …): the documents of a successful `getDocs`, and `[]` from its own
   * `catch` when the read fails, so the getter never rejects.
   */
  function ReadOrEmpty<T>(read: Result<seq<T>, string>): seq<T> {
    match read
    case Ok(docs) => docs
    case Err(_) => []
  }

  /** The outcomes of the six `getDocs` reads behind `getDashboardStatsRealtime` and `fetchInitialData`. */
  datatype Reads = Reads(
    usuarios: Result<seq<UsuarioRegistrado>, string>,
    busesEsperanza: Result<seq<Bus>, string>,
    busesTulcan: Result<seq<Bus>, string>,
    conductores: Result<seq<Conductor>, string>,
    encomiendas: Result<seq<Encomienda>, string>,
    historial: Result<seq<Historial>, string>)

  /** The six lists the getters return. */
  datatype Collections = Collections(
    usuarios: seq<UsuarioRegistrado>,
    busesEsperanza: seq<Bus>,
    busesTulcan: seq<Bus>,
    conductores: seq<Conductor>,
    encomiendas: seq<Encomienda>,
    historial: seq<Historial>)

  /** What `Promise.all` over the six getters resolves to: it never rejects, since each getter catches its own failure. */
  function Fetched(results: Reads): Collections {
    Collections(ReadOrEmpty(results.usuarios), ReadOrEmpty(results.busesEsperanza), ReadOrEmpty(results.busesTulcan),
      ReadOrEmpty(results.conductores), ReadOrEmpty(results.encomiendas), ReadOrEmpty(results.historial))
  }
  predicate IsConectado(u: UsuarioRegistrado) {
    u.estado == "conectado"
  }

  predicate IsDesconectado(u: UsuarioRegistrado) {
    u.estado == "desconectado"
  }

  predicate IsActiveBus(b: Bus) {
    b.activo
  }

  predicate IsInactiveBus(b: Bus) {
    !b.activo
  }

  /** `c.activo` as a condition: only an explicit `true` passes. */
  predicate IsActiveDriverTruthy(c: Conductor) {
    c.activo == Some(true)
  }

  predicate IsPendiente(e: Encomienda) {
    e.estado == Some("pendiente")
  }

  predicate IsEnTransito(e: Encomienda) {
    e.estado == Some("en_transito")
  }

  predicate IsEntregado(e: Encomienda) {
    e.estado == Some("entregado")
  }

  /**
   * The record of the `catch` in `getDashboardStatsRealtime`. A failed read
   * does not reach it: each getter catches its own failure and returns `[]`
   * (see `AllReadsFailed`).
   */
  function ZeroDashboard(): DashboardStats {
    DashboardStats(0, 0, 0, 0, 0, 0, EncomiendaCounts(0, 0, 0), 0)
  }

  /** The counters `getDashboardStatsRealtime` computes over the six lists. */
  function DashboardCounters(c: Collections): (r: DashboardStats)
    ensures r.totalUsuarios == |c.usuarios|
    ensures r.usuariosConectados == Count(c.usuarios, IsConectado)
    ensures r.usuariosDesconectados == Count(c.usuarios, IsDesconectado)
    ensures r.usuariosConectados + r.usuariosDesconectados <= r.totalUsuarios
    ensures r.busesActivos == Count(c.busesEsperanza + c.busesTulcan, IsActiveBus)
    ensures r.busesActivos + r.busesInactivos == |c.busesEsperanza| + |c.busesTulcan|
    ensures r.conductoresActivos == Count(c.conductores, IsActiveDriverTruthy) <= |c.conductores|
    ensures r.encomiendas == EncomiendaCounts(Count(c.encomiendas, IsPendiente),
      Count(c.encomiendas, IsEnTransito), Count(c.encomiendas, IsEntregado))
    ensures r.encomiendas.pendientes + r.encomiendas.enTransito + r.encomiendas.entregadas <= |c.encomiendas|
    ensures r.ingresosTotales == SumBy(c.historial, PrecioOrZero)
  {
    var allBuses := c.busesEsperanza + c.busesTulcan;
    CountDisjoint(c.usuarios, IsConectado, IsDesconectado);
    CountComplement(allBuses, IsActiveBus, IsInactiveBus);
    CountDisjoint3(c.encomiendas, IsPendiente, IsEnTransito, IsEntregado);
    DashboardStats(
      usuariosConectados := Count(c.usuarios, IsConectado),
      usuariosDesconectados := Count(c.usuarios, IsDesconectado),
      totalUsuarios := |c.usuarios|,
      busesActivos := Count(allBuses, IsActiveBus),
      busesInactivos := Count(allBuses, IsInactiveBus),
      conductoresActivos := Count(c.conductores, IsActiveDriverTruthy),
      encomiendas := EncomiendaCounts(
        Count(c.encomiendas, IsPendiente),
        Count(c.encomiendas, IsEnTransito),
        Count(c.encomiendas, IsEntregado)),
      ingresosTotales := SumBy(c.historial, PrecioOrZero))
  }

  /**
   * `getDashboardStatsRealtime`, given the outcome of its six reads: the
   * counters over what the getters return, a failed read counting as an
   * empty collection that zeroes only its own figures.
   */
  function DashboardStatsRealtime(results: Reads): (r: DashboardStats)
    ensures r.totalUsuarios == |ReadOrEmpty(results.usuarios)|
    ensures r.usuariosConectados == Count(ReadOrEmpty(results.usuarios), IsConectado)
    ensures r.usuariosDesconectados == Count(ReadOrEmpty(results.usuarios), IsDesconectado)
    ensures r.busesActivos == Count(ReadOrEmpty(results.busesEsperanza) + ReadOrEmpty(results.busesTulcan), IsActiveBus)
    ensures r.conductoresActivos == Count(ReadOrEmpty(results.conductores), IsActiveDriverTruthy)
    ensures r.encomiendas == EncomiendaCounts(Count(ReadOrEmpty(results.encomiendas), IsPendiente),
      Count(ReadOrEmpty(results.encomiendas), IsEnTransito), Count(ReadOrEmpty(results.encomiendas), IsEntregado))
    ensures r.usuariosConectados + r.usuariosDesconectados <= r.totalUsuarios
    ensures r.busesActivos + r.busesInactivos == |ReadOrEmpty(results.busesEsperanza)| + |ReadOrEmpty(results.busesTulcan)|
    ensures r.conductoresActivos <= |ReadOrEmpty(results.conductores)|
    ensures r.encomiendas.pendientes + r.encomiendas.enTransito + r.encomiendas.entregadas
      <= |ReadOrEmpty(results.encomiendas)|
    ensures r.ingresosTotales == SumBy(ReadOrEmpty(results.historial), PrecioOrZero)
    ensures results.usuarios.Ok? ==> r.totalUsuarios == |results.usuarios.value|
    ensures results.historial.Ok? ==> r.ingresosTotales == SumBy(results.historial.value, PrecioOrZero)
    ensures results.usuarios.Err? ==> r.totalUsuarios == 0 && r.usuariosConectados == 0 && r.usuariosDesconectados == 0
    ensures results.busesEsperanza.Err? && results.busesTulcan.Err? ==> r.busesActivos == 0 && r.busesInactivos == 0
    ensures results.conductores.Err? ==> r.conductoresActivos == 0
    ensures results.encomiendas.Err? ==> r.encomiendas == EncomiendaCounts(0, 0, 0)
    ensures results.historial.Err? ==> r.ingresosTotales == 0
  {
    DashboardCounters(Fetched(results))
  }

  /**
   * When every read fails, the counters give the `catch` record (as six
   * empty successful reads would); a single failed read leaves the other
   * figures as they are.
   */
  lemma AllReadsFailed(results: Reads)
    requires results.usuarios.Err? && results.busesEsperanza.Err? && results.busesTulcan.Err?
    requires results.conductores.Err? && results.encomiendas.Err? && results.historial.Err?
    ensures DashboardStatsRealtime(results) == ZeroDashboard()
  {
  }
}
