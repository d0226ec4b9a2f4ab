/**
 * The realtime-data hook: the dashboard counters it derives from the five
 * collections it holds, the history summary it exposes, its unreachable
 * hand-written fallback for that summary, and the state it keeps.
 * `parseFloat` is a parameter: `parse(s)` is the amount in cents that `s`
 * reads as, `None` when it reads as `NaN`.
 */
module RealtimeData {
  import opened Wrappers
  import opened Text
  import opened Seqs
  import opened Sorting
  import opened Dictionary
  import opened Types
  import opened Tallies
  import opened FirebaseCollections

  /** `e.estado?.toLowerCase() || ''`. */
  function LowerEstado(e: Encomienda): string {
    if e.estado.Some? then Lower(e.estado.value) else ""
  }

  predicate IsPendienteCI(e: Encomienda) {
    LowerEstado(e) == "pendiente"
  }

  predicate IsEnTransitoCI(e: Encomienda) {
    var s := LowerEstado(e);
    s == "en transito" || s == "en tránsito" || s == "en_transito"
  }

  predicate IsEntregadoCI(e: Encomienda) {
    var s := LowerEstado(e);
    s == "entregado" || s == "entregada"
  }

  /** `c.activo !== false`: a missing flag counts as active. */
  predicate IsActiveDriver(c: Conductor) {
    c.activo != Some(false)
  }

  predicate IsExplicitlyInactive(c: Conductor) {
    c.activo == Some(false)
  }

  /**
   * The price the hook reads from a sale: a string goes through `parseFloat`,
   * a number or a missing price through `precio || 0`; `None` is `NaN`.
   */
  function ParsedPrice(p: Price, parse: string -> Option<int>): Option<int> {
    match p
    case Text(s) => parse(s)
    case Amount(c) => Some(c)
    case NoPrice => Some(0)
  }

  /** `isNaN(precio) ? 0 : precio`. */
  function HookPrice(parse: string -> Option<int>): Historial -> int {
    (h: Historial) => ParsedPrice(h.precio, parse).GetOr(0)
  }

  /** The `stats` object of the hook. */
  function HookStats(usuarios: seq<UsuarioRegistrado>, buses: seq<Bus>, conductores: seq<Conductor>,
                     encomiendas: seq<Encomienda>, historial: seq<Historial>,
                     parse: string -> Option<int>): (r: DashboardStats)
    ensures r.totalUsuarios == |usuarios|
    ensures r.usuariosConectados == Count(usuarios, IsConectado)
    ensures r.usuariosDesconectados == Count(usuarios, IsDesconectado)
    ensures r.usuariosConectados + r.usuariosDesconectados <= r.totalUsuarios
    ensures r.busesActivos == Count(buses, IsActiveBus)
    ensures r.busesActivos + r.busesInactivos == |buses|
    ensures r.conductoresActivos == Count(conductores, IsActiveDriver)
    ensures r.conductoresActivos + Count(conductores, IsExplicitlyInactive) == |conductores|
    ensures r.encomiendas == EncomiendaCounts(Count(encomiendas, IsPendienteCI),
      Count(encomiendas, IsEnTransitoCI), Count(encomiendas, IsEntregadoCI))
    ensures r.encomiendas.pendientes + r.encomiendas.enTransito + r.encomiendas.entregadas <= |encomiendas|
    ensures r.ingresosTotales == SumBy(historial, PrecioOrZero) + SumBy(historial, TextPrice(parse))
  {
    CountDisjoint(usuarios, IsConectado, IsDesconectado);
    CountComplement(buses, IsActiveBus, IsInactiveBus);
    CountComplement(conductores, IsActiveDriver, IsExplicitlyInactive);
    CountDisjoint3(encomiendas, IsPendienteCI, IsEnTransitoCI, IsEntregadoCI);
    HookRevenueAgrees(historial, parse);
    DashboardStats(
      usuariosConectados := Count(usuarios, IsConectado),
      usuariosDesconectados := Count(usuarios, IsDesconectado),
      totalUsuarios := |usuarios|,
      busesActivos := Count(buses, IsActiveBus),
      busesInactivos := Count(buses, IsInactiveBus),
      conductoresActivos := Count(conductores, IsActiveDriver),
      encomiendas := EncomiendaCounts(
        Count(encomiendas, IsPendienteCI),
        Count(encomiendas, IsEnTransitoCI),
        Count(encomiendas, IsEntregadoCI)),
      ingresosTotales := SumBy(historial, HookPrice(parse)))
  }

  /**
   * The hook counts every driver the service counts, and also those whose
   * flag is missing.
   */
  lemma ActiveDriversHookAtLeastService(conductores: seq<Conductor>)
    ensures Count(conductores, IsActiveDriverTruthy) <= Count(conductores, IsActiveDriver)
    ensures (forall i :: 0 <= i < |conductores| ==> conductores[i].activo.Some?) ==>
      Count(conductores, IsActiveDriverTruthy) == Count(conductores, IsActiveDriver)
  {
    CountMonotonic(conductores, IsActiveDriverTruthy, IsActiveDriver);
    if forall i :: 0 <= i < |conductores| ==> conductores[i].activo.Some? {
      forall i | 0 <= i < |conductores|
        ensures IsActiveDriverTruthy(conductores[i]) == IsActiveDriver(conductores[i])
      {
        var b := conductores[i].activo.value;
        assert conductores[i].activo == Some(b);
      }
      CountAgree(conductores, IsActiveDriverTruthy, IsActiveDriver);
    }
  }

  /** Lower-casing only widens the parcel buckets: exact matches are still counted. */
  lemma ParcelBucketsWiden(encomiendas: seq<Encomienda>)
    ensures Count(encomiendas, IsPendiente) <= Count(encomiendas, IsPendienteCI)
    ensures Count(encomiendas, IsEnTransito) <= Count(encomiendas, IsEnTransitoCI)
    ensures Count(encomiendas, IsEntregado) <= Count(encomiendas, IsEntregadoCI)
  {
    assert forall e :: IsPendiente(e) ==> LowerEstado(e) == "pendiente";
    assert forall e :: IsEnTransito(e) ==> LowerEstado(e) == "en_transito";
    assert forall e :: IsEntregado(e) ==> LowerEstado(e) == "entregado";
    CountMonotonic(encomiendas, IsPendiente, IsPendienteCI);
    CountMonotonic(encomiendas, IsEnTransito, IsEnTransitoCI);
    CountMonotonic(encomiendas, IsEntregado, IsEntregadoCI);
  }

  /**
   * The hook's `stats` next to the service's counters over the same
   * collections: the user and bus figures are equal, the hook's driver and
   * parcel figures are at least the service's (equal drivers when every flag
   * is present), and the hook's revenue adds the parsed string prices.
   */
  lemma HookVersusService(c: Collections, parse: string -> Option<int>)
    ensures var s := DashboardCounters(c);
      var k := HookStats(c.usuarios, c.busesEsperanza + c.busesTulcan, c.conductores, c.encomiendas, c.historial, parse);
      && k.totalUsuarios == s.totalUsuarios
      && k.usuariosConectados == s.usuariosConectados && k.usuariosDesconectados == s.usuariosDesconectados
      && k.busesActivos == s.busesActivos && k.busesInactivos == s.busesInactivos
      && s.conductoresActivos <= k.conductoresActivos
      && ((forall i :: 0 <= i < |c.conductores| ==> c.conductores[i].activo.Some?) ==>
            s.conductoresActivos == k.conductoresActivos)
      && s.encomiendas.pendientes <= k.encomiendas.pendientes
      && s.encomiendas.enTransito <= k.encomiendas.enTransito
      && s.encomiendas.entregadas <= k.encomiendas.entregadas
      && k.ingresosTotales == s.ingresosTotales + SumBy(c.historial, TextPrice(parse))
  {
    ActiveDriversHookAtLeastService(c.conductores);
    ParcelBucketsWiden(c.encomiendas);
  }

  /** What a string price adds to the hook's revenue: its parsed amount, or 0 when it reads as `NaN`. */
  function TextPrice(parse: string -> Option<int>): Historial -> int {
    (h: Historial) => if h.precio.Text? then parse(h.precio.raw).GetOr(0) else 0
  }

  /**
   * The hook's revenue is the service's `precio || 0` sum plus what the
   * string prices parse to, a string that does not parse adding 0; so
   * without string prices the two agree.
   */
  lemma {:induction false} HookRevenueAgrees(historial: seq<Historial>, parse: string -> Option<int>)
    ensures SumBy(historial, HookPrice(parse)) == SumBy(historial, PrecioOrZero) + SumBy(historial, TextPrice(parse))
    ensures (forall i :: 0 <= i < |historial| ==> !historial[i].precio.Text?) ==>
      SumBy(historial, HookPrice(parse)) == SumBy(historial, PrecioOrZero)
    decreases |historial|
  {
    if historial != [] {
      HookRevenueAgrees(historial[1..], parse);
      if forall i :: 0 <= i < |historial| ==> !historial[i].precio.Text? {
        assert forall i :: 0 <= i < |historial[1..]| ==> !historial[1..][i].precio.Text? by {
          forall i | 0 <= i < |historial[1..]| ensures !historial[1..][i].precio.Text? {
            assert historial[1..][i] == historial[i + 1];
          }
        }
      }
    }
  }
}

module RealtimeFallback {
  import opened Wrappers
  import opened Text
  import opened Seqs
  import opened Sorting
  import opened Dictionary
  import opened Types
  import opened Tallies
  import opened FirebaseCollections
  import opened RealtimeData

  /** The summary built by hand in the hook, with its two extra figures. */
  datatype FallbackStats = FallbackStats(stats: HistorialStats, totalVentas: nat, promedioVentasDiarias: real)

  /** `if (h.paradaNombre) rutaCount[ruta]`: empty routes are skipped. */
  function FallbackRouteKey(h: Historial): Option<string> {
    if Truthy(h.paradaNombre) then h.paradaNombre else None
  }

  /** `if (h.numeroBus)` and `if (!isNaN(precio))`: sales without a bus or a readable price are skipped. */
  function FallbackBusKey(parse: string -> Option<int>): Historial -> Option<string> {
    (h: Historial) => if Truthy(h.numeroBus) && ParsedPrice(h.precio, parse).Some? then h.numeroBus else None
  }

  /** `h.metodoPago?.toLowerCase() || ''`. */
  function LowerMetodo(h: Historial): string {
    if h.metodoPago.Some? then Lower(h.metodoPago.value) else ""
  }

  predicate IsEfectivoCI(h: Historial) {
    LowerMetodo(h) == "efectivo"
  }

  predicate IsTransferenciaCI(h: Historial) {
    LowerMetodo(h) == "transferencia"
  }

  /** `entries[0]?.[1] || 0`. */
  function CountOrZero(top: Option<Entry<int>>): int {
    if top.Some? then top.value.value else 0
  }

  /** `historial.length / (Object.keys(diaCount).length || 1)`. */
  function Average(sales: nat, days: nat): real {
    (sales as real) / (if days == 0 then 1 else days) as real
  }

  /** What the hand-written branch of the hook's `historialStats` returns. */
  function Fallback(h: seq<Historial>, parse: string -> Option<int>): FallbackStats {
    var rutas := MostFrequent(Group(Pairs(h, FallbackRouteKey, One)));
    var dias := Group(Pairs(h, DayKey, One));
    FallbackStats(
      HistorialStats(
        rutaMasDemandada := KeyOrNA(rutas),
        rutaCount := CountOrZero(rutas),
        diaMasVendido := KeyOrNA(MostFrequent(dias)),
        horaMasVendida := KeyOrNA(MostFrequent(Group(Pairs(h, HourKey, One)))),
        metodoPagoEfectivo := Count(h, IsEfectivoCI),
        metodoPagoTransferencia := Count(h, IsTransferenciaCI),
        gananciaPorBus := RevenueRanking(Group(Pairs(h, FallbackBusKey(parse), HookPrice(parse))))),
      totalVentas := |h|,
      promedioVentasDiarias := Average(|h|, |dias|))
  }

  /** The loop that counts payment methods with `metodoPagoEfectivo++` and `metodoPagoTransferencia++`. */
  method CountPayments(h: seq<Historial>) returns (efectivo: nat, transferencia: nat)
    ensures efectivo == Count(h, IsEfectivoCI)
    ensures transferencia == Count(h, IsTransferenciaCI)
  {
    efectivo, transferencia := 0, 0;
    for i := 0 to |h|
      invariant efectivo == Count(h[..i], IsEfectivoCI)
      invariant transferencia == Count(h[..i], IsTransferenciaCI)
    {
      var metodo := LowerMetodo(h[i]);
      if metodo == "efectivo" {
        efectivo := efectivo + 1;
      }
      if metodo == "transferencia" {
        transferencia := transferencia + 1;
      }
      CountPrefixStep(h, i, IsEfectivoCI);
      CountPrefixStep(h, i, IsTransferenciaCI);
    }
    assert h[..|h|] == h;
  }

  /**
   * The hand-written branch: the dictionaries and the two payment counters
   * are filled step by step, one `forEach` each.
   */
  method ManualHistorialStats(h: seq<Historial>, parse: string -> Option<int>) returns (r: FallbackStats)
    ensures r == Fallback(h, parse)
  {
    var rutaCount := GroupRecords(h, FallbackRouteKey, One);
    var rutasMasVendidas := MostFrequent(rutaCount);
    var diaCount := GroupRecords(h, DayKey, One);
    var horaCount := GroupRecords(h, HourKey, One);
    var efectivo, transferencia := CountPayments(h);
    var busGanancia := GroupRecords(h, FallbackBusKey(parse), HookPrice(parse));
    r := FallbackStats(
      HistorialStats(
        rutaMasDemandada := KeyOrNA(rutasMasVendidas),
        rutaCount := CountOrZero(rutasMasVendidas),
        diaMasVendido := KeyOrNA(MostFrequent(diaCount)),
        horaMasVendida := KeyOrNA(MostFrequent(horaCount)),
        metodoPagoEfectivo := efectivo,
        metodoPagoTransferencia := transferencia,
        gananciaPorBus := RevenueRanking(busGanancia)),
      totalVentas := |h|,
      promedioVentasDiarias := Average(|h|, |diaCount|));
  }

  /**
   * The average divides the number of sales by the number of distinct
   * non-empty dates, or by 1 when no sale has a date.
   */
  lemma FallbackAverage(h: seq<Historial>, parse: string -> Option<int>)
    ensures var days := |Keys(Pairs(h, DayKey, One))|;
      Fallback(h, parse).promedioVentasDiarias == (|h| as real) / (if days == 0 then 1 else days) as real
    ensures forall k :: k in Keys(Pairs(h, DayKey, One)) <==> exists i :: 0 <= i < |h| && DayKey(h[i]) == Some(k)
  {
    DistinctKeysCard(Group(Pairs(h, DayKey, One)));
    forall k ensures k in Keys(Pairs(h, DayKey, One)) <==> exists i :: 0 <= i < |h| && DayKey(h[i]) == Some(k) {
      KeysPairs(h, DayKey, One, k);
      if exists i :: 0 <= i < |h| && DayKey(h[i]) == Some(k) {
        var i :| 0 <= i < |h| && DayKey(h[i]) == Some(k);
        TallyPositive(h, DayKey, k, i);
      }
      if Tally(h, DayKey, k) > 0 {
        TallyWitness(h, DayKey, k);
      }
    }
  }

  /**
   * When every sale names its route, the hand-written branch picks the same
   * route with the same count as the service.
   */
  lemma FallbackRouteAgrees(h: seq<Historial>, parse: string -> Option<int>)
    requires forall i :: 0 <= i < |h| ==> Truthy(h[i].paradaNombre)
    ensures Fallback(h, parse).stats.rutaMasDemandada == Stats(h).rutaMasDemandada
    ensures Fallback(h, parse).stats.rutaCount == Stats(h).rutaCount
  {
    PairsAgree(h, FallbackRouteKey, RouteKey, One);
    var t := MostFrequent(Group(Pairs(h, RouteKey, One)));
    if t.Some? {
      TopOfTally(h, RouteKey);
      TallyWitness(h, RouteKey, t.value.key);
    }
  }

  /**
   * Payment methods are lower-cased before comparing, so the hand-written
   * counts include the service's exact matches and still add up to at most
   * the number of sales.
   */
  lemma FallbackPayments(h: seq<Historial>, parse: string -> Option<int>)
    ensures Fallback(h, parse).stats.metodoPagoEfectivo >= Stats(h).metodoPagoEfectivo
    ensures Fallback(h, parse).stats.metodoPagoTransferencia >= Stats(h).metodoPagoTransferencia
    ensures Fallback(h, parse).stats.metodoPagoEfectivo + Fallback(h, parse).stats.metodoPagoTransferencia <= |h|
  {
    assert forall x :: IsEfectivo(x) ==> LowerMetodo(x) == "efectivo";
    assert forall x :: IsTransferencia(x) ==> LowerMetodo(x) == "transferencia";
    CountMonotonic(h, IsEfectivo, IsEfectivoCI);
    CountMonotonic(h, IsTransferencia, IsTransferenciaCI);
    CountDisjoint(h, IsEfectivoCI, IsTransferenciaCI);
  }

  /**
   * Revenue per bus in the hand-written branch: one entry per bus number of a
   * sale whose price reads as a number, summing those prices; sales without
   * a bus or with an unreadable price add nothing.
   */
  lemma FallbackGananciaPorBus(h: seq<Historial>, parse: string -> Option<int>)
    ensures var r := Fallback(h, parse).stats.gananciaPorBus;
      && DistinctBy(r, BusOf)
      && Sorted(r, ByGananciaDesc)
      && (forall j :: 0 <= j < |r| ==> r[j].ganancia == Revenue(h, FallbackBusKey(parse), HookPrice(parse), r[j].bus))
      && (forall j :: 0 <= j < |r| ==> Tally(h, FallbackBusKey(parse), r[j].bus) > 0)
      && (forall i :: 0 <= i < |h| && Truthy(h[i].numeroBus) && ParsedPrice(h[i].precio, parse).Some? ==>
            exists j :: 0 <= j < |r| && r[j].bus == h[i].numeroBus.value)
      && SumBy(r, Ganancia) == TalliedRevenue(h, FallbackBusKey(parse), HookPrice(parse))
  {
    RankingOfTally(h, FallbackBusKey(parse), HookPrice(parse));
  }

  /** The record the `catch` returns. */
  function CatchRecord(): FallbackStats {
    FallbackStats(HistorialStats("N/A", 0, "N/A", "N/A", 0, 0, []), 0, 0.0)
  }

  /** The `catch` record is what both branches give for an empty history. */
  lemma CatchRecordIsEmptyHistory(parse: string -> Option<int>)
    ensures CatchRecord() == Fallback([], parse)
    ensures CatchRecord().stats == Stats([])
  {
    assert Pairs([], RouteKey, One) == [];
  }
}

/** The state the hook keeps between renders. */
module RealtimeStore {
  import opened Wrappers
  import opened Seqs
  import opened Types
  import opened Tallies
  import opened FirebaseCollections
  import opened RealtimeData

  class Store {
    var usuarios: seq<UsuarioRegistrado>
    var buses: seq<Bus>
    var conductores: seq<Conductor>
    var encomiendas: seq<Encomienda>
    var historial: seq<Historial>
    var loading: bool
    var error: Option<string>

    /** The hook's initial state: empty collections, loading, no error. */
    constructor()
      ensures usuarios == [] && buses == [] && conductores == [] && encomiendas == [] && historial == []
      ensures loading && error == None
    {
      usuarios, buses, conductores, encomiendas, historial := [], [], [], [], [];
      loading, error := true, None;
    }

    /**
     * `fetchInitialData`, given the outcome of its six reads: every
     * collection is replaced by what its getter returns (`[]` for a failed
     * read), the buses being La Esperanza's followed by Tulcán's. The getters
     * catch their own failures, so `Promise.all` resolves and the error
     * stays cleared; loading ends.
     */
    method FetchInitialData(results: Reads)
      modifies this
      ensures !loading && error == None
      ensures usuarios == ReadOrEmpty(results.usuarios)
      ensures buses == ReadOrEmpty(results.busesEsperanza) + ReadOrEmpty(results.busesTulcan)
      ensures conductores == ReadOrEmpty(results.conductores)
      ensures encomiendas == ReadOrEmpty(results.encomiendas)
      ensures historial == ReadOrEmpty(results.historial)
    {
      loading := true;
      error := None;
      var d := Fetched(results);
      usuarios := d.usuarios;
      buses := d.busesEsperanza + d.busesTulcan;
      conductores := d.conductores;
      encomiendas := d.encomiendas;
      historial := d.historial;
      loading := false;
    }

    /** The bus subscription: the list becomes La Esperanza's buses followed by Tulcán's. */
    method OnBusesSnapshot(esperanza: seq<Bus>, tulcan: seq<Bus>)
      modifies this
      ensures buses == esperanza + tulcan
      ensures |buses| == |esperanza| + |tulcan|
      ensures usuarios == old(usuarios) && conductores == old(conductores)
      ensures encomiendas == old(encomiendas) && historial == old(historial)
      ensures loading == old(loading) && error == old(error)
    {
      buses := esperanza + tulcan;
    }

    /**
     * The hook's `stats`, recomputed from the current state: every user and
     * bus is counted, every driver not explicitly inactive is active, and
     * the revenue is the `precio || 0` sum plus the parsed string prices.
     */
    function Stats(parse: string -> Option<int>): (r: DashboardStats)
      reads this
      ensures r.totalUsuarios == |usuarios|
      ensures r.usuariosConectados == Count(usuarios, IsConectado)
      ensures r.usuariosDesconectados == Count(usuarios, IsDesconectado)
      ensures r.usuariosConectados + r.usuariosDesconectados <= |usuarios|
      ensures r.busesActivos == Count(buses, IsActiveBus)
      ensures r.busesActivos + r.busesInactivos == |buses|
      ensures r.conductoresActivos == Count(conductores, IsActiveDriver)
      ensures r.conductoresActivos + Count(conductores, IsExplicitlyInactive) == |conductores|
      ensures r.encomiendas == EncomiendaCounts(Count(encomiendas, IsPendienteCI),
        Count(encomiendas, IsEnTransitoCI), Count(encomiendas, IsEntregadoCI))
      ensures r.encomiendas.pendientes + r.encomiendas.enTransito + r.encomiendas.entregadas <= |encomiendas|
      ensures r.ingresosTotales == SumBy(historial, PrecioOrZero) + SumBy(historial, TextPrice(parse))
    {
      HookStats(usuarios, buses, conductores, encomiendas, historial, parse)
    }

    /**
     * The hook's `historialStats`: the `typeof` test always holds, so it is
     * the service's summary of the current history.
     */
    function HistorialStats(): (r: HistorialStats)
      reads this
      ensures historial == [] ==> r.rutaMasDemandada == "N/A" && r.rutaCount == 0
      ensures forall k :: Tally(historial, RouteKey, k) <= r.rutaCount
      ensures r.metodoPagoEfectivo + r.metodoPagoTransferencia <= |historial|
      ensures SumBy(r.gananciaPorBus, Ganancia) == SumBy(historial, PrecioOrZero)
    {
      StatsRoute(historial);
      StatsPayments(historial);
      StatsGananciaPorBus(historial);
      FirebaseCollections.Stats(historial)
    }
  }
}
