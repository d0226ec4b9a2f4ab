/**
 * The chart series of the dashboard page, each built from the sales history
 * (or the user list) by a `forEach` that fills a tally, then sorted and cut.
 */
module DashboardPage {
  import opened Wrappers
  import opened Text
  import opened Seqs
  import opened Sorting
  import opened Dictionary
  import opened Types
  import opened Tallies
  import opened FirebaseCollections
  import opened Charts

  /** `rutasData`: the five routes with the most sales, most first. */
  method RutasData(h: seq<Historial>) returns (r: seq<Entry<int>>)
    ensures r == TopCounts(h, RouteKey, 5)
    ensures |r| <= 5 && Sorted(r, ByCountDesc) && DistinctBy(r, EntryKey)
    ensures forall j :: 0 <= j < |r| ==> r[j].value == Tally(h, RouteKey, r[j].key) >= 1
    ensures forall k :: Tally(h, RouteKey, k) > 0 && (forall j :: 0 <= j < |r| ==> r[j].key != k) ==>
      |r| == 5 && forall j :: 0 <= j < |r| ==> Tally(h, RouteKey, k) <= r[j].value
  {
    var rutaCount := GroupRecords(h, RouteKey, One);
    r := Take(DescendingByCount(rutaCount), 5);
    TopCountsSpec(h, RouteKey, 5);
  }

  /** `ventasPorDia`: sales per date for the seven latest dates, in date order. */
  method VentasPorDia(h: seq<Historial>) returns (r: seq<Entry<int>>)
    ensures r == LatestCounts(h, DayKey, 7)
    ensures |r| <= 7 && Sorted(r, ByKeyAsc) && DistinctBy(r, EntryKey)
    ensures forall j :: 0 <= j < |r| ==> r[j].value == Tally(h, DayKey, r[j].key) >= 1
    ensures forall k :: Tally(h, DayKey, k) > 0 && (forall j :: 0 <= j < |r| ==> r[j].key != k) ==>
      |r| == 7 && forall j :: 0 <= j < |r| ==> StrLe(k, r[j].key)
  {
    var diaCount := GroupRecords(h, DayKey, One);
    r := TakeLast(AscendingByKey(diaCount), 7);
    LatestCountsSpec(h, DayKey, 7);
  }

  /**
   * `ventasPorHora`: sales per hour for every hour that has one, in hour
   * order; the bars add up to the sales that carry an hour.
   */
  method VentasPorHora(h: seq<Historial>) returns (r: seq<Entry<int>>)
    ensures r == CountsByKey(h, HourKey)
    ensures Sorted(r, ByKeyAsc) && DistinctBy(r, EntryKey)
    ensures forall j :: 0 <= j < |r| ==> r[j].value == Tally(h, HourKey, r[j].key) >= 1
    ensures forall k :: Tally(h, HourKey, k) > 0 ==> exists j :: 0 <= j < |r| && r[j].key == k
    ensures SumBy(r, EntryValue) == Tallied(h, HourKey)
  {
    var horaCount := GroupRecords(h, HourKey, One);
    r := AscendingByKey(horaCount);
    CountsByKeySpec(h, HourKey);
  }

  /** `metodosPagoData`: the cash slice, then the transfer slice. */
  function MetodosPagoData(s: HistorialStats): seq<Entry<int>> {
    [Entry("Efectivo", s.metodoPagoEfectivo), Entry("Transferencia", s.metodoPagoTransferencia)]
  }

  /** The payment chart always has two slices, and together they cover at most every sale. */
  lemma MetodosPagoDataSpec(h: seq<Historial>)
    ensures var r := MetodosPagoData(Stats(h));
      |r| == 2 && r[0].key == "Efectivo" && r[1].key == "Transferencia"
      && r[0].value == Count(h, IsEfectivo) && r[1].value == Count(h, IsTransferencia)
      && r[0].value + r[1].value <= |h|
  {
    StatsPayments(h);
  }

  /** `historialStats.gananciaPorBus.slice(0, n)`. */
  function TopBuses(s: HistorialStats, n: nat): seq<BusRevenue> {
    Take(s.gananciaPorBus, n)
  }

  /** Cutting a ranking sorted by non-increasing revenue after `n` entries leaves out no bus that earned more than one shown. */
  lemma LeftOutEarnedNoMore(all: seq<BusRevenue>, n: nat)
    requires Sorted(all, ByGananciaDesc)
    ensures var r := Take(all, n);
      forall x :: x in all && x !in r ==> forall j :: 0 <= j < |r| ==> x.ganancia <= r[j].ganancia
  {
    var r := Take(all, n);
    forall x | x in all && x !in r ensures forall j :: 0 <= j < |r| ==> x.ganancia <= r[j].ganancia {
      TakeOfSorted(all, ByGananciaDesc, n, x);
      forall j | 0 <= j < |r| ensures x.ganancia <= r[j].ganancia {
        assert r[j] in r;
      }
    }
  }

  /**
   * The revenue chart shows the first `n` buses of the ranking, in the same
   * order; a bus left out earned no more than any bus shown.
   */
  lemma TopBusesSpec(h: seq<Historial>, n: nat)
    ensures var all := Stats(h).gananciaPorBus; var r := TopBuses(Stats(h), n);
      && |r| <= n && r == all[..|r|]
      && Sorted(r, ByGananciaDesc)
      && (forall x :: x in all && x !in r ==> forall j :: 0 <= j < |r| ==> x.ganancia <= r[j].ganancia)
  {
    LeftOutEarnedNoMore(Stats(h).gananciaPorBus, n);
  }

  /**
   * `gananciaBusData`: the first six entries of the ranking (all of them
   * when there are fewer), so over a sorted ranking the six buses with the
   * most revenue.
   */
  function GananciaBusData(s: HistorialStats): (r: seq<BusRevenue>)
    ensures |r| == if |s.gananciaPorBus| < 6 then |s.gananciaPorBus| else 6
    ensures r == s.gananciaPorBus[..|r|]
    ensures Sorted(s.gananciaPorBus, ByGananciaDesc) ==>
      forall x :: x in s.gananciaPorBus && x !in r ==> forall j :: 0 <= j < |r| ==> x.ganancia <= r[j].ganancia
  {
    if Sorted(s.gananciaPorBus, ByGananciaDesc) then
      LeftOutEarnedNoMore(s.gananciaPorBus, 6);
      TopBuses(s, 6)
    else TopBuses(s, 6)
  }

  /** `u.rol` as the tally key. */
  function RolKey(u: UsuarioRegistrado): Option<string> {
    Some(u.rol)
  }

  /** `name.charAt(0).toUpperCase() + name.slice(1)`. */
  function CapitalizeFirst(name: string): string {
    if name == [] then [] else [UpperChar(name[0])] + name[1..]
  }

  /** The chart entries `{ name: <capitalised role>, value }`. */
  function RoleLabels(d: seq<Entry<int>>): (r: seq<Entry<int>>)
    ensures |r| == |d|
    ensures forall j :: 0 <= j < |d| ==> r[j] == Entry(CapitalizeFirst(d[j].key), d[j].value)
  {
    if d == [] then [] else [Entry(CapitalizeFirst(d[0].key), d[0].value)] + RoleLabels(d[1..])
  }

  /**
   * `usuariosPorRol`: one slice per distinct stored role (the labels of the
   * grouped roles, whose keys are distinct), labelled with the role's first
   * character upper-cased, holding its number of users; the slices add up to
   * the number of users.
   */
  method UsuariosPorRol(usuarios: seq<UsuarioRegistrado>) returns (r: seq<Entry<int>>)
    ensures forall j :: 0 <= j < |r| ==> IsRoleSlice(usuarios, r[j])
    ensures forall i :: 0 <= i < |usuarios| ==> HasSlice(r, usuarios[i].rol)
    ensures SumBy(r, EntryValue) == |usuarios|
    ensures r == RoleLabels(Group(Pairs(usuarios, RolKey, One)))
    ensures DistinctKeys(Group(Pairs(usuarios, RolKey, One)))
  {
    var rolCount := GroupRecords(usuarios, RolKey, One);
    RoleChartEntries(usuarios);
    RoleChartCovers(usuarios);
    RoleChartSum(usuarios);
    r := RoleLabels(rolCount);
  }

  /** A slice labelled with some capitalised role, holding that role's exact, positive number of users. */
  ghost predicate IsRoleSlice(usuarios: seq<UsuarioRegistrado>, e: Entry<int>) {
    exists rol :: e.key == CapitalizeFirst(rol) && e.value == Tally(usuarios, RolKey, rol) >= 1
  }

  /** Each slice of the role chart is a capitalised role with its exact number of users. */
  lemma RoleChartEntries(usuarios: seq<UsuarioRegistrado>)
    ensures var r := RoleLabels(Group(Pairs(usuarios, RolKey, One)));
      forall j :: 0 <= j < |r| ==> IsRoleSlice(usuarios, r[j])
  {
    var pairs := Pairs(usuarios, RolKey, One);
    var d := Group(pairs);
    var r := RoleLabels(d);
    forall j | 0 <= j < |r| ensures IsRoleSlice(usuarios, r[j])
    {
      GroupEntry(pairs, j);
      WeightOfPairs(usuarios, RolKey, One, d[j].key);
      RevenueOne(usuarios, RolKey, d[j].key);
      KeysPairs(usuarios, RolKey, One, d[j].key);
      var rol := d[j].key;
      assert r[j].key == CapitalizeFirst(rol) && r[j].value == Tally(usuarios, RolKey, rol) >= 1;
    }
  }

  /** The chart `r` has a slice labelled with the capitalised `rol`. */
  predicate HasSlice(r: seq<Entry<int>>, rol: string) {
    exists j :: 0 <= j < |r| && r[j].key == CapitalizeFirst(rol)
  }

  /** One user's role has a slice. */
  lemma RoleChartCoversOne(usuarios: seq<UsuarioRegistrado>, i: int)
    requires 0 <= i < |usuarios|
    ensures HasSlice(RoleLabels(Group(Pairs(usuarios, RolKey, One))), usuarios[i].rol)
  {
    var d := Group(Pairs(usuarios, RolKey, One));
    GroupCovers(usuarios, RolKey, One, i);
    var j :| 0 <= j < |d| && Some(d[j].key) == RolKey(usuarios[i]);
    assert RoleLabels(d)[j].key == CapitalizeFirst(usuarios[i].rol);
  }

  /** Every user's role has a slice. */
  lemma RoleChartCovers(usuarios: seq<UsuarioRegistrado>)
    ensures forall i :: 0 <= i < |usuarios| ==> HasSlice(RoleLabels(Group(Pairs(usuarios, RolKey, One))), usuarios[i].rol)
  {
    forall i | 0 <= i < |usuarios| ensures HasSlice(RoleLabels(Group(Pairs(usuarios, RolKey, One))), usuarios[i].rol) {
      RoleChartCoversOne(usuarios, i);
    }
  }

  /** The slices of the role chart add up to the number of users. */
  lemma RoleChartSum(usuarios: seq<UsuarioRegistrado>)
    ensures SumBy(RoleLabels(Group(Pairs(usuarios, RolKey, One))), EntryValue) == |usuarios|
  {
    var d := Group(Pairs(usuarios, RolKey, One));
    RoleLabelsSum(d);
    TotalAsSum(d);
    TotalPairs(usuarios, RolKey, One);
    RevenueOne(usuarios, RolKey, "");
    TalliedAll(usuarios, RolKey, One);
  }

  lemma {:induction false} RoleLabelsSum(d: seq<Entry<int>>)
    ensures SumBy(RoleLabels(d), EntryValue) == SumBy(d, EntryValue)
    decreases |d|
  {
    if d != [] {
      RoleLabelsSum(d[1..]);
    }
  }
}
