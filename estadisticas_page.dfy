/**
 * The chart series of the statistics page. The route and hour charts repeat
 * the dashboard's tallies with other cuts; the daily chart keeps, per date,
 * both the number of sales and their revenue in one object that the loop
 * updates in place.
 */
module EstadisticasPage {
  import opened Wrappers
  import opened Text
  import opened Seqs
  import opened Sorting
  import opened Dictionary
  import opened Types
  import opened Tallies
  import opened FirebaseCollections
  import opened Charts
  import opened DashboardPage

  /** `rutasData`: the eight routes with the most sales, most first. */
  method RutasData(h: seq<Historial>) returns (r: seq<Entry<int>>)
    ensures r == TopCounts(h, RouteKey, 8)
    ensures |r| <= 8 && Sorted(r, ByCountDesc) && DistinctBy(r, EntryKey)
    ensures forall j :: 0 <= j < |r| ==> r[j].value == Tally(h, RouteKey, r[j].key) >= 1
    ensures forall k :: Tally(h, RouteKey, k) > 0 && (forall j :: 0 <= j < |r| ==> r[j].key != k) ==>
      |r| == 8 && forall j :: 0 <= j < |r| ==> Tally(h, RouteKey, k) <= r[j].value
  {
    var rutaCount := GroupRecords(h, RouteKey, One);
    r := Take(DescendingByCount(rutaCount), 8);
    TopCountsSpec(h, RouteKey, 8);
  }

  /** The `{ ventas, ingresos }` object kept per date. */
  datatype DaySales = DaySales(ventas: int, ingresos: int)

  /** One dated sale: create the date's object if missing, then `ventas += 1` and `ingresos += precio || 0`. */
  function AddSale(d: seq<Entry<DaySales>>, fecha: string, precio: int): seq<Entry<DaySales>> {
    var cur := Find(d, fecha).GetOr(DaySales(0, 0));
    Put(d, fecha, DaySales(cur.ventas + 1, cur.ingresos + precio))
  }

  /** A date's object as the tally of `h` should hold it. */
  function Expected(h: seq<Historial>, k: string): Option<DaySales> {
    if Tally(h, DayKey, k) == 0 then None
    else Some(DaySales(Tally(h, DayKey, k), Revenue(h, DayKey, PrecioOrZero, k)))
  }

  /**
   * The per-date dictionary after the loop over `h`: a date is present exactly
   * when some sale carries it, with that date's number of sales and the sum of
   * their `precio || 0`.
   */
  function SalesByDay(h: seq<Historial>): (d: seq<Entry<DaySales>>)
    ensures DistinctKeys(d)
    ensures forall k :: Find(d, k) == Expected(h, k)
    decreases |h|
  {
    if h == [] then []
    else
      var n := |h| - 1;
      var prev := SalesByDay(h[..n]);
      assert h == h[..n] + [h[n]];
      SalesByDayStep(h[..n], h[n], prev);
      if Truthy(h[n].fechaSalida) then AddSale(prev, h[n].fechaSalida.value, PrecioOrZero(h[n])) else prev
  }

  /** One more sale keeps the dictionary in step with the tally. */
  lemma SalesByDayStep(h: seq<Historial>, x: Historial, prev: seq<Entry<DaySales>>)
    requires DistinctKeys(prev)
    requires forall k :: Find(prev, k) == Expected(h, k)
    ensures var next := if Truthy(x.fechaSalida) then AddSale(prev, x.fechaSalida.value, PrecioOrZero(x)) else prev;
      DistinctKeys(next) && forall k :: Find(next, k) == Expected(h + [x], k)
  {
    forall k ensures Find(if Truthy(x.fechaSalida) then AddSale(prev, x.fechaSalida.value, PrecioOrZero(x)) else prev, k) == Expected(h + [x], k) {
      if Truthy(x.fechaSalida) {
        AddSaleAt(h, x, prev, k);
      } else {
        UndatedSaleAt(h, x, k);
      }
    }
  }

  /** A dated sale updates its own date's object and leaves the others as the tally has them. */
  lemma AddSaleAt(h: seq<Historial>, x: Historial, prev: seq<Entry<DaySales>>, k: string)
    requires Truthy(x.fechaSalida)
    requires Find(prev, k) == Expected(h, k)
    ensures Find(AddSale(prev, x.fechaSalida.value, PrecioOrZero(x)), k) == Expected(h + [x], k)
  {
    TallySnoc(h, x, DayKey, k);
    RevenueSnoc(h, x, DayKey, PrecioOrZero, k);
    if x.fechaSalida.value == k {
      assert DayKey(x) == Some(k);
      if Tally(h, DayKey, k) == 0 {
        RevenueUntallied(h, DayKey, PrecioOrZero, k);
      }
    } else {
      assert DayKey(x) != Some(k);
    }
  }

  /** A sale without a date changes no date's figures. */
  lemma UndatedSaleAt(h: seq<Historial>, x: Historial, k: string)
    requires !Truthy(x.fechaSalida)
    ensures Expected(h + [x], k) == Expected(h, k)
  {
    TallySnoc(h, x, DayKey, k);
    RevenueSnoc(h, x, DayKey, PrecioOrZero, k);
  }

  /** The loop body as written: create the object when missing, then update it. */
  lemma AddSaleInPlace(d: seq<Entry<DaySales>>, fecha: string, precio: int)
    ensures var d1 := if Find(d, fecha).None? then Put(d, fecha, DaySales(0, 0)) else d;
      var cur := Find(d1, fecha).value;
      Put(d1, fecha, DaySales(cur.ventas + 1, cur.ingresos + precio)) == AddSale(d, fecha, precio)
  {
    if Find(d, fecha).None? {
      PutPut(d, fecha, DaySales(0, 0), DaySales(1, precio));
    }
  }

  /** The fold one record further. */
  lemma SalesByDayUnfold(h: seq<Historial>, i: int)
    requires 0 <= i < |h|
    ensures SalesByDay(h[..i + 1]) ==
      if Truthy(h[i].fechaSalida) then AddSale(SalesByDay(h[..i]), h[i].fechaSalida.value, PrecioOrZero(h[i]))
      else SalesByDay(h[..i])
  {
    assert h[..i + 1][..i] == h[..i];
  }

  /** The body of the `forEach` for one sale: create the date's object if missing, then update it. */
  method RecordSale(d: seq<Entry<DaySales>>, x: Historial) returns (r: seq<Entry<DaySales>>)
    ensures r == if Truthy(x.fechaSalida) then AddSale(d, x.fechaSalida.value, PrecioOrZero(x)) else d
  {
    r := d;
    if Truthy(x.fechaSalida) {
      var fecha := x.fechaSalida.value;
      var precio := PrecioOrZero(x);
      AddSaleInPlace(d, fecha, precio);
      if Find(r, fecha).None? {
        r := Put(r, fecha, DaySales(0, 0));
      }
      var cur := Find(r, fecha).value;
      r := Put(r, fecha, DaySales(cur.ventas + 1, cur.ingresos + precio));
    }
  }

  /** The `forEach` of `ventasPorDia` over the whole history. */
  method SalesByDayLoop(h: seq<Historial>) returns (d: seq<Entry<DaySales>>)
    ensures d == SalesByDay(h)
  {
    d := [];
    for i := 0 to |h|
      invariant d == SalesByDay(h[..i])
    {
      SalesByDayUnfold(h, i);
      d := RecordSale(d, h[i]);
    }
    assert h[..|h|] == h;
  }

  /** The comparator `(a, b) => a.fecha.localeCompare(b.fecha)`. */
  predicate ByFechaAsc(a: Entry<DaySales>, b: Entry<DaySales>) {
    StrLe(a.key, b.key)
  }

  lemma ByFechaAscPreorder()
    ensures TotalPreorder(ByFechaAsc)
  {
    forall a: Entry<DaySales>, b: Entry<DaySales> ensures ByFechaAsc(a, b) || ByFechaAsc(b, a) {
      StrLeTotal(a.key, b.key);
    }
    forall a: Entry<DaySales>, b: Entry<DaySales>, c: Entry<DaySales> | ByFechaAsc(a, b) && ByFechaAsc(b, c)
      ensures ByFechaAsc(a, c)
    {
      StrLeTransitive(a.key, b.key, c.key);
    }
  }

  function Fecha(e: Entry<DaySales>): string {
    e.key
  }

  /** `ventasPorDia`: sales and revenue per date for the fourteen latest dates, in date order. */
  method VentasPorDia(h: seq<Historial>) returns (r: seq<Entry<DaySales>>)
    ensures |r| <= 14 && Sorted(r, ByFechaAsc) && DistinctBy(r, Fecha)
    ensures forall j :: 0 <= j < |r| ==>
      && r[j].value.ventas == Tally(h, DayKey, r[j].key) >= 1
      && r[j].value.ingresos == Revenue(h, DayKey, PrecioOrZero, r[j].key)
    ensures forall k :: Tally(h, DayKey, k) > 0 && (forall j :: 0 <= j < |r| ==> r[j].key != k) ==>
      |r| == 14 && forall j :: 0 <= j < |r| ==> StrLe(k, r[j].key)
  {
    var diaCount := SalesByDayLoop(h);
    ByFechaAscPreorder();
    var sorted := SortBy(diaCount, ByFechaAsc);
    r := TakeLast(sorted, 14);
    LatestDaysSpec(h, diaCount, sorted, r);
  }

  lemma LatestDaysSpec(h: seq<Historial>, d: seq<Entry<DaySales>>, s: seq<Entry<DaySales>>, r: seq<Entry<DaySales>>)
    requires d == SalesByDay(h)
    requires TotalPreorder(ByFechaAsc) && s == SortBy(d, ByFechaAsc) && r == TakeLast(s, 14)
    ensures |r| <= 14 && Sorted(r, ByFechaAsc) && DistinctBy(r, Fecha)
    ensures forall j :: 0 <= j < |r| ==>
      && r[j].value.ventas == Tally(h, DayKey, r[j].key) >= 1
      && r[j].value.ingresos == Revenue(h, DayKey, PrecioOrZero, r[j].key)
    ensures forall k :: Tally(h, DayKey, k) > 0 && (forall j :: 0 <= j < |r| ==> r[j].key != k) ==>
      |r| == 14 && forall j :: 0 <= j < |r| ==> StrLe(k, r[j].key)
  {
    forall i, j | 0 <= i < j < |d| ensures Fecha(d[i]) != Fecha(d[j]) {
      DistinctKeysAt(d, i, j);
    }
    SortByDistinct(d, ByFechaAsc, Fecha);
    SuffixSorted(s, ByFechaAsc, Fecha, |s| - |r|);
    forall j | 0 <= j < |r| ensures
      && r[j].value.ventas == Tally(h, DayKey, r[j].key) >= 1
      && r[j].value.ingresos == Revenue(h, DayKey, PrecioOrZero, r[j].key)
    {
      LatestDayFigures(h, d, s, r, j);
    }
    forall k | Tally(h, DayKey, k) > 0 && (forall j :: 0 <= j < |r| ==> r[j].key != k)
      ensures |r| == 14 && forall j :: 0 <= j < |r| ==> StrLe(k, r[j].key)
    {
      EarlierDayLeftOut(h, d, s, r, k);
    }
  }

  /** Each date shown holds its exact number of sales and their summed price. */
  lemma LatestDayFigures(h: seq<Historial>, d: seq<Entry<DaySales>>, s: seq<Entry<DaySales>>, r: seq<Entry<DaySales>>, j: int)
    requires d == SalesByDay(h)
    requires TotalPreorder(ByFechaAsc) && s == SortBy(d, ByFechaAsc) && r == TakeLast(s, 14)
    requires 0 <= j < |r|
    ensures r[j].value.ventas == Tally(h, DayKey, r[j].key) >= 1
    ensures r[j].value.ingresos == Revenue(h, DayKey, PrecioOrZero, r[j].key)
  {
    var off := |s| - |r|;
    assert r[j] == s[off + j];
    PermutationMember(s, d, off + j);
    var n :| 0 <= n < |d| && d[n] == r[j];
    FindMember(d, n);
    assert Find(d, r[j].key) == Expected(h, r[j].key);
  }

  /** A date with sales that is not shown sorts before every date shown, and then 14 dates are shown. */
  lemma EarlierDayLeftOut(h: seq<Historial>, d: seq<Entry<DaySales>>, s: seq<Entry<DaySales>>, r: seq<Entry<DaySales>>, k: string)
    requires d == SalesByDay(h)
    requires TotalPreorder(ByFechaAsc) && s == SortBy(d, ByFechaAsc) && r == TakeLast(s, 14)
    requires Tally(h, DayKey, k) > 0 && forall j :: 0 <= j < |r| ==> r[j].key != k
    ensures |r| == 14 && forall j :: 0 <= j < |r| ==> StrLe(k, r[j].key)
  {
    assert Find(d, k) == Expected(h, k);
    KeyMember(d, k);
    var n :| 0 <= n < |d| && d[n].key == k;
    assert d[n] in multiset(s);
    assert d[n] in s;
    assert d[n] !in r;
    TakeLastOfSorted(s, ByFechaAsc, 14, d[n]);
    forall j | 0 <= j < |r| ensures StrLe(k, r[j].key) {
      assert r[j] in r;
    }
  }

  /**
   * `gananciaBusData`: the first ten entries of the ranking (all of them
   * when there are fewer), so over a sorted ranking the ten buses with the
   * most revenue.
   */
  function GananciaBusData(s: HistorialStats): (r: seq<BusRevenue>)
    ensures |r| == if |s.gananciaPorBus| < 10 then |s.gananciaPorBus| else 10
    ensures r == s.gananciaPorBus[..|r|]
    ensures Sorted(s.gananciaPorBus, ByGananciaDesc) ==>
      forall x :: x in s.gananciaPorBus && x !in r ==> forall j :: 0 <= j < |r| ==> x.ganancia <= r[j].ganancia
  {
    if Sorted(s.gananciaPorBus, ByGananciaDesc) then
      LeftOutEarnedNoMore(s.gananciaPorBus, 10);
      TopBuses(s, 10)
    else TopBuses(s, 10)
  }
}
