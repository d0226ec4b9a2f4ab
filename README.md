# Trans Doramald admin dashboard — a verified model of its client-side logic

The dashboard is a React and Firebase web app. Staff of the bus company use it to watch
ticket sales (`historial`), buses of the two terminals (La Esperanza and Tulcán), drivers,
parcels (`encomiendas`) and registered users. This project models, in Dafny, the logic the
app runs on the client, and proves what that logic promises:

- **Sales-history aggregation.** `calcularHistorialStats` and the counters of
  `getDashboardStatsRealtime` in the collection service. The `stats` and `historialStats`
  of the realtime-data hook, including its hand-written fallback and its `catch`. The
  chart series of the dashboard and statistics pages. The search, filter and summary of
  the sales-history page.
- **Access control and roles.** The route guard, `isAdmin` and the profile defaults of
  the authentication context, the sidebar filter, the role normalisation of the user
  service, and the error-code-to-message tables of the authentication service.
- **Small UI state and string helpers.** The user page's role-edit dialog, counters and
  badges. The parcel page's filter toggle and state badges. `capitalize` and the status
  colour tables. `formatStatus` and the variant-based style lookup of the status badge.

Layout, one module per source file, plus shared modules:

| file | module | models |
|---|---|---|
| wrappers.dfy | Wrappers | `Option` / `Result` |
| text.dfy | Text | ASCII case conversion, `includes`, `startsWith`, JS truthiness, `a \|\| b`, code-unit order |
| seqs.dfy | Seqs | `filter`, `filter(...).length`, `reduce` sums, `slice(0, n)`, `slice(-n)` |
| sorting.dfy | Sorting | `Array.prototype.sort` with a consistent comparator (a stable insertion sort) |
| dictionary.dfy | Dictionary | a `Record<string, number>` filled by `d[k] = (d[k] \|\| 0) + w` |
| types.dfy | Types | the records of `src/types/index.ts` |
| tallies.dfy | Tallies | the "fill a dictionary in a `forEach`, then sort its entries" idiom |
| charts.dfy | Charts | top-`n`, last-`n` and full chart series cut from a tally |
| firebase_collections.dfy | FirebaseCollections | `src/services/firebaseCollections.ts` |
| realtime_data.dfy | RealtimeData, RealtimeFallback, RealtimeStore | `src/hooks/useRealtimeData.ts` |
| dashboard_page.dfy | DashboardPage | `src/pages/DashboardPage.tsx` |
| estadisticas_page.dfy | EstadisticasPage | `src/pages/EstadisticasPage.tsx` |
| historial_page.dfy | HistorialPage | `src/pages/HistorialPage.tsx` |
| protected_route.dfy | ProtectedRoute | `src/components/ProtectedRoute.tsx` |
| auth_context.dfy | AuthContext | `src/context/AuthContext.tsx` |
| sidebar.dfy | Sidebar | `src/components/Sidebar.tsx` |
| firestore_service.dfy | FirestoreService | `src/services/firestoreService.ts` |
| auth_service.dfy | AuthService | `src/services/authService.ts` |
| usuarios_page.dfy | UsuariosPage | `src/pages/UsuariosPage.tsx` |
| encomiendas_page.dfy | EncomiendasPage | `src/pages/EncomiendasPage.tsx` |
| helpers.dfy | Helpers | `src/utils/helpers.ts` |
| status_badge.dfy | StatusBadge | `src/components/StatusBadge.tsx` |

Modelling choices:

- **Records.** A sales record is a datatype. Its optional string fields are `Option<string>`.
  Its price is `NoPrice`, `Amount(cents)` or `Text(raw)`; the hook parses a string price,
  the service does not.
- **Dictionaries.** A JavaScript dictionary filled in a `forEach` is a list of entries with
  distinct keys, in insertion order (`Dictionary.Group`). `Object.entries` is that list.
  The list, not a `map`, is what the code sorts and slices.
- **Missing fields as keys.** `d[h.paradaNombre]` with a missing field files the record
  under the key `"undefined"` (`Types.JsKey`), as JavaScript does.
- **Sorting.** A sort with a comparator is `Sorting.SortBy` under a named total preorder.
  Every sort is proved to be a permutation, sorted and key-distinct where it matters.
  "Most frequent" is specified as *some key with a maximal count*, not as a particular
  tie-break.
- **Loops.** Every `forEach` that fills a dictionary is a method with a loop
  (`Tallies.GroupRecords`), proved equal to the fold it specifies. That fold's meaning —
  counts, sums, keys — is proved in lemmas.
- **Mutable state.** Component and hook state that handlers update in place is a class:
  `AuthContext.AuthState`, `UsuariosPage.RoleDialog`, `EncomiendasPage.EstadoFilter` and
  `RealtimeStore.Store`.
- **External outcomes.** The outcome of a Firestore or Firebase Auth call whose failure
  the code handles itself is a parameter: a `Result`, an `Option` or a `Lookup`. The
  queries of the user service, whose failures are rethrown, are given as the documents
  they return, and a subscription as the snapshots it delivers.

Observations the proofs make explicit (behaviour as written, not defects claimed):

- **The `typeof` test always holds.** In the hook, `historialStats` is always the
  service's `calcularHistorialStats`, and the hand-written fallback is unreachable. The
  fallback is still modelled and compared with the service
  (`RealtimeFallback.FallbackRouteAgrees`, `RealtimeFallback.FallbackPayments`). Its
  `catch` record is exactly what both branches give for an empty history
  (`RealtimeFallback.CatchRecordIsEmptyHistory`).
- **Route label.** The route label keeps an empty route name (`''`), because the entry
  array `['', n]` is truthy. The day and hour labels turn an empty key into `'N/A'`.
  Empty dates and hours are skipped anyway, so this never shows for them.
- **Two tests for active drivers.** The service counts a driver as active when
  `c.activo` is truthy; the hook counts it when `c.activo !== false`. The hook counts at
  least as many, and the same number when every flag is present
  (`RealtimeData.ActiveDriversHookAtLeastService`). Over the two records themselves,
  the hook's drivers and parcel buckets are at least the service's
  (`RealtimeData.HookVersusService`).
- **Parcel cards and the list.** The parcel page's cards count case-insensitively and
  accept several spellings, but the list filters by exact equality. A card can show more
  parcels than clicking it lists (`EncomiendasPage.CardCountCanExceedRows`).
- **`gerente` in the user list.** `'gerente'` is the only role `isAdmin` accepts, yet
  `getAllUsers` and `getUserById` normalise it to `'usuario'`. Only `getUsersByRole`
  keeps it (`FirestoreService.GerenteListedAsUsuario`).
- **Collection reads never reject.** Each getter of the collection service catches its
  own failure and returns `[]`. So `getDashboardStatsRealtime` never reaches its all-zero
  `catch` on a failed read: that collection simply counts as empty
  (`FirebaseCollections.DashboardStatsRealtime`, `FirebaseCollections.AllReadsFailed`).
  Likewise `fetchInitialData` never sets its error message on a failed read
  (`RealtimeStore.Store.FetchInitialData`).
- **Sign-out cannot fail.** `authService.signOut` catches its own errors, so the
  context's `handleSignOut` always clears both users.
- **Two colour tables.** `getEncomiendaStatusColor` has no entry for `'pendiente'`,
  although `'pendiente'` is one of the four states the `Encomienda` type declares. The status badge and the helpers use
  different class strings for the same state keys (`StatusBadge.BadgeKnowsHelperStates`).

## Model

| member | source | states |
|---|---|---|
| Tallies.GroupRecords | src/services/firebaseCollections.ts:245-248 | the `forEach` that fills a dictionary in place ends with exactly the grouped fold of its `key += weight` steps |
| Dictionary.Group | src/services/firebaseCollections.ts:277-280 | the filled dictionary has distinct keys, exactly the keys of the filed records, each key holding the summed weight of its steps, and its values add up to the sum of all weights |
| Dictionary.Put | src/pages/EstadisticasPage.tsx:67-69 | assigning a property adds the key if it is new, appending it at the end, and changes no other key |
| Dictionary.PutPut | src/pages/EstadisticasPage.tsx:67-71 | writing the same property twice leaves only the second value |
| Tallies.WeightOfPairs | src/services/firebaseCollections.ts:277-280 | the property `k` of a tally holds the summed weight of the records filed under `k` |
| Tallies.KeysPairs | src/services/firebaseCollections.ts:245-248 | a tally has property `k` exactly when some record is filed under `k` |
| Tallies.TotalPairs | src/services/firebaseCollections.ts:277-280 | the values of a tally add up to the weight of all filed records |
| Tallies.TalliedAll | src/services/firebaseCollections.ts:245-248 | when every record is filed, the filed records and their weights are all of them |
| Tallies.RevenueUntallied | src/pages/EstadisticasPage.tsx:67-71 | a key that no record is filed under collects no weight either |
| Tallies.DescendingByCount | src/services/firebaseCollections.ts:249-250 | `sort((a, b) => b[1] - a[1])` is a permutation of the entries, in non-increasing count order |
| Tallies.MostFrequentMaximal | src/services/firebaseCollections.ts:249-250 | the head of the sorted entries is absent exactly for an empty dictionary; otherwise it is an entry whose count no entry exceeds |
| Tallies.TopOfTally | src/services/firebaseCollections.ts:249-250 | the most frequent key of a count tally is absent exactly when no record is filed; otherwise its count is the number of records under it and is maximal |
| Sorting.SortBy | src/services/firebaseCollections.ts:281-283 | a sort with a consistent comparator returns a permutation of its input, sorted by that comparator |
| Sorting.SortBySum | src/services/firebaseCollections.ts:281-283 | sorting preserves the sum of any field |
| Sorting.SortByDistinct | src/services/firebaseCollections.ts:281-283 | sorting a list whose entries have distinct keys keeps them distinct |
| Sorting.TakeOfSorted | src/pages/DashboardPage.tsx:100 | an element left out of `slice(0, n)` of a sorted list sorts after every element kept |
| Sorting.TakeLastOfSorted | src/pages/DashboardPage.tsx:77 | an element left out of `slice(-n)` of a sorted list sorts before every element kept |
| Seqs.Filter | src/pages/HistorialPage.tsx:37-46 | `filter` keeps an order-preserving subsequence holding exactly the elements that pass |
| Seqs.Take | src/pages/DashboardPage.tsx:63 | `slice(0, n)` is the prefix of length `min(n, length)` |
| Seqs.TakeLast | src/pages/DashboardPage.tsx:77 | `slice(-n)` is the suffix of length `min(n, length)` |
| Seqs.CountDisjoint | src/services/firebaseCollections.ts:273-274 | the counts of two exclusive filters add up to at most the length |
| Seqs.CountComplement | src/services/firebaseCollections.ts:366-367 | the counts of a filter and its negation add up to the length |
| Seqs.CountDisjoint3 | src/services/firebaseCollections.ts:369-373 | the counts of three mutually exclusive filters add up to at most the length |
| Text.Lower | src/hooks/useRealtimeData.ts:67 | `toLowerCase` keeps the length and lower-cases each character |
| Text.Upper | src/components/StatusBadge.tsx:32 | `toUpperCase` keeps the length and upper-cases each character |
| Text.IncludesAt | src/pages/HistorialPage.tsx:38-41 | `includes` holds exactly when the term occurs at some position |
| Text.OrElse | src/context/AuthContext.tsx:58-59 | `a \|\| b` is `a` when `a` is truthy and `b` otherwise |
| Text.OrDefault | src/services/firestoreService.ts:43 | `a \|\| 'default'` is the string of `a` when it is truthy and the default otherwise |
| Text.StrLeTotal | src/pages/DashboardPage.tsx:76 | the order used for `localeCompare` on dates and hours compares any two strings |
| Text.StrLeTransitive | src/pages/DashboardPage.tsx:76 | that order is transitive, so sorting by it is consistent |
| Types.JsKey | src/services/firebaseCollections.ts:247 | a missing field used as a property name is the key `"undefined"`; a present one is itself |
| FirebaseCollections.CalcularHistorialStats | src/services/firebaseCollections.ts:243-294 | the four dictionaries filled in place and the sorted entries produce exactly the summary `Stats(h)` whose properties follow |
| FirebaseCollections.RouteCountsSumToLength | src/services/firebaseCollections.ts:245-248 | every record is counted under its route with no emptiness check, so the route counts add up to the history's length |
| FirebaseCollections.StatsRoute | src/services/firebaseCollections.ts:249-250 | `rutaMasDemandada` is the route of some record and has a maximal count, `rutaCount` is that count, and an empty history gives `'N/A'` and 0 |
| FirebaseCollections.TopLabel | src/services/firebaseCollections.ts:259-260 | a count tally's label is `'N/A'` exactly when no record is filed; otherwise it is the key of some filed record, with a maximal count |
| FirebaseCollections.StatsDay | src/services/firebaseCollections.ts:253-260 | `diaMasVendido` is a non-empty date of some sale with the most sales, or `'N/A'` when no sale has a date |
| FirebaseCollections.StatsHour | src/services/firebaseCollections.ts:263-270 | `horaMasVendida` is a non-empty hour of some sale with the most sales, or `'N/A'` when no sale has an hour |
| FirebaseCollections.StatsPayments | src/services/firebaseCollections.ts:273-274 | cash and transfer sales are exact matches, so together they number at most all sales |
| FirebaseCollections.RevenueRanking | src/services/firebaseCollections.ts:281-283 | the `{ bus, ganancia }` list is a permutation of the dictionary's entries, ordered by non-increasing `ganancia` |
| FirebaseCollections.ToRevenues | src/services/firebaseCollections.ts:282 | `map(([bus, ganancia]) => ({ bus, ganancia }))` keeps length, order and values |
| FirebaseCollections.ToRevenuesSum | src/services/firebaseCollections.ts:282 | that mapping keeps the total |
| FirebaseCollections.RankingOfTally | src/services/firebaseCollections.ts:277-283 | a sorted revenue tally has one entry per filed key and none for any other key (each entry's key has at least one record), holding that key's summed weight, in non-increasing order, adding up to all filed weight |
| FirebaseCollections.StatsGananciaPorBus | src/services/firebaseCollections.ts:277-283 | `gananciaPorBus` has exactly one entry per distinct bus number of the history and none for a bus without sales, each the sum of `precio \|\| 0` over that bus's sales, in non-increasing order, adding up to the history's revenue |
| FirebaseCollections.RankedBusHasSale | src/services/firebaseCollections.ts:277-283 | every bus in `gananciaPorBus` is the bus number of some sale |
| FirebaseCollections.DashboardCounters | src/services/firebaseCollections.ts:360-375 | over the six lists: the connected and disconnected users are the exact `estado` matches and together at most all users; active buses are those with `activo` set, and active plus inactive equal both terminals' buses; active drivers are exactly those whose `activo` is truthy; the three parcel buckets are the exact `'pendiente'`, `'en_transito'`, `'entregado'` matches, together at most all parcels; revenue is the sum of `precio \|\| 0` |
| FirebaseCollections.DashboardStatsRealtime | src/services/firebaseCollections.ts:348-389 | every figure — users, user states, buses, drivers, parcel buckets, revenue — is the exact count or sum over what the six getters return (each getter giving `[]` for a failed read, firebaseCollections.ts:51, 96, 110, 168, 197, 226): a failed read zeroes only the figures of its own collection, and a successful one is counted in full |
| FirebaseCollections.AllReadsFailed | src/services/firebaseCollections.ts:376-388 | the all-zero record of the `catch` is what the counters give when every read fails; a read failure never reaches the `catch` itself |
| RealtimeData.HookStats | src/hooks/useRealtimeData.ts:58-83 | the hook's counters: user total and exact user-state counts; buses split exactly into active and inactive; active drivers exactly those with `activo !== false`, plus the explicitly inactive ones equal to all drivers; the parcel buckets are the lower-cased spellings (`'pendiente'`; `'en transito'`, `'en tránsito'`, `'en_transito'`; `'entregado'`, `'entregada'`), together at most all parcels; revenue the `precio \|\| 0` sum plus the parsed string prices |
| RealtimeData.HookVersusService | src/hooks/useRealtimeData.ts:58-83 | over the same collections the hook's record and the service's record agree on users and buses; the hook's drivers and each parcel bucket are at least the service's (equal drivers when every flag is present); the hook's revenue adds the parsed string prices |
| RealtimeData.ActiveDriversHookAtLeastService | src/hooks/useRealtimeData.ts:64 | `activo !== false` counts at least the drivers that the truthy test counts, and the same number when every flag is set |
| RealtimeData.ParcelBucketsWiden | src/hooks/useRealtimeData.ts:66-78 | lower-casing and the extra spellings only widen the parcel buckets: the exact matches are still counted |
| RealtimeData.HookRevenueAgrees | src/hooks/useRealtimeData.ts:79-82 | the hook's revenue is the service's `precio \|\| 0` sum plus the parsed string prices, an unparsable string adding 0, never `NaN`; without string prices the two totals are equal |
| RealtimeFallback.CountPayments | src/hooks/useRealtimeData.ts:128-134 | the `++` loop counts exactly the sales whose lower-cased method is cash, and those whose lower-cased method is transfer |
| RealtimeFallback.ManualHistorialStats | src/hooks/useRealtimeData.ts:93-160 | the hand-written branch's dictionaries and counters produce exactly the fallback summary |
| RealtimeFallback.FallbackAverage | src/hooks/useRealtimeData.ts:108-113 | `promedioVentasDiarias` is the number of sales divided by the number of distinct non-empty dates, or by 1 when there are none |
| RealtimeFallback.FallbackRouteAgrees | src/hooks/useRealtimeData.ts:95-105 | when every sale names its route, the fallback picks the same route with the same count as the service |
| RealtimeFallback.FallbackPayments | src/hooks/useRealtimeData.ts:128-134 | the case-insensitive payment counts include the service's exact matches and together number at most all sales |
| RealtimeFallback.FallbackGananciaPorBus | src/hooks/useRealtimeData.ts:137-148 | the fallback's revenue per bus has one entry per bus of a sale with a readable price and none for any other bus, summing those prices, in non-increasing order |
| RealtimeFallback.CatchRecordIsEmptyHistory | src/hooks/useRealtimeData.ts:161-174 | the `catch` record equals what both the fallback and the service give for an empty history |
| RealtimeStore.Store.constructor | src/hooks/useRealtimeData.ts:47-55 | the hook starts with empty collections, loading and no error |
| RealtimeStore.Store.FetchInitialData | src/hooks/useRealtimeData.ts:177-215 | every collection is replaced by what its getter returns, `[]` for a failed read, the buses being La Esperanza's followed by Tulcán's; the error stays cleared, since the getters never reject; loading ends |
| RealtimeStore.Store.OnBusesSnapshot | src/hooks/useRealtimeData.ts:222-224 | the bus list becomes La Esperanza's buses followed by Tulcán's, and nothing else changes |
| RealtimeStore.Store.Stats | src/hooks/useRealtimeData.ts:57-83 | the `stats` of the current state: every user and bus counted, exact user-state and active-bus counts, active drivers exactly those with `activo !== false`, parcel buckets the lower-cased spellings, revenue the `precio \|\| 0` sum plus the parsed string prices |
| RealtimeStore.Store.HistorialStats | src/hooks/useRealtimeData.ts:85-90 | the `historialStats` of the current history: `'N/A'` and 0 when empty, no route sold more than `rutaCount`, payment counts at most all sales, per-bus revenue adding up to the history's revenue |
| Charts.AscendingByKey | src/pages/DashboardPage.tsx:76 | the date or hour sort is a permutation in ascending label order |
| Charts.SortedTally | src/pages/DashboardPage.tsx:74-76 | any consistent sort of a tally lists each filed key once, with its records' summed weight, and lists every filed key |
| Charts.TopCountsSpec | src/pages/DashboardPage.tsx:60-63 | a top-`n` chart has at most `n` bars, largest first, each the exact count of a distinct key; a key left out has no more records than any key shown, and is only left out when `n` bars are shown |
| Charts.LatestCountsSpec | src/pages/DashboardPage.tsx:74-77 | a last-`n` chart has at most `n` bars in ascending label order, each the exact count of a distinct key; a key left out sorts before every key shown, and is only left out when `n` bars are shown |
| Charts.CountsByKeySpec | src/pages/DashboardPage.tsx:88-90 | a full chart in label order has one bar per filed key, each its exact count, adding up to the number of filed records |
| Charts.TotalAsSum | src/pages/DashboardPage.tsx:88-90 | the sum of the bars is the dictionary's total |
| DashboardPage.RutasData | src/pages/DashboardPage.tsx:55-64 | at most 5 routes, most sales first, each with its exact number of sales, and no route left out that beats one shown |
| DashboardPage.VentasPorDia | src/pages/DashboardPage.tsx:67-78 | the 7 latest dates having a sale, in date order, each with its exact number of dated sales |
| DashboardPage.VentasPorHora | src/pages/DashboardPage.tsx:81-91 | one bar per non-empty hour, in hour order, each its exact count, adding up to the sales that carry an hour |
| DashboardPage.MetodosPagoDataSpec | src/pages/DashboardPage.tsx:94-97 | exactly two slices, Efectivo then Transferencia, holding the exact cash and transfer counts, together at most all sales |
| DashboardPage.LeftOutEarnedNoMore | src/pages/DashboardPage.tsx:100 | cutting a ranking sorted by non-increasing revenue leaves out no bus that earned more than one shown |
| DashboardPage.TopBusesSpec | src/pages/DashboardPage.tsx:100 | the revenue chart is the prefix of `gananciaPorBus` of length at most `n`, in the same order; a bus left out earned no more than any bus shown |
| DashboardPage.GananciaBusData | src/pages/DashboardPage.tsx:100 | the first six entries of `gananciaPorBus` (all of them when fewer), in the same order; over a sorted ranking no bus left out earned more than one shown |
| DashboardPage.RoleLabels | src/pages/DashboardPage.tsx:115-118 | each slice keeps its value and gets the role with its first character upper-cased |
| DashboardPage.UsuariosPorRol | src/pages/DashboardPage.tsx:110-119 | the slices are the grouped roles (distinct keys, one per stored role) relabelled; each slice is a capitalised role with its exact number of users, every user's role has a slice, and the slices add up to the number of users |
| DashboardPage.RoleChartEntries | src/pages/DashboardPage.tsx:110-119 | each slice of the role chart is a capitalised role with its exact, positive number of users |
| DashboardPage.RoleChartCovers | src/pages/DashboardPage.tsx:110-119 | every user's role has a slice |
| DashboardPage.RoleChartSum | src/pages/DashboardPage.tsx:110-119 | the slices add up to the number of users |
| EstadisticasPage.RutasData | src/pages/EstadisticasPage.tsx:51-60 | at most 8 routes, most sales first, each with its exact number of sales, and no route left out that beats one shown |
| EstadisticasPage.GananciaBusData | src/pages/EstadisticasPage.tsx:100 | the first ten entries of `gananciaPorBus` (all of them when fewer), in the same order; over a sorted ranking no bus left out earned more than one shown |
| EstadisticasPage.SalesByDay | src/pages/EstadisticasPage.tsx:64-73 | after the loop, a date has an object exactly when some sale carries it, holding that date's number of sales and the sum of their `precio \|\| 0` |
| EstadisticasPage.SalesByDayStep | src/pages/EstadisticasPage.tsx:65-72 | one more sale keeps the per-date dictionary in step with the per-date counts and revenues |
| EstadisticasPage.AddSaleAt | src/pages/EstadisticasPage.tsx:66-71 | a dated sale adds one sale and its price to its own date's object, creating it when missing, and leaves every other date as it was |
| EstadisticasPage.UndatedSaleAt | src/pages/EstadisticasPage.tsx:66 | a sale without a date changes no date's figures |
| EstadisticasPage.AddSaleInPlace | src/pages/EstadisticasPage.tsx:67-71 | creating a missing `{ ventas: 0, ingresos: 0 }` and then updating both fields in place is one write of the updated object |
| EstadisticasPage.RecordSale | src/pages/EstadisticasPage.tsx:66-72 | the loop body adds one sale and its price to the sale's date, and skips a sale without a date |
| EstadisticasPage.SalesByDayLoop | src/pages/EstadisticasPage.tsx:64-73 | the `forEach` that mutates the per-date objects ends with exactly the dictionary `SalesByDay` describes |
| EstadisticasPage.VentasPorDia | src/pages/EstadisticasPage.tsx:63-78 | the 14 latest dates having a sale, in date order, each with `ventas` at least 1 equal to its number of sales, and `ingresos` equal to their summed price |
| EstadisticasPage.LatestDaysSpec | src/pages/EstadisticasPage.tsx:74-77 | the sorted, cut per-date list has the bounds, order and per-date figures `VentasPorDia` promises |
| EstadisticasPage.LatestDayFigures | src/pages/EstadisticasPage.tsx:74-77 | each date kept by the sort and cut holds its exact number of sales, at least 1, and their summed price |
| EstadisticasPage.EarlierDayLeftOut | src/pages/EstadisticasPage.tsx:74-77 | a date with sales that is cut off sorts before every date shown, and is only cut off when 14 dates are shown |
| HistorialPage.FilteredHistorial | src/pages/HistorialPage.tsx:37-46 | an order-preserving subsequence holding exactly the records that match the search and the method filter; a filter other than `'all'` keeps only that exact `metodoPago` |
| HistorialPage.IncludesEmpty | src/pages/HistorialPage.tsx:38-41 | every string includes the empty term |
| HistorialPage.EmptySearchKeepsRecordsWithAField | src/pages/HistorialPage.tsx:38-41 | an empty search with `'all'` keeps exactly the records that have a route, a bus number or a date |
| HistorialPage.AllMethodsIgnoresPayment | src/pages/HistorialPage.tsx:43 | with `'all'` the payment test accepts every record |
| HistorialPage.UpperTermSameNames | src/pages/HistorialPage.tsx:39-40 | route and bus matching ignores the case of the term |
| HistorialPage.DateSearchKeepsCase | src/pages/HistorialPage.tsx:41 | date matching is case-sensitive |
| HistorialPage.HistorialSummary | src/pages/HistorialPage.tsx:117-120 | the summary is over the whole history: the number of sales, exact cash and transfer counts adding up to at most that number, and the sum of `precio \|\| 0` |
| HistorialPage.PaymentCell | src/pages/HistorialPage.tsx:94-103 | the badge reads `'Efectivo'` exactly for `metodoPago === 'efectivo'`, with the secondary variant and the bank-note icon, and `'Transferencia'` otherwise |
| ProtectedRoute.Guard | src/components/ProtectedRoute.tsx:12-41 | loading shows the loader; no user redirects to `/auth` carrying the location; a non-admin on an admin route is redirected to `/dashboard`; children render exactly when not loading, signed in, and the route is open or the user is an admin |
| ProtectedRoute.DefaultLetsUsersIn | src/components/ProtectedRoute.tsx:14 | `requireAdmin` defaults to false, so any signed-in user reaches a route that does not set it |
| ProtectedRoute.AdminRouteNeedsGerente | src/components/ProtectedRoute.tsx:37-39 | an admin route renders for a loaded user exactly when the stored role is `'gerente'`, and redirects to `/dashboard` otherwise |
| AuthContext.GetUserData | src/context/AuthContext.tsx:48-80 | a failed read gives `null`; a missing profile gives `'usuario'`, active; a stored profile prefers the provider's name and photo, defaults an empty role to `'usuario'`, keeps an explicit `activo: false` and defaults a missing one to true |
| AuthContext.AdminIffStoredGerente | src/context/AuthContext.tsx:45 | a signed-in user is an admin exactly when the stored profile's role is `'gerente'` |
| AuthContext.AuthState.constructor | src/context/AuthContext.tsx:40-42 | the context starts with no user and loading |
| AuthContext.AuthState.SignOut | src/context/AuthContext.tsx:83-92 | sign-out clears both the user and the auth user, whatever the service reports, and leaves no admin |
| AuthContext.AuthState.RefreshUser | src/context/AuthContext.tsx:95-102 | with an auth user and a readable profile the user is reloaded; without an auth user or when the read fails nothing changes |
| AuthContext.AuthState.OnAuthStateChanged | src/context/AuthContext.tsx:105-118 | the auth user is stored, a signed-out event clears the user, a signed-in one loads its profile, and loading ends so the children render |
| Sidebar.FilteredItems | src/components/Sidebar.tsx:40 | an order-preserving subsequence of the seven items holding exactly those not marked admin-only, plus the admin-only ones for an admin |
| Sidebar.FilteredItemsByRole | src/components/Sidebar.tsx:26-40 | an admin sees all seven items; anyone else sees only Dashboard |
| Sidebar.HrefsDistinct | src/components/Sidebar.tsx:26-34 | the items' paths are distinct |
| Sidebar.AtMostOneActive | src/components/Sidebar.tsx:81 | an item is active when its path equals the location, so at most one listed item is active |
| Sidebar.Panel | src/components/Sidebar.tsx:125-146 | the "A" badge and the "Administrador" label show exactly for an admin, "Usuario" otherwise, and the shown name is never empty |
| FirestoreService.NormalizeRole | src/services/firestoreService.ts:34-39 | a role is kept when it is one of the accepted roles and becomes `'usuario'` otherwise, so the result is always accepted |
| FirestoreService.GerenteListedAsUsuario | src/services/firestoreService.ts:180-185 | `'gerente'` becomes `'usuario'` in the user list but is kept by the role query |
| FirestoreService.OrNull | src/services/firestoreService.ts:47-48 | `x \|\| null` is `x` when truthy and `null` otherwise |
| FirestoreService.MapUser | src/services/firestoreService.ts:41-49 | the user keeps the document id, gets an accepted role, an email defaulting to `''`, and the `displayName`, else `nombre`, else null |
| FirestoreService.MapUsers | src/services/firestoreService.ts:41-49 | one mapped user per document, in order |
| FirestoreService.GetAllUsers | src/services/firestoreService.ts:25-57 | the `push` loop returns every document the `orderBy('createdAt')` query keeps (those with a `createdAt`), mapped in order, each with a role among administrador, conductor, usuario |
| FirestoreService.GetUserById | src/services/firestoreService.ts:62-92 | a user exactly when the document exists, with its id and a listed role |
| FirestoreService.GetUsersByRole | src/services/firestoreService.ts:165-203 | the documents stored with that role and carrying a `createdAt` (the `orderBy` drops the rest), mapped in order, each returned user having exactly that role |
| FirestoreService.GetUserStats | src/services/firestoreService.ts:208-217 | `total` is the number of users and the three role counts add up to at most that |
| FirestoreService.StatsOfAllUsers | src/services/firestoreService.ts:212-217 | over the user list the three role counts add up to the total and the `gerente` count is 0 |
| FirestoreService.NewProfileRol | src/services/firestoreService.ts:136 | a new profile's role is the given one when truthy and `'usuario'` otherwise |
| AuthService.ErrorMessage | src/services/authService.ts:26-44 | a listed error code gives its fixed message; any other code gives the error's own message |
| AuthService.TablesHaveDistinctCodes | src/services/authService.ts:26-44 | each of the three code tables lists every code once |
| AuthService.ListedCodeMessage | src/services/authService.ts:78-93 | a code listed at some row of a table gives that row's message |
| AuthService.SignInMessages | src/services/authService.ts:26-44 | each of the five sign-in codes gives its fixed message, and any other code the error's message |
| AuthService.SignUpMessages | src/services/authService.ts:78-93 | each of the four sign-up codes gives its fixed message |
| AuthService.SignIn | src/services/authService.ts:19-48 | exactly one of user and error is set: the user on success, the mapped message on failure |
| AuthService.SignUp | src/services/authService.ts:51-97 | exactly one of user and error; the profile (role `'usuario'`, active, the given display name) is attempted exactly when the account was created and the name update succeeded; the created user is returned exactly when creation, name update and profile write all succeed; each failure — creation, name update, profile write — gives its own mapped message |
| AuthService.GoogleProfileWrite | src/services/authService.ts:117-128 | a profile with role `'usuario'` and provider `'google'` is written exactly when none exists, so an existing profile is never overwritten |
| AuthService.SignInWithGoogle | src/services/authService.ts:100-153 | exactly one of user and error; the Google profile is attempted exactly when the popup succeeded and the lookup found no profile; the popup's user is returned exactly when the popup, the lookup and any needed profile write all succeed; each failure — popup, lookup, profile write — gives its own mapped message |
| AuthService.SignOut | src/services/authService.ts:156-163 | the error is null exactly on success, and otherwise the failure's message |
| UsuariosPage.PageCounters | src/pages/UsuariosPage.tsx:233-237 | the total is the number of users, the three role counts add up to at most that, and the connected count is at most that |
| UsuariosPage.CountersMissOtherRoles | src/pages/UsuariosPage.tsx:233-235 | the three role counts plus the users with any other role (`'gerente'` included) make up the total |
| UsuariosPage.RowId | src/pages/UsuariosPage.tsx:131-134 | a row's id is `u.id`, else `u.uid`, else `''` |
| UsuariosPage.UsersWithId | src/pages/UsuariosPage.tsx:131-134 | one row per user, in order, only the id replaced |
| UsuariosPage.RowEditableIffIdentified | src/pages/UsuariosPage.tsx:76-77 | a row can be saved exactly when the user has an `id` or a `uid` |
| UsuariosPage.GetRoleBadge | src/pages/UsuariosPage.tsx:94-125 | Gerente, Administrador and Conductor exactly for those roles, Usuario for any other string, and the shield icon exactly with the default variant |
| UsuariosPage.Plural | src/pages/UsuariosPage.tsx:301 | the plural `s` is added exactly when the count is not 1 |
| UsuariosPage.ConectadosText | src/pages/UsuariosPage.tsx:301 | the connected-users sentence in the singular for 1 and in the plural otherwise |
| UsuariosPage.RoleDialog.constructor | src/pages/UsuariosPage.tsx:33-36 | the dialog starts closed, with no user, role `'usuario'`, not updating |
| UsuariosPage.RoleDialog.OpenEditDialog | src/pages/UsuariosPage.tsx:64-68 | opening sets the user, the user's current role and open, so saving starts disabled |
| UsuariosPage.RoleDialog.CloseDialog | src/pages/UsuariosPage.tsx:70-74 | closing resets to closed, no user, role `'usuario'`, and hides the warning |
| UsuariosPage.RoleDialog.SelectRole | src/pages/UsuariosPage.tsx:342 | selecting changes only the role, and the warning shows exactly for `'administrador'` |
| UsuariosPage.RoleDialog.UpdateRole | src/pages/UsuariosPage.tsx:76-92 | without a user, a role or an id nothing happens; otherwise the id and role are written, a successful write closes the dialog, a failed one keeps it, and updating ends either way |
| EncomiendasPage.FilteredEncomiendas | src/pages/EncomiendasPage.tsx:24-26 | `'all'` keeps the list; another filter keeps, in order, exactly the parcels whose state equals it |
| EncomiendasPage.CardRowsWithinCount | src/pages/EncomiendasPage.tsx:24-26 | the rows listed for a card's state are at most the number the card shows |
| EncomiendasPage.CardCountCanExceedRows | src/pages/EncomiendasPage.tsx:24-26 | a parcel stored as `'En_Transito'` is counted by its card but not listed when the card is clicked |
| EncomiendasPage.Toggle | src/pages/EncomiendasPage.tsx:128 | clicking a card selects its state, or returns to `'all'` when it is already selected |
| EncomiendasPage.ToggleTwice | src/pages/EncomiendasPage.tsx:145 | clicking the same card twice from another filter ends at `'all'`, and from that card's filter ends back on it |
| EncomiendasPage.EstadoFilter.constructor | src/pages/EncomiendasPage.tsx:21 | the filter starts at `'all'` |
| EncomiendasPage.EstadoFilter.ClickCard | src/pages/EncomiendasPage.tsx:162 | a card click toggles the stored filter |
| EncomiendasPage.EstadoFilter.Select | src/pages/EncomiendasPage.tsx:180 | choosing from the menu stores the chosen state |
| EncomiendasPage.GetEstadoConfig | src/pages/EncomiendasPage.tsx:29-60 | each of the three known states gets its own icon, and every other state the Package default with the secondary variant |
| EncomiendasPage.EstadoLabel | src/pages/EncomiendasPage.tsx:97-99 | the three known states get their labels, and any other state no text |
| Helpers.Capitalize | src/utils/helpers.ts:65-67 | the same length, the first character upper-cased and the rest lower-cased |
| Helpers.CapitalizeIdempotent | src/utils/helpers.ts:65-67 | capitalising twice is capitalising once |
| Helpers.ClassFor | src/utils/helpers.ts:50 | a listed state gets its class, an unlisted one the default class |
| Helpers.FallbackIffUnknown | src/utils/helpers.ts:43-62 | with non-empty classes different from the default, the default is returned exactly for an unlisted state |
| Helpers.BoletoColorsProper | src/utils/helpers.ts:43-51 | the ticket table lists reservado, pagado, cancelado and usado, with proper classes |
| Helpers.EncomiendaColorsProper | src/utils/helpers.ts:54-62 | the parcel table lists recibido, en_transito, entregado and devuelto, with proper classes |
| Helpers.GetBoletoStatusColor | src/utils/helpers.ts:43-51 | the default class exactly for a state outside the four ticket states |
| Helpers.GetEncomiendaStatusColor | src/utils/helpers.ts:54-62 | the default class exactly for a state outside the four parcel states, `'pendiente'` included |
| StatusBadge.SpaceUnderscores | src/components/StatusBadge.tsx:32 | every `_` becomes a space and every other character stays |
| StatusBadge.UpperWordStarts | src/components/StatusBadge.tsx:32 | each word character at a word boundary is upper-cased and every other character stays |
| StatusBadge.FormatStatus | src/components/StatusBadge.tsx:31-33 | the same length, no underscore, and every character that is neither `_` nor at a word start unchanged |
| StatusBadge.UpperKeepsWordChar | src/components/StatusBadge.tsx:32 | upper-casing neither makes nor breaks a word character |
| StatusBadge.FormatStatusIdempotent | src/components/StatusBadge.tsx:31-33 | formatting twice is formatting once |
| StatusBadge.FormatEnTransito | src/components/StatusBadge.tsx:31-33 | `'en_transito'` reads `'En Transito'` |
| StatusBadge.BadgeClass | src/components/StatusBadge.tsx:10-38 | a missing or `'boleto'` variant uses the ticket table, `'encomienda'` the parcel table |
| StatusBadge.BoletoStylesProper | src/components/StatusBadge.tsx:11-17 | the badge's ticket table lists the four ticket states with proper classes |
| StatusBadge.EncomiendaStylesProper | src/components/StatusBadge.tsx:18-29 | the badge's parcel table lists the four parcel states with proper classes |
| StatusBadge.BadgeKnowsHelperStates | src/components/StatusBadge.tsx:38 | the badge falls back to the default class for exactly the states that the helpers' colour tables do not list |

## Left out

- Firestore and Firebase Auth I/O: a read, write or popup whose failure the code catches is replaced by its outcome, given as a parameter (`Result`, `Option`, `Lookup`); the user service's queries and the subscriptions are replaced by the documents they deliver; latency, retries and listener lifetimes are not modelled.
- FirestoreService.GetAllUsers: only a successful query is modelled; on a failed query the source logs and rethrows (src/services/firestoreService.ts:53-56), leaving the failure to the caller.
- FirestoreService.GetUserById: only a successful read is modelled; on a failed read the source logs and rethrows (src/services/firestoreService.ts:88-91).
- FirestoreService.GetUsersByRole: only a successful query is modelled; on a failed query the source logs and rethrows (src/services/firestoreService.ts:199-202).
- Concurrency: the dual-listener refetching of `subscribeToBuses`, and the relative order of asynchronous callbacks, are not modelled; each snapshot is one `OnBusesSnapshot` call.
- Rendering: JSX, charts, tables, icons and the form plumbing of the configuration and bus pages; only the values the components compute are modelled.
- `reportService.ts` (PDF layout), `formatDate`, `formatDateTime`, `formatCurrency`, `cn` and `generateId` are not part of this model: they depend on Intl, jsPDF, class-merging libraries or `Math.random`.
- Floating point: prices are whole cents, `parseFloat` is a parameter `parse: string -> Option<int>` (`None` for `NaN`), and `promedioVentasDiarias` is a Dafny `real`.
- Types.PrecioOrZero: in the service, a string price counts as 0; JavaScript would concatenate strings there, which the declared `number` type rules out.
- Case conversion is ASCII-only (`Text.Lower`, `Text.Upper`); `'Á'` and other non-ASCII letters are left as they are.
- `localeCompare` on dates and hours is code-unit order (`Text.StrLe`); it agrees with the locale order for `YYYY-MM-DD` and `HH:MM` strings of digits.
- Tie order: which of several equally frequent keys is first depends on `Object.entries` order, where integer-like keys come first, and on a stable sort; the model proves only that the chosen key has a maximal count. Dictionaries keep insertion order.
- Keys inherited from `Object.prototype` (such as `"constructor"`) used as dictionary keys are not modelled; each key starts from an empty property.
- The `activos` figure of `getUserStats`, which depends on `Date.now()` and date arithmetic, is not modelled.
- FirestoreService.GetUsersByRole: the `orderBy('createdAt', 'desc')` of the user queries is modelled only as the selection it implies (documents without `createdAt` are dropped); the descending order itself is not re-established, so the users come in the order the documents are given (the same holds for `FirestoreService.GetAllUsers`).
- The hook's `lugaresSalida` and `configuracion` state and their subscriptions are not modelled: no counter uses them.
- The statistics page's `ventasPorHora` is the same memo as the dashboard's and is modelled once, by `DashboardPage.VentasPorHora`.
- The avatar initials, the `fechaCreacion` timestamp (kept as an opaque value) and the user-facing toast texts are not modelled.
- The `catch` of `getDashboardStatsRealtime` (firebaseCollections.ts:376-388) and the `catch` of `fetchInitialData` that sets `'Error al cargar los datos'` (useRealtimeData.ts:209-211) are not modelled as branches: the getters catch every read failure and the counting cannot throw, so neither is reachable; the zero record is kept as `FirebaseCollections.ZeroDashboard` and compared by `FirebaseCollections.AllReadsFailed`.
- The `try`/`catch` around the hook's summary is modelled by its `catch` record: `calcularHistorialStats` never throws on a list of records, so that record is only compared with the empty-history results.
- FirestoreService.GetUsersByRole: requires the role to be one of the four the query accepts, as the parameter's declared union type demands.
