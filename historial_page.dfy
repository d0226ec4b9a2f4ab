/**
 * The sales-history page: the search and payment-method filter over the
 * history, the four summary figures, and the payment badge of each row.
 */
module HistorialPage {
  import opened Wrappers
  import opened Text
  import opened Seqs
  import opened Types
  import opened FirebaseCollections

  /** `field?.toLowerCase().includes(term.toLowerCase())`: a missing field never matches. */
  predicate MatchesIgnoringCase(field: Option<string>, term: string) {
    field.Some? && Includes(Lower(field.value), Lower(term))
  }

  /** `field?.includes(term)`: the date is searched case-sensitively. */
  predicate MatchesExactly(field: Option<string>, term: string) {
    field.Some? && Includes(field.value, term)
  }

  /** `matchesSearch`: destination or bus ignoring case, or the departure date as written. */
  predicate MatchesSearch(h: Historial, term: string) {
    MatchesIgnoringCase(h.paradaNombre, term) || MatchesIgnoringCase(h.numeroBus, term) || MatchesExactly(h.fechaSalida, term)
  }

  /** `matchesMetodo`: `'all'` lets everything through, any other value must equal `metodoPago`. */
  predicate MatchesMetodo(h: Historial, filterMetodo: string) {
    filterMetodo == "all" || h.metodoPago == Some(filterMetodo)
  }

  predicate Matches(h: Historial, searchTerm: string, filterMetodo: string) {
    MatchesSearch(h, searchTerm) && MatchesMetodo(h, filterMetodo)
  }

  /** `filteredHistorial`: the rows shown, in history order. */
  function FilteredHistorial(historial: seq<Historial>, searchTerm: string, filterMetodo: string): (r: seq<Historial>)
    ensures IsSubsequence(r, historial)
    ensures forall x :: x in r <==> x in historial && MatchesSearch(x, searchTerm) && MatchesMetodo(x, filterMetodo)
    ensures filterMetodo != "all" ==> forall x :: x in r ==> x.metodoPago == Some(filterMetodo)
  {
    Filter(historial, x => Matches(x, searchTerm, filterMetodo))
  }

  /** At least one of the three searched fields is present. */
  predicate HasSearchedField(h: Historial) {
    h.paradaNombre.Some? || h.numeroBus.Some? || h.fechaSalida.Some?
  }

  /** Every string includes the empty string. */
  lemma IncludesEmpty(s: string)
    ensures Includes(s, "")
  {
    assert StartsWith(s, "");
  }

  /**
   * With an empty search and the `'all'` method, the page shows exactly the
   * records that carry a destination, a bus or a date, even an empty one.
   */
  lemma EmptySearchKeepsRecordsWithAField(historial: seq<Historial>)
    ensures FilteredHistorial(historial, "", "all") == Filter(historial, HasSearchedField)
  {
    assert Lower("") == "";
    forall i | 0 <= i < |historial|
      ensures Matches(historial[i], "", "all") == HasSearchedField(historial[i])
    {
      var h := historial[i];
      if h.paradaNombre.Some? { IncludesEmpty(Lower(h.paradaNombre.value)); }
      if h.numeroBus.Some? { IncludesEmpty(Lower(h.numeroBus.value)); }
      if h.fechaSalida.Some? { IncludesEmpty(h.fechaSalida.value); }
    }
    FilterAgree(historial, x => Matches(x, "", "all"), HasSearchedField);
  }

  /** With the `'all'` method only the search decides. */
  lemma AllMethodsIgnoresPayment(historial: seq<Historial>, searchTerm: string)
    ensures FilteredHistorial(historial, searchTerm, "all") == Filter(historial, x => MatchesSearch(x, searchTerm))
  {
    FilterAgree(historial, x => Matches(x, searchTerm, "all"), x => MatchesSearch(x, searchTerm));
  }

  /** The upper-cased term finds the same destinations and buses as the term itself. */
  lemma UpperTermSameNames(field: Option<string>, term: string)
    ensures MatchesIgnoringCase(field, Upper(term)) == MatchesIgnoringCase(field, term)
  {
    forall i | 0 <= i < |term| ensures Lower(Upper(term))[i] == Lower(term)[i] {
      LowerUpperIdempotent(term[i]);
    }
    assert Lower(Upper(term)) == Lower(term);
  }

  /** The date is not searched ignoring case: `"Ab"` finds the date `"Ab"`, `"ab"` does not. */
  lemma DateSearchKeepsCase()
    ensures MatchesExactly(Some("Ab"), "Ab") && !MatchesExactly(Some("Ab"), "ab")
  {
    assert StartsWith("Ab", "Ab");
    assert !StartsWith("Ab", "ab");
    assert "Ab"[1..] == "b";
    assert !Includes("b", "ab");
  }

  /** The four figures above the table. */
  datatype Summary = Summary(totalVentas: nat, totalIngresos: int, ventasEfectivo: nat, ventasTransferencia: nat)

  /**
   * The summary is computed from the whole history, whatever the search and
   * filter: it agrees with the payment counts of the aggregated statistics,
   * and cash and transfer sales never exceed the number of sales.
   */
  function HistorialSummary(historial: seq<Historial>): (s: Summary)
    ensures s.totalVentas == |historial|
    ensures s.ventasEfectivo == Stats(historial).metodoPagoEfectivo
    ensures s.ventasTransferencia == Stats(historial).metodoPagoTransferencia
    ensures s.ventasEfectivo + s.ventasTransferencia <= s.totalVentas
    ensures s.totalIngresos == SumBy(historial, PrecioOrZero)
  {
    CountDisjoint(historial, IsEfectivo, IsTransferencia);
    Summary(|historial|, SumBy(historial, PrecioOrZero), Count(historial, IsEfectivo), Count(historial, IsTransferencia))
  }

  datatype BadgeVariant = Secondary | Default
  datatype BadgeIcon = Banknote | CreditCard

  /** The payment cell: badge variant, icon and label. */
  datatype PaymentBadge = PaymentBadge(variant: BadgeVariant, icon: BadgeIcon, text: string)

  /** The three `item.metodoPago === 'efectivo'` tests of a row's payment cell. */
  function PaymentCell(metodoPago: Option<string>): (b: PaymentBadge)
    ensures b.text == "Efectivo" <==> metodoPago == Some("efectivo")
    ensures b.text != "Efectivo" ==> b.text == "Transferencia"
    ensures b.variant == Secondary <==> b.text == "Efectivo"
    ensures b.icon == Banknote <==> b.text == "Efectivo"
  {
    var cash := metodoPago == Some("efectivo");
    PaymentBadge(if cash then Secondary else Default, if cash then Banknote else CreditCard, if cash then "Efectivo" else "Transferencia")
  }
}
