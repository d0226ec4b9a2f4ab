/**
 * The parcels page: the state filter over the parcel list, the three state
 * cards that toggle it, and the state badge of each row.
 */
module EncomiendasPage {
  import opened Wrappers
  import opened Text
  import opened Seqs
  import opened Types
  import opened RealtimeData

  predicate HasEstado(e: Encomienda, filterEstado: string) {
    e.estado == Some(filterEstado)
  }

  /** `filteredEncomiendas`: everything under `'all'`, otherwise the exact matches in list order. */
  function FilteredEncomiendas(encomiendas: seq<Encomienda>, filterEstado: string): (r: seq<Encomienda>)
    ensures filterEstado == "all" ==> r == encomiendas
    ensures filterEstado != "all" ==> IsSubsequence(r, encomiendas)
    ensures filterEstado != "all" ==> forall e :: e in r <==> e in encomiendas && e.estado == Some(filterEstado)
  {
    if filterEstado == "all" then encomiendas else Filter(encomiendas, e => HasEstado(e, filterEstado))
  }

  /**
   * A card lists no more rows than the count it shows: the count compares
   * the lower-cased state with several spellings, the list compares exactly.
   */
  lemma CardRowsWithinCount(encomiendas: seq<Encomienda>)
    ensures |FilteredEncomiendas(encomiendas, "pendiente")| <= Count(encomiendas, IsPendienteCI)
    ensures |FilteredEncomiendas(encomiendas, "en_transito")| <= Count(encomiendas, IsEnTransitoCI)
    ensures |FilteredEncomiendas(encomiendas, "entregado")| <= Count(encomiendas, IsEntregadoCI)
  {
    assert Lower("pendiente") == "pendiente";
    assert Lower("en_transito") == "en_transito";
    assert Lower("entregado") == "entregado";
    CountMonotonic(encomiendas, e => HasEstado(e, "pendiente"), IsPendienteCI);
    CountMonotonic(encomiendas, e => HasEstado(e, "en_transito"), IsEnTransitoCI);
    CountMonotonic(encomiendas, e => HasEstado(e, "entregado"), IsEntregadoCI);
  }

  /** A parcel stored as `"En_Transito"` is counted on the card but not listed under it. */
  lemma CardCountCanExceedRows()
    ensures var enc := [Encomienda("E1", Some("En_Transito"))];
      |FilteredEncomiendas(enc, "en_transito")| == 0 && Count(enc, IsEnTransitoCI) == 1
  {
    var enc := [Encomienda("E1", Some("En_Transito"))];
    assert Lower("En_Transito") == "en_transito";
    assert !HasEstado(enc[0], "en_transito");
    assert enc[1..] == [];
  }

  /** A card's `onClick`: select its state, or go back to `'all'` if it is already selected. */
  function Toggle(filterEstado: string, card: string): (r: string)
    ensures filterEstado == card ==> r == "all"
    ensures filterEstado != card ==> r == card
  {
    if filterEstado == card then "all" else card
  }

  /** Two clicks on a card that was not selected come back to `'all'`; on a selected one, to that card. */
  lemma ToggleTwice(filterEstado: string, card: string)
    requires card != "all"
    ensures filterEstado != card ==> Toggle(Toggle(filterEstado, card), card) == "all"
    ensures filterEstado == card ==> Toggle(Toggle(filterEstado, card), card) == card
  {
  }

  /** The `filterEstado` state of the page. */
  class EstadoFilter {
    var filterEstado: string

    constructor ()
      ensures filterEstado == "all"
    {
      filterEstado := "all";
    }

    /** Clicking one of the three state cards. */
    method ClickCard(card: string)
      modifies this
      ensures filterEstado == Toggle(old(filterEstado), card)
    {
      filterEstado := if filterEstado == card then "all" else card;
    }

    /** The select's `onValueChange`. */
    method Select(value: string)
      modifies this
      ensures filterEstado == value
    {
      filterEstado := value;
    }

    /** The rows the table shows under the current filter. */
    function Shown(encomiendas: seq<Encomienda>): seq<Encomienda>
      reads this
    {
      FilteredEncomiendas(encomiendas, filterEstado)
    }
  }

  datatype BadgeVariant = Secondary | Default | Outline
  datatype EstadoIcon = Clock | Truck | CheckCircle | Package

  datatype EstadoConfig = EstadoConfig(variant: BadgeVariant, icon: EstadoIcon, color: string, bg: string)

  /** `getEstadoConfig`: each known state has its own icon; any other state, or none, the package default. */
  function GetEstadoConfig(estado: Option<string>): (c: EstadoConfig)
    ensures c.icon == Clock <==> estado == Some("pendiente")
    ensures c.icon == Truck <==> estado == Some("en_transito")
    ensures c.icon == CheckCircle <==> estado == Some("entregado")
    ensures c.icon == Package ==> c.variant == Secondary && c.bg == "bg-muted"
  {
    if estado == Some("pendiente") then EstadoConfig(Secondary, Clock, "text-warning", "bg-warning/10")
    else if estado == Some("en_transito") then EstadoConfig(Default, Truck, "text-primary", "bg-primary/10")
    else if estado == Some("entregado") then EstadoConfig(Outline, CheckCircle, "text-success", "bg-success/10")
    else EstadoConfig(Secondary, Package, "text-muted-foreground", "bg-muted")
  }

  /** The badge text: the three `estado === … && label` expressions, of which at most one renders. */
  function EstadoLabel(estado: Option<string>): (t: string)
    ensures t == "" <==> GetEstadoConfig(estado).icon == Package
    ensures t == "Pendiente" <==> estado == Some("pendiente")
    ensures t == "En Tránsito" <==> estado == Some("en_transito")
    ensures t == "Entregado" <==> estado == Some("entregado")
  {
    assert "Entregado"[0] != "Pendiente"[0];
    (if estado == Some("pendiente") then "Pendiente" else "")
      + (if estado == Some("en_transito") then "En Tránsito" else "")
      + (if estado == Some("entregado") then "Entregado" else "")
  }
}
