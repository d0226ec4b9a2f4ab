/**
 * The string helpers: `capitalize` and the two status-to-class lookup
 * tables with their shared fallback class.
 */
module Helpers {
  import opened Wrappers
  import opened Text
  import opened Dictionary

  /** `text.charAt(0).toUpperCase() + text.slice(1).toLowerCase()`. */
  function Capitalize(text: string): (r: string)
    ensures |r| == |text|
    ensures text != [] ==> r[0] == UpperChar(text[0])
    ensures forall i :: 1 <= i < |text| ==> r[i] == LowerChar(text[i])
  {
    Upper(text[..if text == [] then 0 else 1]) + Lower(text[if text == [] then 0 else 1..])
  }

  /** Capitalising twice gives the same text as capitalising once. */
  lemma CapitalizeIdempotent(text: string)
    ensures Capitalize(Capitalize(text)) == Capitalize(text)
  {
    var once := Capitalize(text);
    var twice := Capitalize(once);
    forall i | 0 <= i < |text| ensures twice[i] == once[i] {
      LowerUpperIdempotent(text[i]);
    }
  }

  /** The class used when a status is not in the table. */
  const FallbackClass := "bg-muted text-muted-foreground"

  /** `table[status] || fallback` over a table of class strings. */
  function ClassFor(table: seq<Entry<string>>, status: string): (r: string)
    ensures Find(table, status).Some? && Find(table, status).value != "" ==> r == Find(table, status).value
    ensures Find(table, status).None? ==> r == FallbackClass
  {
    OrDefault(Find(table, status), FallbackClass)
  }

  /** No class in the table is empty or the fallback. */
  predicate ProperClasses(table: seq<Entry<string>>) {
    forall i :: 0 <= i < |table| ==> table[i].value != "" && table[i].value != FallbackClass
  }

  /** Over a table of proper classes, the fallback is returned exactly for the statuses the table lacks. */
  lemma {:induction false} FallbackIffUnknown(table: seq<Entry<string>>, status: string)
    requires ProperClasses(table)
    ensures ClassFor(table, status) == FallbackClass <==> status !in Keys(table)
    decreases |table|
  {
    if table != [] && table[0].key != status {
      assert ProperClasses(table[1..]) by {
        forall i | 0 <= i < |table[1..]| ensures table[1..][i].value != "" && table[1..][i].value != FallbackClass {
          assert table[1..][i] == table[i + 1];
        }
      }
      FallbackIffUnknown(table[1..], status);
    }
  }

  const BoletoColors: seq<Entry<string>> := [
    Entry("reservado", "bg-warning/10 text-warning border-warning/20"),
    Entry("pagado", "bg-success/10 text-success border-success/20"),
    Entry("cancelado", "bg-destructive/10 text-destructive border-destructive/20"),
    Entry("usado", "bg-muted text-muted-foreground border-muted")
  ]

  const EncomiendaColors: seq<Entry<string>> := [
    Entry("recibido", "bg-primary/10 text-primary border-primary/20"),
    Entry("en_transito", "bg-warning/10 text-warning border-warning/20"),
    Entry("entregado", "bg-success/10 text-success border-success/20"),
    Entry("devuelto", "bg-destructive/10 text-destructive border-destructive/20")
  ]

  lemma BoletoColorsProper()
    ensures Keys(BoletoColors) == {"reservado", "pagado", "cancelado", "usado"}
    ensures ProperClasses(BoletoColors)
  {
    forall i | 0 <= i < |BoletoColors| ensures BoletoColors[i].value != "" && BoletoColors[i].value != FallbackClass {
      assert BoletoColors[i].value[3] != FallbackClass[3] || |BoletoColors[i].value| != |FallbackClass|;
    }
  }

  lemma EncomiendaColorsProper()
    ensures Keys(EncomiendaColors) == {"recibido", "en_transito", "entregado", "devuelto"}
    ensures ProperClasses(EncomiendaColors)
  {
    forall i | 0 <= i < |EncomiendaColors| ensures EncomiendaColors[i].value != "" && EncomiendaColors[i].value != FallbackClass {
      assert EncomiendaColors[i].value[3] != FallbackClass[3] || |EncomiendaColors[i].value| != |FallbackClass|;
    }
  }

  /** `getBoletoStatusColor`: the four ticket states have their own class, every other state the fallback. */
  function GetBoletoStatusColor(estado: string): (r: string)
    ensures r == FallbackClass <==> estado !in {"reservado", "pagado", "cancelado", "usado"}
    ensures estado == "pagado" ==> r == "bg-success/10 text-success border-success/20"
  {
    BoletoColorsProper();
    FallbackIffUnknown(BoletoColors, estado);
    ClassFor(BoletoColors, estado)
  }

  /** `getEncomiendaStatusColor`: `'pendiente'`, not in the table, gets the fallback like any unknown state. */
  function GetEncomiendaStatusColor(estado: string): (r: string)
    ensures r == FallbackClass <==> estado !in {"recibido", "en_transito", "entregado", "devuelto"}
    ensures estado == "pendiente" ==> r == FallbackClass
  {
    EncomiendaColorsProper();
    FallbackIffUnknown(EncomiendaColors, estado);
    ClassFor(EncomiendaColors, estado)
  }
}
