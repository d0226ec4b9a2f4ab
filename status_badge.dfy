/**
 * The status badge: the label formatting (`_` to space, each word's first
 * character upper-cased) and the class chosen by variant.
 */
module StatusBadge {
  import opened Wrappers
  import opened Text
  import opened Dictionary
  import opened Helpers

  /** A character of the regular-expression class `\w`. */
  predicate IsWordChar(c: char) {
    ('a' <= c <= 'z') || ('A' <= c <= 'Z') || ('0' <= c <= '9') || c == '_'
  }

  /** `status.replace(/_/g, ' ')`. */
  function SpaceUnderscores(s: string): (r: string)
    ensures |r| == |s|
    ensures forall i :: 0 <= i < |s| ==> r[i] == if s[i] == '_' then ' ' else s[i]
  {
    seq(|s|, i requires 0 <= i < |s| => if s[i] == '_' then ' ' else s[i])
  }

  /** `\b\w` matches at `i`: a word character with no word character before it. */
  predicate WordStart(t: string, i: int)
    requires 0 <= i < |t|
  {
    IsWordChar(t[i]) && (i == 0 || !IsWordChar(t[i - 1]))
  }

  /** `.replace(/\b\w/g, l => l.toUpperCase())`. */
  function UpperWordStarts(t: string): (r: string)
    ensures |r| == |t|
    ensures forall i :: 0 <= i < |t| ==> r[i] == if WordStart(t, i) then UpperChar(t[i]) else t[i]
  {
    seq(|t|, i requires 0 <= i < |t| => if WordStart(t, i) then UpperChar(t[i]) else t[i])
  }

  /** `formatStatus`. */
  function FormatStatus(status: string): (r: string)
    ensures |r| == |status|
    ensures forall i :: 0 <= i < |r| ==> r[i] != '_'
    ensures forall i :: 0 <= i < |status| && status[i] != '_' && !WordStart(SpaceUnderscores(status), i) ==> r[i] == status[i]
  {
    UpperWordStarts(SpaceUnderscores(status))
  }

  /** Upper-casing keeps a character in or out of `\w`, and keeps `_` out of a string that had none. */
  lemma UpperKeepsWordChar(c: char)
    ensures IsWordChar(UpperChar(c)) == IsWordChar(c)
    ensures c != '_' ==> UpperChar(c) != '_'
  {
  }

  /** Formatting a formatted label changes nothing. */
  lemma FormatStatusIdempotent(status: string)
    ensures FormatStatus(FormatStatus(status)) == FormatStatus(status)
  {
    var once := FormatStatus(status);
    var t := SpaceUnderscores(status);
    assert SpaceUnderscores(once) == once;
    forall i | 0 <= i < |once| ensures WordStart(once, i) == WordStart(t, i) {
      UpperKeepsWordChar(t[i]);
      if i > 0 {
        UpperKeepsWordChar(t[i - 1]);
      }
    }
    forall i | 0 <= i < |once| ensures FormatStatus(once)[i] == once[i] {
      LowerUpperIdempotent(t[i]);
    }
  }

  /** `'en_transito'` is shown as `'En Transito'`. */
  lemma FormatEnTransito()
    ensures FormatStatus("en_transito") == "En Transito"
  {
    var t := SpaceUnderscores("en_transito");
    assert t == "en transito";
    assert WordStart(t, 0) && WordStart(t, 3);
    assert forall i :: 0 <= i < |t| && i != 0 && i != 3 ==> !WordStart(t, i);
  }

  /** The `variant` prop; `'boleto'` when not given. */
  datatype Variant = Boleto | Encomienda

  const BoletoStyles: seq<Entry<string>> := [
    Entry("reservado", "bg-warning/10 text-warning border border-warning/20"),
    Entry("pagado", "bg-success/10 text-success border border-success/20"),
    Entry("cancelado", "bg-destructive/10 text-destructive border border-destructive/20"),
    Entry("usado", "bg-muted text-muted-foreground border border-border")
  ]

  const EncomiendaStyles: seq<Entry<string>> := [
    Entry("recibido", "bg-primary/10 text-primary border border-primary/20"),
    Entry("en_transito", "bg-warning/10 text-warning border border-warning/20"),
    Entry("entregado", "bg-success/10 text-success border border-success/20"),
    Entry("devuelto", "bg-destructive/10 text-destructive border border-destructive/20")
  ]

  /** The badge's class: the table of the variant, ticket states when no variant is given. */
  function BadgeClass(variant: Option<Variant>, status: string): (r: string)
    ensures variant.GetOr(Boleto) == Boleto ==> r == ClassFor(BoletoStyles, status)
    ensures variant == Some(Encomienda) ==> r == ClassFor(EncomiendaStyles, status)
  {
    if variant.GetOr(Boleto) == Boleto then ClassFor(BoletoStyles, status) else ClassFor(EncomiendaStyles, status)
  }

  lemma BoletoStylesProper()
    ensures Keys(BoletoStyles) == {"reservado", "pagado", "cancelado", "usado"}
    ensures ProperClasses(BoletoStyles)
  {
    forall i | 0 <= i < |BoletoStyles| ensures BoletoStyles[i].value != "" && BoletoStyles[i].value != FallbackClass {
      assert BoletoStyles[i].value[3] != FallbackClass[3] || |BoletoStyles[i].value| != |FallbackClass|;
    }
  }

  lemma EncomiendaStylesProper()
    ensures Keys(EncomiendaStyles) == {"recibido", "en_transito", "entregado", "devuelto"}
    ensures ProperClasses(EncomiendaStyles)
  {
    forall i | 0 <= i < |EncomiendaStyles| ensures EncomiendaStyles[i].value != "" && EncomiendaStyles[i].value != FallbackClass {
      assert EncomiendaStyles[i].value[3] != FallbackClass[3] || |EncomiendaStyles[i].value| != |FallbackClass|;
    }
  }

  /**
   * The badge and the helpers know the same states: for either variant the
   * badge falls back exactly when the matching helper does.
   */
  lemma BadgeKnowsHelperStates(variant: Option<Variant>, status: string)
    ensures variant.GetOr(Boleto) == Boleto ==>
      (BadgeClass(variant, status) == FallbackClass <==> GetBoletoStatusColor(status) == FallbackClass)
    ensures variant == Some(Encomienda) ==>
      (BadgeClass(variant, status) == FallbackClass <==> GetEncomiendaStatusColor(status) == FallbackClass)
  {
    BoletoStylesProper();
    EncomiendaStylesProper();
    FallbackIffUnknown(BoletoStyles, status);
    FallbackIffUnknown(EncomiendaStyles, status);
  }
}
