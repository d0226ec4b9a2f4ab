/**
 * The Firestore records the dashboard reads, as values. A field the
 * documents may lack is an `Option`; prices are whole cents.
 */
module Types {
  import opened Wrappers
  import opened Text

  /**
   * The `precio` field of a sale: missing, a number, or a string some
   * documents store instead of a number.
   */
  datatype Price = NoPrice | Amount(cents: int) | Text(raw: string)

  /** One ticket sale (`Historial`). */
  datatype Historial = Historial(
    id: string,
    paradaNombre: Option<string>,
    fechaSalida: Option<string>,
    horaSalida: Option<string>,
    metodoPago: Option<string>,
    numeroBus: Option<string>,
    precio: Price)

  /** A registered user as the dashboard lists it (`UsuarioRegistrado`). */
  datatype UsuarioRegistrado = UsuarioRegistrado(
    id: Option<string>,
    uid: Option<string>,
    email: string,
    estado: string,
    rol: string)

  datatype Bus = Bus(numero: string, activo: bool)

  /** A driver; `activo` may be absent from the document. */
  datatype Conductor = Conductor(chofer: string, activo: Option<bool>)

  /** A parcel; `estado` may be absent from the document. */
  datatype Encomienda = Encomienda(codigoEnvio: string, estado: Option<string>)

  datatype BusRevenue = BusRevenue(bus: string, ganancia: int)

  /** What `calcularHistorialStats` reports (`HistorialStats`). */
  datatype HistorialStats = HistorialStats(
    rutaMasDemandada: string,
    rutaCount: int,
    diaMasVendido: string,
    horaMasVendida: string,
    metodoPagoEfectivo: nat,
    metodoPagoTransferencia: nat,
    gananciaPorBus: seq<BusRevenue>)

  datatype EncomiendaCounts = EncomiendaCounts(pendientes: nat, enTransito: nat, entregadas: nat)

  /** The dashboard counters (`DashboardStats`). */
  datatype DashboardStats = DashboardStats(
    usuariosConectados: nat,
    usuariosDesconectados: nat,
    totalUsuarios: nat,
    busesActivos: nat,
    busesInactivos: nat,
    conductoresActivos: nat,
    encomiendas: EncomiendaCounts,
    ingresosTotales: int)

  /** The property name JavaScript uses for `obj[field]`: a missing field becomes `"undefined"`. */
  function JsKey(field: Option<string>): (k: string)
    ensures field.Some? ==> k == field.value
    ensures field.None? ==> k == "undefined"
  {
    if field.Some? then field.value else "undefined"
  }

  /**
   * `h.precio || 0` for a price declared as a number: a missing price and
   * zero give 0. A string price is taken as 0 here (see the README).
   */
  function PrecioOrZero(h: Historial): int {
    if h.precio.Amount? then h.precio.cents else 0
  }
}
