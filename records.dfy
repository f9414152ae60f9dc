/**
  The plain records the dashboard keeps in memory: rate-table entries, circuits and their
  service rows, and the resolved cost of a row. A nullable text field is the empty string
  when it is `null`: every place that reads one (`norm`, `||`, `!p`) treats the two alike.
*/
module Records {
  import opened JsBuiltins

  /** One entry of the supplier rate table (`tarifario`). */
  datatype RateEntry = RateEntry(
    proveedor: string,
    tipoServicio: string,
    precio: Option<real>,        // `null` when the stored entry has no price
    moneda: string,              // "USD", "MXN", or whatever the store holds
    diasCredito: Option<int>,
    notas: string)

  /** One line item of a circuit's itinerary (a row of `circuit_rows`). */
  datatype ServiceRow = ServiceRow(
    id: string,                  // assigned by the store; "" before the first save
    idx: nat,
    fecha: Option<string>,       // the service date as an ISO string
    destino: string,
    clasificacion: string,       // category: HOSPEDAJE, TRANSPORTE, ... free text
    servicio: string,
    tipo: string,                // LIBERO or OPCIONAL
    provGeneral: string,         // assigned supplier
    tVenta: real,
    paid: bool,
    fechaPago: string,
    nota: string,
    precioCustom: Option<real>,  // manual price override
    monedaCustom: string)        // its currency

  /** The info block of a circuit, as read from the manifest's header cells. */
  datatype CircInfo = CircInfo(
    tl: Cell, rep: Cell, operador: Cell, id: string, habs: Cell, pax: Cell, fechaInicio: Cell)

  /** One tour circuit with its rows and the amount charged to the customer. */
  datatype Circuit = Circuit(
    id: string,
    monthKey: string,
    info: CircInfo,
    importeCobrado: Option<real>,
    monedaCobrado: string,
    rows: seq<ServiceRow>)

  /** The resolved cost of one row: `{ mxn, usd, found, custom }`. */
  datatype Importe = Importe(mxn: real, usd: real, found: bool, custom: bool)
}
