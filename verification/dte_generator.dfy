/** The official "Factura" document built from an invoice
    (`src/utils/dteGenerator.ts`): the field-by-field mapping of the
    invoice into identification, issuer, receiver, body lines, summary and
    extension. The random draws and clock readings the generator makes are
    explicit inputs, gathered in `Environment`. */
module DteGenerator {
  import opened Wrappers
  import opened Text
  import opened Seqs
  import opened Types
  import opened DteWords
  import opened DteCodes
  import DteWordsReading

  // ---- The document ----

  /** The random draws and clock readings one call of
      `generateDTEFromInvoice` consumes: `Date.now()` and
      `Math.random().toString(36)` for the control number, the draws of
      the UUID (`uuidDraw(k)` is the k-th), and `toISOString()` / `toTimeString()` of `new Date()`. */
  datatype Environment = Environment(
    nowMillis: nat,
    randomBase36: string,
    uuidDraw: nat -> Nibble,
    isoTimestamp: string,
    timeString: string)

  const IssuerName: string := "BIKESTORE PRO SOCIEDAD ANONIMA DE CAPITAL VARIABLE"
  const IssuerNit: string := "12345678901234"

  /** The fixed issuer: the store's registration data. */
  const Emisor: DteEmisor := DteEmisor(
    IssuerNit,
    "123456",
    IssuerName,
    "47730",
    "VENTA AL POR MENOR DE BICICLETAS Y ACCESORIOS",
    Some("BikeStore Pro"),
    "01",
    DteDireccion("06", "01", "COLONIA ESCALÓN, AVENIDA MASFERRER NORTE, EDIFICIO COMERCIAL BIKESTORE, LOCAL 101"),
    "+503 2222-3333",
    "ventas@bikestorepro.com",
    Some("0001"),
    Some("0001"),
    Some("0001"),
    Some("TIENDA-01"))

  /** The identification block: a normal-transmission test-environment
      "Factura" in dollars, with the codes drawn from `env` and the date
      and time cut from the clock texts. */
  function Identificacion(env: Environment): (x: DteIdentificacion)
    ensures ValidIdentificacion(x)
    ensures x.version == 1 && x.ambiente == "00" && x.tipoModelo == 1 && x.tipoOperacion == 1
    ensures x.tipoContingencia.None? && x.motivoContin.None?
    ensures x.numeroControl == GenerateNumeroControl(env.nowMillis, env.randomBase36)
    ensures x.codigoGeneracion == GenerateUuid(env.uuidDraw)
    ensures x.fecEmi <= env.isoTimestamp && 'T' !in x.fecEmi
    ensures 'T' in env.isoTimestamp ==> env.isoTimestamp[|x.fecEmi|] == 'T'
    ensures x.horEmi <= env.timeString && ' ' !in x.horEmi
    ensures ' ' in env.timeString ==> env.timeString[|x.horEmi|] == ' '
  {
    DteIdentificacion(
      1, "00", "01",
      GenerateNumeroControl(env.nowMillis, env.randomBase36),
      GenerateUuid(env.uuidDraw),
      1, 1, None, None,
      BeforeFirst(env.isoTimestamp, 'T'),
      BeforeFirst(env.timeString, ' '),
      "USD")
  }

  /** The document type of the receiver: "13" (DUI) when the number has a
      dash, "36" (NIT) otherwise. */
  function TipoDocumento(nit: string): (t: string)
    ensures t == "13" <==> '-' in nit
    ensures t == "36" <==> '-' !in nit
  {
    ContainsChar(nit, '-');
    if Contains(nit, "-") then "13" else "36"
  }

  /** The receiver block: the customer's document, name and e-mail. */
  function Receptor(invoice: Invoice): (r: DteReceptor)
    ensures ValidReceptor(r)
    ensures r.tipoDocumento == Some("13") <==> '-' in invoice.customerNIT
    ensures r.tipoDocumento == Some("36") <==> '-' !in invoice.customerNIT
    ensures r.numDocumento == Some(invoice.customerNIT)
    ensures r.nombre == Some(invoice.customerName)
    ensures r.correo == Some(invoice.customerEmail)
  {
    DteReceptor(
      Some(TipoDocumento(invoice.customerNIT)),
      Some(invoice.customerNIT),
      None,
      Some(invoice.customerName),
      None,
      None,
      Some(DteDireccion("06", "01", "SAN SALVADOR, EL SALVADOR")),
      None,
      Some(invoice.customerEmail))
  }

  /** The body line of cart line `item` at position `index`. */
  function CuerpoLine(item: CartItem, index: nat): DteCuerpoDocumento {
    DteCuerpoDocumento(
      index + 1, 1, None,
      item.quantity,
      Some(item.product.id),
      None,
      59,
      item.product.name,
      item.product.price,
      0.0, 0.0, 0.0,
      LineAmount(item),
      Some(["20"]),
      0.0, 0.0,
      LineAmount(item) * TaxRate)
  }

  /** `items.map((item, index) => ...)` numbered from `start + 1`: one
      goods line per cart line, in cart order, with its taxed sale and the
      13 % VAT on it. */
  function CuerpoLines(items: seq<CartItem>, start: nat): (r: seq<DteCuerpoDocumento>)
    ensures |r| == |items|
    ensures forall i :: 0 <= i < |items| ==>
      && ValidCuerpo(r[i])
      && r[i].numItem == start + i + 1
      && r[i].cantidad == items[i].quantity
      && r[i].codigo == Some(items[i].product.id)
      && r[i].descripcion == items[i].product.name
      && r[i].precioUni == items[i].product.price
      && r[i].ventaGravada == LineAmount(items[i])
      && r[i].ivaItem == r[i].ventaGravada * TaxRate
      && r[i].tipoItem == 1 && r[i].uniMedida == 59 && r[i].tributos == Some(["20"])
    decreases |items|
  {
    if items == [] then []
    else [CuerpoLine(items[0], start)] + CuerpoLines(items[1..], start + 1)
  }

  /** The summary block: the invoice's taxed subtotal, its VAT as the one
      tax entry, and its total as the amount to pay, paid at once in cash,
      in figures and in words. */
  function Resumen(invoice: Invoice): (r: DteResumen)
    requires invoice.total >= 0.0
    ensures ValidResumen(r)
    ensures r.totalGravada == r.subTotalVentas == r.subTotal == invoice.subtotal
    ensures r.tributos.Some? && |r.tributos.value| == 1
    ensures r.totalIva == r.tributos.value[0].valor == invoice.tax
    ensures r.condicionOperacion == 1
    ensures r.pagos.Some? && |r.pagos.value| == 1 && r.pagos.value[0].codigo == "01"
    ensures r.montoTotalOperacion == r.totalPagar == r.pagos.value[0].montoPago == invoice.total
    ensures r.totalLetras == NumeroALetras(invoice.total)
  {
    DteResumen(
      0.0, 0.0,
      invoice.subtotal,
      invoice.subtotal,
      0.0, 0.0, 0.0, 0.0, 0.0,
      Some([DteTributo("20", "Impuesto al Valor Agregado 13%", invoice.tax)]),
      invoice.subtotal,
      0.0, 0.0,
      invoice.total,
      0.0,
      invoice.total,
      NumeroALetras(invoice.total),
      invoice.tax,
      0.0,
      1,
      Some([DtePago("01", invoice.total, None, None, None)]),
      None)
  }

  const ObservacionesPrefix: string :=
    "Factura generada automáticamente por el sistema de BikeStore Pro. Total de artículos: "

  /** The extension block: delivered by the system, received by the
      customer, with the number of cart lines in the remarks. */
  function Extension(invoice: Invoice): (x: DteExtension)
    ensures x.nombEntrega == Some("SISTEMA AUTOMATIZADO BIKESTORE PRO") && x.docuEntrega == Some("12345678-9")
    ensures x.nombRecibe == Some(invoice.customerName)
    ensures x.docuRecibe == Some(invoice.customerNIT)
    ensures x.observaciones.Some? && ObservacionesPrefix <= x.observaciones.value
  {
    DteExtension(
      Some("SISTEMA AUTOMATIZADO BIKESTORE PRO"),
      Some("12345678-9"),
      Some(invoice.customerName),
      Some(invoice.customerNIT),
      Some(ObservacionesPrefix + NatToString(|invoice.items|)),
      None)
  }

  /** `generateDTEFromInvoice(invoice)` under the readings in `env`: every
      literal-typed field holds a value its declaration admits, the store
      is the issuer, the customer is both the receiver and the one who
      receives, there is one body line per cart line, and the summary
      carries the invoice's totals. */
  function GenerateDteFromInvoice(invoice: Invoice, env: Environment): (d: DteOficial)
    requires invoice.total >= 0.0
    ensures ValidDte(d)
    ensures d.identificacion == Identificacion(env)
    ensures d.emisor == Emisor
    ensures d.receptor == Some(Receptor(invoice))
    ensures d.cuerpoDocumento == CuerpoLines(invoice.items, 0)
    ensures d.resumen == Resumen(invoice)
    ensures d.extension == Some(Extension(invoice))
    ensures d.documentoRelacionado.None? && d.otrosDocumentos.None?
    ensures d.ventaTercero.None? && d.apendice.None?
  {
    DteOficial(
      Identificacion(env),
      None,
      Emisor,
      Some(Receptor(invoice)),
      None,
      None,
      CuerpoLines(invoice.items, 0),
      Resumen(invoice),
      Some(Extension(invoice)),
      None)
  }

  // ---- What the document says about the invoice ----

  function LineGravada(line: DteCuerpoDocumento): real {
    line.ventaGravada
  }

  function LineIva(line: DteCuerpoDocumento): real {
    line.ivaItem
  }

  /** The body lines' taxed sales add up to the cart total, and their VAT
      to 13 % of it. */
  lemma {:induction false} CuerpoSums(items: seq<CartItem>, start: nat)
    ensures SumBy(LineGravada, CuerpoLines(items, start)) == SumBy(LineAmount, items)
    ensures SumBy(LineIva, CuerpoLines(items, start)) == SumBy(LineAmount, items) * TaxRate
    decreases |items|
  {
    if items != [] {
      CuerpoSums(items[1..], start + 1);
      assert CuerpoLines(items, start)[1..] == CuerpoLines(items[1..], start + 1);
    }
  }

  /** For an invoice whose subtotal and tax were computed from its own cart
      (as checkout computes them), the summary agrees with the body: the
      taxed total is the sum of the lines and the VAT the sum of their VAT. */
  lemma ResumenMatchesCuerpo(invoice: Invoice)
    requires invoice.total >= 0.0
    requires invoice.subtotal == SumBy(LineAmount, invoice.items)
    requires invoice.tax == invoice.subtotal * TaxRate
    ensures Resumen(invoice).totalGravada == SumBy(LineGravada, CuerpoLines(invoice.items, 0))
    ensures Resumen(invoice).totalIva == SumBy(LineIva, CuerpoLines(invoice.items, 0))
  {
    CuerpoSums(invoice.items, 0);
  }

  /** The remarks end with the number of cart lines, which reads back. */
  lemma ObservacionesCount(invoice: Invoice)
    ensures var digits := Extension(invoice).observaciones.value[|ObservacionesPrefix|..];
      && (forall i :: 0 <= i < |digits| ==> IsDigit(digits[i]))
      && DigitsValue(digits) == |invoice.items|
  {
    var o := Extension(invoice).observaciones.value;
    assert o[|ObservacionesPrefix|..] == NatToString(|invoice.items|);
    NatToStringRoundTrip(|invoice.items|);
  }

  /** The amount in words reads back to the total's dollars and cents, for
      totals of at least one dollar. */
  lemma TotalLetrasReadsBack(invoice: Invoice)
    requires invoice.total >= 1.0
    ensures DteWordsReading.ReadAmount(Resumen(invoice).totalLetras)
      == Some((IntegerPart(invoice.total), Cents(invoice.total)))
  {
    DteWordsReading.NumeroALetrasRoundTrip(invoice.total);
  }
}
