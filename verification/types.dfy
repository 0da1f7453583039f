/** The records of the storefront (`src/types.ts`): catalogue, cart,
    invoices, DTE records, users, and the shapes of the official DTE
    "Factura" document. Amounts are exact reals; string literal unions
    that the JSON carries as text are kept as strings, with predicates
    stating which literals the declarations admit. */
module Types {
  import opened Wrappers

  datatype Product = Product(
    id: string,
    name: string,
    price: real,
    stock: int,
    category: string,
    image: string)

  datatype CartItem = CartItem(product: Product, quantity: int)

  /** A cart line's amount, `item.product.price * item.quantity`. */
  function LineAmount(item: CartItem): real {
    item.product.price * item.quantity as real
  }

  /** The value-added tax rate, 13 %. */
  const TaxRate: real := 0.13

  /** `Invoice['status']`: 'generated' | 'sent' | 'paid'. */
  datatype InvoiceStatus = Generated | Sent | Paid

  datatype Invoice = Invoice(
    id: string,
    customerName: string,
    customerNIT: string,
    customerEmail: string,
    items: seq<CartItem>,
    subtotal: real,
    tax: real,
    total: real,
    date: string,
    status: InvoiceStatus,
    cashierName: Option<string>,
    cashierId: Option<string>)

  /** `DTERecord['status']`: 'approved' | 'rejected' | 'pending'. */
  datatype DteStatus = Approved | Rejected | Pending

  datatype DteRecord = DteRecord(
    id: string,
    customerName: string,
    amount: real,
    status: DteStatus,
    date: string,
    xmlUrl: string,
    pdfUrl: string)

  datatype PaymentMethod = Card | Transfer

  datatype PaymentData = PaymentData(
    customerName: string,
    customerNIT: string,
    customerEmail: string,
    paymentMethod: PaymentMethod,
    cardNumber: Option<string>,
    expiryDate: Option<string>,
    cvv: Option<string>,
    accountNumber: Option<string>)

  /** `User['role']`: 'admin' | 'customer' | 'cashier'. */
  datatype Role = Admin | Customer | Cashier

  datatype User = User(id: string, email: string, name: string, role: Role, nit: Option<string>)

  /** A list filter's status choice: 'all' or one status value. */
  datatype StatusFilter<S(==)> = AllStatuses | OnlyStatus(status: S)
  {
    predicate Accepts(s: S) {
      AllStatuses? || status == s
    }
  }

  // ---- The official DTE document ----

  /** Values of TypeScript type `any` in the document; the generator
      never produces one (every such field is `null`). */
  datatype AnyValue = AnyValue

  datatype DteIdentificacion = DteIdentificacion(
    version: int,
    ambiente: string,
    tipoDte: string,
    numeroControl: string,
    codigoGeneracion: string,
    tipoModelo: int,
    tipoOperacion: int,
    tipoContingencia: Option<int>,
    motivoContin: Option<string>,
    fecEmi: string,
    horEmi: string,
    tipoMoneda: string)

  datatype DteDireccion = DteDireccion(departamento: string, municipio: string, complemento: string)

  datatype DteEmisor = DteEmisor(
    nit: string,
    nrc: string,
    nombre: string,
    codActividad: string,
    descActividad: string,
    nombreComercial: Option<string>,
    tipoEstablecimiento: string,
    direccion: DteDireccion,
    telefono: string,
    correo: string,
    codEstableMH: Option<string>,
    codEstable: Option<string>,
    codPuntoVentaMH: Option<string>,
    codPuntoVenta: Option<string>)

  datatype DteReceptor = DteReceptor(
    tipoDocumento: Option<string>,
    numDocumento: Option<string>,
    nrc: Option<string>,
    nombre: Option<string>,
    codActividad: Option<string>,
    descActividad: Option<string>,
    direccion: Option<DteDireccion>,
    telefono: Option<string>,
    correo: Option<string>)

  datatype DteCuerpoDocumento = DteCuerpoDocumento(
    numItem: int,
    tipoItem: int,
    numeroDocumento: Option<string>,
    cantidad: int,
    codigo: Option<string>,
    codTributo: Option<string>,
    uniMedida: int,
    descripcion: string,
    precioUni: real,
    montoDescu: real,
    ventaNoSuj: real,
    ventaExenta: real,
    ventaGravada: real,
    tributos: Option<seq<string>>,
    psv: real,
    noGravado: real,
    ivaItem: real)

  datatype DteTributo = DteTributo(codigo: string, descripcion: string, valor: real)

  datatype DtePago = DtePago(
    codigo: string,
    montoPago: real,
    referencia: Option<string>,
    plazo: Option<string>,
    periodo: Option<int>)

  datatype DteResumen = DteResumen(
    totalNoSuj: real,
    totalExenta: real,
    totalGravada: real,
    subTotalVentas: real,
    descuNoSuj: real,
    descuExenta: real,
    descuGravada: real,
    porcentajeDescuento: real,
    totalDescu: real,
    tributos: Option<seq<DteTributo>>,
    subTotal: real,
    ivaRete1: real,
    reteRenta: real,
    montoTotalOperacion: real,
    totalNoGravado: real,
    totalPagar: real,
    totalLetras: string,
    totalIva: real,
    saldoFavor: real,
    condicionOperacion: int,
    pagos: Option<seq<DtePago>>,
    numPagoElectronico: Option<string>)

  datatype DteExtension = DteExtension(
    nombEntrega: Option<string>,
    docuEntrega: Option<string>,
    nombRecibe: Option<string>,
    docuRecibe: Option<string>,
    observaciones: Option<string>,
    placaVehiculo: Option<string>)

  datatype DteOficial = DteOficial(
    identificacion: DteIdentificacion,
    documentoRelacionado: Option<seq<AnyValue>>,
    emisor: DteEmisor,
    receptor: Option<DteReceptor>,
    otrosDocumentos: Option<seq<AnyValue>>,
    ventaTercero: Option<AnyValue>,
    cuerpoDocumento: seq<DteCuerpoDocumento>,
    resumen: DteResumen,
    extension: Option<DteExtension>,
    apendice: Option<seq<AnyValue>>)

  // ---- The literal unions the declarations admit ----

  predicate ValidIdentificacion(x: DteIdentificacion) {
    && x.ambiente in {"00", "01"}
    && x.tipoDte == "01"
    && x.tipoModelo in {1, 2}
    && x.tipoOperacion in {1, 2}
    && (x.tipoContingencia.None? || 1 <= x.tipoContingencia.value <= 5)
    && x.tipoMoneda == "USD"
  }

  predicate ValidEmisor(e: DteEmisor) {
    e.tipoEstablecimiento in {"01", "02", "04", "07", "20"}
  }

  predicate ValidReceptor(r: DteReceptor) {
    r.tipoDocumento.None? || r.tipoDocumento.value in {"36", "13", "02", "03", "37"}
  }

  predicate ValidCuerpo(c: DteCuerpoDocumento) {
    1 <= c.tipoItem <= 4
  }

  predicate ValidResumen(r: DteResumen) {
    1 <= r.condicionOperacion <= 3
  }

  /** A document whose every literal-typed field holds an admitted literal. */
  predicate ValidDte(d: DteOficial) {
    && ValidIdentificacion(d.identificacion)
    && ValidEmisor(d.emisor)
    && (d.receptor.None? || ValidReceptor(d.receptor.value))
    && (forall i :: 0 <= i < |d.cuerpoDocumento| ==> ValidCuerpo(d.cuerpoDocumento[i]))
    && ValidResumen(d.resumen)
  }
}
