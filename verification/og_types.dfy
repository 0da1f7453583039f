/** The older tree's records (`project-prototype-OG/src/types.ts`). Its
    Product, CartItem, DTERecord and PaymentData declarations are the same
    as the current tree's and are shared from `Types`; the user has only
    two roles and the invoice has no cashier fields. */
module OgTypes {
  import opened Wrappers
  import T = Types

  /** `User['role']` of the older tree: 'admin' | 'customer'. */
  datatype OgRole = Admin | Customer

  datatype OgUser = OgUser(id: string, email: string, name: string, role: OgRole, nit: Option<string>)

  datatype OgInvoice = OgInvoice(
    id: string,
    customerName: string,
    customerNIT: string,
    customerEmail: string,
    items: seq<T.CartItem>,
    subtotal: real,
    tax: real,
    total: real,
    date: string,
    status: T.InvoiceStatus)
}
