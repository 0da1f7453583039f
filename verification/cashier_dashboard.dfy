/** The till (`src/components/CashierDashboard.tsx`): the product search,
    the totals, the cart buttons, and the sale button whose guard, payload
    and form reset are the panel's own state changes. */
module CashierDashboard {
  import opened Wrappers
  import opened Text
  import opened Seqs
  import opened Types
  import opened Store

  predicate ProductMatches(p: Product, term: string) {
    SearchMatches(p.name, p.category, term)
  }

  function ProductFilter(term: string): Product -> bool {
    (p: Product) => ProductMatches(p, term)
  }

  /** `filteredProducts`: exactly the products whose name or category
      holds the search term, ignoring case, in catalogue order. */
  function FilteredProducts(products: seq<Product>, term: string): (r: seq<Product>)
    ensures forall i :: 0 <= i < |r| ==> r[i] in products && ProductMatches(r[i], term)
    ensures forall i :: 0 <= i < |products| && ProductMatches(products[i], term) ==> products[i] in r
  {
    var r := Filter(ProductFilter(term), products);
    assert forall i :: 0 <= i < |r| ==> ProductFilter(term)(r[i]);
    assert forall i :: 0 <= i < |products| && ProductMatches(products[i], term) ==> ProductFilter(term)(products[i]);
    r
  }

  lemma FilteredProductsKeepOrder(products: seq<Product>, term: string)
    ensures IsSubsequence(FilteredProducts(products, term), products)
  {
    FilterIsSubsequence(ProductFilter(term), products);
  }

  /** An empty search box shows the whole catalogue. */
  lemma EmptySearchShowsAll(products: seq<Product>)
    ensures FilteredProducts(products, "") == products
  {
    forall i | 0 <= i < |products|
      ensures ProductFilter("")(products[i])
    {
      EmptyTermMatches(products[i].name, products[i].category);
    }
    FilterAll(ProductFilter(""), products);
  }

  /** The panel's subtotal, tax and total. */
  datatype Totals = Totals(subtotal: real, tax: real, total: real)

  /** The totals the till shows: the same sums checkout puts on the
      invoice. */
  function PanelTotals(cart: seq<CartItem>): (t: Totals)
    ensures t.subtotal == SumBy(LineAmount, cart)
    ensures t.tax == t.subtotal * TaxRate && t.total == t.subtotal + t.tax
  {
    var subtotal := SumBy(LineAmount, cart);
    Totals(subtotal, subtotal * 0.13, subtotal + subtotal * 0.13)
  }

  /** The add button is disabled for a product out of stock. */
  predicate CanAdd(p: Product) {
    p.stock != 0
  }

  /** The add button of an available product puts one more article in
      the cart, on the product's own line. */
  lemma AddButton(cart: seq<CartItem>, p: Product)
    requires UniqueIds(cart) && CanAdd(p)
    ensures var r := AddToCart(cart, p, 1);
      ItemCount(r) == ItemCount(cart) + 1 && InCart(r, p.id) && UniqueIds(r)
  {
    AddToCartCount(cart, p, 1);
    AddToCartUnique(cart, p, 1);
  }

  /** The cart line buttons: one less, one more, remove. */
  function LineRequests(item: CartItem): seq<int> {
    [item.quantity - 1, item.quantity + 1, 0]
  }

  /** With distinct product ids, the plus button on a line adds exactly
      one article to the cart. */
  lemma PlusAddsOne(cart: seq<CartItem>, k: int)
    requires UniqueIds(cart) && 0 <= k < |cart| && cart[k].quantity >= 0
    ensures ItemCount(UpdateCartQuantity(cart, cart[k].product.id, LineRequests(cart[k])[1])) == ItemCount(cart) + 1
  {
    SetLineCount(cart, k, cart[k].quantity + 1);
  }

  /** Setting one line of a cart with distinct ids to `q > 0` changes the
      article count by the difference. */
  lemma SetLineCount(cart: seq<CartItem>, k: int, q: int)
    requires UniqueIds(cart) && 0 <= k < |cart| && q > 0
    ensures ItemCount(UpdateCartQuantity(cart, cart[k].product.id, q)) == ItemCount(cart) + (q - cart[k].quantity)
  {
    var r := UpdateCartQuantity(cart, cart[k].product.id, q);
    forall i | 0 <= i < |cart| && i != k
      ensures r[i].quantity == cart[i].quantity
    {
      OtherLineOtherId(cart, i, k);
    }
    RaiseOneLine(cart, r, k, q - cart[k].quantity);
  }

  lemma OtherLineOtherId(cart: seq<CartItem>, i: int, k: int)
    requires UniqueIds(cart) && 0 <= i < |cart| && 0 <= k < |cart| && i != k
    ensures cart[i].product.id != cart[k].product.id
  {
    if i < k {
      assert cart[i].product.id != cart[k].product.id;
    } else {
      assert cart[k].product.id != cart[i].product.id;
    }
  }

  /** The minus button on a line of one, and the remove button on any line,
      take the product out of the cart and keep every other line. */
  lemma DropButtons(cart: seq<CartItem>, k: int)
    requires 0 <= k < |cart|
    ensures var id := cart[k].product.id;
      && (cart[k].quantity == 1 ==> !InCart(UpdateCartQuantity(cart, id, LineRequests(cart[k])[0]), id))
      && !InCart(UpdateCartQuantity(cart, id, LineRequests(cart[k])[2]), id)
      && forall i :: 0 <= i < |cart| && cart[i].product.id != id ==> cart[i] in UpdateCartQuantity(cart, id, LineRequests(cart[k])[2])
  {
  }

  /** `'cash' | 'card'`. */
  datatype TillPayment = Cash | CardPayment

  /** The method recorded for the sale: cash is recorded as a transfer. */
  function RecordedMethod(m: TillPayment): (r: PaymentMethod)
    ensures r == Card <==> m == CardPayment
    ensures r == Transfer <==> m == Cash
  {
    match m
    case Cash => Transfer
    case CardPayment => Card
  }

  /** The guard of `handleProcessSale`: every customer field filled in and
      something in the cart. */
  predicate SaleAllowed(name: string, nit: string, email: string, cart: seq<CartItem>) {
    name != "" && nit != "" && email != "" && |cart| != 0
  }

  /** The `disabled` test of the sale button. */
  predicate SaleButtonDisabled(name: string, nit: string, email: string, cart: seq<CartItem>) {
    |cart| == 0 || name == "" || nit == "" || email == ""
  }

  /** The button is disabled exactly when the guard would refuse. */
  lemma ButtonMatchesGuard(name: string, nit: string, email: string, cart: seq<CartItem>)
    ensures SaleButtonDisabled(name, nit, email, cart) <==> !SaleAllowed(name, nit, email, cart)
  {
  }

  /** The `paymentData` the till hands to `onProcessPayment`. */
  function SalePayload(name: string, nit: string, email: string, m: TillPayment): (p: PaymentData)
    ensures p.customerName == name && p.customerNIT == nit && p.customerEmail == email
    ensures p.paymentMethod == RecordedMethod(m)
    ensures p.cardNumber.None? && p.expiryDate.None? && p.cvv.None? && p.accountNumber.None?
  {
    PaymentData(name, nit, email, RecordedMethod(m), None, None, None, None)
  }

  /** A sale rung up by a cashier produces an invoice carrying that
      cashier and the total the till showed. */
  lemma SaleInvoice(cart: seq<CartItem>, name: string, nit: string, email: string, m: TillPayment, cashier: User, clock: ClockReading)
    requires cashier.role == Cashier
    ensures var inv := CheckoutInvoice(cart, SalePayload(name, nit, email, m), Some(cashier), clock);
      && inv.cashierId == Some(cashier.id) && inv.cashierName == Some(cashier.name)
      && inv.total == PanelTotals(cart).total
      && inv.customerName == name && inv.customerNIT == nit && inv.customerEmail == email
  {
  }

  /** The till's own state. */
  class CashierPanel {
    var searchTerm: string
    var customerName: string
    var customerNit: string
    var customerEmail: string
    var paymentMethod: TillPayment
    var showPaymentForm: bool

    constructor()
      ensures searchTerm == "" && customerName == "" && customerNit == "" && customerEmail == ""
      ensures paymentMethod == Cash && !showPaymentForm
    {
      searchTerm := "";
      customerName := "";
      customerNit := "";
      customerEmail := "";
      paymentMethod := Cash;
      showPaymentForm := false;
    }

    /** `handleProcessSale` against the cart: refused (an alert, nothing
        changes) unless the guard holds; otherwise the payload is handed on
        and the customer fields are emptied. */
    method ProcessSale(cart: seq<CartItem>) returns (payload: Option<PaymentData>)
      modifies this
      ensures payload.Some? <==> SaleAllowed(old(customerName), old(customerNit), old(customerEmail), cart)
      ensures payload.Some? ==>
        && payload.value == SalePayload(old(customerName), old(customerNit), old(customerEmail), old(paymentMethod))
        && customerName == "" && customerNit == "" && customerEmail == "" && !showPaymentForm
      ensures payload.None? ==>
        && customerName == old(customerName) && customerNit == old(customerNit)
        && customerEmail == old(customerEmail) && showPaymentForm == old(showPaymentForm)
      ensures searchTerm == old(searchTerm) && paymentMethod == old(paymentMethod)
    {
      if customerName == "" || customerNit == "" || customerEmail == "" {
        return None;
      }
      if |cart| == 0 {
        return None;
      }
      payload := Some(SalePayload(customerName, customerNit, customerEmail, paymentMethod));
      customerName, customerNit, customerEmail := "", "", "";
      showPaymentForm := false;
    }

    /** The two payment buttons. */
    method SetPaymentMethod(m: TillPayment)
      modifies this
      ensures paymentMethod == m
      ensures searchTerm == old(searchTerm) && customerName == old(customerName) && customerNit == old(customerNit)
      ensures customerEmail == old(customerEmail) && showPaymentForm == old(showPaymentForm)
    {
      paymentMethod := m;
    }
  }
}
