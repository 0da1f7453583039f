/** The top-level component of the older tree
    (`project-prototype-OG/src/App.tsx`): no till, two roles, no saved
    state, and a guard that covers only the administrator screens and
    payment. */
module OgStorefront {
  import opened Wrappers
  import opened Text
  import opened Seqs
  import T = Types
  import opened OgTypes
  import Store

  /** `View` of the older tree. */
  datatype OgView =
    | DashboardView | ShopView | CartView | PaymentView
    | InvoiceView | DteView | InvoicesView

  /** The guard of this tree's `handleViewChange`. */
  function OgAuthPrompt(view: OgView, user: Option<OgUser>): (r: Option<OgRole>)
    ensures r == Some(Admin) <==> (view == DashboardView || view == DteView) && OgRoleOf(user) != Some(Admin)
    ensures r == Some(Customer) <==> view == PaymentView && user.None?
  {
    if (view == DashboardView || view == DteView) && !(user.Some? && user.value.role == Admin) then Some(Admin)
    else if view == PaymentView && user.None? then Some(Customer)
    else None
  }

  function OgRoleOf(user: Option<OgUser>): Option<OgRole> {
    if user.Some? then Some(user.value.role) else None
  }

  /** The screens each kind of visitor may enter: a guest everything but
      payment and the administrator screens (the invoice list included), a
      customer also payment, an administrator every screen. */
  function OgScreens(role: Option<OgRole>): set<OgView> {
    var guest := {ShopView, CartView, InvoiceView, InvoicesView};
    match role
    case None => guest
    case Some(Customer) => guest + {PaymentView}
    case Some(Admin) => guest + {PaymentView, DashboardView, DteView}
  }

  lemma OgGuardMatchesScreens(view: OgView, user: Option<OgUser>)
    ensures OgAuthPrompt(view, user).None? <==> view in OgScreens(OgRoleOf(user))
    ensures OgAuthPrompt(view, user).Some? ==> view in OgScreens(Some(OgAuthPrompt(view, user).value))
  {
  }

  /** The screen a sign-in lands on: the dashboard for an administrator,
      the shop otherwise; it passes the guard. */
  function OgLandingView(u: OgUser): (v: OgView)
    ensures OgAuthPrompt(v, Some(u)).None?
    ensures v == DashboardView <==> u.role == Admin
    ensures v == ShopView <==> u.role == Customer
  {
    match u.role
    case Admin => DashboardView
    case Customer => ShopView
  }

  /** The invoice this tree's `processPayment` builds: the cart and its
      totals, the customer's data, status "generated". */
  function OgCheckoutInvoice(cart: seq<T.CartItem>, payment: T.PaymentData, clock: Store.ClockReading): (inv: OgInvoice)
    ensures inv.id == "INV-" + NatToString(clock.millis)
    ensures inv.items == cart && inv.status == T.Generated
    ensures inv.date == Store.DateOf(clock)
    ensures inv.subtotal == Store.Subtotal(cart) && inv.tax == Store.Tax(inv.subtotal) && inv.total == Store.Total(inv.subtotal)
    ensures inv.customerName == payment.customerName && inv.customerNIT == payment.customerNIT
    ensures inv.customerEmail == payment.customerEmail
  {
    var subtotal := Store.Subtotal(cart);
    OgInvoice(
      "INV-" + NatToString(clock.millis),
      payment.customerName,
      payment.customerNIT,
      payment.customerEmail,
      cart,
      subtotal,
      Store.Tax(subtotal),
      Store.Total(subtotal),
      Store.DateOf(clock),
      T.Generated)
  }

  /** The state of the older `App`. */
  class OgApp {
    var currentView: OgView
    var user: Option<OgUser>
    var showAuthModal: bool
    var authRequiredRole: Option<OgRole>
    var sidebarOpen: bool
    var products: seq<T.Product>
    var cartItems: seq<T.CartItem>
    var currentInvoice: Option<OgInvoice>
    var invoices: seq<OgInvoice>
    var dteRecords: seq<T.DteRecord>

    /** Start-up: the shop, nobody signed in, the built-in catalogue, an
        empty cart and the three sample DTE records. */
    constructor(catalogue: seq<T.Product>)
      ensures currentView == ShopView && user.None?
      ensures !showAuthModal && authRequiredRole.None? && !sidebarOpen
      ensures products == catalogue && cartItems == [] && currentInvoice.None? && invoices == []
      ensures dteRecords == Store.InitialDteRecords
    {
      currentView := ShopView;
      user := None;
      showAuthModal := false;
      authRequiredRole := None;
      sidebarOpen := false;
      products := catalogue;
      cartItems := [];
      currentInvoice := None;
      invoices := [];
      dteRecords := Store.InitialDteRecords;
    }

    /** `handleLogin`: signed in, modal and sidebar closed, landing screen
        of the role. */
    method HandleLogin(u: OgUser)
      modifies this
      ensures user == Some(u) && !showAuthModal && !sidebarOpen
      ensures currentView == OgLandingView(u) && OgAuthPrompt(currentView, user).None?
      ensures authRequiredRole == old(authRequiredRole)
      ensures products == old(products) && cartItems == old(cartItems)
      ensures currentInvoice == old(currentInvoice) && invoices == old(invoices) && dteRecords == old(dteRecords)
    {
      user := Some(u);
      showAuthModal := false;
      sidebarOpen := false;
      currentView := OgLandingView(u);
    }

    /** `handleLogout`: nobody signed in, empty cart, the shop. */
    method HandleLogout()
      modifies this
      ensures user.None? && cartItems == [] && currentView == ShopView && !sidebarOpen
      ensures showAuthModal == old(showAuthModal) && authRequiredRole == old(authRequiredRole)
      ensures products == old(products)
      ensures currentInvoice == old(currentInvoice) && invoices == old(invoices) && dteRecords == old(dteRecords)
    {
      user := None;
      cartItems := [];
      currentView := ShopView;
      sidebarOpen := false;
    }

    /** `handleShowAuth(requiredRole)`. */
    method HandleShowAuth(requiredRole: Option<OgRole>)
      modifies this
      ensures showAuthModal && authRequiredRole == requiredRole
      ensures currentView == old(currentView) && user == old(user) && sidebarOpen == old(sidebarOpen)
      ensures products == old(products) && cartItems == old(cartItems)
      ensures currentInvoice == old(currentInvoice) && invoices == old(invoices) && dteRecords == old(dteRecords)
    {
      authRequiredRole := requiredRole;
      showAuthModal := true;
    }

    /** `handleViewChange(view)`: refused screens open the modal and leave
        the screen as it was; the others are shown and close the sidebar. */
    method HandleViewChange(view: OgView)
      modifies this
      ensures OgAuthPrompt(view, old(user)).Some? ==>
        && showAuthModal && authRequiredRole == OgAuthPrompt(view, old(user))
        && currentView == old(currentView) && sidebarOpen == old(sidebarOpen)
      ensures OgAuthPrompt(view, old(user)).None? ==>
        && currentView == view && !sidebarOpen
        && showAuthModal == old(showAuthModal) && authRequiredRole == old(authRequiredRole)
      ensures OgAuthPrompt(old(currentView), old(user)).None? ==> OgAuthPrompt(currentView, user).None?
      ensures user == old(user) && products == old(products) && cartItems == old(cartItems)
      ensures currentInvoice == old(currentInvoice) && invoices == old(invoices) && dteRecords == old(dteRecords)
    {
      var prompt := OgAuthPrompt(view, user);
      if prompt.Some? {
        HandleShowAuth(prompt);
        return;
      }
      currentView := view;
      sidebarOpen := false;
    }

    /** `addToCart(product, quantity)`, as in the current tree. */
    method AddToCart(product: T.Product, quantity: int)
      modifies this
      ensures cartItems == Store.AddToCart(old(cartItems), product, quantity)
      ensures Store.UniqueIds(old(cartItems)) ==> Store.UniqueIds(cartItems)
      ensures currentView == old(currentView) && user == old(user)
      ensures showAuthModal == old(showAuthModal) && authRequiredRole == old(authRequiredRole) && sidebarOpen == old(sidebarOpen)
      ensures products == old(products)
      ensures currentInvoice == old(currentInvoice) && invoices == old(invoices) && dteRecords == old(dteRecords)
    {
      if Store.UniqueIds(cartItems) {
        Store.AddToCartUnique(cartItems, product, quantity);
      }
      cartItems := Store.AddToCart(cartItems, product, quantity);
    }

    /** `updateCartQuantity(productId, quantity)`, as in the current tree. */
    method UpdateCartQuantity(id: string, quantity: int)
      modifies this
      ensures cartItems == Store.UpdateCartQuantity(old(cartItems), id, quantity)
      ensures Store.UniqueIds(old(cartItems)) ==> Store.UniqueIds(cartItems)
      ensures currentView == old(currentView) && user == old(user)
      ensures showAuthModal == old(showAuthModal) && authRequiredRole == old(authRequiredRole) && sidebarOpen == old(sidebarOpen)
      ensures products == old(products)
      ensures currentInvoice == old(currentInvoice) && invoices == old(invoices) && dteRecords == old(dteRecords)
    {
      if Store.UniqueIds(cartItems) {
        Store.UpdateCartQuantityUnique(cartItems, id, quantity);
      }
      cartItems := Store.UpdateCartQuantity(cartItems, id, quantity);
    }

    /** `addProduct(draft)`, with `Date.now()` as `nowMillis`. */
    method AddProduct(draft: Store.ProductDraft, nowMillis: nat)
      modifies this
      ensures products == Store.AddProduct(old(products), draft, nowMillis)
      ensures currentView == old(currentView) && user == old(user)
      ensures showAuthModal == old(showAuthModal) && authRequiredRole == old(authRequiredRole) && sidebarOpen == old(sidebarOpen)
      ensures cartItems == old(cartItems)
      ensures currentInvoice == old(currentInvoice) && invoices == old(invoices) && dteRecords == old(dteRecords)
    {
      products := Store.AddProduct(products, draft, nowMillis);
    }

    /** `updateProduct(id, patch)`. */
    method UpdateProduct(id: string, patch: Store.ProductPatch)
      modifies this
      ensures products == Store.UpdateProduct(old(products), id, patch)
      ensures currentView == old(currentView) && user == old(user)
      ensures showAuthModal == old(showAuthModal) && authRequiredRole == old(authRequiredRole) && sidebarOpen == old(sidebarOpen)
      ensures cartItems == old(cartItems)
      ensures currentInvoice == old(currentInvoice) && invoices == old(invoices) && dteRecords == old(dteRecords)
    {
      products := Store.UpdateProduct(products, id, patch);
    }

    /** `deleteProduct(id)`. */
    method DeleteProduct(id: string)
      modifies this
      ensures products == Store.DeleteProduct(old(products), id)
      ensures currentView == old(currentView) && user == old(user)
      ensures showAuthModal == old(showAuthModal) && authRequiredRole == old(authRequiredRole) && sidebarOpen == old(sidebarOpen)
      ensures cartItems == old(cartItems)
      ensures currentInvoice == old(currentInvoice) && invoices == old(invoices) && dteRecords == old(dteRecords)
    {
      products := Store.DeleteProduct(products, id);
    }

    /** `processPayment(paymentData)`: the invoice of the cart is shown
        and put first, a pending DTE record for its total is put first,
        the cart is emptied and the invoice screen is set directly, without
        the guard. */
    method ProcessPayment(payment: T.PaymentData, invoiceClock: Store.ClockReading, dteClock: Store.ClockReading)
      modifies this
      ensures var inv := OgCheckoutInvoice(old(cartItems), payment, invoiceClock);
        && currentInvoice == Some(inv)
        && invoices == [inv] + old(invoices)
        && dteRecords == [Store.CheckoutDteRecord(payment.customerName, inv.total, dteClock)] + old(dteRecords)
      ensures cartItems == [] && currentView == InvoiceView
      ensures user == old(user) && products == old(products)
      ensures showAuthModal == old(showAuthModal) && authRequiredRole == old(authRequiredRole) && sidebarOpen == old(sidebarOpen)
    {
      var inv := OgCheckoutInvoice(cartItems, payment, invoiceClock);
      currentInvoice := Some(inv);
      invoices := [inv] + invoices;
      dteRecords := [Store.CheckoutDteRecord(payment.customerName, inv.total, dteClock)] + dteRecords;
      cartItems := [];
      currentView := InvoiceView;
    }

    /** The DTE list's `onUpdateStatus(id, status)`. */
    method UpdateDteStatus(id: string, status: T.DteStatus)
      modifies this
      ensures dteRecords == Store.SetDteStatus(old(dteRecords), id, status)
      ensures currentView == old(currentView) && user == old(user)
      ensures showAuthModal == old(showAuthModal) && authRequiredRole == old(authRequiredRole) && sidebarOpen == old(sidebarOpen)
      ensures products == old(products) && cartItems == old(cartItems)
      ensures currentInvoice == old(currentInvoice) && invoices == old(invoices)
    {
      dteRecords := Store.SetDteStatus(dteRecords, id, status);
    }

    /** The invoice screen's back button: always the shop. */
    method InvoiceBack()
      modifies this
      ensures currentView == ShopView
      ensures user == old(user)
      ensures showAuthModal == old(showAuthModal) && authRequiredRole == old(authRequiredRole) && sidebarOpen == old(sidebarOpen)
      ensures products == old(products) && cartItems == old(cartItems)
      ensures currentInvoice == old(currentInvoice) && invoices == old(invoices) && dteRecords == old(dteRecords)
    {
      currentView := ShopView;
    }

    /** The invoice list's `onViewInvoice(invoice)`: the invoice screen is
        set directly. */
    method ViewInvoice(invoice: OgInvoice)
      modifies this
      ensures currentInvoice == Some(invoice) && currentView == InvoiceView
      ensures user == old(user)
      ensures showAuthModal == old(showAuthModal) && authRequiredRole == old(authRequiredRole) && sidebarOpen == old(sidebarOpen)
      ensures products == old(products) && cartItems == old(cartItems)
      ensures invoices == old(invoices) && dteRecords == old(dteRecords)
    {
      currentInvoice := Some(invoice);
      currentView := InvoiceView;
    }
  }
}
