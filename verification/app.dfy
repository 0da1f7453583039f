/** The top-level component of the current tree (`src/App.tsx`): the
    screens, who may enter them, and the state the handlers update. The
    browser storage the component mirrors its state into is not modelled;
    the values it reads back at start-up are constructor parameters. */
module Storefront {
  import opened Wrappers
  import opened Text
  import opened Types
  import opened Store

  /** `View`: the screens. */
  datatype View =
    | DashboardView | ShopView | CartView | PaymentView
    | InvoiceView | DteView | InvoicesView | CashierView

  /** The guard of `handleViewChange`: the role the sign-in modal is
      opened for, or None when the screen may be entered. */
  function AuthPrompt(view: View, user: Option<User>): (r: Option<Role>)
    ensures r == Some(Admin) <==> (view == DashboardView || view == DteView) && RoleOf(user) != Some(Admin)
    ensures r == Some(Cashier) <==> view == CashierView && RoleOf(user) != Some(Cashier)
    ensures r == Some(Customer) <==> (view == PaymentView || view == InvoicesView) && user.None?
  {
    if (view == DashboardView || view == DteView) && !(user.Some? && user.value.role == Admin) then Some(Admin)
    else if view == CashierView && !(user.Some? && user.value.role == Cashier) then Some(Cashier)
    else if view == PaymentView && user.None? then Some(Customer)
    else if view == InvoicesView && user.None? then Some(Customer)
    else None
  }

  function RoleOf(user: Option<User>): Option<Role> {
    if user.Some? then Some(user.value.role) else None
  }

  /** The screens each kind of visitor may enter, as a table: a guest the
      shop, the cart and an invoice; a customer also payment and the
      invoice list; a cashier also the till; an administrator, instead of
      the till, the dashboard and the DTE list. */
  function Screens(role: Option<Role>): set<View> {
    var guest := {ShopView, CartView, InvoiceView};
    var signedIn := guest + {PaymentView, InvoicesView};
    match role
    case None => guest
    case Some(Customer) => signedIn
    case Some(Cashier) => signedIn + {CashierView}
    case Some(Admin) => signedIn + {DashboardView, DteView}
  }

  /** The guard lets a visitor through exactly to the screens of the
      table; when it stops them, it asks for a role whose table holds the
      screen. */
  lemma GuardMatchesScreens(view: View, user: Option<User>)
    ensures AuthPrompt(view, user).None? <==> view in Screens(RoleOf(user))
    ensures AuthPrompt(view, user).Some? ==> view in Screens(Some(AuthPrompt(view, user).value))
  {
  }

  /** The screen a sign-in lands on: the dashboard for an administrator,
      the till for a cashier, the shop for a customer. Every landing
      screen passes the guard for that user. */
  function LandingView(u: User): (v: View)
    ensures AuthPrompt(v, Some(u)).None?
    ensures v == DashboardView <==> u.role == Admin
    ensures v == CashierView <==> u.role == Cashier
    ensures v == ShopView <==> u.role == Customer
  {
    match u.role
    case Admin => DashboardView
    case Cashier => CashierView
    case Customer => ShopView
  }

  /** The first screen: the landing screen of a saved administrator or
      cashier; otherwise the saved screen, or the shop when none was
      saved. */
  function InitialView(savedUser: Option<User>, savedView: Option<View>): (v: View)
    ensures savedUser.Some? && savedUser.value.role != Customer ==> v == LandingView(savedUser.value)
    ensures !(savedUser.Some? && savedUser.value.role != Customer) ==>
      (savedView.Some? ==> v == savedView.value) && (savedView.None? ==> v == ShopView)
  {
    if savedUser.Some? && savedUser.value.role == Admin then DashboardView
    else if savedUser.Some? && savedUser.value.role == Cashier then CashierView
    else savedView.GetOr(ShopView)
  }

  /** A saved catalogue takes the picture of the built-in product with the
      same id; products the built-in catalogue does not have are kept as
      saved. */
  function RefreshImages(saved: seq<Product>, catalogue: seq<Product>): (r: seq<Product>)
    ensures |r| == |saved|
    ensures forall i :: 0 <= i < |saved| && FindProduct(catalogue, saved[i].id).Some? ==>
      r[i] == saved[i].(image := FindProduct(catalogue, saved[i].id).value.image)
    ensures forall i :: 0 <= i < |saved| && FindProduct(catalogue, saved[i].id).None? ==>
      r[i] == saved[i]
  {
    seq(|saved|, i requires 0 <= i < |saved| =>
      match FindProduct(catalogue, saved[i].id)
      case Some(p) => saved[i].(image := p.image)
      case None => saved[i])
  }

  /** `products.find(p => p.id === id)`: the first product with the id. */
  function FindProduct(products: seq<Product>, id: string): (r: Option<Product>)
    ensures r.None? <==> forall j :: 0 <= j < |products| ==> products[j].id != id
    ensures r.Some? ==> r.value.id == id
    ensures r.Some? ==>
      exists j :: 0 <= j < |products| && products[j] == r.value && forall k :: 0 <= k < j ==> products[k].id != id
  {
    if products == [] then None
    else if products[0].id == id then Some(products[0])
    else
      var r := FindProduct(products[1..], id);
      assert forall j :: 1 <= j < |products| ==> products[j] == products[1..][j - 1];
      if r.Some? then
        var j :| 0 <= j < |products[1..]| && products[1..][j] == r.value &&
          forall k :: 0 <= k < j ==> products[1..][k].id != id;
        assert products[j + 1] == r.value;
        r
      else r
  }

  /** The values the browser storage holds when the component starts. */
  datatype SavedState = SavedState(
    user: Option<User>,
    view: Option<View>,
    sourceView: Option<View>,
    products: Option<seq<Product>>,
    cart: Option<seq<CartItem>>,
    currentInvoice: Option<Invoice>,
    invoices: Option<seq<Invoice>>,
    dteRecords: Option<seq<DteRecord>>)

  /** The state of `App`, one field per `useState`. */
  class App {
    var currentView: View
    var invoiceSourceView: View
    var user: Option<User>
    var showAuthModal: bool
    var authRequiredRole: Option<Role>
    var sidebarOpen: bool
    var products: seq<Product>
    var cartItems: seq<CartItem>
    var currentInvoice: Option<Invoice>
    var invoices: seq<Invoice>
    var dteRecords: seq<DteRecord>

    /** Start-up: each field is its saved value or its default; the
        built-in `catalogue` stands for `initialProducts`. */
    constructor(saved: SavedState, catalogue: seq<Product>)
      ensures currentView == InitialView(saved.user, saved.view)
      ensures invoiceSourceView == saved.sourceView.GetOr(ShopView)
      ensures user == saved.user
      ensures !showAuthModal && authRequiredRole.None? && !sidebarOpen
      ensures products == (if saved.products.Some? then RefreshImages(saved.products.value, catalogue) else catalogue)
      ensures cartItems == saved.cart.GetOr([])
      ensures currentInvoice == saved.currentInvoice
      ensures invoices == saved.invoices.GetOr([])
      ensures dteRecords == saved.dteRecords.GetOr(InitialDteRecords)
    {
      currentView := InitialView(saved.user, saved.view);
      invoiceSourceView := saved.sourceView.GetOr(ShopView);
      user := saved.user;
      showAuthModal := false;
      authRequiredRole := None;
      sidebarOpen := false;
      products := if saved.products.Some? then RefreshImages(saved.products.value, catalogue) else catalogue;
      cartItems := saved.cart.GetOr([]);
      currentInvoice := saved.currentInvoice;
      invoices := saved.invoices.GetOr([]);
      dteRecords := saved.dteRecords.GetOr(InitialDteRecords);
    }

    /** `handleLogin`: the user is signed in, the modal and the sidebar
        close, and the landing screen of the user's role is shown. */
    method HandleLogin(u: User)
      modifies this
      ensures user == Some(u) && !showAuthModal && !sidebarOpen
      ensures currentView == LandingView(u) && AuthPrompt(currentView, user).None?
      ensures invoiceSourceView == old(invoiceSourceView) && authRequiredRole == old(authRequiredRole)
      ensures products == old(products) && cartItems == old(cartItems)
      ensures currentInvoice == old(currentInvoice) && invoices == old(invoices) && dteRecords == old(dteRecords)
    {
      user := Some(u);
      showAuthModal := false;
      sidebarOpen := false;
      currentView := LandingView(u);
    }

    /** `handleLogout`: nobody is signed in, the cart is emptied and both
        the screen and the return screen are the shop. */
    method HandleLogout()
      modifies this
      ensures user.None? && cartItems == [] && currentView == ShopView && invoiceSourceView == ShopView
      ensures !sidebarOpen
      ensures showAuthModal == old(showAuthModal) && authRequiredRole == old(authRequiredRole)
      ensures products == old(products)
      ensures currentInvoice == old(currentInvoice) && invoices == old(invoices) && dteRecords == old(dteRecords)
    {
      user := None;
      cartItems := [];
      currentView := ShopView;
      invoiceSourceView := ShopView;
      sidebarOpen := false;
    }

    /** `handleShowAuth(requiredRole)`: the modal opens for the role. */
    method HandleShowAuth(requiredRole: Option<Role>)
      modifies this
      ensures showAuthModal && authRequiredRole == requiredRole
      ensures currentView == old(currentView) && invoiceSourceView == old(invoiceSourceView)
      ensures user == old(user) && sidebarOpen == old(sidebarOpen)
      ensures products == old(products) && cartItems == old(cartItems)
      ensures currentInvoice == old(currentInvoice) && invoices == old(invoices) && dteRecords == old(dteRecords)
    {
      authRequiredRole := requiredRole;
      showAuthModal := true;
    }

    /** `handleViewChange(view)`: a screen the visitor may not enter
        leaves the screen as it was and opens the modal for the role it
        needs; otherwise the screen changes (the invoice screen remembering
        where it was entered from) and the sidebar closes. Either way the
        screen shown afterwards is one the visitor may enter, if it was
        before. */
    method HandleViewChange(view: View)
      modifies this
      ensures AuthPrompt(view, old(user)).Some? ==>
        && showAuthModal && authRequiredRole == AuthPrompt(view, old(user))
        && currentView == old(currentView) && invoiceSourceView == old(invoiceSourceView)
        && sidebarOpen == old(sidebarOpen)
      ensures AuthPrompt(view, old(user)).None? ==>
        && currentView == view && !sidebarOpen
        && invoiceSourceView == (if view == InvoiceView then old(currentView) else old(invoiceSourceView))
        && showAuthModal == old(showAuthModal) && authRequiredRole == old(authRequiredRole)
      ensures AuthPrompt(old(currentView), old(user)).None? ==> AuthPrompt(currentView, user).None?
      ensures user == old(user) && products == old(products) && cartItems == old(cartItems)
      ensures currentInvoice == old(currentInvoice) && invoices == old(invoices) && dteRecords == old(dteRecords)
    {
      var prompt := AuthPrompt(view, user);
      if prompt.Some? {
        HandleShowAuth(prompt);
        return;
      }
      if view == InvoiceView {
        invoiceSourceView := currentView;
      }
      currentView := view;
      sidebarOpen := false;
    }

    /** `addToCart(product, quantity)`; distinct product ids stay
        distinct. */
    method AddToCart(product: Product, quantity: int)
      modifies this
      ensures cartItems == Store.AddToCart(old(cartItems), product, quantity)
      ensures UniqueIds(old(cartItems)) ==> UniqueIds(cartItems)
      ensures UniqueIds(old(cartItems)) ==> ItemCount(cartItems) == ItemCount(old(cartItems)) + quantity
      ensures currentView == old(currentView) && invoiceSourceView == old(invoiceSourceView) && user == old(user)
      ensures showAuthModal == old(showAuthModal) && authRequiredRole == old(authRequiredRole) && sidebarOpen == old(sidebarOpen)
      ensures products == old(products)
      ensures currentInvoice == old(currentInvoice) && invoices == old(invoices) && dteRecords == old(dteRecords)
    {
      if UniqueIds(cartItems) {
        AddToCartUnique(cartItems, product, quantity);
        AddToCartCount(cartItems, product, quantity);
      }
      cartItems := Store.AddToCart(cartItems, product, quantity);
    }

    /** `updateCartQuantity(productId, quantity)`; distinct product ids
        stay distinct. */
    method UpdateCartQuantity(id: string, quantity: int)
      modifies this
      ensures cartItems == Store.UpdateCartQuantity(old(cartItems), id, quantity)
      ensures UniqueIds(old(cartItems)) ==> UniqueIds(cartItems)
      ensures currentView == old(currentView) && invoiceSourceView == old(invoiceSourceView) && user == old(user)
      ensures showAuthModal == old(showAuthModal) && authRequiredRole == old(authRequiredRole) && sidebarOpen == old(sidebarOpen)
      ensures products == old(products)
      ensures currentInvoice == old(currentInvoice) && invoices == old(invoices) && dteRecords == old(dteRecords)
    {
      if UniqueIds(cartItems) {
        UpdateCartQuantityUnique(cartItems, id, quantity);
      }
      cartItems := Store.UpdateCartQuantity(cartItems, id, quantity);
    }

    /** `addProduct(draft)`, with `Date.now()` as `nowMillis`. */
    method AddProduct(draft: ProductDraft, nowMillis: nat)
      modifies this
      ensures products == Store.AddProduct(old(products), draft, nowMillis)
      ensures currentView == old(currentView) && invoiceSourceView == old(invoiceSourceView) && user == old(user)
      ensures showAuthModal == old(showAuthModal) && authRequiredRole == old(authRequiredRole) && sidebarOpen == old(sidebarOpen)
      ensures cartItems == old(cartItems)
      ensures currentInvoice == old(currentInvoice) && invoices == old(invoices) && dteRecords == old(dteRecords)
    {
      products := Store.AddProduct(products, draft, nowMillis);
    }

    /** `updateProduct(id, patch)`. */
    method UpdateProduct(id: string, patch: ProductPatch)
      modifies this
      ensures products == Store.UpdateProduct(old(products), id, patch)
      ensures currentView == old(currentView) && invoiceSourceView == old(invoiceSourceView) && user == old(user)
      ensures showAuthModal == old(showAuthModal) && authRequiredRole == old(authRequiredRole) && sidebarOpen == old(sidebarOpen)
      ensures cartItems == old(cartItems)
      ensures currentInvoice == old(currentInvoice) && invoices == old(invoices) && dteRecords == old(dteRecords)
    {
      products := Store.UpdateProduct(products, id, patch);
    }

    /** `deleteProduct(id)`. */
    method DeleteProduct(id: string)
      modifies this
      ensures products == Store.DeleteProduct(old(products), id)
      ensures currentView == old(currentView) && invoiceSourceView == old(invoiceSourceView) && user == old(user)
      ensures showAuthModal == old(showAuthModal) && authRequiredRole == old(authRequiredRole) && sidebarOpen == old(sidebarOpen)
      ensures cartItems == old(cartItems)
      ensures currentInvoice == old(currentInvoice) && invoices == old(invoices) && dteRecords == old(dteRecords)
    {
      products := Store.DeleteProduct(products, id);
    }

    /** `processPayment(paymentData)`: the invoice of the cart is shown
        and put first in the list, a pending DTE record for its total is
        put first in the records, the cart is emptied, and the invoice
        screen opens with the screen it was reached from to return to.
        `invoiceClock` and `dteClock` are the clock readings taken for the
        invoice and for the record. */
    method ProcessPayment(payment: PaymentData, invoiceClock: ClockReading, dteClock: ClockReading)
      modifies this
      ensures var inv := CheckoutInvoice(old(cartItems), payment, old(user), invoiceClock);
        && currentInvoice == Some(inv)
        && invoices == [inv] + old(invoices)
        && dteRecords == [CheckoutDteRecord(payment.customerName, inv.total, dteClock)] + old(dteRecords)
      ensures cartItems == []
      ensures currentView == InvoiceView && invoiceSourceView == old(currentView) && !sidebarOpen
      ensures user == old(user) && products == old(products)
      ensures showAuthModal == old(showAuthModal) && authRequiredRole == old(authRequiredRole)
    {
      var inv := CheckoutInvoice(cartItems, payment, user, invoiceClock);
      currentInvoice := Some(inv);
      invoices := [inv] + invoices;
      dteRecords := [CheckoutDteRecord(payment.customerName, inv.total, dteClock)] + dteRecords;
      cartItems := [];
      HandleViewChange(InvoiceView);
    }

    /** `updateInvoiceStatus(invoiceId, status)`. */
    method UpdateInvoiceStatus(id: string, status: InvoiceStatus)
      modifies this
      ensures invoices == SetInvoiceStatus(old(invoices), id, status)
      ensures currentView == old(currentView) && invoiceSourceView == old(invoiceSourceView) && user == old(user)
      ensures showAuthModal == old(showAuthModal) && authRequiredRole == old(authRequiredRole) && sidebarOpen == old(sidebarOpen)
      ensures products == old(products) && cartItems == old(cartItems)
      ensures currentInvoice == old(currentInvoice) && dteRecords == old(dteRecords)
    {
      invoices := SetInvoiceStatus(invoices, id, status);
    }

    /** `sendInvoiceByEmail(invoiceId, email)`: once the (simulated)
        sending is over, the invoice is marked as sent. */
    method SendInvoiceByEmail(id: string, email: string)
      modifies this
      ensures invoices == SetInvoiceStatus(old(invoices), id, Sent)
      ensures currentView == old(currentView) && invoiceSourceView == old(invoiceSourceView) && user == old(user)
      ensures showAuthModal == old(showAuthModal) && authRequiredRole == old(authRequiredRole) && sidebarOpen == old(sidebarOpen)
      ensures products == old(products) && cartItems == old(cartItems)
      ensures currentInvoice == old(currentInvoice) && dteRecords == old(dteRecords)
    {
      UpdateInvoiceStatus(id, Sent);
    }

    /** The DTE list's `onUpdateStatus(id, status)`. */
    method UpdateDteStatus(id: string, status: DteStatus)
      modifies this
      ensures dteRecords == SetDteStatus(old(dteRecords), id, status)
      ensures currentView == old(currentView) && invoiceSourceView == old(invoiceSourceView) && user == old(user)
      ensures showAuthModal == old(showAuthModal) && authRequiredRole == old(authRequiredRole) && sidebarOpen == old(sidebarOpen)
      ensures products == old(products) && cartItems == old(cartItems)
      ensures currentInvoice == old(currentInvoice) && invoices == old(invoices)
    {
      dteRecords := SetDteStatus(dteRecords, id, status);
    }

    /** `handleBackNavigation`: back to the screen the invoice was opened
        from. */
    method HandleBackNavigation()
      modifies this
      ensures currentView == old(invoiceSourceView)
      ensures invoiceSourceView == old(invoiceSourceView) && user == old(user)
      ensures showAuthModal == old(showAuthModal) && authRequiredRole == old(authRequiredRole) && sidebarOpen == old(sidebarOpen)
      ensures products == old(products) && cartItems == old(cartItems)
      ensures currentInvoice == old(currentInvoice) && invoices == old(invoices) && dteRecords == old(dteRecords)
    {
      currentView := invoiceSourceView;
    }

    /** `handleViewInvoice(invoice)`: the invoice is shown, remembering the
        screen it was opened from. */
    method HandleViewInvoice(invoice: Invoice)
      modifies this
      ensures currentInvoice == Some(invoice)
      ensures currentView == InvoiceView && invoiceSourceView == old(currentView) && !sidebarOpen
      ensures user == old(user)
      ensures showAuthModal == old(showAuthModal) && authRequiredRole == old(authRequiredRole)
      ensures products == old(products) && cartItems == old(cartItems)
      ensures invoices == old(invoices) && dteRecords == old(dteRecords)
    {
      currentInvoice := Some(invoice);
      HandleViewChange(InvoiceView);
    }

    /** The sidebar's toggle button. */
    method ToggleSidebar()
      modifies this
      ensures sidebarOpen == !old(sidebarOpen)
      ensures currentView == old(currentView) && invoiceSourceView == old(invoiceSourceView) && user == old(user)
      ensures showAuthModal == old(showAuthModal) && authRequiredRole == old(authRequiredRole)
      ensures products == old(products) && cartItems == old(cartItems)
      ensures currentInvoice == old(currentInvoice) && invoices == old(invoices) && dteRecords == old(dteRecords)
    {
      sidebarOpen := !sidebarOpen;
    }
  }
}
