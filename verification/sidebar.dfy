/** The navigation panel (`src/components/Sidebar.tsx`): which entries a
    visitor is offered, which one is highlighted, where the cart badge
    appears, and how the visitor's role is labelled. */
module Sidebar {
  import opened Wrappers
  import opened Types
  import opened Store
  import opened Storefront

  /** A menu entry: the screen it opens and its caption. */
  datatype MenuItem = MenuItem(view: View, caption: string)

  function Views(items: seq<MenuItem>): set<View> {
    set i | 0 <= i < |items| :: items[i].view
  }

  lemma ViewsOfTwo(a: MenuItem, b: MenuItem)
    ensures Views([a, b]) == {a.view, b.view}
  {
    var r := [a, b];
    assert r[0].view in Views(r) && r[1].view in Views(r);
  }

  lemma ViewsOfThree(a: MenuItem, b: MenuItem, c: MenuItem)
    ensures Views([a, b, c]) == {a.view, b.view, c.view}
  {
    var r := [a, b, c];
    assert r[0].view in Views(r) && r[1].view in Views(r) && r[2].view in Views(r);
  }

  /** `menuItems`: the administrator's, the cashier's, the signed-in
      customer's or the guest's list. Every entry opens a screen the guard
      of `handleViewChange` lets that visitor into, so a click on the menu
      never brings up the sign-in dialog; no screen is listed twice; the
      invoice list is offered to every signed-in visitor and to no guest,
      and the shop and cart only to guests and customers. */
  function MenuItems(user: Option<User>): (r: seq<MenuItem>)
    ensures forall i :: 0 <= i < |r| ==> AuthPrompt(r[i].view, user).None?
    ensures forall i, j :: 0 <= i < j < |r| ==> r[i].view != r[j].view
    ensures InvoicesView in Views(r) <==> user.Some?
    ensures CartView in Views(r) <==> user.None? || user.value.role == Customer
    ensures ShopView in Views(r) <==> user.None? || user.value.role == Customer
  {
    match user
    case None =>
      ViewsOfTwo(MenuItem(ShopView, "Tienda"), MenuItem(CartView, "Carrito"));
      [MenuItem(ShopView, "Tienda"), MenuItem(CartView, "Carrito")]
    case Some(u) =>
      match u.role
      case Admin =>
        ViewsOfThree(MenuItem(DashboardView, "Productos"), MenuItem(DteView, "DTEs"), MenuItem(InvoicesView, "Facturas"));
        [MenuItem(DashboardView, "Productos"), MenuItem(DteView, "DTEs"), MenuItem(InvoicesView, "Facturas")]
      case Cashier =>
        ViewsOfTwo(MenuItem(CashierView, "Punto de Venta"), MenuItem(InvoicesView, "Facturas"));
        [MenuItem(CashierView, "Punto de Venta"), MenuItem(InvoicesView, "Facturas")]
      case Customer =>
        ViewsOfThree(MenuItem(ShopView, "Tienda"), MenuItem(CartView, "Carrito"), MenuItem(InvoicesView, "Mis Facturas"));
        [MenuItem(ShopView, "Tienda"), MenuItem(CartView, "Carrito"), MenuItem(InvoicesView, "Mis Facturas")]
  }

  /** The menu lists only screens of the visitor's table; the screens a
      visitor may enter but is not offered are reached from inside other
      screens (payment, a single invoice). */
  lemma MenuWithinScreens(user: Option<User>)
    ensures Views(MenuItems(user)) <= Screens(RoleOf(user))
    ensures Screens(RoleOf(user)) - Views(MenuItems(user)) <= {PaymentView, InvoiceView, ShopView, CartView}
  {
    var r := MenuItems(user);
    match user
    case None =>
      ViewsOfTwo(r[0], r[1]);
    case Some(u) =>
      match u.role
      case Admin => ViewsOfThree(r[0], r[1], r[2]);
      case Cashier => ViewsOfTwo(r[0], r[1]);
      case Customer => ViewsOfThree(r[0], r[1], r[2]);
  }

  /** `getRoleLabel`. */
  function RoleLabel(role: Role): (l: string)
    ensures l == "Administrador" <==> role == Admin
    ensures l == "Cajera" <==> role == Cashier
    ensures l == "Cliente" <==> role == Customer
  {
    match role
    case Admin => "Administrador"
    case Cashier => "Cajera"
    case Customer => "Cliente"
  }

  /** Different roles are labelled differently. */
  lemma RoleLabelsDistinct(a: Role, b: Role)
    ensures RoleLabel(a) == RoleLabel(b) <==> a == b
  {
  }

  /** An entry is highlighted when it opens the current screen. */
  predicate IsActive(currentView: View, item: MenuItem) {
    currentView == item.view
  }

  /** At most one entry is highlighted, and one is exactly when the
      current screen is on the menu. */
  lemma {:induction false} OneActiveEntry(user: Option<User>, currentView: View)
    ensures forall i, j ::
      (0 <= i < |MenuItems(user)| && 0 <= j < |MenuItems(user)| &&
       IsActive(currentView, MenuItems(user)[i]) && IsActive(currentView, MenuItems(user)[j])) ==> i == j
    ensures (exists i :: 0 <= i < |MenuItems(user)| && IsActive(currentView, MenuItems(user)[i])) <==> currentView in Views(MenuItems(user))
  {
    var r := MenuItems(user);
    forall i, j | 0 <= i < |r| && 0 <= j < |r| && IsActive(currentView, r[i]) && IsActive(currentView, r[j])
      ensures i == j
    {
      DistinctViews(r, i, j);
    }
  }

  lemma DistinctViews(r: seq<MenuItem>, i: int, j: int)
    requires forall i, j :: 0 <= i < j < |r| ==> r[i].view != r[j].view
    requires 0 <= i < |r| && 0 <= j < |r| && r[i].view == r[j].view
    ensures i == j
  {
  }

  /** The counter on an entry: the count, on the cart entry only, and only
      when it is positive. */
  function Badge(item: MenuItem, cartItemCount: int): (b: Option<int>)
    ensures b.Some? <==> item.view == CartView && cartItemCount > 0
    ensures b.Some? ==> b.value == cartItemCount
  {
    if item.view == CartView && cartItemCount > 0 then Some(cartItemCount) else None
  }

  /** The badge a cart entry shows in the application, which passes the
      number of cart lines: a line of several articles counts once. */
  function CartBadge(cart: seq<CartItem>): (b: Option<int>)
    ensures b.Some? <==> cart != []
    ensures b.Some? ==> b.value == |cart|
  {
    Badge(MenuItem(CartView, "Carrito"), |cart|)
  }

  /** At most one entry of any menu carries a badge, and administrators
      and cashiers, whose menus have no cart entry, never see one. */
  lemma {:induction false} BadgeOnlyOnCart(user: Option<User>, cartItemCount: int)
    ensures forall i, j ::
      (0 <= i < |MenuItems(user)| && 0 <= j < |MenuItems(user)| &&
       Badge(MenuItems(user)[i], cartItemCount).Some? && Badge(MenuItems(user)[j], cartItemCount).Some?) ==> i == j
    ensures user.Some? && user.value.role != Customer ==>
      forall i :: 0 <= i < |MenuItems(user)| ==> Badge(MenuItems(user)[i], cartItemCount).None?
  {
    OneActiveEntry(user, CartView);
    var r := MenuItems(user);
    if user.Some? && user.value.role != Customer {
      forall i | 0 <= i < |r|
        ensures r[i].view != CartView
      {
        assert r[i].view in Views(r);
      }
    }
  }

  /** The badge counts lines, not articles: three of one product show 1. */
  lemma BadgeCountsLines(p: Product)
    ensures CartBadge([CartItem(p, 3)]) == Some(1)
    ensures ItemCount([CartItem(p, 3)]) == 3
  {
    assert ItemCount([CartItem(p, 3)]) == 3 + ItemCount([]);
  }
}
