/** The older tree's navigation panel
    (`project-prototype-OG/src/components/Sidebar.tsx`): an administrator
    menu and one menu for everybody else, guests included. */
module OgSidebar {
  import opened Wrappers
  import opened OgTypes
  import opened OgStorefront

  /** A menu entry: the screen it opens and its caption. */
  datatype OgMenuItem = OgMenuItem(view: OgView, caption: string)

  function OgViews(items: seq<OgMenuItem>): set<OgView> {
    set i | 0 <= i < |items| :: items[i].view
  }

  lemma OgViewsOfThree(a: OgMenuItem, b: OgMenuItem, c: OgMenuItem)
    ensures OgViews([a, b, c]) == {a.view, b.view, c.view}
  {
    var r := [a, b, c];
    assert r[0].view in OgViews(r) && r[1].view in OgViews(r) && r[2].view in OgViews(r);
  }

  /** `menuItems`: the administrator's list, or the customer list for
      everybody else. Every entry passes this tree's guard (the invoice
      list is not guarded there, so a guest may open it), no screen is
      listed twice, and the administrator screens are offered exactly to
      administrators. */
  function OgMenuItems(user: Option<OgUser>): (r: seq<OgMenuItem>)
    ensures forall i :: 0 <= i < |r| ==> OgAuthPrompt(r[i].view, user).None?
    ensures forall i, j :: 0 <= i < j < |r| ==> r[i].view != r[j].view
    ensures InvoicesView in OgViews(r)
    ensures DashboardView in OgViews(r) <==> user.Some? && user.value.role == Admin
    ensures CartView in OgViews(r) <==> !(user.Some? && user.value.role == Admin)
  {
    if user.Some? && user.value.role == Admin then
      OgViewsOfThree(OgMenuItem(DashboardView, "Productos"), OgMenuItem(DteView, "DTEs"), OgMenuItem(InvoicesView, "Facturas"));
      [OgMenuItem(DashboardView, "Productos"), OgMenuItem(DteView, "DTEs"), OgMenuItem(InvoicesView, "Facturas")]
    else
      OgViewsOfThree(OgMenuItem(ShopView, "Tienda"), OgMenuItem(CartView, "Carrito"), OgMenuItem(InvoicesView, "Mis Facturas"));
      [OgMenuItem(ShopView, "Tienda"), OgMenuItem(CartView, "Carrito"), OgMenuItem(InvoicesView, "Mis Facturas")]
  }

  /** The menu lists only screens of the visitor's table. */
  lemma OgMenuWithinScreens(user: Option<OgUser>)
    ensures OgViews(OgMenuItems(user)) <= OgScreens(OgRoleOf(user))
  {
    var r := OgMenuItems(user);
    OgViewsOfThree(r[0], r[1], r[2]);
  }

  /** An entry is highlighted when it opens the current screen. */
  predicate OgIsActive(currentView: OgView, item: OgMenuItem) {
    currentView == item.view
  }

  lemma OgDistinctViews(r: seq<OgMenuItem>, i: int, j: int)
    requires forall i, j :: 0 <= i < j < |r| ==> r[i].view != r[j].view
    requires 0 <= i < |r| && 0 <= j < |r| && r[i].view == r[j].view
    ensures i == j
  {
  }

  /** At most one entry is highlighted. */
  lemma {:induction false} OgOneActiveEntry(user: Option<OgUser>, currentView: OgView)
    ensures forall i, j ::
      (0 <= i < |OgMenuItems(user)| && 0 <= j < |OgMenuItems(user)| &&
       OgIsActive(currentView, OgMenuItems(user)[i]) && OgIsActive(currentView, OgMenuItems(user)[j])) ==> i == j
  {
    var r := OgMenuItems(user);
    forall i, j | 0 <= i < |r| && 0 <= j < |r| && OgIsActive(currentView, r[i]) && OgIsActive(currentView, r[j])
      ensures i == j
    {
      OgDistinctViews(r, i, j);
    }
  }

  /** The counter on an entry: the count, on the cart entry only, and only
      when it is positive. */
  function OgBadge(item: OgMenuItem, cartItemCount: int): (b: Option<int>)
    ensures b.Some? <==> item.view == CartView && cartItemCount > 0
    ensures b.Some? ==> b.value == cartItemCount
  {
    if item.view == CartView && cartItemCount > 0 then Some(cartItemCount) else None
  }

  /** Exactly one entry carries a badge when the count is positive and
      the visitor is not an administrator; otherwise none does. */
  lemma {:induction false} OgBadgeOnlyOnCart(user: Option<OgUser>, cartItemCount: int)
    ensures (exists i :: 0 <= i < |OgMenuItems(user)| && OgBadge(OgMenuItems(user)[i], cartItemCount).Some?)
      <==> cartItemCount > 0 && !(user.Some? && user.value.role == Admin)
    ensures forall i, j ::
      (0 <= i < |OgMenuItems(user)| && 0 <= j < |OgMenuItems(user)| &&
       OgBadge(OgMenuItems(user)[i], cartItemCount).Some? && OgBadge(OgMenuItems(user)[j], cartItemCount).Some?) ==> i == j
  {
    OgOneActiveEntry(user, CartView);
    var r := OgMenuItems(user);
    OgViewsOfThree(r[0], r[1], r[2]);
    if cartItemCount > 0 && !(user.Some? && user.value.role == Admin) {
      assert OgBadge(r[1], cartItemCount).Some?;
    }
  }
}
