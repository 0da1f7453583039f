/** The list updates both App components compute with `map`, `filter`
    and `reduce` before handing them to a state setter (src/App.tsx and
    project-prototype-OG/src/App.tsx): the cart, the catalogue, the
    checkout totals and records, and the status changes. */
module Store {
  import opened Wrappers
  import opened Text
  import opened Seqs
  import opened Types

  // ---- Cart ----

  /** `cart.find(item => item.product.id === id)` finds something. */
  predicate InCart(cart: seq<CartItem>, id: string) {
    exists i :: 0 <= i < |cart| && cart[i].product.id == id
  }

  /** No two cart lines are for the same product. */
  predicate UniqueIds(cart: seq<CartItem>) {
    forall i, j :: 0 <= i < j < |cart| ==> cart[i].product.id != cart[j].product.id
  }

  /** `addToCart(product, quantity)`: a product already in the cart has
      its line's quantity raised (the line keeps its own product record);
      a new product gets a line at the end. */
  function AddToCart(cart: seq<CartItem>, product: Product, quantity: int): (r: seq<CartItem>)
    ensures InCart(cart, product.id) ==>
      && |r| == |cart|
      && forall i :: 0 <= i < |cart| ==>
           && r[i].product == cart[i].product
           && r[i].quantity == (if cart[i].product.id == product.id then cart[i].quantity + quantity else cart[i].quantity)
    ensures !InCart(cart, product.id) ==> r == cart + [CartItem(product, quantity)]
    ensures InCart(r, product.id)
  {
    if InCart(cart, product.id) then
      seq(|cart|, i requires 0 <= i < |cart| =>
        if cart[i].product.id == product.id then cart[i].(quantity := cart[i].quantity + quantity) else cart[i])
    else
      assert (cart + [CartItem(product, quantity)])[|cart|].product.id == product.id;
      cart + [CartItem(product, quantity)]
  }

  /** Adding to the cart keeps product ids distinct. */
  lemma AddToCartUnique(cart: seq<CartItem>, product: Product, quantity: int)
    requires UniqueIds(cart)
    ensures UniqueIds(AddToCart(cart, product, quantity))
  {
    var r := AddToCart(cart, product, quantity);
    if !InCart(cart, product.id) {
      forall i, j | 0 <= i < j < |r|
        ensures r[i].product.id != r[j].product.id
      {
        if j == |cart| {
          assert r[j].product.id == product.id;
          assert r[i] == cart[i];
        }
      }
    }
  }

  /** `cart.reduce((n, item) => n + item.quantity, 0)`: the number of
      articles in the cart. */
  function ItemCount(cart: seq<CartItem>): (n: int)
    ensures cart == [] ==> n == 0
    ensures (forall i :: 0 <= i < |cart| ==> cart[i].quantity >= 0) ==> n >= 0
  {
    if cart == [] then 0 else cart[0].quantity + ItemCount(cart[1..])
  }

  lemma {:induction false} ItemCountAppend(a: seq<CartItem>, b: seq<CartItem>)
    ensures ItemCount(a + b) == ItemCount(a) + ItemCount(b)
    decreases |a|
  {
    if a != [] {
      assert (a + b)[1..] == a[1..] + b;
      ItemCountAppend(a[1..], b);
    } else {
      assert a + b == b;
    }
  }

  /** Raising the quantity of one line: the article count grows by the
      raise and nothing else changes. */
  lemma {:induction false} RaiseOneLine(cart: seq<CartItem>, r: seq<CartItem>, k: int, quantity: int)
    requires |r| == |cart| && 0 <= k < |cart|
    requires r[k].quantity == cart[k].quantity + quantity
    requires forall i :: 0 <= i < |cart| && i != k ==> r[i].quantity == cart[i].quantity
    ensures ItemCount(r) == ItemCount(cart) + quantity
    decreases |cart|
  {
    if k > 0 {
      RaiseOneLine(cart[1..], r[1..], k - 1, quantity);
    } else if |cart| > 1 {
      SameCounts(cart[1..], r[1..]);
    }
  }

  lemma {:induction false} SameCounts(a: seq<CartItem>, b: seq<CartItem>)
    requires |a| == |b|
    requires forall i :: 0 <= i < |a| ==> a[i].quantity == b[i].quantity
    ensures ItemCount(a) == ItemCount(b)
    decreases |a|
  {
    if a != [] {
      SameCounts(a[1..], b[1..]);
    }
  }

  /** With distinct ids, adding `quantity` of a product adds exactly
      `quantity` articles to the cart, whether it merges or appends. */
  lemma AddToCartCount(cart: seq<CartItem>, product: Product, quantity: int)
    requires UniqueIds(cart)
    ensures ItemCount(AddToCart(cart, product, quantity)) == ItemCount(cart) + quantity
  {
    var r := AddToCart(cart, product, quantity);
    if InCart(cart, product.id) {
      var k :| 0 <= k < |cart| && cart[k].product.id == product.id;
      RaiseOneLine(cart, r, k, quantity);
    } else {
      ItemCountAppend(cart, [CartItem(product, quantity)]);
      assert ItemCount([CartItem(product, quantity)]) == quantity;
    }
  }

  /** `item.product.id !== productId`. */
  function OtherProduct(id: string): CartItem -> bool {
    (item: CartItem) => item.product.id != id
  }

  /** `updateCartQuantity(productId, quantity)`: zero or less removes the
      product's lines and keeps the rest in order; more than zero sets the
      quantity of its lines and changes nothing else. */
  function UpdateCartQuantity(cart: seq<CartItem>, id: string, quantity: int): (r: seq<CartItem>)
    ensures quantity <= 0 ==>
      && !InCart(r, id)
      && (forall i :: 0 <= i < |cart| && cart[i].product.id != id ==> cart[i] in r)
      && (forall i :: 0 <= i < |r| ==> r[i] in cart)
    ensures quantity > 0 ==>
      && |r| == |cart|
      && forall i :: 0 <= i < |cart| ==>
           && r[i].product == cart[i].product
           && r[i].quantity == (if cart[i].product.id == id then quantity else cart[i].quantity)
  {
    if quantity <= 0 then
      var r := Filter(OtherProduct(id), cart);
      assert forall i :: 0 <= i < |r| ==> r[i].product.id != id by {
        forall i | 0 <= i < |r| ensures r[i].product.id != id {
          assert OtherProduct(id)(r[i]);
        }
      }
      assert forall i :: 0 <= i < |cart| && cart[i].product.id != id ==> cart[i] in r by {
        forall i | 0 <= i < |cart| && cart[i].product.id != id ensures cart[i] in r {
          assert OtherProduct(id)(cart[i]);
        }
      }
      r
    else
      seq(|cart|, i requires 0 <= i < |cart| =>
        if cart[i].product.id == id then cart[i].(quantity := quantity) else cart[i])
  }

  /** Removing keeps the cart's order: the result is a subsequence. */
  lemma RemoveKeepsOrder(cart: seq<CartItem>, id: string, quantity: int)
    requires quantity <= 0
    ensures IsSubsequence(UpdateCartQuantity(cart, id, quantity), cart)
  {
    FilterIsSubsequence(OtherProduct(id), cart);
  }

  /** Both kinds of update keep product ids distinct. */
  lemma UpdateCartQuantityUnique(cart: seq<CartItem>, id: string, quantity: int)
    requires UniqueIds(cart)
    ensures UniqueIds(UpdateCartQuantity(cart, id, quantity))
  {
    if quantity <= 0 {
      FilterIsSubsequence(OtherProduct(id), cart);
      SubsequenceUnique(UpdateCartQuantity(cart, id, quantity), cart);
    }
  }

  lemma {:induction false} SubsequenceUnique(a: seq<CartItem>, b: seq<CartItem>)
    requires IsSubsequence(a, b) && UniqueIds(b)
    ensures UniqueIds(a)
    decreases |b|
  {
    if a != [] {
      if a[0] == b[0] && IsSubsequence(a[1..], b[1..]) {
        SubsequenceUnique(a[1..], b[1..]);
        SubsequenceMembers(a[1..], b[1..]);
        forall j | 0 < j < |a|
          ensures a[0].product.id != a[j].product.id
        {
          assert a[j] == a[1..][j - 1];
          var k :| 0 <= k < |b[1..]| && b[1..][k] == a[j];
          assert b[k + 1] == a[j];
        }
      } else {
        SubsequenceUnique(a, b[1..]);
      }
    }
  }

  lemma {:induction false} SubsequenceMembers<T>(a: seq<T>, b: seq<T>)
    requires IsSubsequence(a, b)
    ensures forall i :: 0 <= i < |a| ==> exists k :: 0 <= k < |b| && b[k] == a[i]
    decreases |b|
  {
    if a != [] {
      if a[0] == b[0] && IsSubsequence(a[1..], b[1..]) {
        SubsequenceMembers(a[1..], b[1..]);
        forall i | 0 < i < |a|
          ensures exists k :: 0 <= k < |b| && b[k] == a[i]
        {
          assert a[i] == a[1..][i - 1];
          var k :| 0 <= k < |b[1..]| && b[1..][k] == a[i];
          assert b[k + 1] == a[i];
        }
      } else {
        SubsequenceMembers(a, b[1..]);
        forall i | 0 <= i < |a|
          ensures exists k :: 0 <= k < |b| && b[k] == a[i]
        {
          var k :| 0 <= k < |b[1..]| && b[1..][k] == a[i];
          assert b[k + 1] == a[i];
        }
      }
    }
  }

  // ---- Catalogue ----

  /** `Omit<Product, 'id'>`: what the product form submits. */
  datatype ProductDraft = ProductDraft(name: string, price: real, stock: int, category: string, image: string)

  /** `Partial<Product>`: the fields an edit supplies. */
  datatype ProductPatch = ProductPatch(
    id: Option<string>,
    name: Option<string>,
    price: Option<real>,
    stock: Option<int>,
    category: Option<string>,
    image: Option<string>)

  /** `{ ...p, ...patch }`: each supplied field replaces the product's. */
  function Merge(p: Product, patch: ProductPatch): (r: Product)
    ensures patch.id.Some? ==> r.id == patch.id.value
    ensures patch.id.None? ==> r.id == p.id
    ensures patch.name.Some? ==> r.name == patch.name.value
    ensures patch.name.None? ==> r.name == p.name
    ensures patch.price.Some? ==> r.price == patch.price.value
    ensures patch.price.None? ==> r.price == p.price
    ensures patch.stock.Some? ==> r.stock == patch.stock.value
    ensures patch.stock.None? ==> r.stock == p.stock
    ensures patch.category.Some? ==> r.category == patch.category.value
    ensures patch.category.None? ==> r.category == p.category
    ensures patch.image.Some? ==> r.image == patch.image.value
    ensures patch.image.None? ==> r.image == p.image
    ensures patch == ProductPatch(None, None, None, None, None, None) ==> r == p
  {
    Product(
      patch.id.GetOr(p.id),
      patch.name.GetOr(p.name),
      patch.price.GetOr(p.price),
      patch.stock.GetOr(p.stock),
      patch.category.GetOr(p.category),
      patch.image.GetOr(p.image))
  }

  /** `addProduct(draft)`: the draft, with `Date.now().toString()` as its
      id, appended at the end. */
  function AddProduct(products: seq<Product>, draft: ProductDraft, nowMillis: nat): (r: seq<Product>)
    ensures |r| == |products| + 1 && r[..|products|] == products
    ensures r[|products|].id == NatToString(nowMillis)
    ensures r[|products|].name == draft.name && r[|products|].price == draft.price
    ensures r[|products|].stock == draft.stock && r[|products|].category == draft.category
    ensures r[|products|].image == draft.image
  {
    products + [Product(NatToString(nowMillis), draft.name, draft.price, draft.stock, draft.category, draft.image)]
  }

  /** `updateProduct(id, patch)`: the products with that id are merged
      with the patch; the others, the length and the order are kept. */
  function UpdateProduct(products: seq<Product>, id: string, patch: ProductPatch): (r: seq<Product>)
    ensures |r| == |products|
    ensures forall i :: 0 <= i < |products| ==>
      r[i] == if products[i].id == id then Merge(products[i], patch) else products[i]
  {
    seq(|products|, i requires 0 <= i < |products| =>
      if products[i].id == id then Merge(products[i], patch) else products[i])
  }

  function OtherId(id: string): Product -> bool {
    (p: Product) => p.id != id
  }

  /** `deleteProduct(id)`: exactly the products with that id go; the
      others stay, in order. */
  function DeleteProduct(products: seq<Product>, id: string): (r: seq<Product>)
    ensures forall i :: 0 <= i < |r| ==> r[i].id != id && r[i] in products
    ensures forall i :: 0 <= i < |products| && products[i].id != id ==> products[i] in r
  {
    var r := Filter(OtherId(id), products);
    assert forall i :: 0 <= i < |r| ==> OtherId(id)(r[i]);
    assert forall i :: 0 <= i < |products| && products[i].id != id ==> OtherId(id)(products[i]);
    r
  }

  lemma DeleteKeepsOrder(products: seq<Product>, id: string)
    ensures IsSubsequence(DeleteProduct(products, id), products)
  {
    FilterIsSubsequence(OtherId(id), products);
  }

  // ---- Checkout ----

  /** `cartItems.reduce((sum, item) => sum + item.product.price * item.quantity, 0)`. */
  function Subtotal(cart: seq<CartItem>): (s: real)
    ensures cart == [] ==> s == 0.0
    ensures |cart| == 1 ==> s == LineAmount(cart[0])
  {
    assert |cart| == 1 ==> cart[1..] == [] && SumBy(LineAmount, cart) == LineAmount(cart[0]) + SumBy(LineAmount, []);
    SumBy(LineAmount, cart)
  }

  /** Adding a line adds its amount: the subtotal of a cart is the sum of
      the subtotals of its parts. */
  lemma SubtotalAppend(a: seq<CartItem>, b: seq<CartItem>)
    ensures Subtotal(a + b) == Subtotal(a) + Subtotal(b)
  {
    SumByAppend(LineAmount, a, b);
  }

  /** `subtotal * 0.13`. */
  function Tax(subtotal: real): (t: real)
    ensures t == subtotal * 13.0 / 100.0
    ensures subtotal >= 0.0 ==> 0.0 <= t <= subtotal
  {
    subtotal * TaxRate
  }

  /** `subtotal + tax`: the amount due, 113 % of the subtotal. */
  function Total(subtotal: real): (t: real)
    ensures t == subtotal * 113.0 / 100.0
    ensures subtotal >= 0.0 ==> t >= subtotal
  {
    subtotal + Tax(subtotal)
  }

  /** A cart whose lines are all worth something has a non-negative
      total. */
  lemma TotalNonNegative(cart: seq<CartItem>)
    requires forall i :: 0 <= i < |cart| ==> cart[i].product.price >= 0.0 && cart[i].quantity >= 0
    ensures Total(Subtotal(cart)) >= 0.0
  {
    forall i | 0 <= i < |cart|
      ensures LineAmount(cart[i]) >= 0.0
    {
    }
    SumByNonNegative(LineAmount, cart);
  }

  /** One reading of the clock: `Date.now()` and the ISO text of the
      `new Date()` taken with it. */
  datatype ClockReading = ClockReading(millis: nat, iso: string)

  /** `new Date().toISOString().split('T')[0]`. */
  function DateOf(clock: ClockReading): (d: string)
    ensures d <= clock.iso && 'T' !in d
    ensures |d| < |clock.iso| ==> clock.iso[|d|] == 'T'
    ensures 'T' !in clock.iso ==> d == clock.iso
  {
    BeforeFirst(clock.iso, 'T')
  }

  /** The invoice `processPayment` builds: the cart's lines and totals,
      the customer's data, status "generated", and the cashier's name and
      id exactly when a cashier is signed in. */
  function CheckoutInvoice(cart: seq<CartItem>, payment: PaymentData, user: Option<User>, clock: ClockReading): (inv: Invoice)
    ensures inv.id == "INV-" + NatToString(clock.millis)
    ensures inv.items == cart
    ensures inv.subtotal == Subtotal(cart) && inv.tax == Tax(inv.subtotal) && inv.total == Total(inv.subtotal)
    ensures inv.customerName == payment.customerName && inv.customerNIT == payment.customerNIT
    ensures inv.customerEmail == payment.customerEmail
    ensures inv.status == Generated
    ensures inv.date == DateOf(clock)
    ensures inv.cashierName.Some? <==> user.Some? && user.value.role == Cashier
    ensures inv.cashierId.Some? <==> user.Some? && user.value.role == Cashier
    ensures inv.cashierId.Some? ==> inv.cashierId.value == user.value.id && inv.cashierName.value == user.value.name
  {
    var subtotal := Subtotal(cart);
    var isCashier := user.Some? && user.value.role == Cashier;
    Invoice(
      "INV-" + NatToString(clock.millis),
      payment.customerName,
      payment.customerNIT,
      payment.customerEmail,
      cart,
      subtotal,
      Tax(subtotal),
      Total(subtotal),
      DateOf(clock),
      Generated,
      if isCashier then Some(user.value.name) else None,
      if isCashier then Some(user.value.id) else None)
  }

  /** The DTE record `processPayment` files: pending, for the total. */
  function CheckoutDteRecord(customerName: string, total: real, clock: ClockReading): (d: DteRecord)
    ensures d.id == "DTE-" + NatToString(clock.millis)
    ensures d.customerName == customerName && d.amount == total && d.status == Pending
    ensures d.date == DateOf(clock) && d.xmlUrl == "#" && d.pdfUrl == "#"
  {
    DteRecord("DTE-" + NatToString(clock.millis), customerName, total, Pending, DateOf(clock), "#", "#")
  }

  // ---- Status updates ----

  /** `updateInvoiceStatus(id, status)`: the invoices with that id get the
      status; every other field, the length and the order are kept. */
  function SetInvoiceStatus(invoices: seq<Invoice>, id: string, status: InvoiceStatus): (r: seq<Invoice>)
    ensures |r| == |invoices|
    ensures forall i :: 0 <= i < |invoices| ==> r[i].(status := invoices[i].status) == invoices[i]
    ensures forall i :: 0 <= i < |invoices| ==> (r[i].status == status <== invoices[i].id == id)
    ensures forall i :: 0 <= i < |invoices| && invoices[i].id != id ==> r[i] == invoices[i]
  {
    seq(|invoices|, i requires 0 <= i < |invoices| =>
      if invoices[i].id == id then invoices[i].(status := status) else invoices[i])
  }

  /** Setting a status twice is setting it once. */
  lemma SetInvoiceStatusIdempotent(invoices: seq<Invoice>, id: string, status: InvoiceStatus)
    ensures SetInvoiceStatus(SetInvoiceStatus(invoices, id, status), id, status) == SetInvoiceStatus(invoices, id, status)
  {
  }

  /** The DTE list's `onUpdateStatus(id, status)`: the records with that
      id get the status; every other field, the length and the order are
      kept. */
  function SetDteStatus(records: seq<DteRecord>, id: string, status: DteStatus): (r: seq<DteRecord>)
    ensures |r| == |records|
    ensures forall i :: 0 <= i < |records| ==> r[i].(status := records[i].status) == records[i]
    ensures forall i :: 0 <= i < |records| ==> (r[i].status == status <== records[i].id == id)
    ensures forall i :: 0 <= i < |records| && records[i].id != id ==> r[i] == records[i]
  {
    seq(|records|, i requires 0 <= i < |records| =>
      if records[i].id == id then records[i].(status := status) else records[i])
  }

  /** The records both App components start with. */
  const InitialDteRecords: seq<DteRecord> := [
    DteRecord("DTE-2024-001", "Juan Pérez Empresa S.A.", 1435.0, Approved, "2024-01-15", "#", "#"),
    DteRecord("DTE-2024-002", "María González Comercial", 205.0, Pending, "2024-01-15", "#", "#"),
    DteRecord("DTE-2024-003", "Carlos Ruiz Deportes", 870.0, Rejected, "2024-01-14", "#", "#")]

  /** The starting records have distinct ids, one per status, and
      download links that are still placeholders. */
  lemma InitialDteRecordsShape()
    ensures forall i, j :: 0 <= i < j < |InitialDteRecords| ==> InitialDteRecords[i].id != InitialDteRecords[j].id
    ensures |InitialDteRecords| == 3
    ensures (set i | 0 <= i < |InitialDteRecords| :: InitialDteRecords[i].status) == {Approved, Pending, Rejected}
    ensures forall i :: 0 <= i < |InitialDteRecords| ==> InitialDteRecords[i].pdfUrl == "#" && InitialDteRecords[i].xmlUrl == "#"
  {
    assert InitialDteRecords[0].status == Approved && InitialDteRecords[1].status == Pending;
    assert InitialDteRecords[2].status == Rejected;
  }
}
