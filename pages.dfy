/** `PageManager`'s data selection: the home page's featured items, the admin panel's item flags
    and newest-first order history, and the empty-cart branches of the cart and checkout pages. */
module Pages {
  import opened Seqs
  import opened Model
  import opened Cart
  import opened Storage

  /** `renderHome`: the featured catalog items. */
  function Featured(menu: seq<MenuItem>): (shown: seq<MenuItem>)
    ensures forall i | 0 <= i < |shown| :: shown[i].featured && shown[i] in menu
  {
    Filter(menu, (m: MenuItem) => m.featured)
  }

  /** The home page shows exactly the featured catalog items, in catalog order: it reads the
      catalog at the increasing positions `idx`, which are all the featured positions. */
  lemma FeaturedSelection(menu: seq<MenuItem>) returns (idx: seq<nat>)
    ensures forall m :: m in Featured(menu) <==> m in menu && m.featured
    ensures |idx| == |Featured(menu)|
    ensures forall i | 0 <= i < |idx| :: idx[i] < |menu| && Featured(menu)[i] == menu[idx[i]]
    ensures forall i, j | 0 <= i < j < |idx| :: idx[i] < idx[j]
    ensures forall k | 0 <= k < |menu| && menu[k].featured :: k in idx
  {
    var featured := (m: MenuItem) => m.featured;
    idx := FilterPositions(menu, featured);
    forall m | m in menu && m.featured ensures m in Featured(menu) {
      FilterKeeps(menu, featured, m);
    }
  }

  /** An item card of the admin panel: the item and whether it shows as out of stock. */
  datatype AdminRow = AdminRow(item: MenuItem, outOfStock: bool)

  /** What `renderAdmin` presents: one row per catalog item, and the order history. */
  datatype AdminPage = AdminPage(rows: seq<AdminRow>, history: seq<Order>)

  function AdminView(menu: seq<MenuItem>, unavailable: seq<int>, orders: seq<Order>): AdminPage {
    AdminPage(
      seq(|menu|, i requires 0 <= i < |menu| => AdminRow(menu[i], menu[i].id in unavailable)),
      Reverse(orders))
  }

  /** `renderAdmin` over the stored lists; reading them changes nothing. */
  function RenderAdmin(menu: seq<MenuItem>, storage: StorageManager): (page: AdminPage)
    reads storage
    ensures |page.rows| == |menu| && |page.history| == |storage.GetOrders()|
  {
    AdminView(menu, storage.GetUnavailableItems(), storage.GetOrders())
  }

  /** One row per catalog item, in catalog order, out of stock iff the item is unavailable; the
      history lists the stored orders newest first, and reading it back to front gives the stored
      list again. */
  lemma RenderAdminFacts(menu: seq<MenuItem>, storage: StorageManager)
    ensures var page := RenderAdmin(menu, storage);
      && |page.rows| == |menu|
      && (forall i | 0 <= i < |menu| ::
            page.rows[i].item == menu[i]
            && (page.rows[i].outOfStock <==> storage.IsItemUnavailable(menu[i].id)))
      && |page.history| == |storage.GetOrders()|
      && (forall k | 0 <= k < |page.history| ::
            page.history[k] == storage.GetOrders()[|storage.GetOrders()| - 1 - k])
      && Reverse(page.history) == storage.GetOrders()
  {
    var orders := storage.GetOrders();
    forall k | 0 <= k < |orders| ensures Reverse(orders)[k] == orders[|orders| - 1 - k] {
      ReverseAt(orders, k);
    }
    ReverseReverse(orders);
  }

  /** Toggling an id's availability flips the out-of-stock mark of the items with that id and of
      no other item. */
  lemma ToggleFlipsRow(menu: seq<MenuItem>, unavailable: seq<int>, orders: seq<Order>, id: int)
    requires NoDuplicates(unavailable)
    ensures var before := AdminView(menu, unavailable, orders).rows;
      var after := AdminView(menu, Toggled(unavailable, id), orders).rows;
      forall i | 0 <= i < |menu| ::
        after[i].outOfStock == if menu[i].id == id then !before[i].outOfStock else before[i].outOfStock
  {
    ToggleMembership(unavailable, id);
  }

  /** What `renderCart` presents. */
  datatype CartPage =
    | EmptyCart
    | CartSummary(lines: seq<CartLine>, subtotal: int, deliveryFee: int, total: int)

  function RenderCart(cart: seq<CartLine>): (page: CartPage)
    ensures page.EmptyCart? <==> cart == []
    ensures page.CartSummary? ==> page.lines == cart && page.total == page.subtotal + page.deliveryFee
    ensures page.CartSummary? ==> page.subtotal == Subtotal(cart) && page.deliveryFee == DELIVERY_FEE
  {
    if |cart| == 0 then EmptyCart
    else CartSummary(cart, Subtotal(cart), DELIVERY_FEE, Total(cart))
  }

  /** A line of the checkout's order summary: name, quantity and `price × quantity`. */
  datatype SummaryLine = SummaryLine(name: string, quantity: int, amount: int)

  function SummaryLines(cart: seq<CartLine>): (r: seq<SummaryLine>)
    ensures |r| == |cart|
    decreases |cart|
  {
    if cart == [] then []
    else
      var last := cart[|cart| - 1];
      SummaryLines(cart[..|cart| - 1]) + [SummaryLine(last.item.name, last.quantity, last.item.price * last.quantity)]
  }

  function Amounts(lines: seq<SummaryLine>): int
    decreases |lines|
  {
    if lines == [] then 0 else Amounts(lines[..|lines| - 1]) + lines[|lines| - 1].amount
  }

  /** Each summary line is its cart line priced at `price × quantity`, and the line amounts add up
      to the subtotal shown beneath them. */
  lemma {:induction false} SummaryAddsUp(cart: seq<CartLine>)
    ensures forall i | 0 <= i < |cart| ::
      SummaryLines(cart)[i] == SummaryLine(cart[i].item.name, cart[i].quantity, cart[i].item.price * cart[i].quantity)
    ensures Amounts(SummaryLines(cart)) == Subtotal(cart)
    decreases |cart|
  {
    if cart != [] {
      var init := cart[..|cart| - 1];
      SummaryAddsUp(init);
      assert SummaryLines(cart)[..|cart| - 1] == SummaryLines(init);
    }
  }

  /** What `renderCheckout` presents beside the delivery form. */
  datatype CheckoutPage =
    | CheckoutUnavailable
    | CheckoutSummary(lines: seq<SummaryLine>, subtotal: int, deliveryFee: int, total: int)

  function RenderCheckout(cart: seq<CartLine>): (page: CheckoutPage)
    ensures page.CheckoutUnavailable? <==> cart == []
    ensures page.CheckoutSummary? ==> page.lines == SummaryLines(cart) && page.subtotal == Subtotal(cart)
    ensures page.CheckoutSummary? ==>
      && Amounts(page.lines) == page.subtotal
      && page.total == page.subtotal + DELIVERY_FEE
  {
    if |cart| == 0 then CheckoutUnavailable
    else
      SummaryAddsUp(cart);
      CheckoutSummary(SummaryLines(cart), Subtotal(cart), DELIVERY_FEE, Total(cart))
  }
}
