/** The storefront's records: catalog items, cart lines and order records, and the fixed
    delivery fee. */
module Model {

  /** A catalog entry of `MENU_DATA`. */
  datatype MenuItem = MenuItem(
    id: int,
    name: string,
    category: string,
    price: int,
    description: string,
    ingredients: seq<string>,
    imageUrl: string,
    popularityScore: int,
    featured: bool)

  /** A cart line: a copy of the catalog item taken when it was first added (`{...menuItem, quantity}`). */
  datatype CartLine = CartLine(item: MenuItem, quantity: int)

  /** A line of an order record: the four fields copied from a cart line at checkout. */
  datatype OrderLine = OrderLine(id: int, name: string, price: int, quantity: int)

  /** An order record as it is kept in the order history. */
  datatype Order = Order(
    customerName: string,
    phone: string,
    address: string,
    city: string,
    notes: string,
    items: seq<OrderLine>,
    subtotal: int,
    deliveryFee: int,
    total: int,
    orderId: string,
    status: string,
    date: string)

  /** The fixed charge added to every cart total. */
  const DELIVERY_FEE: int := 500

  /** No two items share an id. */
  predicate DistinctIds(items: seq<MenuItem>) {
    forall i, j | 0 <= i < j < |items| :: items[i].id != items[j].id
  }
}
