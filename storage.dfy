/** `StorageManager`: the browser's key-value store and the read-modify-write operations on the
    lists the storefront keeps in it (the cart, the order history, the unavailable item ids) and
    on the admin's messaging number. */
module Storage {
  import opened Wrappers
  import opened Seqs
  import opened Model
  import opened OrderIds

  const CART_KEY := "foodhub_cart"
  const ORDERS_KEY := "foodhub_orders"
  const UNAVAILABLE_ITEMS_KEY := "foodhub_unavailable"
  const ADMIN_WHATSAPP_KEY := "foodhub_admin_whatsapp"

  /** A stored string, seen through `JSON.parse`: the serialized form of one of the lists this
      application writes, or `Raw` text that does not parse as such a list (the empty string
      and corrupted values among them). */
  datatype Entry =
    | Lines(lines: seq<CartLine>)
    | Orders(orders: seq<Order>)
    | Ids(ids: seq<int>)
    | Raw(text: string)

  /** The record `saveOrder` appends: the given order with its identifier kept or generated,
      the date stamped, and its status kept or defaulted. */
  function Stamped(order: Order, now: string, ts: nat, draw: nat): (r: Order)
    requires draw < 9000
    ensures r.(orderId := order.orderId, date := order.date, status := order.status) == order
    ensures r.date == now
    ensures order.orderId != "" ==> r.orderId == order.orderId
    ensures order.orderId == "" ==> ParseOrderId(r.orderId) == Some((ts, RandomSuffix(draw)))
    ensures order.status != "" ==> r.status == order.status
    ensures order.status == "" ==> r.status == "Completed"
    ensures r.orderId != "" && r.status != ""
  {
    ParseFormatted(ts, RandomSuffix(draw));
    var generatedId := if order.orderId != "" then order.orderId else FormatOrderId(ts, RandomSuffix(draw));
    order.(orderId := generatedId, date := now, status := if order.status != "" then order.status else "Completed")
  }

  /** The index of the first order whose identifier is `orderId` (`findIndex`). */
  function FindOrder(orders: seq<Order>, orderId: string): (r: Option<nat>)
    ensures r.Some? ==> r.value < |orders| && orders[r.value].orderId == orderId
    ensures r.Some? ==> forall k | 0 <= k < r.value :: orders[k].orderId != orderId
    ensures r.None? ==> forall k | 0 <= k < |orders| :: orders[k].orderId != orderId
  {
    if orders == [] then None
    else if orders[0].orderId == orderId then Some(0)
    else match FindOrder(orders[1..], orderId)
      case None => None
      case Some(k) => Some(k + 1)
  }

  /** The history after deleting `orderId`: the first matching order removed, if there is one. */
  function WithoutOrder(orders: seq<Order>, orderId: string): (r: seq<Order>)
    ensures FindOrder(orders, orderId).None? ==> r == orders
    ensures FindOrder(orders, orderId).Some? ==> |r| == |orders| - 1
    ensures FindOrder(orders, orderId).Some? ==>
      var i := FindOrder(orders, orderId).value; r == orders[..i] + orders[i + 1..]
  {
    match FindOrder(orders, orderId)
    case None => orders
    case Some(i) => RemoveAt(orders, i)
  }

  /** Deleting removes exactly one order carrying `orderId` when there is one, namely the first,
      and the orders with other identifiers stay as they were, in order. */
  lemma DeleteRemovesFirstMatch(orders: seq<Order>, orderId: string)
    ensures FindOrder(orders, orderId).Some? ==>
      var i := FindOrder(orders, orderId).value;
      && WithoutOrder(orders, orderId) == orders[..i] + orders[i + 1..]
      && orders[i].orderId == orderId
      && forall k | 0 <= k < i :: orders[k].orderId != orderId
    ensures var r := WithoutOrder(orders, orderId);
      && Filter(r, (o: Order) => o.orderId != orderId) == Filter(orders, (o: Order) => o.orderId != orderId)
      && |Filter(r, (o: Order) => o.orderId == orderId)|
         == if FindOrder(orders, orderId).Some? then |Filter(orders, (o: Order) => o.orderId == orderId)| - 1
            else 0
  {
    var other := (o: Order) => o.orderId != orderId;
    var same := (o: Order) => o.orderId == orderId;
    match FindOrder(orders, orderId)
    case None =>
      FilterNone(orders, same);
    case Some(i) =>
      var before, after := orders[..i], orders[i + 1..];
      assert orders == before + [orders[i]] + after;
      assert WithoutOrder(orders, orderId) == before + after;
      FilterNone(before, same);
      FilterAll(before, other);
      FilterAppend(before + [orders[i]], after, other);
      FilterAppend(before, [orders[i]], other);
      FilterAppend(before, after, other);
      FilterAppend(before + [orders[i]], after, same);
      FilterAppend(before, [orders[i]], same);
      FilterAppend(before, after, same);
  }

  /** The unavailable list after toggling `id`: its first occurrence removed, or `id` appended. */
  function Toggled(ids: seq<int>, id: int): (r: seq<int>)
    ensures id !in ids ==> r == ids + [id]
    ensures id in ids ==> |r| == |ids| - 1 && multiset(r) == multiset(ids) - multiset{id}
    ensures IndexOf(ids, id).Some? ==> var i := IndexOf(ids, id).value; r == ids[..i] + ids[i + 1..]
  {
    match IndexOf(ids, id)
    case None => ids + [id]
    case Some(i) => RemoveAt(ids, i)
  }

  /** Toggling changes the membership of `id` and of no other id, and keeps the list free of
      duplicates. */
  lemma ToggleMembership(ids: seq<int>, id: int)
    requires NoDuplicates(ids)
    ensures id in Toggled(ids, id) <==> id !in ids
    ensures forall x | x != id :: x in Toggled(ids, id) <==> x in ids
    ensures NoDuplicates(Toggled(ids, id))
  {
    var r := Toggled(ids, id);
    match IndexOf(ids, id)
    case None =>
    case Some(i) =>
      assert forall k | 0 <= k < |ids| && k != i :: ids[k] != id;
      forall x ensures x in r <==> x in ids && x != id {
        if x in r {
          var k :| 0 <= k < |r| && r[k] == x;
          if k < i { assert ids[k] == x; } else { assert ids[k + 1] == x; }
        }
        if x in ids && x != id {
          var k :| 0 <= k < |ids| && ids[k] == x;
          if k < i { assert r[k] == x; } else { assert r[k - 1] == x; }
        }
      }
      forall a, b | 0 <= a < b < |r| ensures r[a] != r[b] {
        var a', b' := if a < i then a else a + 1, if b < i then b else b + 1;
        assert r[a] == ids[a'] && r[b] == ids[b'];
      }
  }

  /** Toggling an available item twice restores the list exactly. */
  lemma ToggleTwiceAbsent(ids: seq<int>, id: int)
    requires id !in ids
    ensures Toggled(Toggled(ids, id), id) == ids
  {
    var once := ids + [id];
    assert IndexOf(once, id) == Some(|ids|);
    assert RemoveAt(once, |ids|) == ids;
  }

  /** Toggling twice restores whether `id` is unavailable, for a list without duplicates (which
      is all that toggling, starting from nothing, ever produces). */
  lemma ToggleTwiceRestores(ids: seq<int>, id: int)
    requires NoDuplicates(ids)
    ensures id in Toggled(Toggled(ids, id), id) <==> id in ids
  {
    ToggleMembership(ids, id);
    ToggleMembership(Toggled(ids, id), id);
  }

  /** Without the no-duplicates condition toggling twice need not restore membership. */
  lemma ToggleTwiceWithDuplicate()
    ensures 5 in [5, 5] && 5 !in Toggled(Toggled([5, 5], 5), 5)
  {
    assert Toggled([5, 5], 5) == [5];
    assert Toggled([5], 5) == [];
  }

  class StorageManager {
    /** The browser's `localStorage` for this origin. */
    var store: map<string, Entry>

    constructor (initial: map<string, Entry>)
      ensures store == initial
    {
      store := initial;
    }

    /** The stored cart; a missing key, an empty value or one that does not parse reads as `[]`. */
    function GetCart(): (cart: seq<CartLine>)
      reads this
      ensures CART_KEY !in store || !store[CART_KEY].Lines? ==> cart == []
    {
      if CART_KEY in store && store[CART_KEY].Lines? then store[CART_KEY].lines else []
    }

    method SaveCart(cart: seq<CartLine>)
      modifies this
      ensures store == old(store)[CART_KEY := Lines(cart)]
      ensures GetCart() == cart
    {
      store := store[CART_KEY := Lines(cart)];
    }

    method ClearCart()
      modifies this
      ensures store == old(store) - {CART_KEY}
      ensures GetCart() == []
    {
      store := store - {CART_KEY};
    }

    /** The order history; missing or unparseable reads as `[]`. */
    function GetOrders(): (orders: seq<Order>)
      reads this
      ensures ORDERS_KEY !in store || !store[ORDERS_KEY].Orders? ==> orders == []
    {
      if ORDERS_KEY in store && store[ORDERS_KEY].Orders? then store[ORDERS_KEY].orders else []
    }

    /** Appends one stamped record; `now` is the ISO date, `ts` the clock in milliseconds and
        `draw` the random draw used when the order carries no identifier. */
    method SaveOrder(order: Order, now: string, ts: nat, draw: nat)
      requires draw < 9000
      modifies this
      ensures GetOrders() == old(GetOrders()) + [Stamped(order, now, ts, draw)]
      ensures store == old(store)[ORDERS_KEY := Orders(GetOrders())]
    {
      var orders := GetOrders();
      var generatedId := if order.orderId != "" then order.orderId else FormatOrderId(ts, RandomSuffix(draw));
      orders := orders + [order.(orderId := generatedId, date := now,
                                 status := if order.status != "" then order.status else "Completed")];
      store := store[ORDERS_KEY := Orders(orders)];
    }

    /** Removes the first order with identifier `orderId`; with no match nothing is written. */
    method DeleteOrder(orderId: string)
      modifies this
      ensures GetOrders() == WithoutOrder(old(GetOrders()), orderId)
      ensures FindOrder(old(GetOrders()), orderId).None? ==> store == old(store)
      ensures FindOrder(old(GetOrders()), orderId).Some? ==> store == old(store)[ORDERS_KEY := Orders(GetOrders())]
    {
      var orders := GetOrders();
      var idx := FindOrder(orders, orderId);
      if idx.Some? {
        orders := RemoveAt(orders, idx.value);
        store := store[ORDERS_KEY := Orders(orders)];
      }
    }

    /** The admin's number, or `None` (null) when the key is missing or holds the empty string. */
    function GetAdminWhatsAppNumber(): (number: Option<string>)
      reads this
      ensures number.Some? <==> ADMIN_WHATSAPP_KEY in store && store[ADMIN_WHATSAPP_KEY].Raw? && store[ADMIN_WHATSAPP_KEY].text != ""
      ensures number.Some? ==> number.value != "" && store[ADMIN_WHATSAPP_KEY] == Raw(number.value)
      ensures ADMIN_WHATSAPP_KEY !in store ==> number.None?
    {
      if ADMIN_WHATSAPP_KEY in store && store[ADMIN_WHATSAPP_KEY].Raw? && store[ADMIN_WHATSAPP_KEY].text != ""
      then Some(store[ADMIN_WHATSAPP_KEY].text)
      else None
    }

    /** `None` stands for `null`/`undefined`, which removes the key; a number is stored as text. */
    method SetAdminWhatsAppNumber(number: Option<string>)
      modifies this
      ensures number.None? ==> store == old(store) - {ADMIN_WHATSAPP_KEY}
      ensures number.Some? ==> store == old(store)[ADMIN_WHATSAPP_KEY := Raw(number.value)]
      ensures GetAdminWhatsAppNumber() == if number.Some? && number.value != "" then number else None
    {
      if number.None? {
        store := store - {ADMIN_WHATSAPP_KEY};
      } else {
        store := store[ADMIN_WHATSAPP_KEY := Raw(number.value)];
      }
    }

    /** The ids marked out of stock; missing or unparseable reads as `[]`. */
    function GetUnavailableItems(): (ids: seq<int>)
      reads this
      ensures UNAVAILABLE_ITEMS_KEY !in store || !store[UNAVAILABLE_ITEMS_KEY].Ids? ==> ids == []
    {
      if UNAVAILABLE_ITEMS_KEY in store && store[UNAVAILABLE_ITEMS_KEY].Ids?
      then store[UNAVAILABLE_ITEMS_KEY].ids
      else []
    }

    /** Removes the first occurrence of `itemId` or appends it, and always writes the list back. */
    method ToggleItemAvailability(itemId: int)
      modifies this
      ensures GetUnavailableItems() == Toggled(old(GetUnavailableItems()), itemId)
      ensures store == old(store)[UNAVAILABLE_ITEMS_KEY := Ids(GetUnavailableItems())]
    {
      var unavailable := GetUnavailableItems();
      var index := IndexOf(unavailable, itemId);
      if index.Some? {
        unavailable := RemoveAt(unavailable, index.value);
      } else {
        unavailable := unavailable + [itemId];
      }
      store := store[UNAVAILABLE_ITEMS_KEY := Ids(unavailable)];
    }

    function IsItemUnavailable(itemId: int): (r: bool)
      reads this
      ensures r <==> itemId in GetUnavailableItems()
    {
      itemId in GetUnavailableItems()
    }
  }
}
