/** `CartManager`: the in-memory cart, its mirror in the store, and the totals derived from it. */
module Cart {
  import opened Wrappers
  import opened Seqs
  import opened Model
  import opened Storage

  /** Some line of the cart is for item `id`. */
  predicate HasId(cart: seq<CartLine>, id: int) {
    exists k | 0 <= k < |cart| :: cart[k].item.id == id
  }

  /** The index of the first line for item `id` (`cart.find`). */
  function FindLine(cart: seq<CartLine>, id: int): (r: Option<nat>)
    ensures r.Some? ==> r.value < |cart| && cart[r.value].item.id == id
    ensures r.Some? ==> forall k | 0 <= k < r.value :: cart[k].item.id != id
    ensures r.None? <==> !HasId(cart, id)
  {
    if cart == [] then None
    else if cart[0].item.id == id then Some(0)
    else match FindLine(cart[1..], id)
      case None => None
      case Some(k) => Some(k + 1)
  }

  /** The cart after `addItem(item, quantity)`. */
  function AddLine(cart: seq<CartLine>, item: MenuItem, quantity: int): (r: seq<CartLine>)
    ensures !HasId(cart, item.id) ==> r == cart + [CartLine(item, quantity)]
    ensures HasId(cart, item.id) ==> |r| == |cart|
    ensures HasId(cart, item.id) ==>
      var i := FindLine(cart, item.id).value;
      r[i].item == cart[i].item && r[i].quantity == cart[i].quantity + quantity
      && forall k | 0 <= k < |cart| && k != i :: r[k] == cart[k]
  {
    match FindLine(cart, item.id)
    case Some(i) => cart[i := cart[i].(quantity := cart[i].quantity + quantity)]
    case None => cart + [CartLine(item, quantity)]
  }

  /** The cart after `removeItem(id)`: every line for `id` dropped, the others kept in order. */
  function RemoveLines(cart: seq<CartLine>, id: int): (r: seq<CartLine>)
    ensures !HasId(r, id)
    ensures forall k | 0 <= k < |cart| && cart[k].item.id != id :: cart[k] in r
    ensures forall k | 0 <= k < |r| :: r[k] in cart
    ensures !HasId(cart, id) ==> r == cart
  {
    var p := (l: CartLine) => l.item.id != id;
    FilterByIdFacts(cart, id, p);
    Filter(cart, p)
  }

  lemma FilterByIdFacts(cart: seq<CartLine>, id: int, p: CartLine -> bool)
    requires forall l :: p(l) == (l.item.id != id)
    ensures forall k | 0 <= k < |cart| && cart[k].item.id != id :: cart[k] in Filter(cart, p)
    ensures !HasId(cart, id) ==> Filter(cart, p) == cart
  {
    forall k | 0 <= k < |cart| && cart[k].item.id != id ensures cart[k] in Filter(cart, p) {
      FilterKeeps(cart, p, cart[k]);
    }
    if !HasId(cart, id) {
      FilterAll(cart, p);
    }
  }

  /** The kept lines are the cart read at increasing positions, one for every line whose id
      differs: order and multiplicity are those of the cart. */
  lemma RemoveLinesOrder(cart: seq<CartLine>, id: int) returns (idx: seq<nat>)
    ensures |idx| == |RemoveLines(cart, id)|
    ensures forall i | 0 <= i < |idx| :: idx[i] < |cart| && RemoveLines(cart, id)[i] == cart[idx[i]]
    ensures forall i, j | 0 <= i < j < |idx| :: idx[i] < idx[j]
    ensures forall k | 0 <= k < |cart| && cart[k].item.id != id :: k in idx
  {
    idx := FilterPositions(cart, (l: CartLine) => l.item.id != id);
  }

  /** The cart after setting the first line for `id` to `quantity`. */
  function SetQuantity(cart: seq<CartLine>, id: int, quantity: int): (r: seq<CartLine>)
    ensures |r| == |cart|
    ensures forall k | 0 <= k < |cart| :: r[k].item == cart[k].item
    ensures HasId(cart, id) ==>
      var i := FindLine(cart, id).value;
      r[i].quantity == quantity && forall k | 0 <= k < |cart| && k != i :: r[k] == cart[k]
    ensures !HasId(cart, id) ==> r == cart
  {
    match FindLine(cart, id)
    case Some(i) => cart[i := cart[i].(quantity := quantity)]
    case None => cart
  }

  /** The cart after `updateQuantity(id, quantity)`. */
  function UpdatedCart(cart: seq<CartLine>, id: int, quantity: int): seq<CartLine> {
    if !HasId(cart, id) then cart
    else if quantity <= 0 then RemoveLines(cart, id)
    else SetQuantity(cart, id, quantity)
  }

  /** `getCartCount`: Σ quantity. */
  function Count(cart: seq<CartLine>): int
    decreases |cart|
  {
    if cart == [] then 0 else Count(cart[..|cart| - 1]) + cart[|cart| - 1].quantity
  }

  /** `getSubtotal`: Σ price × quantity. */
  function Subtotal(cart: seq<CartLine>): int
    decreases |cart|
  {
    if cart == [] then 0
    else Subtotal(cart[..|cart| - 1]) + cart[|cart| - 1].item.price * cart[|cart| - 1].quantity
  }

  /** `getTotal`: the subtotal plus the delivery fee. */
  function Total(cart: seq<CartLine>): int {
    Subtotal(cart) + DELIVERY_FEE
  }

  /** The cart invariant: at most one line per item id, and every quantity at least 1. */
  predicate WellFormed(cart: seq<CartLine>) {
    && (forall i, j | 0 <= i < j < |cart| :: cart[i].item.id != cart[j].item.id)
    && (forall i | 0 <= i < |cart| :: cart[i].quantity >= 1)
  }

  lemma AddLinePreserves(cart: seq<CartLine>, item: MenuItem, quantity: int)
    requires WellFormed(cart) && quantity >= 1
    ensures WellFormed(AddLine(cart, item, quantity))
  {
  }

  lemma RemoveLinesPreserves(cart: seq<CartLine>, id: int)
    requires WellFormed(cart)
    ensures WellFormed(RemoveLines(cart, id))
  {
    var p := (l: CartLine) => l.item.id != id;
    var rel := (a: CartLine, b: CartLine) => a.item.id != b.item.id;
    FilterPairwise(cart, p, rel);
    assert RemoveLines(cart, id) == Filter(cart, p);
  }

  lemma SetQuantityPreserves(cart: seq<CartLine>, id: int, quantity: int)
    requires WellFormed(cart) && quantity >= 1
    ensures WellFormed(SetQuantity(cart, id, quantity))
  {
  }

  /** The invariant survives every `updateQuantity`, whatever the quantity. */
  lemma UpdatePreserves(cart: seq<CartLine>, id: int, quantity: int)
    requires WellFormed(cart)
    ensures WellFormed(UpdatedCart(cart, id, quantity))
  {
    if HasId(cart, id) {
      if quantity <= 0 { RemoveLinesPreserves(cart, id); } else { SetQuantityPreserves(cart, id, quantity); }
    }
  }

  /** Replacing one line changes the count and the subtotal by that line's difference. */
  lemma {:induction false} TotalsAfterReplace(cart: seq<CartLine>, i: nat, line: CartLine)
    requires i < |cart|
    ensures Count(cart[i := line]) == Count(cart) - cart[i].quantity + line.quantity
    ensures Subtotal(cart[i := line]) ==
            Subtotal(cart) - cart[i].item.price * cart[i].quantity + line.item.price * line.quantity
    decreases |cart|
  {
    var r := cart[i := line];
    if i < |cart| - 1 {
      assert r[..|r| - 1] == cart[..|cart| - 1][i := line];
      TotalsAfterReplace(cart[..|cart| - 1], i, line);
    } else {
      assert r[..|r| - 1] == cart[..|cart| - 1];
    }
  }

  /** Appending a line adds its quantity and its price × quantity. */
  lemma TotalsAfterAppend(cart: seq<CartLine>, line: CartLine)
    ensures Count(cart + [line]) == Count(cart) + line.quantity
    ensures Subtotal(cart + [line]) == Subtotal(cart) + line.item.price * line.quantity
  {
    assert (cart + [line])[..|cart|] == cart;
  }

  /** The unit price that `addItem(item, …)` charges: the price copied onto the line already
      holding that item, or the item's own price for a new line. */
  function ChargedPrice(cart: seq<CartLine>, item: MenuItem): int {
    match FindLine(cart, item.id)
    case Some(i) => cart[i].item.price
    case None => item.price
  }

  /** Adding `quantity` of an item raises the count by `quantity` and the subtotal by `quantity`
      times the charged price. */
  lemma TotalsAfterAdd(cart: seq<CartLine>, item: MenuItem, quantity: int)
    ensures Count(AddLine(cart, item, quantity)) == Count(cart) + quantity
    ensures Subtotal(AddLine(cart, item, quantity)) == Subtotal(cart) + ChargedPrice(cart, item) * quantity
  {
    match FindLine(cart, item.id)
    case Some(i) =>
      var price, q0 := cart[i].item.price, cart[i].quantity;
      TotalsAfterReplace(cart, i, cart[i].(quantity := q0 + quantity));
      assert price * (q0 + quantity) == price * q0 + price * quantity;
    case None =>
      TotalsAfterAppend(cart, CartLine(item, quantity));
  }

  /** Setting a line's quantity to `quantity` changes the count by the difference. */
  lemma CountAfterSetQuantity(cart: seq<CartLine>, id: int, quantity: int)
    requires HasId(cart, id)
    ensures Count(SetQuantity(cart, id, quantity)) ==
            Count(cart) - cart[FindLine(cart, id).value].quantity + quantity
  {
    var i := FindLine(cart, id).value;
    TotalsAfterReplace(cart, i, cart[i].(quantity := quantity));
  }

  /** With every quantity at least 1, the count is zero exactly when the cart has no lines, and
      otherwise at least the number of lines. */
  lemma {:induction false} CountZeroIffEmpty(cart: seq<CartLine>)
    requires forall i | 0 <= i < |cart| :: cart[i].quantity >= 1
    ensures Count(cart) >= |cart|
    ensures Count(cart) == 0 <==> cart == []
    decreases |cart|
  {
    if cart != [] {
      CountZeroIffEmpty(cart[..|cart| - 1]);
    }
  }

  /** With non-negative prices and positive quantities the subtotal is non-negative, so the
      total is never below the delivery fee. */
  lemma {:induction false} TotalAtLeastFee(cart: seq<CartLine>)
    requires forall i | 0 <= i < |cart| :: cart[i].item.price >= 0 && cart[i].quantity >= 1
    ensures Subtotal(cart) >= 0 && Total(cart) >= DELIVERY_FEE
    decreases |cart|
  {
    if cart != [] {
      TotalAtLeastFee(cart[..|cart| - 1]);
    }
  }

  /** Two Jollof Rice at 2500 and one item at 800: subtotal 5800, total 6300. */
  lemma TotalsExample(rice: MenuItem, other: MenuItem)
    requires rice.price == 2500 && other.price == 800
    ensures Subtotal([CartLine(rice, 2), CartLine(other, 1)]) == 5800
    ensures Total([CartLine(rice, 2), CartLine(other, 1)]) == 6300
  {
    var c := [CartLine(rice, 2), CartLine(other, 1)];
    assert c[..1] == [CartLine(rice, 2)];
    assert Subtotal(c[..1]) == Subtotal([]) + 2500 * 2;
    assert Subtotal(c) == Subtotal(c[..1]) + 800 * 1;
  }

  class CartManager {
    /** The module-level `cart` array. */
    var cart: seq<CartLine>
    const storage: StorageManager

    constructor (storage: StorageManager)
      ensures this.storage == storage && cart == []
    {
      this.storage := storage;
      cart := [];
    }

    /** The stored cart is the in-memory cart. */
    predicate Synced()
      reads this, storage
    {
      storage.GetCart() == cart
    }

    method Init()
      modifies this
      ensures cart == storage.GetCart() && Synced()
    {
      cart := storage.GetCart();
    }

    method AddItem(item: MenuItem, quantity: int) returns (added: bool)
      modifies this, storage
      ensures added
      ensures cart == AddLine(old(cart), item, quantity)
      ensures storage.store == old(storage.store)[CART_KEY := Lines(cart)]
      ensures Synced()
    {
      var existing := FindLine(cart, item.id);
      if existing.Some? {
        var i := existing.value;
        cart := cart[i := cart[i].(quantity := cart[i].quantity + quantity)];
      } else {
        cart := cart + [CartLine(item, quantity)];
      }
      storage.SaveCart(cart);
      added := true;
    }

    /** Always writes the cart back, even when no line had that id. */
    method RemoveItem(itemId: int)
      modifies this, storage
      ensures cart == RemoveLines(old(cart), itemId)
      ensures storage.store == old(storage.store)[CART_KEY := Lines(cart)]
      ensures Synced()
    {
      cart := RemoveLines(cart, itemId);
      storage.SaveCart(cart);
    }

    /** An absent id changes and writes nothing; a quantity of 0 or less removes the line. */
    method UpdateQuantity(itemId: int, quantity: int)
      modifies this, storage
      ensures cart == UpdatedCart(old(cart), itemId, quantity)
      ensures !HasId(old(cart), itemId) ==> cart == old(cart) && storage.store == old(storage.store)
      ensures HasId(old(cart), itemId) ==> storage.store == old(storage.store)[CART_KEY := Lines(cart)]
    {
      var line := FindLine(cart, itemId);
      if line.Some? {
        if quantity <= 0 {
          RemoveItem(itemId);
        } else {
          var i := line.value;
          cart := cart[i := cart[i].(quantity := quantity)];
          storage.SaveCart(cart);
        }
      }
    }

    /** `getCart` and `getCartItems`: the lines, in insertion order. */
    function Items(): (lines: seq<CartLine>)
      reads this, storage
      ensures Synced() ==> lines == storage.GetCart()
    {
      cart
    }

    function GetCartCount(): (n: int)
      reads this
      ensures WellFormed(cart) ==> n >= |cart|
    {
      if WellFormed(cart) then CountZeroIffEmpty(cart); Count(cart) else Count(cart)
    }

    function GetSubtotal(): (s: int)
      reads this
      ensures (forall i | 0 <= i < |cart| :: cart[i].item.price >= 0 && cart[i].quantity >= 1) ==> s >= 0
      ensures cart == [] ==> s == 0
    {
      if forall i | 0 <= i < |cart| :: cart[i].item.price >= 0 && cart[i].quantity >= 1
      then TotalAtLeastFee(cart); Subtotal(cart)
      else Subtotal(cart)
    }

    function GetTotal(): (t: int)
      reads this
      ensures t - GetSubtotal() == DELIVERY_FEE
    {
      GetSubtotal() + DELIVERY_FEE
    }

    function IsEmpty(): (r: bool)
      reads this
      ensures r <==> cart == []
      ensures WellFormed(cart) ==> (r <==> GetCartCount() == 0)
    {
      if WellFormed(cart) then CountZeroIffEmpty(cart); |cart| == 0 else |cart| == 0
    }

    /** Empties the cart and removes the stored key, so a later `Init` loads `[]`. */
    method Clear()
      modifies this, storage
      ensures cart == []
      ensures storage.store == old(storage.store) - {CART_KEY}
      ensures Synced() && storage.GetCart() == []
    {
      cart := [];
      storage.ClearCart();
    }
  }
}
