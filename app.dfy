/** `AppState`: the checkout controller and its helpers — phone normalisation for chat links, the
    random order identifier, the order snapshot and confirmation message — and the event handlers
    that gate cart changes and sequence a checkout. */
module App {
  import opened Wrappers
  import opened Seqs
  import opened Text
  import opened Model
  import opened OrderIds
  import opened Storage
  import opened Cart
  import opened Ui

  /** The administrator's number, already in international format. */
  const ADMIN_WHATSAPP_NUMBER := "2349157286254"

  /** The country code the normaliser assumes. */
  const COUNTRY_CODE := "234"

  /** A character of the class `[\s()-]`. */
  predicate Separator(c: char) { IsSpace(c) || c == '(' || c == ')' || c == '-' }

  /** What `normalizePhoneForWa` returns, in terms of the digits `d` of the input: a leading 0 of a
      number of at least two digits becomes the country code, and a non-empty result still
      shorter than nine digits gets the country code in front. */
  function NormalizedPhone(raw: string): (r: string)
    ensures r == "" <==> Digits(raw) == ""
  {
    var d := Digits(raw);
    var local := if |d| >= 2 && d[0] == '0' then COUNTRY_CODE + d[1..] else d;
    if 0 < |local| < 9 then COUNTRY_CODE + local else local
  }

  lemma AllDigitsJoin(a: string, b: string)
    requires AllDigits(a) && AllDigits(b)
    ensures AllDigits(a + b)
  {
    assert forall i | |a| <= i < |a + b| :: (a + b)[i] == b[i - |a|];
  }

  /** The result is all digits, and empty exactly when the input has no digits. */
  lemma NormalizedPhoneDigits(raw: string)
    ensures AllDigits(NormalizedPhone(raw))
    ensures NormalizedPhone(raw) == "" <==> Digits(raw) == ""
  {
    var d := Digits(raw);
    assert AllDigits(d);
    assert AllDigits(COUNTRY_CODE);
    var local := if |d| >= 2 && d[0] == '0' then COUNTRY_CODE + d[1..] else d;
    if |d| >= 2 && d[0] == '0' {
      AllDigitsJoin(COUNTRY_CODE, d[1..]);
    }
    if 0 < |local| < 9 {
      AllDigitsJoin(COUNTRY_CODE, local);
    }
  }

  /** A number that starts with 0 loses that 0 behind the country code; a number of nine or more
      digits that does not start with 0 is returned unchanged; a shorter one gets the country code
      in front. */
  lemma NormalizedPhoneCases(raw: string)
    ensures var d := Digits(raw);
      && (|d| >= 7 && d[0] == '0' ==> NormalizedPhone(raw) == COUNTRY_CODE + d[1..])
      && (|d| >= 9 && d[0] != '0' ==> NormalizedPhone(raw) == d)
      && (0 < |d| < 9 && d[0] != '0' ==> NormalizedPhone(raw) == COUNTRY_CODE + d)
      && (2 <= |d| < 7 && d[0] == '0' ==> NormalizedPhone(raw) == COUNTRY_CODE + COUNTRY_CODE + d[1..])
      && (d == "0" ==> NormalizedPhone(raw) == COUNTRY_CODE + "0")
  {
  }

  /** Digits only, nine or more, not starting with 0: returned unchanged. */
  lemma NormalizedPhoneFixed(raw: string)
    requires AllDigits(raw) && |raw| >= 9 && raw[0] != '0'
    ensures NormalizedPhone(raw) == raw
  {
    FilterAll(raw, IsDigit);
  }

  /** The administrator's number is already normalised, and the local form it was written from
      normalises to it. */
  lemma AdminNumberNormalised()
    ensures NormalizedPhone(ADMIN_WHATSAPP_NUMBER) == ADMIN_WHATSAPP_NUMBER
    ensures NormalizedPhone("09157286254") == ADMIN_WHATSAPP_NUMBER
  {
    AdminDigits();
    NormalizedPhoneFixed(ADMIN_WHATSAPP_NUMBER);
    LocalFormDigits();
    LocalFormPrefixed();
    NormalizedPhoneCases("09157286254");
  }

  lemma AdminDigits()
    ensures AllDigits(ADMIN_WHATSAPP_NUMBER) && |ADMIN_WHATSAPP_NUMBER| >= 9 && ADMIN_WHATSAPP_NUMBER[0] != '0'
  {
  }

  lemma LocalFormDigits()
    ensures Digits("09157286254") == "09157286254"
  {
    assert AllDigits("09157286254");
    FilterAll("09157286254", IsDigit);
  }

  lemma LocalFormPrefixed()
    ensures COUNTRY_CODE + "09157286254"[1..] == ADMIN_WHATSAPP_NUMBER
  {
  }

  /** Dropping characters that are not digits leaves the digits as they were. */
  lemma DigitsAfterDropping(s: string, keep: char -> bool)
    requires forall i | 0 <= i < |s| :: IsDigit(s[i]) ==> keep(s[i])
    ensures Digits(Filter(s, keep)) == Digits(s)
  {
    FilterSubsumed(s, IsDigit, keep);
  }

  /** `normalizePhoneForWa`, step by step: trim, drop separators, drop a leading '+', keep the
      digits, then apply the leading-zero and short-number rules. */
  method NormalizePhoneForWa(raw: string) returns (s: string)
    ensures s == NormalizedPhone(raw)
  {
    if raw == "" {
      return "";
    }
    s := Trim(raw);
    TrimKeepsDigits(raw);
    assert Digits(s) == Digits(raw);
    s := DropSeparators(s);
    assert Digits(s) == Digits(raw);
    if |s| > 0 && s[0] == '+' {
      DigitsAfterPlus(s);
      s := s[1..];
    }
    assert Digits(s) == Digits(raw);
    s := Digits(s);
    if |s| >= 2 && s[0] == '0' {
      s := COUNTRY_CODE + s[1..];
    }
    if |s| > 0 && |s| < 9 {
      s := COUNTRY_CODE + s;
    }
  }

  /** `s.replace(/[\s()-]/g, '')`, which leaves the digits as they were. */
  function DropSeparators(s: string): (r: string)
    ensures Digits(r) == Digits(s)
  {
    var keep := (c: char) => !Separator(c);
    DigitsAfterDropping(s, keep);
    Filter(s, keep)
  }

  /** Dropping a leading '+' leaves the digits as they were. */
  lemma DigitsAfterPlus(s: string)
    requires |s| > 0 && s[0] == '+'
    ensures Digits(s[1..]) == Digits(s)
  {
    assert s == [s[0]] + s[1..];
    FilterAppend([s[0]], s[1..], IsDigit);
    assert Filter([s[0]], IsDigit) == [];
  }

  /** `generateRandomOrderId`, with the clock reading `ts` and the random draw `draw` as inputs:
      "ORD-", the timestamp, "-", and a four-digit suffix, which parses back to both. */
  function GenerateRandomOrderId(ts: nat, draw: nat): (id: string)
    requires draw < 9000
    ensures |id| >= 7 && id[..4] == "ORD-"
    ensures ParseOrderId(id) == Some((ts, RandomSuffix(draw)))
    ensures 1000 <= RandomSuffix(draw) <= 9999
  {
    ParseFormatted(ts, RandomSuffix(draw));
    FormatOrderId(ts, RandomSuffix(draw))
  }

  /** The checkout form's values as `getFormData` collects them. */
  datatype CheckoutForm = CheckoutForm(fullName: string, phone: string, address: string, city: string, notes: string)

  /** The checkout form's required controls, in document order. */
  function RequiredFields(form: CheckoutForm): seq<Field> {
    [ Field("fullName", "John Doe", Text, form.fullName),
      Field("phone", "+234 800 000 0000", Tel, form.phone),
      Field("address", "123 Main Street, Apt 4B", TextArea, form.address),
      Field("city", "Lagos", Text, form.city) ]
  }

  /** Every required control of the checkout form passes. */
  predicate CheckoutValid(form: CheckoutForm) {
    forall i | 0 <= i < 4 :: FieldError(RequiredFields(form)[i]).None?
  }

  /** The checkout form passes validation iff name, address and city are not blank and the phone
      number is a non-blank phone number; the notes are never checked. */
  lemma CheckoutValidIff(form: CheckoutForm)
    ensures CheckoutValid(form)
        <==> && !IsBlank(form.fullName)
             && !IsBlank(form.phone) && IsValidPhone(form.phone)
             && !IsBlank(form.address)
             && !IsBlank(form.city)
  {
    var f := RequiredFields(form);
    assert FieldError(f[0]).None? <==> !IsBlank(form.fullName);
    assert FieldError(f[1]).None? <==> !IsBlank(form.phone) && IsValidPhone(form.phone);
    assert FieldError(f[2]).None? <==> !IsBlank(form.address);
    assert FieldError(f[3]).None? <==> !IsBlank(form.city);
  }

  /** The order lines copied from the cart (`cartItems.map`). */
  function Snapshot(cart: seq<CartLine>): seq<OrderLine> {
    seq(|cart|, i requires 0 <= i < |cart| =>
      OrderLine(cart[i].item.id, cart[i].item.name, cart[i].item.price, cart[i].quantity))
  }

  /** Σ price × quantity over order lines. */
  function LinesTotal(lines: seq<OrderLine>): int
    decreases |lines|
  {
    if lines == [] then 0
    else LinesTotal(lines[..|lines| - 1]) + lines[|lines| - 1].price * lines[|lines| - 1].quantity
  }

  /** The snapshot keeps the cart's lines in order, and its lines add up to the cart subtotal. */
  lemma {:induction false} SnapshotTotals(cart: seq<CartLine>)
    ensures |Snapshot(cart)| == |cart|
    ensures forall i | 0 <= i < |cart| ::
      && Snapshot(cart)[i].id == cart[i].item.id
      && Snapshot(cart)[i].quantity == cart[i].quantity
    ensures LinesTotal(Snapshot(cart)) == Subtotal(cart)
    decreases |cart|
  {
    if cart != [] {
      var init := cart[..|cart| - 1];
      SnapshotTotals(init);
      assert Snapshot(cart)[..|cart| - 1] == Snapshot(init);
    }
  }

  /** The order object `handleCheckoutSubmit` builds. */
  function NewOrder(form: CheckoutForm, cart: seq<CartLine>, ts: nat, draw: nat): Order
    requires draw < 9000
  {
    Order(form.fullName, form.phone, form.address, form.city, form.notes,
      Snapshot(cart), Subtotal(cart), DELIVERY_FEE, Total(cart),
      GenerateRandomOrderId(ts, draw), "Confirmed", "")
  }

  /** The record a checkout appends to the history: the new order as `saveOrder` stamps it. */
  function PlacedOrder(form: CheckoutForm, cart: seq<CartLine>, now: string, ts: nat, draw: nat): Order
    requires draw < 9000
  {
    Stamped(NewOrder(form, cart, ts, draw), now, ts, draw)
  }

  /** The placed order carries the customer's details, the cart's lines in order, the cart's
      subtotal (which its lines add up to) and total, the fixed delivery fee, status "Confirmed",
      the date of placing and the generated identifier. */
  lemma PlacedOrderFacts(form: CheckoutForm, cart: seq<CartLine>, now: string, ts: nat, draw: nat)
    requires draw < 9000
    ensures var o := PlacedOrder(form, cart, now, ts, draw);
      && o.customerName == form.fullName && o.phone == form.phone
      && o.address == form.address && o.city == form.city && o.notes == form.notes
      && o.items == Snapshot(cart)
      && o.subtotal == Subtotal(cart) == LinesTotal(o.items)
      && o.deliveryFee == DELIVERY_FEE
      && o.total == o.subtotal + o.deliveryFee
      && o.status == "Confirmed"
      && o.date == now
      && ParseOrderId(o.orderId) == Some((ts, RandomSuffix(draw)))
  {
    SnapshotTotals(cart);
  }

  /** The numbered line for the item at `index`, showing its unit price. */
  function ItemLine(index: nat, line: OrderLine): string {
    NatToString(index + 1) + ". " + line.name + " (\U{D7}" + IntToString(line.quantity) + ") = \U{20A6}"
      + IntToString(line.price) + "\n"
  }

  function NotesLine(notes: string): string {
    "\U{1F4DD} *Special Instructions:* " + notes + "\n\n"
  }

  /** The opening pieces of the message, before the item lines. */
  function Heading(order: Order, form: CheckoutForm): seq<string> {
    [ "\U{1F37D}\U{FE0F} *FoodHub Order Confirmation*\n\n",
      "\U{1F4E6} *Order ID:* " + order.orderId + "\n",
      "\U{1F464} *Name:* " + form.fullName + "\n",
      "\U{1F4F1} *Phone:* " + form.phone + "\n",
      "\U{1F4CD} *Delivery Address:* " + form.address + ", " + form.city + "\n\n",
      "\U{1F4CB} *Order Items:*\n" ]
  }

  /** The closing pieces, after the item lines; the notes line only when there are notes. */
  function Closing(order: Order, form: CheckoutForm): seq<string> {
    [ "\n\U{1F4B0} *Price Summary:*\n",
      "Subtotal: \U{20A6}" + IntToString(order.subtotal) + "\n",
      "Delivery Fee: \U{20A6}" + IntToString(order.deliveryFee) + "\n",
      "*Total: \U{20A6}" + IntToString(order.total) + "*\n\n" ]
    + (if form.notes != "" then [NotesLine(form.notes)] else [])
    + [ "\U{23F1}\U{FE0F} *Estimated Delivery Time:* 30-45 minutes\n",
        "\U{2705} *Status:* Order Confirmed\n\n",
        "Thank you for ordering from FoodHub! \U{1F64F}" ]
  }

  /** The numbered item lines, in order. */
  function ItemLines(items: seq<OrderLine>): (r: seq<string>)
    ensures |r| == |items|
    decreases |items|
  {
    if items == [] then []
    else ItemLines(items[..|items| - 1]) + [ItemLine(|items| - 1, items[|items| - 1])]
  }

  lemma {:induction false} ItemLinesAt(items: seq<OrderLine>, i: nat)
    requires i < |items|
    ensures ItemLines(items)[i] == ItemLine(i, items[i])
    decreases |items|
  {
    if i < |items| - 1 {
      ItemLinesAt(items[..|items| - 1], i);
    }
  }

  /** The pieces the message is built from, in the order they are appended. */
  function MessagePieces(order: Order, form: CheckoutForm): seq<string> {
    Heading(order, form) + ItemLines(order.items) + Closing(order, form)
  }

  /** The item line for position `index` starts with the numeral of `index + 1`. */
  lemma ItemLineNumbered(index: nat, line: OrderLine)
    ensures ItemLine(index, line) != "" && IsDigit(ItemLine(index, line)[0])
    ensures DigitsValue(ItemLine(index, line)[..|NatToString(index + 1)|]) == index + 1
  {
    assert ItemLine(index, line)[..|NatToString(index + 1)|] == NatToString(index + 1);
    NatToStringRoundTrip(index + 1);
  }

  /** None of the heading pieces is a special-instructions line. */
  lemma HeadingShape(order: Order, form: CheckoutForm)
    ensures |Heading(order, form)| == 6
    ensures forall k | 0 <= k < 6 :: Heading(order, form)[k] != NotesLine("")
  {
    var h := Heading(order, form);
    assert h[0][0] == '\U{1F37D}';
    assert h[1][0] == '\U{1F4E6}';
    assert h[2][0] == '\U{1F464}';
    assert h[3][0] == '\U{1F4F1}';
    assert h[4][0] == '\U{1F4CD}';
    assert h[5][0] == '\U{1F4CB}';
    assert NotesLine("")[0] == '\U{1F4DD}';
  }

  /** The closing has the special-instructions line at position 4 when there are notes,
      and no such line otherwise. */
  lemma ClosingShape(order: Order, form: CheckoutForm)
    ensures |Closing(order, form)| == if form.notes != "" then 8 else 7
    ensures form.notes != "" ==> Closing(order, form)[4] == NotesLine(form.notes)
    ensures form.notes == "" ==> forall k | 0 <= k < |Closing(order, form)| :: Closing(order, form)[k] != NotesLine("")
  {
    assert NotesLine("")[0] == '\U{1F4DD}';
    if form.notes == "" {
      var c := Closing(order, form);
      assert |c| == 7;
      assert c[0][0] == '\n';
      assert c[1][0] == 'S';
      assert c[2][0] == 'D';
      assert c[3][0] == '*';
      assert c[4] == "\U{23F1}\U{FE0F} *Estimated Delivery Time:* 30-45 minutes\n";
      assert c[4][0] == '\U{23F1}';
      assert c[5][0] == '\U{2705}';
      assert c[6][0] == 'T';
    }
  }

  /** No item line is a piece that starts with something other than a digit. */
  lemma ItemLinesAvoid(items: seq<OrderLine>, target: string)
    requires target == "" || !IsDigit(target[0])
    ensures target !in ItemLines(items)
  {
    var ls := ItemLines(items);
    if target in ls {
      var k :| 0 <= k < |ls| && ls[k] == target;
      ItemLinesAt(items, k);
      ItemLineNumbered(k, items[k]);
    }
  }

  /** Layout of `h + ItemLines(items) + c` for any heading of six pieces and closing
      `c`: the item lines sit at 6.., and a piece equals `target` iff it does in `c`,
      provided no heading piece does and `target` is not an item line. */
  lemma PiecesLayout(h: seq<string>, items: seq<OrderLine>, c: seq<string>, target: string)
    requires |h| == 6 && forall k | 0 <= k < 6 :: h[k] != target
    requires target == "" || !IsDigit(target[0])
    ensures var p := h + ItemLines(items) + c;
      && |p| == 6 + |items| + |c|
      && (forall i | 0 <= i < |items| :: p[6 + i] == ItemLine(i, items[i]))
      && (target in p <==> target in c)
  {
    var ls := ItemLines(items);
    var p := h + ls + c;
    forall i | 0 <= i < |items| ensures p[6 + i] == ItemLine(i, items[i]) {
      ItemLinesAt(items, i);
    }
    ItemLinesAvoid(items, target);
    assert target !in h;
    assert target in p <==> target in h || target in ls || target in c;
  }

  /** The message has one line per item, numbered 1 to n in order; and it has the
      special-instructions line iff the notes are non-empty. */
  lemma MessageLayout(order: Order, form: CheckoutForm)
    ensures var p := MessagePieces(order, form);
      && |p| == 6 + |order.items| + (if form.notes != "" then 8 else 7)
      && (forall i | 0 <= i < |order.items| :: p[6 + i] == ItemLine(i, order.items[i]))
      && (form.notes != "" <==> NotesLine(form.notes) in p)
  {
    var h, c := Heading(order, form), Closing(order, form);
    var target := NotesLine(form.notes);
    HeadingShape(order, form);
    ClosingShape(order, form);
    assert target[0] == '\U{1F4DD}';
    if form.notes != "" {
      forall k | 0 <= k < 6 ensures h[k] != target {
        assert h[k][0] != '\U{1F4DD}';
      }
    }
    PiecesLayout(h, order.items, c, target);
  }

  /** The confirmation message: its pieces joined. */
  function Message(order: Order, form: CheckoutForm): string {
    Concat(MessagePieces(order, form))
  }

  lemma ItemLinesSnoc(items: seq<OrderLine>, index: nat)
    requires index < |items|
    ensures ItemLines(items[..index + 1]) == ItemLines(items[..index]) + [ItemLine(index, items[index])]
  {
    assert items[..index + 1][..index] == items[..index];
  }

  lemma AppendAssoc(a: string, b: string, c: string)
    ensures (a + b) + c == a + (b + c)
  {
  }

  lemma ConcatThree(a: seq<string>, b: seq<string>, c: seq<string>)
    ensures Concat(a + b + c) == "" + Concat(a) + Concat(b) + Concat(c)
  {
    ConcatAppend(a, b);
    ConcatAppend(a + b, c);
    assert "" + Concat(a) == Concat(a);
  }

  /** `generateWhatsAppMessage`: the heading pieces, one numbered line per item, then the
      closing pieces, each appended with `+=`. */
  method GenerateWhatsAppMessage(order: Order, form: CheckoutForm) returns (message: string)
    ensures message == Message(order, form)
  {
    var h, c := Heading(order, form), Closing(order, form);
    message := AppendAll("", h);
    message := AppendItemLines(message, order.items);
    message := AppendAll(message, c);
    ConcatThree(h, ItemLines(order.items), c);
  }

  /** The `order.items.forEach` loop: one numbered line per item, in order. */
  method AppendItemLines(message: string, items: seq<OrderLine>) returns (r: string)
    ensures r == message + Concat(ItemLines(items))
  {
    r := message;
    var index := 0;
    while index < |items|
      invariant 0 <= index <= |items|
      invariant r == message + Concat(ItemLines(items[..index]))
    {
      var line := ItemLine(index, items[index]);
      ItemLinesSnoc(items, index);
      ConcatSnoc(ItemLines(items[..index]), line);
      AppendAssoc(message, Concat(ItemLines(items[..index])), line);
      r := r + line;
      index := index + 1;
    }
    assert items[..index] == items;
  }

  /** A run of `message += piece` statements. */
  method AppendAll(message: string, pieces: seq<string>) returns (r: string)
    ensures r == message + Concat(pieces)
  {
    r := message;
    var k := 0;
    while k < |pieces|
      invariant 0 <= k <= |pieces|
      invariant r == message + Concat(pieces[..k])
    {
      ConcatSnoc(pieces[..k], pieces[k]);
      assert pieces[..k + 1] == pieces[..k] + [pieces[k]];
      r := r + pieces[k];
      k := k + 1;
    }
    assert pieces[..k] == pieces;
  }

  /** The chat link opened after checkout: the administrator's chat, or a generic share. */
  datatype Link = AdminChat(number: string, text: string) | GenericShare(text: string)

  /** The administrator's chat when the normalised number is non-empty and all digits. */
  function ChooseLink(normalizedAdmin: string, message: string): (link: Link)
    ensures link.text == message
    ensures link.AdminChat? <==> normalizedAdmin != "" && AllDigits(normalizedAdmin)
    ensures link.AdminChat? ==> link.number == normalizedAdmin
  {
    if normalizedAdmin != "" && AllDigits(normalizedAdmin) then AdminChat(normalizedAdmin, message)
    else GenericShare(message)
  }

  /** Since normalisation only yields digits, the chat goes to the administrator iff the
      configured number has a digit; with the configured number it is that number's chat. */
  lemma LinkTargetsAdmin(raw: string, message: string)
    ensures ChooseLink(NormalizedPhone(raw), message).AdminChat? <==> Digits(raw) != ""
  {
    NormalizedPhoneDigits(raw);
  }

  /** With the configured number, the link is that number's chat. */
  lemma AdminLinkChosen(message: string)
    ensures ChooseLink(NormalizedPhone(ADMIN_WHATSAPP_NUMBER), message) == AdminChat(ADMIN_WHATSAPP_NUMBER, message)
  {
    AdminNumberNormalised();
    AdminDigits();
  }

  /** The first catalog item with id `id` (`MENU_DATA.find`). */
  function FindItem(menu: seq<MenuItem>, id: int): (r: Option<MenuItem>)
    ensures r.Some? ==> r.value in menu && r.value.id == id
    ensures r.Some? ==> exists i | 0 <= i < |menu| :: menu[i] == r.value && forall j | 0 <= j < i :: menu[j].id != id
    ensures r.None? <==> forall k | 0 <= k < |menu| :: menu[k].id != id
    decreases |menu|
  {
    if menu == [] then None
    else if menu[0].id == id then Some(menu[0])
    else FindItem(menu[1..], id)
  }

  /** A number typed into the modal reaches the cart as it is, so one negative entry breaks the
      cart invariant. */
  lemma ModalAddAsWrittenBreaksCart(item: MenuItem)
    ensures WellFormed([])
    ensures !WellFormed(AddLine([], item, GetModalQuantity(Num(-3))))
  {
    ModalQuantityCanBeNegative();
    assert AddLine([], item, -3)[0].quantity == -3;
  }

  class AppState {
    const storage: StorageManager
    const cartManager: CartManager
    /** `MENU_DATA`: the catalog array, which the menu page may reorder in place. */
    const menu: array<MenuItem>

    /** Page start-up: the cart manager over the store, loaded from it. */
    constructor (menu: array<MenuItem>, initial: map<string, Entry>)
      ensures Valid() && this.menu == menu
      ensures storage.store == initial && cartManager.cart == storage.GetCart()
    {
      this.menu := menu;
      var s := new StorageManager(initial);
      var c := new CartManager(s);
      c.Init();
      storage := s;
      cartManager := c;
    }

    predicate Valid()
      reads this, cartManager
    {
      cartManager.storage == storage
    }

    /** Adds one of item `itemId` when the catalog has it and it is not marked unavailable;
        otherwise nothing changes. */
    method HandleAddToCart(itemId: int)
      requires Valid()
      modifies cartManager, storage
      ensures Valid()
      ensures var item := FindItem(menu[..], itemId);
        if item.Some? && !old(storage.IsItemUnavailable(itemId)) then
          && cartManager.cart == AddLine(old(cartManager.cart), item.value, 1)
          && storage.store == old(storage.store)[CART_KEY := Lines(cartManager.cart)]
        else
          cartManager.cart == old(cartManager.cart) && storage.store == old(storage.store)
      ensures old(WellFormed(cartManager.cart)) ==> WellFormed(cartManager.cart)
    {
      var item := FindItem(menu[..], itemId);
      if item.Some? && !storage.IsItemUnavailable(itemId) {
        if WellFormed(cartManager.cart) { AddLinePreserves(cartManager.cart, item.value, 1); }
        var _ := cartManager.AddItem(item.value, 1);
      }
    }

    /** The same gating with the modal's quantity, kept within the input's bounds 1..99. */
    method HandleModalAddToCart(itemId: int, modal: QuantityInput)
      requires Valid()
      modifies cartManager, storage
      ensures Valid()
      ensures var item := FindItem(menu[..], itemId);
        if item.Some? && !old(storage.IsItemUnavailable(itemId)) then
          && cartManager.cart == AddLine(old(cartManager.cart), item.value, ClampedModalQuantity(modal.value))
          && storage.store == old(storage.store)[CART_KEY := Lines(cartManager.cart)]
        else
          cartManager.cart == old(cartManager.cart) && storage.store == old(storage.store)
      ensures old(WellFormed(cartManager.cart)) ==> WellFormed(cartManager.cart)
    {
      var item := FindItem(menu[..], itemId);
      if item.Some? && !storage.IsItemUnavailable(itemId) {
        var quantity := ClampedModalQuantity(modal.value);
        if WellFormed(cartManager.cart) { AddLinePreserves(cartManager.cart, item.value, quantity); }
        var _ := cartManager.AddItem(item.value, quantity);
      }
    }

    method HandleRemoveFromCart(itemId: int)
      requires Valid()
      modifies cartManager, storage
      ensures Valid()
      ensures cartManager.cart == RemoveLines(old(cartManager.cart), itemId)
      ensures storage.store == old(storage.store)[CART_KEY := Lines(cartManager.cart)]
      ensures old(WellFormed(cartManager.cart)) ==> WellFormed(cartManager.cart)
    {
      if WellFormed(cartManager.cart) { RemoveLinesPreserves(cartManager.cart, itemId); }
      cartManager.RemoveItem(itemId);
    }

    /** A new quantity of 0 or less removes the line (and writes the cart even when the id is
        absent); a positive one goes through `updateQuantity`. */
    method HandleUpdateQuantity(itemId: int, newQuantity: int)
      requires Valid()
      modifies cartManager, storage
      ensures Valid()
      ensures cartManager.cart == UpdatedCart(old(cartManager.cart), itemId, newQuantity)
      ensures newQuantity <= 0 || HasId(old(cartManager.cart), itemId) ==>
        storage.store == old(storage.store)[CART_KEY := Lines(cartManager.cart)]
      ensures newQuantity > 0 && !HasId(old(cartManager.cart), itemId) ==> storage.store == old(storage.store)
      ensures old(WellFormed(cartManager.cart)) ==> WellFormed(cartManager.cart)
    {
      if WellFormed(cartManager.cart) { UpdatePreserves(cartManager.cart, itemId, newQuantity); }
      if newQuantity <= 0 {
        cartManager.RemoveItem(itemId);
      } else {
        cartManager.UpdateQuantity(itemId, newQuantity);
      }
    }

    /** `handleCheckoutSubmit`, with the date `now`, clock reading `ts` and random draw `draw` as
        inputs. An invalid form changes nothing but the error marks and opens no link. A valid
        one appends the placed order to the history, empties the cart and opens the
        administrator's chat with the confirmation message. */
    method HandleCheckoutSubmit(form: CheckoutForm, groups: array<GroupState>, now: string, ts: nat, draw: nat)
      returns (link: Option<Link>)
      requires Valid() && groups.Length == 4 && draw < 9000
      modifies cartManager, storage, groups
      ensures Valid()
      ensures forall i | 0 <= i < 4 :: groups[i] == Marked(old(groups[i]), FieldError(RequiredFields(form)[i]))
      ensures var valid := CheckoutValid(form);
        && (!valid ==>
              && link.None?
              && cartManager.cart == old(cartManager.cart)
              && storage.store == old(storage.store))
        && (valid ==>
              && storage.GetOrders() == old(storage.GetOrders()) + [PlacedOrder(form, old(cartManager.cart), now, ts, draw)]
              && cartManager.cart == [] && storage.GetCart() == []
              && storage.store == old(storage.store)[ORDERS_KEY := Orders(storage.GetOrders())] - {CART_KEY}
              && link == Some(AdminChat(ADMIN_WHATSAPP_NUMBER, Message(NewOrder(form, old(cartManager.cart), ts, draw), form))))
    {
      var isValid := ValidateForm(RequiredFields(form), groups);
      if !isValid {
        return None;
      }
      var chat := PlaceOrder(form, now, ts, draw);
      link := Some(chat);
    }

    /** The part of `handleCheckoutSubmit` after validation: save the order, clear the cart,
        build the message and choose the link. */
    method PlaceOrder(form: CheckoutForm, now: string, ts: nat, draw: nat) returns (link: Link)
      requires Valid() && draw < 9000
      modifies cartManager, storage
      ensures storage.GetOrders() == old(storage.GetOrders()) + [PlacedOrder(form, old(cartManager.cart), now, ts, draw)]
      ensures Valid()
      ensures cartManager.cart == [] && storage.GetCart() == []
      ensures storage.store == old(storage.store)[ORDERS_KEY := Orders(storage.GetOrders())] - {CART_KEY}
      ensures link == AdminChat(ADMIN_WHATSAPP_NUMBER, Message(NewOrder(form, old(cartManager.cart), ts, draw), form))
    {
      var order := NewOrder(form, cartManager.cart, ts, draw);
      storage.SaveOrder(order, now, ts, draw);
      cartManager.Clear();
      var message := GenerateWhatsAppMessage(order, form);
      var normalizedAdmin := NormalizePhoneForWa(ADMIN_WHATSAPP_NUMBER);
      AdminLinkChosen(message);
      link := ChooseLink(normalizedAdmin, message);
    }

    /** An empty identifier or a declined confirmation changes nothing. */
    method DeleteOrder(orderId: string, confirmed: bool)
      modifies storage
      ensures orderId == "" || !confirmed ==> storage.store == old(storage.store)
      ensures orderId != "" && confirmed ==> storage.GetOrders() == WithoutOrder(old(storage.GetOrders()), orderId)
      ensures orderId != "" && confirmed && FindOrder(old(storage.GetOrders()), orderId).None? ==>
        storage.store == old(storage.store)
      ensures orderId != "" && confirmed && FindOrder(old(storage.GetOrders()), orderId).Some? ==>
        storage.store == old(storage.store)[ORDERS_KEY := Orders(storage.GetOrders())]
    {
      if orderId == "" || !confirmed {
        return;
      }
      storage.DeleteOrder(orderId);
    }

    /** Toggling flips whether the item is unavailable, on a list without duplicates. */
    method HandleToggleItemAvailability(itemId: int)
      modifies storage
      ensures storage.GetUnavailableItems() == Toggled(old(storage.GetUnavailableItems()), itemId)
      ensures storage.store == old(storage.store)[UNAVAILABLE_ITEMS_KEY := Ids(storage.GetUnavailableItems())]
      ensures NoDuplicates(old(storage.GetUnavailableItems())) ==>
        (storage.IsItemUnavailable(itemId) <==> !old(storage.IsItemUnavailable(itemId)))
    {
      if NoDuplicates(storage.GetUnavailableItems()) {
        ToggleMembership(storage.GetUnavailableItems(), itemId);
      }
      storage.ToggleItemAvailability(itemId);
    }
  }
}
