/**
 * The customer menu app: the cart, the menu filter, order submission and the
 * tracker that remembers the customer's last order across page reloads
 * through two `localStorage` keys.
 */
module CustomerMenu {
  import opened Wrappers
  import opened Orders
  import opened Menu

  const LastOrderIdKey := "lastOrderId"
  const OrderStatusKey := "orderStatus"
  /** The status text shown before the customer has ordered anything. */
  const NotOrderedYet := "لم يتم الطلب بعد"

  /** A cart line; `id` is the line's own key (a timestamp), distinct from the menu item's id. */
  datatype CartLine = CartLine(id: int, menuItemId: string, name: string, quantity: int,
                               price: int, selectedOptions: seq<ChosenOption>)

  /**
   * The message line under the cart. A failed send shows the server's own
   * message, or the fallback text when it sent none (`None`).
   */
  datatype Message =
    | NoMessage | EnterName | EnterTable | CartIsEmpty | OrderSent
    | SendFailed(serverMessage: Option<string>) | OrderFinalized

  /** The body of `POST /orders`. */
  datatype OrderRequest = OrderRequest(customerName: string, tableNumber: string,
                                       items: seq<OrderLine>, totalPrice: int, notes: string)

  /** The server's answer to `POST /orders`: the new order's id, or a failure with an optional message. */
  datatype SubmitOutcome = Created(orderId: string) | SubmitFailed(serverMessage: Option<string>)

  function LineIds(cart: seq<CartLine>): set<int> {
    set l | l in cart :: l.id
  }

  /** Every cart line has quantity at least 1. */
  predicate QuantitiesPositive(cart: seq<CartLine>) {
    forall i :: 0 <= i < |cart| ==> cart[i].quantity >= 1
  }

  /** `addSimpleItemToCart`: one new line at the end, quantity 1, carrying the given options and unit price. */
  function AddLine(cart: seq<CartLine>, item: MenuItem, displayName: string,
                   options: seq<ChosenOption>, price: int, lineId: int): (r: seq<CartLine>)
    requires lineId !in LineIds(cart)
    ensures |r| == |cart| + 1 && r[..|cart|] == cart
    ensures r[|cart|] == CartLine(lineId, item.id, displayName, 1, price, options)
    ensures LineIds(r) == LineIds(cart) + {lineId}
  {
    cart + [CartLine(lineId, item.id, displayName, 1, price, options)]
  }

  /** `removeFromCart`: drop every line with that id. */
  function RemoveLine(cart: seq<CartLine>, lineId: int): (r: seq<CartLine>)
    ensures |r| <= |cart|
    ensures forall l :: l in r <==> l in cart && l.id != lineId
  {
    if cart == [] then []
    else (if cart[0].id == lineId then [] else [cart[0]]) + RemoveLine(cart[1..], lineId)
  }

  /** Removal works line by line, so the lines that stay keep their order. */
  lemma {:induction false} RemoveLineKeepsOrder(a: seq<CartLine>, b: seq<CartLine>, lineId: int)
    ensures RemoveLine(a + b, lineId) == RemoveLine(a, lineId) + RemoveLine(b, lineId)
  {
    if a == [] {
      assert a + b == b;
    } else {
      assert (a + b)[1..] == a[1..] + b;
      RemoveLineKeepsOrder(a[1..], b, lineId);
    }
  }

  /** Removing an id the cart does not hold changes nothing. */
  lemma {:induction false} RemoveAbsentLine(cart: seq<CartLine>, lineId: int)
    requires lineId !in LineIds(cart)
    ensures RemoveLine(cart, lineId) == cart
  {
    if cart != [] {
      assert cart[0] in cart;
      assert LineIds(cart[1..]) <= LineIds(cart);
      RemoveAbsentLine(cart[1..], lineId);
      assert [cart[0]] + cart[1..] == cart;
    }
  }

  /** `Math.max(1, q)`. */
  function AtLeastOne(q: int): (r: int)
    ensures r >= 1 && r >= q && (q >= 1 ==> r == q)
  {
    if q < 1 then 1 else q
  }

  /** `updateQuantity`: the lines with that id take the new quantity, never below 1; the rest stay. */
  function SetQuantity(cart: seq<CartLine>, lineId: int, q: int): (r: seq<CartLine>)
    ensures |r| == |cart|
    ensures forall i :: 0 <= i < |cart| && cart[i].id == lineId ==> r[i] == cart[i].(quantity := AtLeastOne(q))
    ensures forall i :: 0 <= i < |cart| && cart[i].id != lineId ==> r[i] == cart[i]
  {
    if cart == [] then []
    else [if cart[0].id == lineId then cart[0].(quantity := AtLeastOne(q)) else cart[0]]
         + SetQuantity(cart[1..], lineId, q)
  }

  /** The cart edits keep every quantity at 1 or more. */
  lemma CartEditsKeepQuantities(cart: seq<CartLine>, item: MenuItem, name: string,
                                options: seq<ChosenOption>, price: int, lineId: int, q: int)
    requires QuantitiesPositive(cart)
    ensures lineId !in LineIds(cart) ==> QuantitiesPositive(AddLine(cart, item, name, options, price, lineId))
    ensures QuantitiesPositive(RemoveLine(cart, lineId))
    ensures QuantitiesPositive(SetQuantity(cart, lineId, q))
  {
    var r := RemoveLine(cart, lineId);
    forall i | 0 <= i < |r| ensures r[i].quantity >= 1 {
      assert r[i] in r;
      var j :| 0 <= j < |cart| && cart[j] == r[i];
    }
  }

  /** The order lines sent with an order: each cart line without its cart id. */
  function OrderLines(cart: seq<CartLine>): (lines: seq<OrderLine>)
    ensures |lines| == |cart|
    ensures forall i :: 0 <= i < |cart| ==>
      lines[i] == OrderLine(cart[i].menuItemId, cart[i].name, cart[i].quantity, cart[i].price, cart[i].selectedOptions)
  {
    if cart == [] then []
    else [OrderLine(cart[0].menuItemId, cart[0].name, cart[0].quantity, cart[0].price, cart[0].selectedOptions)]
         + OrderLines(cart[1..])
  }

  /**
   * `cart.reduce((sum, l) => sum + l.price * l.quantity, 0)`, the displayed and
   * the submitted total alike: it is the order's own total of quantity times
   * unit price over the lines sent.
   */
  function CartTotal(cart: seq<CartLine>): (total: int)
    ensures total == LinesTotal(OrderLines(cart))
  {
    if cart == [] then 0
    else
      assert OrderLines(cart)[1..] == OrderLines(cart[1..]);
      cart[0].price * cart[0].quantity + CartTotal(cart[1..])
  }

  /** Adding a line raises the total by exactly that line's unit price (its quantity is 1). */
  lemma {:induction false} AddLineTotal(cart: seq<CartLine>, item: MenuItem, name: string,
                                        options: seq<ChosenOption>, price: int, lineId: int)
    requires lineId !in LineIds(cart)
    ensures CartTotal(AddLine(cart, item, name, options, price, lineId)) == CartTotal(cart) + price
  {
    var line := CartLine(lineId, item.id, name, 1, price, options);
    CartTotalAppend(cart, [line]);
  }

  lemma {:induction false} CartTotalAppend(a: seq<CartLine>, b: seq<CartLine>)
    ensures CartTotal(a + b) == CartTotal(a) + CartTotal(b)
  {
    if a == [] {
      assert a + b == b;
    } else {
      assert (a + b)[1..] == a[1..] + b;
      CartTotalAppend(a[1..], b);
    }
  }

  /**
   * `filteredMenu`: only available items; under the "All" tab every one of
   * them, under any other tab those of that category.
   */
  function FilteredMenu(menu: seq<MenuItem>, activeCategory: string, allLabel: string): (r: seq<MenuItem>)
    ensures forall it :: it in r <==>
      it in menu && it.isAvailable && (activeCategory == allLabel || it.category == activeCategory)
  {
    if menu == [] then []
    else (if menu[0].isAvailable && (activeCategory == allLabel || menu[0].category == activeCategory)
          then [menu[0]] else [])
         + FilteredMenu(menu[1..], activeCategory, allLabel)
  }

  /** The two display languages of the customer menu. */
  datatype Language = Arabic | English

  const AllArabic := "الكل"
  const AllEnglish := "All"

  /** The label of the "All" tab in a language; the category tab starts on the Arabic one. */
  function AllLabel(lang: Language): (tab: string)
    ensures tab in {AllArabic, AllEnglish}
    ensures tab == AllArabic <==> lang == Arabic
  {
    if lang == Arabic then AllArabic else AllEnglish
  }

  /**
   * With the category tab still on its initial value, switching to English
   * makes the filter compare the Arabic label against "All": every available
   * item of an ordinary category disappears from the menu.
   */
  lemma LanguageToggleEmptiesAllTab(item: MenuItem)
    requires item.isAvailable && item.category != AllArabic
    ensures FilteredMenu([item], AllArabic, AllLabel(Arabic)) == [item]
    ensures FilteredMenu([item], AllArabic, AllLabel(English)) == []
  {
    assert [item][1..] == [];
  }

  /** Whether a tab value is the "All" tab, in either language. */
  predicate IsAllTab(active: string) {
    active == AllArabic || active == AllEnglish
  }

  /** The menu filter with the "All" tab recognised whatever the current language. */
  function FilteredMenuCorrected(menu: seq<MenuItem>, activeCategory: string): (r: seq<MenuItem>)
    ensures forall it :: it in r <==>
      it in menu && it.isAvailable && (IsAllTab(activeCategory) || it.category == activeCategory)
  {
    if menu == [] then []
    else (if menu[0].isAvailable && (IsAllTab(activeCategory) || menu[0].category == activeCategory)
          then [menu[0]] else [])
         + FilteredMenuCorrected(menu[1..], activeCategory)
  }

  /** On a category tab the corrected filter is the original one, in either language. */
  lemma {:induction false} CorrectedFilterOnCategoryTab(menu: seq<MenuItem>, activeCategory: string, lang: Language)
    requires !IsAllTab(activeCategory)
    ensures FilteredMenuCorrected(menu, activeCategory) == FilteredMenu(menu, activeCategory, AllLabel(lang))
  {
    if menu != [] {
      CorrectedFilterOnCategoryTab(menu[1..], activeCategory, lang);
    }
  }

  /** On the "All" tab of the current language the corrected filter is the original one. */
  lemma {:induction false} CorrectedFilterOnAllTab(menu: seq<MenuItem>, lang: Language)
    ensures FilteredMenuCorrected(menu, AllLabel(lang)) == FilteredMenu(menu, AllLabel(lang), AllLabel(lang))
  {
    if menu != [] {
      CorrectedFilterOnAllTab(menu[1..], lang);
    }
  }

  /** The initial tab lists every available item, whatever the language. */
  lemma InitialTabShowsEverything(menu: seq<MenuItem>, it: MenuItem)
    requires it in menu && it.isAvailable
    ensures it in FilteredMenuCorrected(menu, AllArabic)
  {
  }

  /** `localStorage.getItem(key) || null`: a missing or empty stored string reads as nothing. */
  function Stored(storage: map<string, string>, key: string): (r: Option<string>)
    ensures r.Some? <==> key in storage && storage[key] != ""
    ensures r.Some? ==> r.value == storage[key]
  {
    if key in storage && storage[key] != "" then Some(storage[key]) else None
  }

  /** The first failing check of `submitOrder`, in its order: name, then table, then a non-empty cart. */
  function SubmitCheck(customerName: string, tableNumber: string, cart: seq<CartLine>): (m: Option<Message>)
    ensures m.None? <==> customerName != "" && tableNumber != "" && cart != []
    ensures customerName == "" ==> m == Some(EnterName)
    ensures customerName != "" && tableNumber == "" ==> m == Some(EnterTable)
    ensures customerName != "" && tableNumber != "" && cart == [] ==> m == Some(CartIsEmpty)
  {
    if customerName == "" then Some(EnterName)
    else if tableNumber == "" then Some(EnterTable)
    else if cart == [] then Some(CartIsEmpty)
    else None
  }

  class CustomerApp {
    var cart: seq<CartLine>
    var customerName: string
    var tableNumber: string
    var notes: string
    var orderMessage: Message
    var lastOrderId: Option<string>
    var orderStatus: string
    var storage: map<string, string>
    var selectedItem: Option<MenuItem>
    var modalIsOpen: bool

    /**
     * The stored order mirrors the one in memory: a remembered order id
     * is the stored one, no remembered id means none is stored, and a stored
     * status is the one shown.
     */
    ghost predicate Persisted()
      reads this
    {
      && (lastOrderId.Some? ==> LastOrderIdKey in storage && storage[LastOrderIdKey] == lastOrderId.value)
      && (lastOrderId.None? ==> Stored(storage, LastOrderIdKey).None?)
      && (Stored(storage, OrderStatusKey).Some? ==> storage[OrderStatusKey] == orderStatus)
    }

    /** Page load: the remembered order id and the status come back from storage; everything else starts empty. */
    constructor (storage: map<string, string>)
      ensures this.storage == storage
      ensures lastOrderId == Stored(storage, LastOrderIdKey)
      ensures orderStatus == Stored(storage, OrderStatusKey).GetOr(NotOrderedYet)
      ensures cart == [] && customerName == "" && tableNumber == "" && notes == ""
      ensures orderMessage == NoMessage && selectedItem == None && !modalIsOpen
      ensures Persisted()
    {
      this.storage := storage;
      lastOrderId := Stored(storage, LastOrderIdKey);
      orderStatus := Stored(storage, OrderStatusKey).GetOr(NotOrderedYet);
      cart, customerName, tableNumber, notes := [], "", "", "";
      orderMessage := NoMessage;
      selectedItem, modalIsOpen := None, false;
    }

    /** Reloading the page brings back the same remembered order id, unless the server had handed out an empty id. */
    lemma ReloadRestoresLastOrderId()
      requires Persisted()
      ensures Stored(storage, LastOrderIdKey) == if lastOrderId == Some("") then None else lastOrderId
    {
    }

    /** Reloading the page shows the same status whenever one is stored. */
    lemma ReloadRestoresStatus()
      requires Persisted()
      requires Stored(storage, OrderStatusKey).Some?
      ensures Stored(storage, OrderStatusKey).GetOr(NotOrderedYet) == orderStatus
    {
    }

    /** Whether a status event concerns the remembered order. */
    function Tracks(ev: Order): bool
      reads this
    {
      lastOrderId.Some? && lastOrderId.value != "" && ev.id == lastOrderId.value
    }

    /**
     * The `orderStatusUpdated` handler. An event for another order, or with no
     * order remembered, changes nothing. An event for the remembered order
     * shows and stores its status; a terminal status then forgets the order,
     * in memory and in storage.
     */
    method OnOrderStatusUpdated(ev: Order)
      requires Persisted()
      modifies this`orderStatus, this`storage, this`orderMessage, this`lastOrderId
      ensures Persisted()
      ensures cart == old(cart) && notes == old(notes)
      ensures !old(Tracks(ev)) ==>
        lastOrderId == old(lastOrderId) && orderStatus == old(orderStatus)
        && storage == old(storage) && orderMessage == old(orderMessage)
      ensures old(Tracks(ev)) ==> orderStatus == StatusName(ev.status)
      ensures old(Tracks(ev)) && !IsTerminal(ev.status) ==>
        lastOrderId == old(lastOrderId) && storage == old(storage)[OrderStatusKey := StatusName(ev.status)]
        && orderMessage == old(orderMessage)
      ensures old(Tracks(ev)) && IsTerminal(ev.status) ==>
        lastOrderId == None && storage == old(storage) - {LastOrderIdKey, OrderStatusKey}
        && orderMessage == OrderFinalized
    {
      if Tracks(ev) {
        orderStatus := StatusName(ev.status);
        storage := storage[OrderStatusKey := StatusName(ev.status)];
        TerminalByName(ev.status);
        if orderStatus == "Completed" || orderStatus == "Cancelled" {
          orderMessage := OrderFinalized;
          storage := storage - {LastOrderIdKey};
          storage := storage - {OrderStatusKey};
          lastOrderId := None;
        }
      }
    }

    /** `handleAddToCart`: an item with option groups opens the customisation modal; any other is added as it is. */
    method HandleAddToCart(item: MenuItem, displayName: string, lineId: int)
      requires lineId !in LineIds(cart)
      modifies this`cart, this`selectedItem, this`modalIsOpen
      ensures |Groups(item)| > 0 ==> selectedItem == Some(item) && modalIsOpen && cart == old(cart)
      ensures |Groups(item)| == 0 ==> cart == AddLine(old(cart), item, displayName, [], item.price, lineId)
                                      && selectedItem == old(selectedItem) && modalIsOpen == old(modalIsOpen)
      ensures lastOrderId == old(lastOrderId) && storage == old(storage) && orderStatus == old(orderStatus)
    {
      if item.customizationOptions.Some? && |item.customizationOptions.value| > 0 {
        selectedItem := Some(item);
        modalIsOpen := true;
      } else {
        AddSimpleItemToCart(item, displayName, [], item.price, lineId);
      }
    }

    /** `addSimpleItemToCart`, also the modal's `onAddToCart`. */
    method AddSimpleItemToCart(item: MenuItem, displayName: string, options: seq<ChosenOption>,
                               price: int, lineId: int)
      requires lineId !in LineIds(cart)
      modifies this`cart
      ensures cart == AddLine(old(cart), item, displayName, options, price, lineId)
    {
      cart := cart + [CartLine(lineId, item.id, displayName, 1, price, options)];
    }

    method CloseModal()
      modifies this`selectedItem, this`modalIsOpen
      ensures selectedItem == None && !modalIsOpen
    {
      modalIsOpen := false;
      selectedItem := None;
    }

    method RemoveFromCart(lineId: int)
      modifies this`cart
      ensures cart == RemoveLine(old(cart), lineId)
    {
      cart := RemoveLine(cart, lineId);
    }

    method UpdateQuantity(lineId: int, q: int)
      modifies this`cart
      ensures cart == SetQuantity(old(cart), lineId, q)
    {
      cart := SetQuantity(cart, lineId, q);
    }

    /** The new order becomes the remembered one, `Pending` in memory and in storage. */
    method RememberOrder(id: string)
      modifies this`lastOrderId, this`orderStatus, this`storage
      ensures lastOrderId == Some(id) && orderStatus == "Pending"
      ensures storage == old(storage)[LastOrderIdKey := id][OrderStatusKey := "Pending"]
      ensures Persisted()
    {
      assert LastOrderIdKey != OrderStatusKey by { assert LastOrderIdKey[0] != OrderStatusKey[0]; }
      lastOrderId := Some(id);
      orderStatus := "Pending";
      storage := storage[LastOrderIdKey := id];
      storage := storage[OrderStatusKey := "Pending"];
    }

    /**
     * `submitOrder`. A failed check sets its message and sends nothing. Otherwise
     * the order goes out with the cart's lines and total; on success the new
     * order becomes the remembered one, `Pending` in memory and in storage, and
     * the cart and notes are emptied; on failure only the message changes.
     */
    method SubmitOrder(outcome: SubmitOutcome) returns (request: Option<OrderRequest>)
      requires Persisted()
      modifies this`orderMessage, this`lastOrderId, this`orderStatus, this`storage, this`cart, this`notes
      ensures Persisted()
      ensures customerName == old(customerName) && tableNumber == old(tableNumber)
      ensures request.None? <==> SubmitCheck(old(customerName), old(tableNumber), old(cart)).Some?
      ensures request.None? ==>
        orderMessage == SubmitCheck(old(customerName), old(tableNumber), old(cart)).value
        && cart == old(cart) && notes == old(notes) && lastOrderId == old(lastOrderId)
        && orderStatus == old(orderStatus) && storage == old(storage)
      ensures request.Some? ==>
        request.value == OrderRequest(old(customerName), old(tableNumber), OrderLines(old(cart)),
                                      CartTotal(old(cart)), old(notes))
      ensures request.Some? && outcome.Created? ==>
        lastOrderId == Some(outcome.orderId) && orderStatus == "Pending"
        && storage == old(storage)[LastOrderIdKey := outcome.orderId][OrderStatusKey := "Pending"]
        && cart == [] && notes == "" && orderMessage == OrderSent
      ensures request.Some? && outcome.SubmitFailed? ==>
        orderMessage == SendFailed(Truthy(outcome.serverMessage))
        && cart == old(cart) && notes == old(notes) && lastOrderId == old(lastOrderId)
        && orderStatus == old(orderStatus) && storage == old(storage)
    {
      var check := SubmitCheck(customerName, tableNumber, cart);
      if check.Some? {
        orderMessage := check.value;
        return None;
      }
      request := Some(OrderRequest(customerName, tableNumber, OrderLines(cart), CartTotal(cart), notes));
      match outcome
      case Created(id) =>
        RememberOrder(id);
        cart := [];
        notes := "";
        orderMessage := OrderSent;
      case SubmitFailed(m) =>
        orderMessage := SendFailed(Truthy(m));
    }
  }
}
