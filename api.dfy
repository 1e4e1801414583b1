/**
 * The shopkeeper app's order and ledger actions (app/lib/api.ts) against a database whose
 * tables are fields of a class, and the UPI payment link. An action "throws" exactly where
 * the source rethrows a Supabase error; those outcomes are inputs, as is the `ilike` name
 * match the stock update relies on.
 */
module Api {
  import opened Wrappers
  import opened Text
  import opened Uri

  datatype OrderStatus = Pending | Confirmed | Rejected | Completed | Cancelled
  datatype PaymentStatus = PaymentPending | Paid | PaymentFailed | Refunded

  /** The columns of an `orders` row that the actions write. */
  datatype Order = Order(status: OrderStatus, paymentStatus: PaymentStatus)

  /** An `order_ongoing` row: the order it follows and its stage. */
  datatype Ongoing = Ongoing(orderId: string, status: string)

  datatype OrderItem = OrderItem(orderId: string, productName: string, quantity: int)

  datatype Product = Product(id: string, shopId: string, name: string, stock: int)

  /** A `notifications` row inserted by an action; `orderId` is its `data.order_id`. */
  datatype Notice = Notice(shopId: string, kind: string, title: string, body: string, orderId: string)

  /** An `udhaar_ledger` row. */
  datatype LedgerEntry = LedgerEntry(shopId: string, customerId: string, kind: string, amount: int, description: string)

  /** A `quick_transactions` row; `None` is a SQL null, and `paymentMethod` is absent for udhaar. */
  datatype QuickTransaction = QuickTransaction(
    shopId: string, kind: string, amount: int,
    customerName: Option<string>, itemName: Option<string>, paymentMethod: Option<string>)

  // ---------------------------------------------------------------------------------------
  // Row updates
  // ---------------------------------------------------------------------------------------

  /** `.update({ status }).eq('id', orderId)`: no row matches an unknown id, and that is no error. */
  function SetStatus(orders: map<string, Order>, orderId: string, status: OrderStatus): (r: map<string, Order>)
    ensures r.Keys == orders.Keys
    ensures orderId in orders ==> r[orderId] == orders[orderId].(status := status)
    ensures forall k :: k in orders && k != orderId ==> r[k] == orders[k]
  {
    if orderId in orders then orders[orderId := orders[orderId].(status := status)] else orders
  }

  /** `order_ongoing.update({ status }).eq('order_id', orderId)`: every row of the order. */
  function SetOngoing(rows: seq<Ongoing>, orderId: string, status: string): (r: seq<Ongoing>)
    ensures |r| == |rows|
    ensures forall i :: 0 <= i < |rows| ==> r[i] == if rows[i].orderId == orderId then rows[i].(status := status) else rows[i]
  {
    if rows == [] then []
    else [if rows[0].orderId == orderId then rows[0].(status := status) else rows[0]] + SetOngoing(rows[1..], orderId, status)
  }

  /** The positions of the order's rows in `items`, ascending: the reference for `ItemsOf`. */
  function ItemPositions(items: seq<OrderItem>, orderId: string): (r: seq<nat>)
    ensures forall i :: 0 <= i < |r| ==> r[i] < |items|
    ensures forall k :: k in r <==> 0 <= k < |items| && items[k].orderId == orderId
    ensures forall i, j :: 0 <= i < j < |r| ==> r[i] < r[j]
  {
    if items == [] then []
    else
      var m := |items| - 1;
      ItemPositions(items[..m], orderId) + (if items[m].orderId == orderId then [m] else [])
  }

  /**
   * `order_items.select(...).eq('order_id', orderId)`: the order's rows in table order, each
   * as often as it occurs, so `confirmOrder` decrements stock once per row.
   */
  function ItemsOf(items: seq<OrderItem>, orderId: string): (r: seq<OrderItem>)
    ensures |r| == |ItemPositions(items, orderId)|
    ensures forall j :: 0 <= j < |r| ==> r[j] == items[ItemPositions(items, orderId)[j]]
  {
    if items == [] then []
    else
      var m := |items| - 1;
      ItemsOf(items[..m], orderId) + (if items[m].orderId == orderId then [items[m]] else [])
  }

  // ---------------------------------------------------------------------------------------
  // Stock
  // ---------------------------------------------------------------------------------------

  /** `Math.max(0, stock - quantity)`: the least value that is neither negative nor below `stock - quantity`. */
  function NewStock(stock: int, quantity: int): (r: int)
    ensures r >= 0 && r >= stock - quantity
    ensures r == 0 || r == stock - quantity
    ensures quantity >= 0 && stock >= 0 ==> r <= stock
  {
    if stock - quantity > 0 then stock - quantity else 0
  }

  /** The shop's products whose name `ilike`s `pattern`, as indices in table order. */
  function MatchIndices(products: seq<Product>, shopId: string, pattern: string,
                        ilike: (string, string) -> bool, n: nat): (r: seq<nat>)
    requires n <= |products|
    ensures forall i :: 0 <= i < |r| ==> r[i] < n
    ensures forall k :: k in r <==> 0 <= k < n && products[k].shopId == shopId && ilike(products[k].name, pattern)
    ensures forall i, j :: 0 <= i < j < |r| ==> r[i] < r[j]
  {
    if n == 0 then []
    else
      var below := MatchIndices(products, shopId, pattern, ilike, n - 1);
      var k := n - 1;
      if products[k].shopId == shopId && ilike(products[k].name, pattern) then below + [k] else below
  }

  /**
   * One item's stock update. `.single()` yields a product only when exactly one row matches;
   * with none or several, `data` is null and the item is skipped.
   */
  function StockStep(products: seq<Product>, shopId: string, item: OrderItem, ilike: (string, string) -> bool): (r: seq<Product>)
    ensures |r| == |products|
    ensures forall j :: 0 <= j < |products| ==> r[j] == products[j].(stock := r[j].stock)
  {
    var found := MatchIndices(products, shopId, item.productName, ilike, |products|);
    if |found| == 1 then
      var k := found[0];
      products[k := products[k].(stock := NewStock(products[k].stock, item.quantity))]
    else products
  }

  /** The stock after processing `items` one after the other. */
  function StockAfter(products: seq<Product>, shopId: string, items: seq<OrderItem>, ilike: (string, string) -> bool): (r: seq<Product>)
    ensures |r| == |products|
    decreases |items|
  {
    if items == [] then products
    else StockStep(StockAfter(products, shopId, items[..|items| - 1], ilike), shopId, items[|items| - 1], ilike)
  }

  /**
   * A product is updated exactly when it is the one and only match: it then gets the clamped
   * stock, and in every other case (another single match, several matches, none) it is unchanged.
   */
  lemma StockStepEffect(products: seq<Product>, shopId: string, item: OrderItem, ilike: (string, string) -> bool, j: nat)
    requires j < |products|
    ensures var r := StockStep(products, shopId, item, ilike);
      var unique := forall k :: 0 <= k < |products| && products[k].shopId == shopId && ilike(products[k].name, item.productName) <==> k == j;
      && (unique ==> r[j].stock == NewStock(products[j].stock, item.quantity))
      && (!unique ==> r[j] == products[j])
  {
    var found := MatchIndices(products, shopId, item.productName, ilike, |products|);
    var unique := forall k :: 0 <= k < |products| && products[k].shopId == shopId && ilike(products[k].name, item.productName) <==> k == j;
    if unique {
      assert j in found;
      assert forall x :: x in found ==> x == j;
      assert found[0] in found && found[|found| - 1] in found;
      assert found[0] == j && found[|found| - 1] == j;
    } else if |found| == 1 {
      assert found == [found[0]];
      assert found[0] != j;
    }
  }

  predicate NonNegativeStock(products: seq<Product>) {
    forall j :: 0 <= j < |products| ==> products[j].stock >= 0
  }

  /** Stock never goes negative: clamping keeps every non-negative stock non-negative. */
  lemma {:induction false} StockAfterNonNegative(products: seq<Product>, shopId: string, items: seq<OrderItem>, ilike: (string, string) -> bool)
    requires NonNegativeStock(products)
    ensures NonNegativeStock(StockAfter(products, shopId, items, ilike))
    decreases |items|
  {
    if items != [] {
      StockAfterNonNegative(products, shopId, items[..|items| - 1], ilike);
    }
  }

  /** With non-negative quantities no stock ever rises. */
  lemma {:induction false} StockAfterNoIncrease(products: seq<Product>, shopId: string, items: seq<OrderItem>, ilike: (string, string) -> bool)
    requires NonNegativeStock(products)
    requires forall i :: 0 <= i < |items| ==> items[i].quantity >= 0
    ensures forall j :: 0 <= j < |products| ==> StockAfter(products, shopId, items, ilike)[j].stock <= products[j].stock
    decreases |items|
  {
    if items != [] {
      var init := items[..|items| - 1];
      var before := StockAfter(products, shopId, init, ilike);
      StockAfterNoIncrease(products, shopId, init, ilike);
      StockAfterNonNegative(products, shopId, init, ilike);
      var r := StockStep(before, shopId, items[|items| - 1], ilike);
      forall j | 0 <= j < |r| ensures r[j].stock <= before[j].stock {
      }
    }
  }

  /** `.eq('shop_id', SHOP_ID)`: another shop's products are never touched. */
  lemma {:induction false} StockAfterOnlyShop(products: seq<Product>, shopId: string, items: seq<OrderItem>, ilike: (string, string) -> bool)
    ensures forall j :: 0 <= j < |products| && products[j].shopId != shopId ==> StockAfter(products, shopId, items, ilike)[j] == products[j]
    decreases |items|
  {
    if items != [] {
      var init := items[..|items| - 1];
      StockAfterOnlyShop(products, shopId, init, ilike);
      var before := StockAfter(products, shopId, init, ilike);
      forall j | 0 <= j < |products| && products[j].shopId != shopId
        ensures StockStep(before, shopId, items[|items| - 1], ilike)[j] == before[j]
      {
        StockStepEffect(before, shopId, items[|items| - 1], ilike, j);
      }
    }
  }

  // ---------------------------------------------------------------------------------------
  // Fixed rows
  // ---------------------------------------------------------------------------------------

  /**
   * The notification `confirmOrder` records: its body starts with the customer's name
   * and ends with '₹' and the amount, whose text reads back as `totalAmount`.
   */
  function ConfirmNotice(shopId: string, orderId: string, customerName: string, totalAmount: int): (n: Notice)
    ensures n.kind == "new_order" && n.orderId == orderId && n.shopId == shopId
    ensures n.title == "✅ Order Confirmed"
    ensures |n.body| > |customerName| && n.body[..|customerName|] == customerName
    ensures var a := IntToString(totalAmount);
      |n.body| > |customerName| + |a| && n.body[|n.body| - |a| - 1] == '₹' &&
      IsIntText(n.body[|n.body| - |a|..]) && ParseInt(n.body[|n.body| - |a|..]) == totalAmount
  {
    var a := IntToString(totalAmount);
    var n := Notice(shopId, "new_order", "✅ Order Confirmed",
                    customerName + " का order confirm हुआ - ₹" + a, orderId);
    assert n.body[|n.body| - |a|..] == a;
    IntToStringRoundTrip(totalAmount);
    n
  }

  /** `paymentMethod` defaults to `'Cash'` only when it is left out; an empty string stays empty. */
  function MethodOrCash(paymentMethod: Option<string>): (r: string)
    ensures paymentMethod.Some? ==> r == paymentMethod.value
    ensures paymentMethod.None? ==> r == "Cash"
  {
    paymentMethod.GetOr("Cash")
  }

  /** `x || null`: an absent or empty string is stored as null. */
  function OrNull(x: Option<string>): (r: Option<string>)
    ensures r.Some? <==> x.Some? && x.value != ""
    ensures r.Some? ==> r == x
  {
    if x.Some? && x.value != "" then x else None
  }

  // ---------------------------------------------------------------------------------------
  // The UPI link
  // ---------------------------------------------------------------------------------------

  const UpiId := "sharmastore@upi"
  const UpiPayee := "Sharma Kirana Store"

  /** `Order-${orderId.slice(0, 8)}`. */
  function TxnNote(orderId: string): (r: string)
    ensures |r| == 6 + (if |orderId| < 8 then |orderId| else 8)
    ensures r[..6] == "Order-" && r[6..] == orderId[..|r| - 6]
  {
    "Order-" + orderId[..if |orderId| < 8 then |orderId| else 8]
  }

  /**
   * The five `key=value` fields of a UPI query, in the order the template writes them: payee
   * address, encoded payee name, amount, encoded note and the currency.
   */
  function UpiQuery(payeeAddress: string, payeeName: string, amount: int, note: string): seq<string> {
    ["pa=" + payeeAddress, "pn=" + Encode(payeeName), "am=" + IntToString(amount), "tn=" + Encode(note), "cu=INR"]
  }

  /** The query of this shop's link for one order. */
  function UpiFields(amount: int, orderId: string): seq<string> {
    UpiQuery(UpiId, UpiPayee, amount, TxnNote(orderId))
  }

  /**
   * `generateUPILink`: `upi://pay?` and the five fields joined by `&`; the customer's name is
   * accepted and not used.
   */
  function GenerateUpiLink(amount: int, customerName: string, orderId: string): string {
    "upi://pay?" + Join(UpiFields(amount, orderId), '&')
  }

  lemma NoAmpersandEncoded(s: string)
    ensures '&' !in Encode(s)
  {
    EncodeAlphabet(s);
  }

  lemma NoAmpersandNumber(i: int)
    ensures '&' !in IntToString(i)
  {
    var r := IntToString(i);
    if i < 0 {
      assert r[1..] == NatToString(-i);
      assert forall k :: 1 <= k < |r| ==> r[k] == NatToString(-i)[k - 1];
    }
  }

  lemma UpiIdSeparable()
    ensures '&' !in UpiId
  {
  }

  /** No field of a query holds the `&` that separates them, when the payee address has none. */
  lemma QuerySeparable(payeeAddress: string, payeeName: string, amount: int, note: string)
    requires '&' !in payeeAddress
    ensures forall i :: 0 <= i < 5 ==> '&' !in UpiQuery(payeeAddress, payeeName, amount, note)[i]
  {
    NoAmpersandEncoded(payeeName);
    NoAmpersandEncoded(note);
    NoAmpersandNumber(amount);
  }

  /**
   * The link is `upi://pay?` and a query that splits at `&` into exactly the five fields:
   * the payee address, the encoded shop name, the amount, the encoded note and the currency.
   * The encoded note decodes to the UTF-8 bytes of the note.
   */
  lemma UpiLinkFields(amount: int, customerName: string, orderId: string)
    ensures var link := GenerateUpiLink(amount, customerName, orderId);
      && link[..10] == "upi://pay?"
      && Split(link[10..], '&') == UpiFields(amount, orderId)
    ensures DecodeBytes(Encode(TxnNote(orderId))) == Some(Utf8All(TxnNote(orderId)))
  {
    var link := GenerateUpiLink(amount, customerName, orderId);
    UpiIdSeparable();
    QuerySeparable(UpiId, UpiPayee, amount, TxnNote(orderId));
    assert link[10..] == Join(UpiFields(amount, orderId), '&');
    SplitJoin(UpiFields(amount, orderId), '&');
    DecodeEncode(TxnNote(orderId));
  }

  // ---------------------------------------------------------------------------------------
  // The database and the actions
  // ---------------------------------------------------------------------------------------

  class Database {
    /** `SHOP_ID`, the shop this app manages. */
    const shopId: string
    var orders: map<string, Order>
    var ongoing: seq<Ongoing>
    var orderItems: seq<OrderItem>
    var products: seq<Product>
    var notices: seq<Notice>
    var ledger: seq<LedgerEntry>
    var quick: seq<QuickTransaction>

    constructor (shopId: string, orders: map<string, Order>, ongoing: seq<Ongoing>, orderItems: seq<OrderItem>, products: seq<Product>)
      ensures this.shopId == shopId && this.orders == orders && this.ongoing == ongoing
      ensures this.orderItems == orderItems && this.products == products
      ensures notices == [] && ledger == [] && quick == []
    {
      this.shopId := shopId;
      this.orders := orders;
      this.ongoing := ongoing;
      this.orderItems := orderItems;
      this.products := products;
      notices := [];
      ledger := [];
      quick := [];
    }

    /**
     * `confirmOrder`. A failed status update throws before anything is written. Otherwise
     * the order is confirmed; unless fetching its items fails, each item then lowers the
     * stock of its one matching product, clamped at zero; the order's ongoing rows are
     * confirmed and a notification is recorded. Errors of those later writes are not
     * examined, and the model lets them succeed.
     */
    method ConfirmOrder(orderId: string, customerName: string, totalAmount: int,
                        statusUpdateFails: bool, itemsFetchFails: bool, ilike: (string, string) -> bool)
      returns (ok: bool)
      modifies this
      ensures ok <==> !statusUpdateFails
      ensures !ok ==> orders == old(orders) && products == old(products) && ongoing == old(ongoing) && notices == old(notices)
      ensures ok ==> orders == SetStatus(old(orders), orderId, Confirmed)
      ensures ok ==> products == if itemsFetchFails then old(products)
                                 else StockAfter(old(products), shopId, ItemsOf(orderItems, orderId), ilike)
      ensures ok ==> ongoing == SetOngoing(old(ongoing), orderId, "confirmed")
      ensures ok ==> notices == old(notices) + [ConfirmNotice(shopId, orderId, customerName, totalAmount)]
      ensures orderItems == old(orderItems) && ledger == old(ledger) && quick == old(quick)
    {
      if statusUpdateFails {
        return false;
      }
      orders := SetStatus(orders, orderId, Confirmed);
      if !itemsFetchFails {
        DecrementStock(ItemsOf(orderItems, orderId), ilike);
      }
      ongoing := SetOngoing(ongoing, orderId, "confirmed");
      notices := notices + [ConfirmNotice(shopId, orderId, customerName, totalAmount)];
      return true;
    }

    /** The loop over the order's items: one stock update per item, in order. */
    method DecrementStock(items: seq<OrderItem>, ilike: (string, string) -> bool)
      modifies this
      ensures products == StockAfter(old(products), shopId, items, ilike)
      ensures orders == old(orders) && ongoing == old(ongoing) && notices == old(notices)
      ensures orderItems == old(orderItems) && ledger == old(ledger) && quick == old(quick)
    {
      var i := 0;
      while i < |items|
        invariant 0 <= i <= |items|
        invariant products == StockAfter(old(products), shopId, items[..i], ilike)
        invariant orders == old(orders) && ongoing == old(ongoing) && notices == old(notices)
        invariant orderItems == old(orderItems) && ledger == old(ledger) && quick == old(quick)
      {
        assert items[..i + 1][..i] == items[..i];
        products := StockStep(products, shopId, items[i], ilike);
        i := i + 1;
      }
      assert items[..i] == items;
    }

    /**
     * `rejectOrder`: the order and then its ongoing rows become rejected, unless the first
     * update fails. The error of the second update is never checked: when it fails the call
     * still succeeds and the ongoing rows keep their stage.
     */
    method RejectOrder(orderId: string, customerName: string, updateFails: bool, ongoingUpdateFails: bool)
      returns (ok: bool)
      modifies this
      ensures ok <==> !updateFails
      ensures !ok ==> orders == old(orders) && ongoing == old(ongoing)
      ensures ok ==> orders == SetStatus(old(orders), orderId, Rejected)
      ensures ok && !ongoingUpdateFails ==> ongoing == SetOngoing(old(ongoing), orderId, "rejected")
      ensures ok && ongoingUpdateFails ==> ongoing == old(ongoing)
      ensures products == old(products) && notices == old(notices) && orderItems == old(orderItems)
      ensures ledger == old(ledger) && quick == old(quick)
    {
      if updateFails {
        return false;
      }
      orders := SetStatus(orders, orderId, Rejected);
      if !ongoingUpdateFails {
        ongoing := SetOngoing(ongoing, orderId, "rejected");
      }
      return true;
    }

    /** `completeOrder`: status and payment status change in one update, or not at all. */
    method CompleteOrder(orderId: string, updateFails: bool) returns (ok: bool)
      modifies this
      ensures ok <==> !updateFails
      ensures !ok ==> orders == old(orders)
      ensures ok ==> orders.Keys == old(orders).Keys
      ensures ok && orderId in old(orders) ==> orders[orderId] == Order(Completed, Paid)
      ensures ok ==> forall k :: k in old(orders) && k != orderId ==> orders[k] == old(orders)[k]
      ensures ongoing == old(ongoing) && products == old(products) && notices == old(notices)
      ensures orderItems == old(orderItems) && ledger == old(ledger) && quick == old(quick)
    {
      if updateFails {
        return false;
      }
      if orderId in orders {
        orders := orders[orderId := orders[orderId].(status := Completed, paymentStatus := Paid)];
      }
      return true;
    }

    /** `addUdhaar`: a `credit` row with the given description. */
    method AddUdhaar(customerId: string, amount: int, description: string, insertFails: bool) returns (ok: bool)
      modifies this
      ensures ok <==> !insertFails
      ensures ledger == old(ledger) + (if ok then [LedgerEntry(shopId, customerId, "credit", amount, description)] else [])
      ensures orders == old(orders) && ongoing == old(ongoing) && products == old(products)
      ensures notices == old(notices) && orderItems == old(orderItems) && quick == old(quick)
    {
      if insertFails {
        return false;
      }
      ledger := ledger + [LedgerEntry(shopId, customerId, "credit", amount, description)];
      return true;
    }

    /** `recordPayment`: a `payment` row whose description is the payment method. */
    method RecordPayment(customerId: string, amount: int, paymentMethod: Option<string>, insertFails: bool) returns (ok: bool)
      modifies this
      ensures ok <==> !insertFails
      ensures ledger == old(ledger) + (if ok then [LedgerEntry(shopId, customerId, "payment", amount, MethodOrCash(paymentMethod))] else [])
      ensures orders == old(orders) && ongoing == old(ongoing) && products == old(products)
      ensures notices == old(notices) && orderItems == old(orderItems) && quick == old(quick)
    {
      if insertFails {
        return false;
      }
      ledger := ledger + [LedgerEntry(shopId, customerId, "payment", amount, MethodOrCash(paymentMethod))];
      return true;
    }

    /** `recordQuickSale`: a cash `sale`; an absent or empty name or item is stored as null. */
    method RecordQuickSale(amount: int, customerName: Option<string>, itemName: Option<string>, insertFails: bool) returns (ok: bool)
      modifies this
      ensures ok <==> !insertFails
      ensures quick == old(quick) + (if ok then [QuickTransaction(shopId, "sale", amount, OrNull(customerName), OrNull(itemName), Some("cash"))] else [])
      ensures orders == old(orders) && ongoing == old(ongoing) && products == old(products)
      ensures notices == old(notices) && orderItems == old(orderItems) && ledger == old(ledger)
    {
      if insertFails {
        return false;
      }
      quick := quick + [QuickTransaction(shopId, "sale", amount, OrNull(customerName), OrNull(itemName), Some("cash"))];
      return true;
    }

    /** `recordQuickUdhaar`: an `udhaar` row with the name as given and no payment method. */
    method RecordQuickUdhaar(customerName: string, amount: int, itemName: Option<string>, insertFails: bool) returns (ok: bool)
      modifies this
      ensures ok <==> !insertFails
      ensures quick == old(quick) + (if ok then [QuickTransaction(shopId, "udhaar", amount, Some(customerName), OrNull(itemName), None)] else [])
      ensures orders == old(orders) && ongoing == old(ongoing) && products == old(products)
      ensures notices == old(notices) && orderItems == old(orderItems) && ledger == old(ledger)
    {
      if insertFails {
        return false;
      }
      quick := quick + [QuickTransaction(shopId, "udhaar", amount, Some(customerName), OrNull(itemName), None)];
      return true;
    }
  }
}
