/**
 * Orders of includes/functions.php: create_order() turns the session cart into one order
 * header and, best effort, one item row per cart line; update_order_status() moves an
 * order between five statuses; get_order_items() reads the rows back, falling back to the
 * product ids stored in the header. The tables are sequences of rows, and every statement
 * that can fail does so through a parameter.
 */
module Orders {
  import opened Php
  import Cart
  import Catalog

  /** The values the status column accepts. */
  datatype Status = Pending | Confirmed | Completed | Cancelled | Paid
  {
    function Name(): string
    {
      match this
      case Pending => "pending"
      case Confirmed => "confirmed"
      case Completed => "completed"
      case Cancelled => "cancelled"
      case Paid => "paid"
    }
  }

  /** The `in_array($status, $allowed, true)` test of update_order_status(). */
  function ParseStatus(s: string): (r: Option<Status>)
    ensures r.Some? ==> r.value.Name() == s
  {
    if s == "pending" then Some(Pending)
    else if s == "confirmed" then Some(Confirmed)
    else if s == "completed" then Some(Completed)
    else if s == "cancelled" then Some(Cancelled)
    else if s == "paid" then Some(Paid)
    else None
  }

  /** Every status name parses back to its status, so the five names are exactly the accepted strings. */
  lemma ParseName(st: Status)
    ensures ParseStatus(st.Name()) == Some(st)
  {
  }

  /** A row of wp_orders; `userId` is null for orders written by other code. */
  datatype Order = Order(orderId: int, customerEmail: string, productIds: seq<int>, totalAmount: int,
                         status: Status, fullName: string, phone: string, address: string,
                         notes: string, userId: Option<int>)

  /** A row of order_items. */
  datatype OrderItem = OrderItem(orderId: int, productId: int, quantity: int, unitPrice: int)

  /** The checkout form fields create_order() reads; absent fields are null. */
  datatype CheckoutForm = CheckoutForm(fullName: Option<string>, phone: Option<string>,
                                       address: Option<string>, notes: Option<string>,
                                       email: Option<string>)

  datatype CheckoutError =
    | CartEmpty
    | FullNameRequired
    | PhoneRequired
    | AddressRequired
    | EmailRequired
    | Database(reason: string)
    | PlaceFailed
  {
    function Message(): string
    {
      match this
      case CartEmpty => "Your cart is empty."
      case FullNameRequired => "Full name is required."
      case PhoneRequired => "Phone number is required."
      case AddressRequired => "Delivery address is required."
      case EmailRequired => "Valid customer email is required. Please ensure your account has a valid email address."
      case Database(reason) => "Database error: " + reason
      case PlaceFailed => "Unable to place order. Please try again."
    }
  }

  datatype PlaceResult = Placed(orderId: int) | Refused(errors: seq<CheckoutError>)

  /**
   * How the statements of create_order() fare: the CREATE TABLE of wp_orders (with the
   * database's error text), the header INSERT with its commit, whether the order_items
   * table and statement could be prepared, and which item INSERTs execute.
   */
  datatype PlaceIo = PlaceIo(ordersTable: bool, dbError: string, headerInserted: bool,
                             itemsPrepared: bool, itemExecutes: seq<bool>)

  function OrElse(s: Option<string>, default: string): string
  {
    if s.Some? then s.value else default
  }

  /** A customer email the checks accept: non-empty and valid. */
  predicate GoodEmail(email: string, isEmail: EmailCheck)
  {
    email != "" && isEmail(email)
  }

  /**
   * The customer email of create_order(): the session user's, else a valid form email,
   * else a non-empty stored subscriber email, else the session user's as it was.
   */
  function CustomerEmail(session: Option<string>, form: Option<string>, stored: Option<string>,
                         isEmail: EmailCheck): (r: string)
    ensures GoodEmail(Sanitize(OrElse(session, "")), isEmail) ==> r == Sanitize(OrElse(session, ""))
    ensures !GoodEmail(Sanitize(OrElse(session, "")), isEmail) && form.Some? && isEmail(form.value)
            ==> r == Sanitize(form.value)
    ensures r == Sanitize(OrElse(session, "")) || (form.Some? && r == Sanitize(form.value))
            || (stored.Some? && r == Sanitize(stored.value))
  {
    var fromSession := Sanitize(OrElse(session, ""));
    if GoodEmail(fromSession, isEmail) then fromSession
    else if form.Some? && isEmail(form.value) then Sanitize(form.value)
    else if stored.Some? && !FalsyString(stored.value) then Sanitize(stored.value)
    else fromSession
  }

  /** The four field checks of create_order(), every failing one reported, in this order. */
  function FormErrors(form: CheckoutForm, email: string, isEmail: EmailCheck): (errors: seq<CheckoutError>)
    ensures CartEmpty !in errors && |errors| <= 4
  {
    Required(form.fullName, FullNameRequired)
    + Required(form.phone, PhoneRequired)
    + Required(form.address, AddressRequired)
    + (if GoodEmail(email, isEmail) then [] else [EmailRequired])
  }

  /** Each field's error is reported exactly when that field fails its check. */
  lemma FormErrorsReportEachField(form: CheckoutForm, email: string, isEmail: EmailCheck)
    ensures var errors := FormErrors(form, email, isEmail);
      && ((FullNameRequired in errors) <==> Blank(OrElse(form.fullName, "")))
      && ((PhoneRequired in errors) <==> Blank(OrElse(form.phone, "")))
      && ((AddressRequired in errors) <==> Blank(OrElse(form.address, "")))
      && ((EmailRequired in errors) <==> !GoodEmail(email, isEmail))
  {
    var name := Required(form.fullName, FullNameRequired);
    var phone := Required(form.phone, PhoneRequired);
    var address := Required(form.address, AddressRequired);
    var mail := if GoodEmail(email, isEmail) then [] else [EmailRequired];
    assert FormErrors(form, email, isEmail) == name + phone + address + mail;
  }

  /** `sanitize($data[...] ?? '') === ''` as one field check. */
  function Required(field: Option<string>, error: CheckoutError): (r: seq<CheckoutError>)
    ensures r == [error] <==> Blank(OrElse(field, ""))
    ensures r == [] <==> !Blank(OrElse(field, ""))
  {
    if Sanitize(OrElse(field, "")) == "" then [error] else []
  }

  /** `array_map` of the line ids: the product ids of the order, in cart order. */
  function ProductIds(lines: seq<Cart.CartLine>): (r: seq<int>)
    ensures |r| == |lines| && forall i :: 0 <= i < |lines| ==> r[i] == lines[i].id
  {
    seq(|lines|, i requires 0 <= i < |lines| => lines[i].id)
  }

  /** The header create_order() inserts. */
  function Header(orderId: int, lines: seq<Cart.CartLine>, form: CheckoutForm, email: string, userId: int): Order
  {
    Order(orderId, email, ProductIds(lines), Cart.Subtotal(lines), Pending,
          Sanitize(OrElse(form.fullName, "")), Sanitize(OrElse(form.phone, "")),
          Sanitize(OrElse(form.address, "")), Sanitize(OrElse(form.notes, "")), Some(userId))
  }

  function ItemRow(orderId: int, line: Cart.CartLine): OrderItem
  {
    OrderItem(orderId, line.id, line.quantity, line.price)
  }

  predicate Executes(io: PlaceIo, i: nat)
  {
    i < |io.itemExecutes| && io.itemExecutes[i]
  }

  /** The item rows that make it into order_items: one per line whose INSERT executes, in cart order. */
  function ItemRows(orderId: int, lines: seq<Cart.CartLine>, io: PlaceIo): (r: seq<OrderItem>)
    ensures |r| <= |lines|
    ensures forall k :: 0 <= k < |r| ==> r[k].orderId == orderId
  {
    if !io.itemsPrepared || lines == [] then []
    else
      var n := |lines| - 1;
      ItemRows(orderId, lines[..n], io) + (if Executes(io, n) then [ItemRow(orderId, lines[n])] else [])
  }

  /** The amount an item row stands for. */
  function RowAmount(item: OrderItem): int
  {
    item.unitPrice * item.quantity
  }

  function RowsTotal(items: seq<OrderItem>): int
  {
    if items == [] then 0 else RowsTotal(items[..|items| - 1]) + RowAmount(items[|items| - 1])
  }

  /**
   * When every item INSERT executes, the rows add up to the header's total_amount: both
   * are the sum of the captured price times quantity over the cart.
   */
  lemma {:induction false} RowsMatchTotal(orderId: int, lines: seq<Cart.CartLine>, io: PlaceIo)
    requires io.itemsPrepared
    requires forall i :: 0 <= i < |lines| ==> Executes(io, i)
    ensures |ItemRows(orderId, lines, io)| == |lines|
    ensures RowsTotal(ItemRows(orderId, lines, io)) == Cart.Subtotal(lines)
  {
    if lines != [] {
      var n := |lines| - 1;
      RowsMatchTotal(orderId, lines[..n], io);
      var init := ItemRows(orderId, lines[..n], io);
      var rows := init + [ItemRow(orderId, lines[n])];
      assert ItemRows(orderId, lines, io) == rows;
      assert rows[..|rows| - 1] == init;
      Cart.SubtotalAppend(lines[..n], lines[n]);
      assert lines[..n] + [lines[n]] == lines;
    }
  }

  /** The orders with the id get the status, every other row stays as it was. */
  function SetStatus(orders: seq<Order>, orderId: int, status: Status): (r: seq<Order>)
    ensures |r| == |orders|
    ensures forall i :: 0 <= i < |orders| ==>
              r[i] == if orders[i].orderId == orderId then orders[i].(status := status) else orders[i]
  {
    seq(|orders|, i requires 0 <= i < |orders| =>
      if orders[i].orderId == orderId then orders[i].(status := status) else orders[i])
  }

  /** Setting a status twice is setting it once, whatever the status was before. */
  lemma SetStatusIdempotent(orders: seq<Order>, orderId: int, status: Status)
    ensures SetStatus(SetStatus(orders, orderId, status), orderId, status) == SetStatus(orders, orderId, status)
  {
  }

  /** get_order_by_id(): the first order with the id. */
  function FindOrder(orders: seq<Order>, orderId: int): (r: Option<Order>)
    ensures r.Some? ==> r.value in orders && r.value.orderId == orderId
    ensures r.None? ==> forall i :: 0 <= i < |orders| ==> orders[i].orderId != orderId
  {
    FirstWhere(orders, (o: Order) => o.orderId == orderId)
  }

  // ---------------------------------------------------------------- reading items back

  /** An entry of the get_order_items() result. */
  datatype ItemView = ItemView(productId: int, name: string, quantity: int, unitPrice: int)

  const UnknownProduct := "Unknown Product"

  /** The order_items rows of one order, in table order. */
  function RowsOf(items: seq<OrderItem>, orderId: int): (r: seq<OrderItem>)
    ensures |r| <= |items|
    ensures forall k :: 0 <= k < |r| ==> r[k].orderId == orderId && r[k] in items
  {
    if items == [] then []
    else
      var n := |items| - 1;
      RowsOf(items[..n], orderId) + (if items[n].orderId == orderId then [items[n]] else [])
  }

  /** The `$productMap` of get_order_items(): id to name, a later duplicate id overwriting an earlier one. */
  function NameMap(products: seq<Catalog.Product>): (m: map<int, string>)
    ensures |m| <= |products|
  {
    if products == [] then map[]
    else
      var n := |products| - 1;
      NameMap(products[..n])[products[n].id := products[n].name]
  }

  /** The map's keys are exactly the catalogue's ids. */
  lemma {:induction false} NameMapKeys(products: seq<Catalog.Product>, id: int)
    ensures id in NameMap(products) <==> exists i :: 0 <= i < |products| && products[i].id == id
  {
    if products != [] {
      var n := |products| - 1;
      NameMapKeys(products[..n], id);
      if id != products[n].id && id in NameMap(products[..n]) {
        var i :| 0 <= i < n && products[..n][i].id == id;
        assert products[i].id == id;
      }
    }
  }

  /** The name a duplicated id gets in the map is the one of its last occurrence. */
  lemma {:induction false} NameMapLastWins(products: seq<Catalog.Product>, k: nat)
    requires k < |products|
    requires forall j :: k < j < |products| ==> products[j].id != products[k].id
    ensures products[k].id in NameMap(products) && NameMap(products)[products[k].id] == products[k].name
  {
    var n := |products| - 1;
    if k < n {
      NameMapLastWins(products[..n], k);
    }
  }

  function Named(names: map<int, string>, row: OrderItem): ItemView
  {
    ItemView(row.productId, if row.productId in names then names[row.productId] else UnknownProduct,
             row.quantity, row.unitPrice)
  }

  /** The fallback: every stored product id still in the catalogue, with quantity 1 and today's price. */
  function Fallback(productIds: seq<int>, store: Option<seq<Catalog.Product>>): (r: seq<ItemView>)
    ensures |r| <= |productIds|
    ensures forall k :: 0 <= k < |r| ==> r[k].quantity == 1
  {
    if productIds == [] then []
    else
      var n := |productIds| - 1;
      var p := if store.None? then None else Catalog.Lookup(store.value, productIds[n]);
      Fallback(productIds[..n], store)
      + (if p.Some? then [ItemView(p.value.id, p.value.name, 1, p.value.price)] else [])
  }

  /** Each fallback entry carries the current catalogue name and price of a product the order lists. */
  lemma {:induction false} FallbackUsesCatalogue(productIds: seq<int>, products: seq<Catalog.Product>, k: nat)
    requires k < |Fallback(productIds, Some(products))|
    ensures var v := Fallback(productIds, Some(products))[k];
      v.productId in productIds && Catalog.Lookup(products, v.productId).Some?
      && Catalog.Lookup(products, v.productId).value.name == v.name
      && Catalog.Lookup(products, v.productId).value.price == v.unitPrice
  {
    var n := |productIds| - 1;
    var init := Fallback(productIds[..n], Some(products));
    if k < |init| {
      FallbackUsesCatalogue(productIds[..n], products, k);
      assert Fallback(productIds, Some(products))[k] == init[k];
    }
  }

  /** The fallback keeps the order of `product_ids`: splitting the ids splits the items the same way. */
  lemma {:induction false} FallbackSplits(front: seq<int>, back: seq<int>, store: Option<seq<Catalog.Product>>)
    ensures Fallback(front + back, store) == Fallback(front, store) + Fallback(back, store)
  {
    if back == [] {
      assert front + back == front;
    } else {
      var n := |back| - 1;
      DropLastOfAppend(front, back);
      FallbackSplits(front, back[..n], store);
    }
  }

  /** The fallback drops no listed product the catalogue still has: each is there with quantity 1. */
  lemma FallbackIsComplete(productIds: seq<int>, products: seq<Catalog.Product>, j: nat)
    requires j < |productIds| && Catalog.Lookup(products, productIds[j]).Some?
    ensures var p := Catalog.Lookup(products, productIds[j]).value;
      ItemView(p.id, p.name, 1, p.price) in Fallback(productIds, Some(products))
  {
    var id := productIds[j];
    var p := Catalog.Lookup(products, id).value;
    SplitAround(productIds, j);
    FallbackSplits(productIds[..j] + [id], productIds[j + 1..], Some(products));
    FallbackSplits(productIds[..j], [id], Some(products));
    assert Fallback([id], Some(products)) == Fallback([], Some(products)) + [ItemView(p.id, p.name, 1, p.price)];
  }

  /** How the statements of get_order_items() fare: the item query, and the header lookup. */
  datatype ReadIo = ReadIo(itemsPrepared: bool, orderPrepared: bool)

  /** The `wp_orders` and `order_items` tables. */
  class OrderDb {
    var orders: seq<Order>
    var items: seq<OrderItem>
    /** The next AUTO_INCREMENT value of wp_orders.order_id. */
    var nextId: int

    predicate Valid()
      reads this
    {
      nextId >= 1 && forall i :: 0 <= i < |orders| ==> orders[i].orderId < nextId
    }

    constructor ()
      ensures orders == [] && items == [] && nextId == 1 && Valid()
    {
      orders := [];
      items := [];
      nextId := 1;
    }

    /**
     * create_order($userId, $data) over the session cart. The customer email is the one
     * CustomerEmail() picks from the session user, the form and the stored subscriber.
     */
    method CreateOrder(cart: Cart.SessionCart, userId: int, form: CheckoutForm, session: Option<string>,
                       stored: Option<string>, isEmail: EmailCheck, io: PlaceIo) returns (r: PlaceResult)
      requires Valid()
      modifies this
      ensures Valid()
      ensures cart.lines == old(cart.lines)
      ensures cart.lines == [] ==> r == Refused([CartEmpty]) && unchanged(this)
      ensures cart.lines != [] ==>
        var email := CustomerEmail(session, form.email, stored, isEmail);
        var errors := FormErrors(form, email, isEmail);
        if errors != [] then r == Refused(errors) && unchanged(this)
        else if !io.ordersTable then r == Refused([Database(io.dbError)]) && unchanged(this)
        else if !io.headerInserted then r == Refused([PlaceFailed]) && unchanged(this)
        else
          && r == Placed(old(nextId))
          && orders == old(orders) + [Header(old(nextId), cart.lines, form, email, userId)]
          && items == old(items) + ItemRows(old(nextId), cart.lines, io)
          && nextId == old(nextId) + 1
    {
      if cart.lines == [] {
        return Refused([CartEmpty]);
      }
      var email := CustomerEmail(session, form.email, stored, isEmail);
      var errors := FormErrors(form, email, isEmail);
      if errors != [] {
        return Refused(errors);
      }
      r := Place(cart, userId, form, email, io);
    }

    /** The writes of create_order() once every check has passed: the header, then the item rows. */
    method Place(cart: Cart.SessionCart, userId: int, form: CheckoutForm, email: string, io: PlaceIo)
      returns (r: PlaceResult)
      requires Valid()
      modifies this
      ensures Valid()
      ensures if !io.ordersTable then r == Refused([Database(io.dbError)]) && unchanged(this)
              else if !io.headerInserted then r == Refused([PlaceFailed]) && unchanged(this)
              else
                && r == Placed(old(nextId))
                && orders == old(orders) + [Header(old(nextId), cart.lines, form, email, userId)]
                && items == old(items) + ItemRows(old(nextId), cart.lines, io)
                && nextId == old(nextId) + 1
    {
      var count, subtotal := cart.Totals();
      var productIds := ProductIds(cart.lines);
      if !io.ordersTable {
        return Refused([Database(io.dbError)]);
      }
      if !io.headerInserted {
        return Refused([PlaceFailed]);
      }
      var orderId := nextId;
      var fullName := Sanitize(OrElse(form.fullName, ""));
      var phone := Sanitize(OrElse(form.phone, ""));
      var address := Sanitize(OrElse(form.address, ""));
      var notes := Sanitize(OrElse(form.notes, ""));
      var header := Order(orderId, email, productIds, subtotal, Pending, fullName, phone, address, notes, Some(userId));
      assert header == Header(orderId, cart.lines, form, email, userId);
      AppendHeader(header);
      InsertItems(orderId, cart.lines, io);
      r := Placed(orderId);
    }

    /** The header INSERT: the row gets the next id, which then moves on. */
    method AppendHeader(header: Order)
      requires Valid() && header.orderId == nextId
      modifies this
      ensures Valid()
      ensures orders == old(orders) + [header] && nextId == old(nextId) + 1 && items == old(items)
    {
      orders := orders + [header];
      nextId := nextId + 1;
    }

    /** The best-effort order_items inserts of create_order(): a failing row is skipped. */
    method InsertItems(orderId: int, lines: seq<Cart.CartLine>, io: PlaceIo)
      modifies this
      ensures items == old(items) + ItemRows(orderId, lines, io)
      ensures orders == old(orders) && nextId == old(nextId)
    {
      if !io.itemsPrepared {
        return;
      }
      for i := 0 to |lines|
        invariant items == old(items) + ItemRows(orderId, lines[..i], io)
        invariant orders == old(orders) && nextId == old(nextId)
      {
        assert lines[..i + 1][..i] == lines[..i];
        if Executes(io, i) {
          items := items + [ItemRow(orderId, lines[i])];
        }
      }
      assert lines[..|lines|] == lines;
    }

    /** update_order_status($orderId, $status): only the five names, then the UPDATE may fail. */
    method UpdateOrderStatus(orderId: int, status: string, executes: bool) returns (ok: bool)
      requires Valid()
      modifies this
      ensures Valid()
      ensures ok <==> ParseStatus(status).Some? && executes
      ensures ok ==> orders == SetStatus(old(orders), orderId, ParseStatus(status).value)
      ensures !ok ==> orders == old(orders)
      ensures items == old(items) && nextId == old(nextId)
    {
      var st := ParseStatus(status);
      if st.None? {
        return false;
      }
      ok := executes;
      if executes {
        orders := SetStatus(orders, orderId, st.value);
      }
    }

    /** get_order_by_id($orderId); a statement that cannot be prepared yields null. */
    function GetOrder(orderId: int, prepared: bool): (r: Option<Order>)
      reads this
      ensures r.Some? ==> r.value in orders && r.value.orderId == orderId
      ensures prepared && (exists i :: 0 <= i < |orders| && orders[i].orderId == orderId) ==> r.Some?
    {
      if prepared then FindOrder(orders, orderId) else None
    }

    /**
     * get_order_items($orderId): the order's item rows named from the catalogue map, or,
     * when there are none, the fallback built from the header's product ids.
     */
    method GetOrderItems(orderId: int, store: Catalog.Store, io: ReadIo) returns (r: seq<ItemView>)
      ensures var rows := if io.itemsPrepared then RowsOf(items, orderId) else [];
        if rows != [] then
          var names := NameMap(if store.file.Some? then store.file.value else []);
          |r| == |rows| && forall k :: 0 <= k < |r| ==> r[k] == Named(names, rows[k])
        else
          var order := GetOrder(orderId, io.orderPrepared);
          r == if order.None? then [] else Fallback(order.value.productIds, store.file)
    {
      var rows: seq<OrderItem> := [];
      if io.itemsPrepared {
        rows := RowsOf(items, orderId);
      }
      if rows != [] {
        var names := BuildNameMap(if store.file.Some? then store.file.value else []);
        r := NameRows(names, rows);
        return;
      }
      var order := GetOrder(orderId, io.orderPrepared);
      if order.None? {
        return [];
      }
      r := FallbackItems(order.value.productIds, store);
    }
  }

  /** The `$productMap` loop of get_order_items(). */
  method BuildNameMap(products: seq<Catalog.Product>) returns (names: map<int, string>)
    ensures names == NameMap(products)
  {
    names := map[];
    for i := 0 to |products|
      invariant names == NameMap(products[..i])
    {
      assert products[..i + 1][..i] == products[..i];
      names := names[products[i].id := products[i].name];
    }
    assert products[..|products|] == products;
  }

  /** The loop that names each item row from the map. */
  method NameRows(names: map<int, string>, rows: seq<OrderItem>) returns (r: seq<ItemView>)
    ensures |r| == |rows| && forall k :: 0 <= k < |r| ==> r[k] == Named(names, rows[k])
  {
    r := [];
    for k := 0 to |rows|
      invariant |r| == k && forall j :: 0 <= j < k ==> r[j] == Named(names, rows[j])
    {
      r := r + [Named(names, rows[k])];
    }
  }

  /** The fallback loop over the header's product ids, looking each up in the catalogue. */
  method FallbackItems(ids: seq<int>, store: Catalog.Store) returns (r: seq<ItemView>)
    ensures r == Fallback(ids, store.file)
  {
    r := [];
    for k := 0 to |ids|
      invariant r == Fallback(ids[..k], store.file)
    {
      assert ids[..k + 1][..k] == ids[..k];
      var p := store.Get(ids[k]);
      if p.Some? {
        r := r + [ItemView(p.value.id, p.value.name, 1, p.value.price)];
      }
    }
    assert ids[..|ids|] == ids;
  }
}
