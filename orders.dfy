/**
  OrderModel (models/order_model.py) over in-memory tables: the Products table
  as a map from barcode, and the Orders and OrderDetails tables as sequences of
  rows in insertion order. Orders.OrderID is an IDENTITY column; `nextOrderId`
  is its next value.
*/
module Orders {
  import opened Wrappers
  import opened CartModel

  /** An Orders row: OrderID and TotalAmount. */
  datatype OrderRow = OrderRow(id: int, totalAmount: int)

  /** An OrderDetails row: OrderID, ProductID, Quantity, Price, Total. */
  datatype DetailRow = DetailRow(orderId: int, productId: int, quantity: int, price: int, total: int)

  /** What get_invoice_data returns: the order and its detail rows. */
  datatype Invoice = Invoice(order: OrderRow, items: seq<DetailRow>)

  /** The detail row save_order writes for the entry under barcode `k`. */
  function RowFor(orderId: int, k: string, items: map<string, Item>, products: map<string, Product>): DetailRow
    requires k in items && k in products
  {
    DetailRow(orderId, products[k].id, items[k].qty, items[k].price, items[k].total)
  }

  /**
    The OrderDetails rows save_order inserts for the entries under `keys`, in
    order: one for each barcode found in Products, none for the others.
  */
  function DetailRows(orderId: int, keys: seq<string>, items: map<string, Item>, products: map<string, Product>): (rows: seq<DetailRow>)
    requires forall k :: k in keys ==> k in items
    ensures |rows| <= |keys|
    ensures forall r :: r in rows ==> r.orderId == orderId
  {
    if keys == [] then []
    else
      var k := keys[|keys| - 1];
      var init := DetailRows(orderId, keys[..|keys| - 1], items, products);
      if k in products then init + [RowFor(orderId, k, items, products)] else init
  }

  /** Every detail row comes from an entry whose barcode is a known product, and every such entry has its row. */
  lemma {:induction false} DetailRowsExact(orderId: int, keys: seq<string>, items: map<string, Item>, products: map<string, Product>)
    requires forall k :: k in keys ==> k in items
    ensures forall k :: k in keys && k in products ==> RowFor(orderId, k, items, products) in DetailRows(orderId, keys, items, products)
    ensures forall r :: r in DetailRows(orderId, keys, items, products) ==>
      exists k :: k in keys && k in products && r == RowFor(orderId, k, items, products)
  {
    if keys != [] {
      var n := |keys| - 1;
      DetailRowsExact(orderId, keys[..n], items, products);
      assert keys == keys[..n] + [keys[n]];
    }
  }

  /** The sum of the Total column of some detail rows. */
  function DetailTotal(rows: seq<DetailRow>): int {
    if rows == [] then 0 else DetailTotal(rows[..|rows| - 1]) + rows[|rows| - 1].total
  }

  /**
    When every barcode of the cart is a known product, the order has one detail
    row per entry and its TotalAmount equals the sum of its detail totals.
  */
  lemma {:induction false} DetailRowsAllKnown(orderId: int, keys: seq<string>, items: map<string, Item>, products: map<string, Product>)
    requires forall k :: k in keys ==> k in items && k in products
    ensures |DetailRows(orderId, keys, items, products)| == |keys|
    ensures DetailTotal(DetailRows(orderId, keys, items, products)) == Sum(keys, items, TotalOf)
  {
    if keys != [] {
      var n := |keys| - 1;
      DetailRowsAllKnown(orderId, keys[..n], items, products);
      var init := DetailRows(orderId, keys[..n], items, products);
      assert (init + [RowFor(orderId, keys[n], items, products)])[..|init|] == init;
    }
  }

  /** The first Orders row with this id: get_order_by_id. */
  function FindOrder(orders: seq<OrderRow>, id: int): (r: Option<OrderRow>)
    ensures r.Some? ==> r.value in orders && r.value.id == id
    ensures r.None? <==> forall o :: o in orders ==> o.id != id
  {
    if orders == [] then None
    else if orders[0].id == id then Some(orders[0])
    else FindOrder(orders[1..], id)
  }

  /** The OrderDetails rows of one order, in table order: get_order_details. */
  function DetailsOf(details: seq<DetailRow>, id: int): (r: seq<DetailRow>)
    ensures forall d :: d in r <==> d in details && d.orderId == id
    ensures |r| <= |details|
    ensures (forall d :: d in details ==> d.orderId != id) ==> r == []
  {
    if details == [] then []
    else if details[0].orderId == id then [details[0]] + DetailsOf(details[1..], id)
    else DetailsOf(details[1..], id)
  }

  /** get_invoice_data: None for an unknown order, otherwise the order with its detail rows. */
  function InvoiceData(orders: seq<OrderRow>, details: seq<DetailRow>, id: int): (r: Option<Invoice>)
    ensures r.None? <==> forall o :: o in orders ==> o.id != id
    ensures r.Some? ==>
      && r.value.order in orders && r.value.order.id == id
      && forall d :: d in r.value.items <==> d in details && d.orderId == id
  {
    match FindOrder(orders, id)
    case None => None
    case Some(o) => Some(Invoice(o, DetailsOf(details, id)))
  }

  lemma {:induction false} DetailsOfAppend(a: seq<DetailRow>, b: seq<DetailRow>, id: int)
    ensures DetailsOf(a + b, id) == DetailsOf(a, id) + DetailsOf(b, id)
  {
    if a == [] {
      assert a + b == b;
    } else {
      assert (a + b)[0] == a[0];
      assert (a + b)[1..] == a[1..] + b;
      DetailsOfAppend(a[1..], b, id);
    }
  }

  lemma {:induction false} DetailsOfOwn(rows: seq<DetailRow>, id: int)
    requires forall d :: d in rows ==> d.orderId == id
    ensures DetailsOf(rows, id) == rows
  {
    if rows != [] {
      DetailsOfOwn(rows[1..], id);
    }
  }

  lemma {:induction false} FindOrderAppend(orders: seq<OrderRow>, o: OrderRow)
    requires forall x :: x in orders ==> x.id != o.id
    ensures FindOrder(orders + [o], o.id) == Some(o)
  {
    if orders != [] {
      assert (orders + [o])[1..] == orders[1..] + [o];
      FindOrderAppend(orders[1..], o);
    }
  }

  /**
    Reading back a saved order: once save_order has appended an order with a
    fresh id and its detail rows, the invoice for that id is exactly that order
    and those rows.
  */
  lemma InvoiceAfterSave(orders: seq<OrderRow>, details: seq<DetailRow>, o: OrderRow, rows: seq<DetailRow>)
    requires forall x :: x in orders ==> x.id < o.id
    requires forall d :: d in details ==> d.orderId < o.id
    requires forall d :: d in rows ==> d.orderId == o.id
    ensures InvoiceData(orders + [o], details + rows, o.id) == Some(Invoice(o, rows))
  {
    FindOrderAppend(orders, o);
    DetailsOfAppend(details, rows, o.id);
    DetailsOfOwn(rows, o.id);
    assert DetailsOf(details, o.id) + rows == rows;
  }

  class OrderModel {
    var products: map<string, Product>
    var orders: seq<OrderRow>
    var details: seq<DetailRow>
    var nextOrderId: int

    /** Every stored order id, and every order id a detail row refers to, was handed out already. */
    ghost predicate Valid()
      reads this
    {
      && nextOrderId >= 1
      && (forall o :: o in orders ==> o.id < nextOrderId)
      && (forall d :: d in details ==> d.orderId < nextOrderId)
    }

    constructor (products: map<string, Product>)
      ensures Valid()
      ensures this.products == products && orders == [] && details == [] && nextOrderId == 1
    {
      this.products := products;
      orders := [];
      details := [];
      nextOrderId := 1;
    }

    /**
      save_order: inserts one Orders row holding the cart's total, then one
      OrderDetails row per entry whose barcode is in Products, and returns the
      new OrderID. The cart is a value here, so it is left as it was.
    */
    method SaveOrder(cart: Cart) returns (orderId: int)
      requires Valid() && WellFormed(cart)
      modifies this
      ensures Valid()
      ensures orderId == old(nextOrderId) && nextOrderId == orderId + 1
      ensures orders == old(orders) + [OrderRow(orderId, Total(cart))]
      ensures details == old(details) + DetailRows(orderId, cart.keys, cart.items, products)
      ensures products == old(products)
      ensures InvoiceData(orders, details, orderId) ==
        Some(Invoice(OrderRow(orderId, Total(cart)), DetailRows(orderId, cart.keys, cart.items, products)))
    {
      var totalAmount := Total(cart);
      orderId := nextOrderId;
      nextOrderId := nextOrderId + 1;
      orders := orders + [OrderRow(orderId, totalAmount)];
      var i := 0;
      while i < |cart.keys|
        invariant 0 <= i <= |cart.keys|
        invariant details == old(details) + DetailRows(orderId, cart.keys[..i], cart.items, products)
        invariant orders == old(orders) + [OrderRow(orderId, totalAmount)]
        invariant nextOrderId == orderId + 1 && orderId == old(nextOrderId)
        invariant products == old(products)
      {
        var barcode := cart.keys[i];
        assert cart.keys[..i + 1][..i] == cart.keys[..i];
        if barcode in products {
          var item := cart.items[barcode];
          details := details + [DetailRow(orderId, products[barcode].id, item.qty, item.price, item.total)];
        }
        i := i + 1;
      }
      assert cart.keys[..i] == cart.keys;
      InvoiceAfterSave(old(orders), old(details), OrderRow(orderId, totalAmount), DetailRows(orderId, cart.keys, cart.items, products));
    }
  }
}
