/**
  CartController (controllers/cart_controller.py): the HTTP handlers over the
  shared BarcodeScanner cart and the order tables. A response is its status
  code and its JSON body; the Flask plumbing around jsonify is not modelled.
*/
module CartControl {
  import opened Wrappers
  import opened CartModel
  import opened Scanner
  import opened Orders

  /** The JSON bodies the controller answers with. */
  datatype Body =
    | CartJson(cart: Cart)
    | MessageJson(message: string)
    | ErrorJson(error: string)
    | SavedJson(message: string, orderId: int)
    | UpdatedJson(success: bool, cart: Cart)

  /** A response: status code and body. jsonify alone answers 200. */
  datatype Response = Response(status: int, body: Body)

  const ClearedMessage: string := "Đã xóa giỏ hàng"
  const EmptyCartError: string := "Giỏ hàng trống"
  const SavedMessage: string := "Đã lưu đơn hàng"

  class CartController {
    const scanner: BarcodeScanner
    const orderModel: OrderModel

    ghost predicate Valid()
      reads this, scanner, orderModel
    {
      scanner.Valid() && orderModel.Valid()
    }

    /** The controller shares the scanner it is given and opens its own order model. */
    constructor (scanner: BarcodeScanner, products: map<string, Product>)
      requires scanner.Valid()
      ensures Valid()
      ensures this.scanner == scanner && fresh(orderModel)
      ensures orderModel.products == products && orderModel.orders == [] && orderModel.details == []
    {
      this.scanner := scanner;
      orderModel := new OrderModel(products);
    }

    /** get_cart: the scanner's cart as it is. */
    function GetCart(): (r: Response)
      reads this, scanner
      ensures r.status == 200 && r.body == CartJson(scanner.cart)
    {
      Response(200, CartJson(scanner.GetCart()))
    }

    /** clear_cart: empties the scanner's cart and answers a fixed message. */
    method ClearCart() returns (r: Response)
      requires Valid()
      modifies scanner
      ensures Valid()
      ensures scanner.cart.items == map[] && scanner.cart.keys == []
      ensures scanner.cap == old(scanner.cap) && scanner.isScanning == old(scanner.isScanning) && scanner.lastScan == old(scanner.lastScan)
      ensures r == Response(200, MessageJson(ClearedMessage))
    {
      scanner.ClearCart();
      r := Response(200, MessageJson(ClearedMessage));
    }

    /**
      checkout: an empty cart is refused with 400 and nothing is saved; otherwise
      the cart is saved as one order, then emptied, and the new order id is
      answered. The saved order reads back as exactly that cart's order.
    */
    method Checkout() returns (r: Response)
      requires Valid()
      modifies scanner, orderModel
      ensures Valid()
      ensures |old(scanner.cart.items)| == 0 ==>
        && r == Response(400, ErrorJson(EmptyCartError))
        && scanner.cart == old(scanner.cart)
        && orderModel.orders == old(orderModel.orders)
        && orderModel.details == old(orderModel.details)
        && orderModel.nextOrderId == old(orderModel.nextOrderId)
      ensures |old(scanner.cart.items)| != 0 ==>
        var id := old(orderModel.nextOrderId);
        var rows := DetailRows(id, old(scanner.cart.keys), old(scanner.cart.items), old(orderModel.products));
        && r == Response(200, SavedJson(SavedMessage, id))
        && orderModel.orders == old(orderModel.orders) + [OrderRow(id, Total(old(scanner.cart)))]
        && orderModel.details == old(orderModel.details) + rows
        && scanner.cart.items == map[] && scanner.cart.keys == []
        && InvoiceData(orderModel.orders, orderModel.details, id) == Some(Invoice(OrderRow(id, Total(old(scanner.cart))), rows))
      ensures orderModel.products == old(orderModel.products)
      ensures scanner.cap == old(scanner.cap) && scanner.isScanning == old(scanner.isScanning) && scanner.lastScan == old(scanner.lastScan)
    {
      var cart := scanner.GetCart();
      if |cart.items| == 0 {
        return Response(400, ErrorJson(EmptyCartError));
      }
      var orderId := orderModel.SaveOrder(cart);
      scanner.ClearCart();
      r := Response(200, SavedJson(SavedMessage, orderId));
    }

    /** update_quantity: delegates to the scanner and answers the cart after the change. */
    method UpdateQuantity(barcode: string, qty: int) returns (r: Response)
      requires Valid()
      modifies scanner
      ensures Valid()
      ensures scanner.cart == SetQuantity(old(scanner.cart), barcode, qty)
      ensures scanner.cap == old(scanner.cap) && scanner.isScanning == old(scanner.isScanning) && scanner.lastScan == old(scanner.lastScan)
      ensures r == Response(200, UpdatedJson(true, scanner.cart))
    {
      scanner.UpdateQuantity(barcode, qty);
      r := Response(200, UpdatedJson(true, scanner.GetCart()));
    }

    /** remove_item: delegates to the scanner and answers the cart after the change. */
    method RemoveItem(barcode: string) returns (r: Response)
      requires Valid()
      modifies scanner
      ensures Valid()
      ensures scanner.cart == Remove(old(scanner.cart), barcode)
      ensures scanner.cap == old(scanner.cap) && scanner.isScanning == old(scanner.isScanning) && scanner.lastScan == old(scanner.lastScan)
      ensures r == Response(200, UpdatedJson(true, scanner.cart))
    {
      scanner.RemoveItem(barcode);
      r := Response(200, UpdatedJson(true, scanner.GetCart()));
    }

    /** get_invoice_data: None when no order has this id, otherwise the order and all its detail rows. */
    function GetInvoiceData(orderId: int): (r: Option<Invoice>)
      reads this, orderModel
      ensures r.None? <==> forall o :: o in orderModel.orders ==> o.id != orderId
      ensures r.Some? ==>
        && r.value.order in orderModel.orders && r.value.order.id == orderId
        && forall d :: d in r.value.items <==> d in orderModel.details && d.orderId == orderId
    {
      InvoiceData(orderModel.orders, orderModel.details, orderId)
    }
  }
}
