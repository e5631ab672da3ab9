/**
  What the three page controllers (static/js/order.js, product.js, script.js)
  exchange with the server and show to the user. Every HTTP call is an abstract
  request; replies come back as parameters of the page methods.
*/
module Browser {
  import opened Wrappers

  datatype Verb = Get | Post | Put | Delete

  /** The paths the pages request. */
  datatype Endpoint =
    | CartPath                        // /cart
    | CartUpdatePath(barcode: string) // /cart/update/{barcode}
    | CartRemovePath(barcode: string) // /cart/remove/{barcode}
    | CartClearPath                   // /cart/clear
    | CheckoutPath                    // /checkout
    | OrdersPath                      // /order
    | InvoicePath(orderId: int)       // /invoice/{orderId}
    | CameraStartPath                 // /camera/start
    | CameraStartModePath(mode: int)  // /camera/start/{mode}
    | CameraStopPath                  // /camera/stop
    | BarcodePath                     // /get_barcode
    | ProductPath                     // /product
    | ProductsPath                    // /products
    | ProductsIdPath(id: int)         // /products/{id}

  /** The value of a form input: empty, typed text, or a number written into it. */
  datatype Field = Blank | Typed(text: string) | Numeric(n: int)

  /** Request bodies, with form values as the inputs held them (parsing is not modelled). */
  datatype Payload =
    | NoBody
    | QtyBody(qty: int)
    | NewProductBody(barcode: Field, name: Field, price: Field, stock: Field)
    | ProductBody(barcode: Field, name: Field, price: Field)

  datatype Request = Request(verb: Verb, endpoint: Endpoint, body: Payload)

  /** What a page does towards the outside: send a request, or reload itself. */
  datatype Effect = Send(request: Request) | Reload

  /** GET /cart, issued by every loadCart. */
  const ReadCart: Effect := Send(Request(Get, CartPath, NoBody))

  /** GET /products, issued by loadProduct and loadProducts. */
  const ReadProducts: Effect := Send(Request(Get, ProductsPath, NoBody))

  /** POST /camera/stop. */
  const StopCameraRequest: Effect := Send(Request(Post, CameraStopPath, NoBody))

  datatype Kind = Success | Failure

  /** A notice text: a fixed or server-sent string, the order-created text for an id, or undefined. */
  datatype Message = Says(text: string) | OrderCreated(orderId: Option<int>) | Undefined

  /** A toast (order.js, product.js) or a message box (script.js). */
  datatype Notice = Notice(kind: Kind, title: string, message: Message)

  /**
    The outcome of the pages' request() helper: it resolves with the parsed JSON
    body, or rejects on an HTTP error status, a network failure or a body that is
    not JSON. A rejection is not caught by the callers modelled here.
  */
  datatype Reply<T> = Rejected | Resolved(body: T)

  /**
    The outcome of a bare fetch followed by reading the JSON body: the fetch or
    the parse failed (both land in the same catch), or the status flag res.ok
    and the body.
  */
  datatype Fetched<T> = Unreachable | Answered(ok: bool, body: T)

  /** A cart entry as a page reads it from the JSON of GET /cart; the total may be missing. */
  datatype JsItem = JsItem(name: Option<string>, price: int, qty: int, total: Option<int>)

  /** One key of the cart object with its value, in the order Object.entries yields them. */
  datatype JsEntry = JsEntry(barcode: string, item: JsItem)

  /** The source of the video element: cleared, or the camera stream. */
  datatype VideoSrc = NoFeed | Feed

  /** JavaScript truthiness of an optional string: present and not empty. */
  predicate TruthyText(s: Option<string>) {
    s.Some? && s.value != ""
  }

  /** JavaScript truthiness of an optional number: present and not zero. */
  predicate TruthyNumber(n: Option<int>) {
    n.Some? && n.value != 0
  }

  /** The barcodes of the entries, in order: one displayed row or block per key. */
  function Barcodes(entries: seq<JsEntry>): (r: seq<string>)
    ensures |r| == |entries|
    ensures forall i :: 0 <= i < |entries| ==> r[i] == entries[i].barcode
  {
    if entries == [] then [] else Barcodes(entries[..|entries| - 1]) + [entries[|entries| - 1].barcode]
  }
}
