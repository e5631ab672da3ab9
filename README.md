# CV_POS core, modelled in Dafny

CV_POS is a small point-of-sale web application. A Python server owns a camera
barcode scanner with an in-memory cart keyed by barcode, a cart controller that
turns the cart into an order, and an order model that writes the order and its
detail rows. Three browser controllers drive it: `OrderSystem` (the order page),
`ProductSystem` (the product page) and `BarcodeSystem` (the single-page
terminal). This project models that core and proves what it promises.

Modules:

- `CartModel` (cart.dfy): the scanner's cart dictionary as a value, keys in
  insertion order plus a map of items; the pure operations (add a scanned
  product, set a quantity, remove, empty) and the invariant every entry keeps
  (`qty >= 1`, `total == qty * price`), with lemmas on the cart total and unit
  count.
- `Scanner` (scanner.dfy): `BarcodeScanner` as a class whose fields are the
  camera handle, the scanning flag, the last-scan time and the cart; its methods
  are proved against the `CartModel` functions. Decoded barcodes of one frame are
  an input list, each with the time at which the loop looked at it.
- `Orders` (orders.dfy): the Orders and OrderDetails tables as sequences in the
  class `OrderModel`; `SaveOrder` loops over the cart like the source and is
  proved to write exactly the order row and one detail row per known product,
  and to be read back by the invoice lookup.
- `CartControl` (cart_controller.dfy): `CartController` over one scanner and one
  order model, with its JSON replies as a datatype.
- `Browser` (browser.dfy): what the pages send and show: abstract HTTP requests,
  page reloads, toasts and message boxes, and the shapes of replies.
- `OrderPage`, `ProductPage`, `PosPage` (order_page.dfy, product_page.dfy,
  pos_page.dfy): the three page classes. Every HTTP call appends to a ghost
  trace `effects`; every toast or message box to a ghost trace `notices`;
  replies and `confirm()` answers are method parameters; the video element's
  `onload` and `onerror` are event methods. A timer is an optional handle plus a
  ghost count of intervals actually running, and each page's `Valid()` says the
  only interval running is the one it holds.
- `Wire` (wire.dfy): the cart as GET /cart sends it, and the proof that both
  cart views show the server's total and unit count.

Money is an integer number of dong and time an integer number of milliseconds
(the default cooldown is 1500). Three behaviours of the code are worth knowing
before reading the contracts:

- Both pages send POST /camera/stop first and clear the video and stop polling
  only once it resolves, so a rejected stop leaves polling running
  (`OrderPage.OrderSystem.StopCamera`, `ProductPage.ProductSystem.StopCamera`).
- `OrderSystem.hideModal` calls `this.clearCart()`, which `OrderSystem` does
  not define, so closing the new-order modal without `skipClear` throws a
  TypeError and no clear request is sent (`OrderPage.OrderSystem.HideModal`
  returns `threw`).
- `OrderModel` in models/order_model.py defines only `save_order`, while
  `CartController.get_invoice_data` calls `get_order_by_id` and
  `get_order_details`. As written, that call raises AttributeError. The model
  assumes the evidently meant lookups: the order row with that id and the
  detail rows with that order id (`Orders.FindOrder`, `Orders.DetailsOf`).

## Model

| member | source | states |
|---|---|---|
| CartModel.Empty | services/barcode_scanner.py:21 | the cart starts with no entries and satisfies the entry invariant |
| CartModel.Add | services/barcode_scanner.py:88-99 | a new barcode gets qty 1 with id, name and price copied from the product and is appended to the key order; a present barcode gets qty + 1 with id, name, price and key order kept; the touched total is qty × price; every other entry is unchanged; the invariant is preserved |
| CartModel.Remove | services/barcode_scanner.py:111-113 | deletes exactly that key (items become the old items minus the key, keys become Without of the old keys), is the identity when the key is absent, and preserves the invariant |
| CartModel.WithoutKeepsOrder | services/barcode_scanner.py:113 | removing the key at position p cuts it out there and keeps the other keys in their relative order, as dict.pop does |
| CartModel.SetQuantity | services/barcode_scanner.py:101-109 | an absent barcode leaves the cart unchanged; qty > 0 sets qty and total = qty × price and keeps everything else; qty <= 0 is Remove; the invariant is preserved |
| CartModel.Without | services/barcode_scanner.py:113 | removing a key from the key order keeps exactly the other keys, keeps them distinct, and changes nothing when the key is absent |
| CartModel.TotalAdd | services/barcode_scanner.py:88-99 | adding a scanned product raises the cart total by exactly one unit price |
| CartModel.QuantityAdd | services/barcode_scanner.py:88-99 | adding a scanned product raises the unit count by exactly one |
| CartModel.TotalSetQuantity | services/barcode_scanner.py:105-107 | setting a present item's quantity to q > 0 replaces that item's total by q × price in the cart total |
| CartModel.TotalRemove | services/barcode_scanner.py:111-113 | removing a present item lowers the total by exactly that item's total |
| CartModel.QuantityAtLeastEntries | services/barcode_scanner.py:88-117 | under the entry invariant the unit count is at least the number of entries |
| CartModel.DistinctKeysCount | services/barcode_scanner.py:88-99 | the key order lists each cart entry exactly once |
| CartModel.SumOnlyReadsKeys | models/order_model.py:8 | a cart sum depends only on the items at the listed keys |
| CartModel.SumUpdate | services/barcode_scanner.py:99 | replacing one item changes a cart sum by the difference of that item's values |
| CartModel.SumWithout | services/barcode_scanner.py:113 | dropping a key from the key order lowers a cart sum by that item's value |
| CartModel.SumAtLeastCount | services/barcode_scanner.py:97 | a sum of values that are each at least 1 is at least the number of keys |
| Scanner.FirstHit | services/barcode_scanner.py:65-76 | finds the first decoded barcode that is outside the cooldown and names a known product, or reports that none is |
| Scanner.BarcodeScanner.constructor | services/barcode_scanner.py:9-21 | no camera, not scanning, last scan 0, empty cart |
| Scanner.BarcodeScanner.Start | services/barcode_scanner.py:24-30 | while scanning nothing changes; otherwise the camera is opened, and a failed open reports "Không mở được camera" with scanning still off; cart and last scan untouched |
| Scanner.BarcodeScanner.Stop | services/barcode_scanner.py:32-39 | afterwards not scanning; if it was scanning the camera is released, otherwise nothing changes |
| Scanner.BarcodeScanner.ScanBarcodes | services/barcode_scanner.py:63-78 | with no hit returns (None, None) and keeps cart and last scan; with a hit adds that product once, sets last scan to that barcode's time and returns its barcode and product name |
| Scanner.BarcodeScanner.AddToCart | services/barcode_scanner.py:88-99 | the new cart is CartModel.Add of the old one; camera and last scan untouched |
| Scanner.BarcodeScanner.UpdateQuantity | services/barcode_scanner.py:101-109 | the new cart is CartModel.SetQuantity of the old one |
| Scanner.BarcodeScanner.RemoveItem | services/barcode_scanner.py:111-113 | the new cart is CartModel.Remove of the old one |
| Scanner.BarcodeScanner.ClearCart | services/barcode_scanner.py:115-117 | the cart is left empty; camera and last scan untouched |
| Scanner.BarcodeScanner.GetCart | services/barcode_scanner.py:119-121 | returns the live cart |
| Orders.DetailRows | models/order_model.py:15-22 | one row per cart key whose barcode is a product, in cart order, each carrying the new order id |
| Orders.DetailRowsExact | models/order_model.py:15-22 | a detail row is written for a barcode if and only if it is a product, with the looked-up product id and the item's qty, price and total unchanged |
| Orders.DetailRowsAllKnown | models/order_model.py:8-22 | when every barcode is a product there is one row per item and the rows' totals add up to the order total |
| Orders.FindOrder | controllers/cart_controller.py:36 | finds an order row with that id, and finds none exactly when no row has it |
| Orders.DetailsOf | controllers/cart_controller.py:37 | exactly the detail rows of that order id |
| Orders.InvoiceData | controllers/cart_controller.py:35-43 | None exactly when no order has the id; otherwise that order with its detail rows |
| Orders.DetailsOfAppend | controllers/cart_controller.py:37 | the detail lookup distributes over appended rows |
| Orders.DetailsOfOwn | controllers/cart_controller.py:37 | rows that all carry an order id are exactly its details |
| Orders.FindOrderAppend | models/order_model.py:11-13 | a newly inserted order with a fresh id is found by its id |
| Orders.InvoiceAfterSave | models/order_model.py:11-22 | after inserting an order with a fresh id and its rows, the invoice for that id is exactly that order and those rows |
| Orders.OrderModel.constructor | models/order_model.py:4-5 | empty Orders and OrderDetails tables over the given products |
| Orders.OrderModel.SaveOrder | models/order_model.py:7-25 | appends one order row whose total is the cart total and whose id is returned, appends DetailRows for the cart, leaves the products and the cart alone, and the invoice for the returned id reads back exactly what was written |
| CartControl.CartController.constructor | controllers/cart_controller.py:5-7 | holds the scanner and a fresh, empty order model |
| CartControl.CartController.GetCart | controllers/cart_controller.py:9-11 | status 200 with the scanner's cart |
| CartControl.CartController.ClearCart | controllers/cart_controller.py:13-15 | empties the cart and answers 200 "Đã xóa giỏ hàng" |
| CartControl.CartController.Checkout | controllers/cart_controller.py:17-24 | an empty cart answers 400 "Giỏ hàng trống", saves nothing and keeps the cart; otherwise saves exactly the current cart, then empties it, answers 200 with "Đã lưu đơn hàng" and the new id, and that id's invoice is the saved cart |
| CartControl.CartController.UpdateQuantity | controllers/cart_controller.py:26-28 | applies CartModel.SetQuantity and answers success with the new cart |
| CartControl.CartController.RemoveItem | controllers/cart_controller.py:30-32 | applies CartModel.Remove and answers success with the new cart |
| CartControl.CartController.GetInvoiceData | controllers/cart_controller.py:35-43 | None exactly when the order does not exist; otherwise exactly that order and its items |
| Browser.Barcodes | static/js/order.js:168-171 | one row per cart entry, in the entries' order |
| OrderPage.OrderSystem.constructor | static/js/order.js:2-13 | no interval held or running, nothing visible, and GET /cart then GET /order issued |
| OrderPage.OrderSystem.StartCartAutoRefresh | static/js/order.js:221-224 | afterwards exactly one interval runs; when a handle was held nothing changes |
| OrderPage.OrderSystem.StopCartAutoRefresh | static/js/order.js:226-231 | afterwards no handle is held and no interval runs, also when none was held |
| OrderPage.OrderSystem.LoadCart | static/js/order.js:233-236 | issues GET /cart |
| OrderPage.OrderSystem.UpdateCartDisplay | static/js/order.js:154-176 | a null or empty cart shows no rows and total 0; otherwise one row per entry and the sum of the entry totals, a missing total counting 0; nothing happens without the cart view |
| OrderPage.OrderSystem.UpdateQty | static/js/order.js:238-246 | qty <= 0 issues only DELETE /cart/remove/{barcode}; qty > 0 issues one PUT /cart/update/{barcode} with {qty} and, once it resolves, a cart reload, and nothing else |
| OrderPage.OrderSystem.RemoveItem | static/js/order.js:342-345 | DELETE /cart/remove/{barcode}, then a cart reload once it resolves |
| OrderPage.OrderSystem.ExportInvoicePdf | static/js/order.js:248-251 | fetches /invoice/{id} |
| OrderPage.OrderSystem.Checkout | static/js/order.js:328-340 | a truthy order_id gives the success toast, the invoice fetch and a cart reload; any other resolved reply gives the failure toast only; a rejected request gives no toast |
| OrderPage.OrderSystem.ClearCartAndClose | static/js/order.js:347-353 | a declined confirm changes nothing; a rejected clear sends only POST /cart/clear; a resolved one reloads the cart, closes the modal with skipClear (camera stop, no second clear) and reloads the page; for the new-order modal a resolved stop clears the video and the interval and a rejected stop leaves both; other modals keep the interval and the video |
| OrderPage.OrderSystem.StartCamera | static/js/order.js:356-390 | posts /camera/start; once it resolves the video handlers are installed and the stream is shown; polling is not started here |
| OrderPage.OrderSystem.OnVideoLoad | static/js/order.js:370-377 | starts cart polling, leaving exactly one interval |
| OrderPage.OrderSystem.OnVideoError | static/js/order.js:379-386 | clears the video source and starts no polling |
| OrderPage.OrderSystem.StopCamera | static/js/order.js:392-399 | posts /camera/stop; only when it resolves are the video cleared and polling stopped; a rejected stop leaves the interval running |
| OrderPage.OrderSystem.ShowModal | static/js/order.js:402-418 | shows a modal present in the page and starts the camera only for "orderNewModal" |
| OrderPage.OrderSystem.HideModal | static/js/order.js:420-431 | hides the modal; for "orderNewModal" always posts /camera/stop, a resolved stop clearing the video and the interval and a rejected one leaving both, and without skipClear throws on the undefined clearCart; other modals are only hidden |
| OrderPage.OrderSystem.OnModalClick | static/js/order.js:413-417 | a click on the backdrop itself does what hideModal without skipClear does: only that modal is hidden, and for "orderNewModal" the camera stop is sent, polling and video follow its outcome, and the undefined clearCart throws; any other click changes nothing |
| ProductPage.Poll | static/js/product.js:87-97 | a successful non-empty barcode that differs from lastBarcode is filled in; the same barcode is skipped; otherwise the exact duplicate message is reported and anything else is only logged |
| ProductPage.RepeatNotSuppressed | static/js/product.js:84-92 | with lastBarcode never assigned, every successful poll fills the barcode in again |
| ProductPage.DedupPoll | static/js/product.js:87-92 | the intended poll: the filled-in barcode becomes lastBarcode, other replies leave it |
| ProductPage.DedupAnnouncesOnce | static/js/product.js:87-92 | with DedupPoll two identical replies announce the barcode once |
| ProductPage.DedupAnnouncesNew | static/js/product.js:87-92 | with DedupPoll a different barcode is still announced |
| ProductPage.ProductSystem.constructor | static/js/product.js:2-13 | no interval, lastBarcode null, GET /products then the first barcode poll |
| ProductPage.ProductSystem.StartBarcodeAutoRefresh | static/js/product.js:276-279 | afterwards exactly one interval runs; when a handle was held nothing changes |
| ProductPage.ProductSystem.StopBarcodeAutoRefresh | static/js/product.js:281-286 | afterwards no handle is held and no interval runs, also when none was held |
| ProductPage.ProductSystem.GetBarcode | static/js/product.js:84-98 | issues GET /get_barcode; a fill writes the barcode field and gives "Đã quét mã mới"; the duplicate message gives an error toast with the field untouched; other replies and rejections change nothing |
| ProductPage.ProductSystem.ClearProductForm | static/js/product.js:142-147 | all four inputs are blank |
| ProductPage.ProductSystem.AddProduct | static/js/product.js:100-140 | posts the form; ok gives the success toast, closes the modal (a resolved camera stop ends polling and clears the video, a rejected one leaves both), clears the form and reloads the list; an error status gives result.error or "Không thể thêm sản phẩm" and a failed fetch the default text, with the modal, form, camera and polling left as they were |
| ProductPage.ProductSystem.StartCamera | static/js/product.js:288-322 | posts /camera/start/{mode}; once it resolves the handlers are installed and the stream shown |
| ProductPage.ProductSystem.OnVideoLoad | static/js/product.js:302-309 | starts barcode polling, leaving exactly one interval |
| ProductPage.ProductSystem.OnVideoError | static/js/product.js:311-318 | clears the video source and starts no polling |
| ProductPage.ProductSystem.StopCamera | static/js/product.js:324-331 | posts /camera/stop, then clears the video, then stops polling; a rejected stop leaves polling on |
| ProductPage.ProductSystem.ShowModal | static/js/product.js:333-349 | shows a modal present in the page; "newProductModal" also posts /camera/start/2 |
| ProductPage.ProductSystem.HideModal | static/js/product.js:351-362 | hides the modal; "newProductModal" also posts /camera/stop (a resolved stop ends polling and clears the video, a rejected one leaves both) and clears all four inputs; other ids are only hidden |
| ProductPage.ProductSystem.OnModalClick | static/js/product.js:344-348 | a click on the backdrop itself does what hideModal does: only that modal is hidden, and for "newProductModal" the camera stop is sent, polling and video follow its outcome and the form is blanked; any other click changes nothing |
| PosPage.Text | static/js/script.js:106 | a present server text is passed to the box as is, a missing one is passed as undefined |
| PosPage.CartSum | static/js/script.js:72-77 | the shown total is a number exactly when every entry has a total |
| PosPage.FindProduct | static/js/script.js:231 | the first product with the id, or none exactly when no product has it |
| PosPage.SaveText | static/js/script.js:215-216 | the update text exactly for a set id, the add text otherwise |
| PosPage.IntendedSaveText | static/js/script.js:202-216 | the text chosen from the id the request was sent for |
| PosPage.SaveRequest | static/js/script.js:202-210 | PUT /products/{id} when currentProductId is set, POST /products otherwise, with barcode, name and price |
| PosPage.IntendedTextMatchesRequest | static/js/script.js:202-216 | with the intended text, "updated" is shown exactly when a PUT was sent |
| PosPage.BarcodeSystem.constructor | static/js/script.js:2-14 | currentProductId null, nothing shown, GET /products then GET /cart issued |
| PosPage.BarcodeSystem.LoadCart | static/js/script.js:45-53 | issues GET /cart |
| PosPage.BarcodeSystem.UpdateCartDisplay | static/js/script.js:55-98 | an empty cart shows total 0 and count 0; otherwise one block per entry, total the sum of item.total (NaN when one is missing) and count the sum of item.qty |
| PosPage.BarcodeSystem.ShowMessage | static/js/script.js:256-274 | records the message and shows the box |
| PosPage.BarcodeSystem.HideMessageModal | static/js/script.js:276-278 | hides the message box |
| PosPage.BarcodeSystem.ClearCart | static/js/script.js:100-111 | a declined confirm sends and shows nothing; confirmed, POST /cart/clear and, for any readable reply, the success box with result.message and a cart reload; a failed fetch gives the error box; a confirmed call always shows the box |
| PosPage.BarcodeSystem.Checkout | static/js/script.js:113-127 | ok gives the order-created box and a cart reload; an error status gives result.error and no reload; a failed fetch gives "Không thể thanh toán" |
| PosPage.BarcodeSystem.ShowProductModal | static/js/script.js:166-184 | with a product, fills the form and sets currentProductId to its id; without, resets the form and sets it to null; the modal is shown |
| PosPage.BarcodeSystem.HideProductModal | static/js/script.js:186-189 | hides the modal and always resets currentProductId to null |
| PosPage.BarcodeSystem.SaveProduct | static/js/script.js:191-225 | sends SaveRequest for the id held at submit; ok closes the modal, reloads the list and reports the add text even for an edit; an error status reports error.error; a failed fetch reports "Không thể lưu sản phẩm" |
| PosPage.BarcodeSystem.EditProduct | static/js/script.js:227-236 | fetches /products and opens the modal on the first product with the id; nothing else when none has it or the fetch fails |
| Wire.Entries | controllers/cart_controller.py:9-11 | the JSON of the cart has one entry per key carrying that item's name, price, qty and total; the entry order is the key order only under the ordering assumption in Left out |
| Wire.ToJson | controllers/cart_controller.py:9-11 | the JSON of a cart has one entry per cart item |
| Wire.EntriesShownTotal | static/js/order.js:165-171 | the order page's total over the cart JSON is the sum of the item totals |
| Wire.EntriesCartSum | static/js/script.js:72-78 | the terminal's total over the cart JSON is a number and the sum of the item totals |
| Wire.EntriesCartCount | static/js/script.js:72-78 | the terminal's count over the cart JSON is the sum of the item quantities |
| Wire.CartViewsAgree | static/js/script.js:55-98 | for any server cart both pages show the server's cart total and unit count, and one row per key (in key order under the ordering assumption in Left out) |

## Left out

- Camera capture, barcode decoding, JPEG encoding, the `generate_frames` stream loop and the Windows beep are device and library I/O; decoded barcodes and the clock reading of each are inputs of `ScanBarcodes`, and whether the camera opens is an input of `Start`.
- The product lookup `get_product_by_barcode` is a map from barcode to product passed to the scanner; models/product_model.py and models/database.py are not part of this model.
- The SQL text, the cursor, the IDENTITY column and `commit` become in-memory sequences and a counter for the next order id; a database failure is not modelled.
- Flask routing, `jsonify`, HTTP status plumbing and the product, order and barcode controllers are not part of this model.
- Prices and times are floats in the source; money is whole dong and time whole milliseconds here.
- Integers are unbounded: no overflow of quantities or totals is modelled.
- Wire.Entries: row order is not the scan order in the running system. Flask's default JSON provider sorts the cart's keys, and `Object.entries` then lists first, in ascending numeric order, only the keys that are canonical array indices: digit strings with no leading zero whose value is below 4294967295, so at most 10 digits. Usual 12- and 13-digit UPC-A and EAN-13 barcodes, and codes with a leading zero, are not array indices and keep the sorted JSON order. Either way rows follow sorted order, not scan order. `Wire` assumes the key order reaches the page unchanged, so the row-order parts of `Wire.Entries` and `Wire.CartViewsAgree` hold only under that assumption; totals and counts do not depend on order.
- Presentation is left out: HTML rows and toasts, icons, CSS classes beyond a visible flag, currency and date formatting, the clock tick, and rendering of order, order-detail and product lists (`loadOrder`, `showOrderDetails`, `loadProduct`, `updateProductsDisplay`).
- PDF generation in `exportInvoicePDF` and its failure toast are a foreign library; `OrderPage.OrderSystem.ExportInvoicePdf` only issues the invoice fetch.
- The server is modelled as one request at a time: the camera frame stream that calls `scan_barcodes` and the cart and checkout handlers all touch the scanner's cart without a lock, and the model does not interleave them. In the running system a scan landing between `save_order` and `clear_cart` in `checkout` would be cleared without being saved.
- Each async method is one step: requests in flight do not interleave, and the reply to a fire-and-forget `loadCart` is the separate event `UpdateCartDisplay`. In `clearCartAndClose` the page reload in fact happens before the camera-stop reply arrives.
- `showModal` adds a new click listener on every call; the model records only whether a modal has one.
- The terminal's 2-second cart refresh interval started by `init`, which is never stopped, is the repeated `LoadCart` event; its handle is not kept in the source.
- `showUpdateProduct`, `submitUpdateProduct` and `deleteProduct` of product.js and `deleteProduct` of script.js are product CRUD forms outside the cart, scanner and camera flow modelled here.
- The EventSource of script.js only logs and is dropped; console logging is dropped everywhere.
- Parsing of form inputs (`parseFloat`, `parseInt`) is not modelled: request bodies carry the inputs as they were.
- The two pages word the order-created message differently; both are `OrderCreated` of the order id here.

## Findings

| source | as written | input that shows it | evidently intended | confidence | as-written member | corrected member |
|---|---|---|---|---|---|---|
| static/js/product.js:4, 88 | `lastBarcode` is set to null and never assigned, so the repeat check compares with null | the server answers GET /get_barcode with the same successful barcode on two polls in a row | remember the barcode just filled in, so one scan is announced once | not executed | ProductPage.RepeatNotSuppressed | ProductPage.DedupAnnouncesOnce |
| static/js/script.js:213-216 | the success text tests `currentProductId` after `hideProductModal` has reset it to null | edit product 5, save, server answers 200: PUT /products/5 is sent and the box says "Đã thêm sản phẩm mới" | report "Đã cập nhật sản phẩm" for a saved edit | not executed | PosPage.BarcodeSystem.SaveProduct | PosPage.IntendedTextMatchesRequest |
