/**
  BarcodeSystem (static/js/script.js): the single-page point of sale. It shows
  the cart summary, clears and checks out the cart, and adds or edits products
  through one modal whose mode is held in currentProductId.
*/
module PosPage {
  import opened Wrappers
  import opened Browser

  const OkTitle: string := "Thành công"
  const ErrorTitle: string := "Lỗi"
  const ClearFailedText: string := "Không thể xóa giỏ hàng"
  const CheckoutFailedText: string := "Không thể thanh toán"
  const SaveFailedText: string := "Không thể lưu sản phẩm"
  const AddedText: string := "Đã thêm sản phẩm mới"
  const UpdatedText: string := "Đã cập nhật sản phẩm"

  /** A product as GET /products lists it. */
  datatype ProductJs = ProductJs(id: int, barcode: string, name: string, price: int)

  /** The barcode, name and price inputs of the product form. */
  datatype ItemForm = ItemForm(barcode: Field, name: Field, price: Field)

  const BlankForm: ItemForm := ItemForm(Blank, Blank, Blank)

  /** The JSON body of POST /checkout: order_id on success, error otherwise. */
  datatype CheckoutResult = CheckoutResult(orderId: Option<int>, error: Option<string>)

  /** A server-sent text; a missing field shows as undefined. */
  function Text(s: Option<string>): (m: Message)
    ensures s.Some? <==> m.Says?
    ensures s.Some? ==> m == Says(s.value)
    ensures s.None? ==> m == Undefined
  {
    match s
    case Some(t) => Says(t)
    case None => Undefined
  }

  /**
    The total the summary shows: the sum of item.total; one missing total makes
    it NaN (None) and NaN absorbs every later addition.
  */
  function CartSum(entries: seq<JsEntry>): (r: Option<int>)
    ensures r.Some? <==> forall i :: 0 <= i < |entries| ==> entries[i].item.total.Some?
  {
    if entries == [] then Some(0)
    else
      var last := entries[|entries| - 1].item.total;
      match CartSum(entries[..|entries| - 1])
      case Some(s) => if last.Some? then Some(s + last.value) else None
      case None => None
  }

  /** The item count the summary shows: the sum of item.qty. */
  function CartCount(entries: seq<JsEntry>): int {
    if entries == [] then 0 else CartCount(entries[..|entries| - 1]) + entries[|entries| - 1].item.qty
  }

  /** products.find(p => p.id === productId): the first product with that id. */
  function FindProduct(products: seq<ProductJs>, productId: int): (r: Option<ProductJs>)
    ensures r.None? <==> forall i :: 0 <= i < |products| ==> products[i].id != productId
    ensures r.Some? ==> r.value in products && r.value.id == productId
    ensures r.Some? ==> exists i :: 0 <= i < |products| && products[i] == r.value
                                    && forall j :: 0 <= j < i ==> products[j].id != productId
  {
    if products == [] then None
    else if products[0].id == productId then
      Some(products[0])
    else
      var r := FindProduct(products[1..], productId);
      if r.Some? then
        var i :| 0 <= i < |products[1..]| && products[1..][i] == r.value
                 && forall j :: 0 <= j < i ==> products[1..][j].id != productId;
        assert products[i + 1] == r.value;
        assert forall j :: 0 <= j < i + 1 ==> products[j].id != productId by {
          forall j | 0 <= j < i + 1
            ensures products[j].id != productId
          {
            if j > 0 { assert products[j] == products[1..][j - 1]; }
          }
        }
        r
      else
        assert forall i :: 1 <= i < |products| ==> products[i] == products[1..][i - 1];
        r
  }

  /**
    The success text saveProduct picks from currentProductId at the moment the
    message is built: the update text for a set id, the add text otherwise.
  */
  function SaveText(currentId: Option<int>): (t: string)
    ensures TruthyNumber(currentId) <==> t == UpdatedText
    ensures !TruthyNumber(currentId) <==> t == AddedText
  {
    if TruthyNumber(currentId) then UpdatedText else AddedText
  }

  /** The intended text: picked from the id the request was sent for. */
  function IntendedSaveText(idAtSubmit: Option<int>): (t: string)
    ensures TruthyNumber(idAtSubmit) ==> t == UpdatedText
    ensures !TruthyNumber(idAtSubmit) ==> t == AddedText
  {
    SaveText(idAtSubmit)
  }

  /** The request saveProduct sends for the form and the id: PUT to the product for a set id, POST otherwise. */
  function SaveRequest(currentId: Option<int>, form: ItemForm): (e: Effect)
    ensures TruthyNumber(currentId) ==> e == Send(Request(Put, ProductsIdPath(currentId.value), ProductBody(form.barcode, form.name, form.price)))
    ensures !TruthyNumber(currentId) ==> e == Send(Request(Post, ProductsPath, ProductBody(form.barcode, form.name, form.price)))
  {
    var body := ProductBody(form.barcode, form.name, form.price);
    if TruthyNumber(currentId) then Send(Request(Put, ProductsIdPath(currentId.value), body))
    else Send(Request(Post, ProductsPath, body))
  }

  /** With the intended text, the message agrees with the verb of the request sent. */
  lemma IntendedTextMatchesRequest(idAtSubmit: Option<int>, form: ItemForm)
    ensures SaveRequest(idAtSubmit, form).request.verb == Put <==> IntendedSaveText(idAtSubmit) == UpdatedText
  {
  }

  class BarcodeSystem {
    var productModalVisible: bool
    var messageVisible: bool
    var currentProductId: Option<int>
    var form: ItemForm
    /** The summary: the blocks shown (one per barcode), the total (None for NaN) and the item count. */
    var blocks: seq<string>
    var shownTotal: Option<int>
    var shownCount: int

    ghost var effects: seq<Effect>
    ghost var notices: seq<Notice>

    /** The constructor and init(): loadProducts and loadCart each issue their GET. */
    constructor ()
      ensures currentProductId == None && !productModalVisible && !messageVisible
      ensures effects == [ReadProducts, ReadCart] && notices == []
    {
      productModalVisible := false;
      messageVisible := false;
      currentProductId := None;
      form := BlankForm;
      blocks := [];
      shownTotal := Some(0);
      shownCount := 0;
      effects := [ReadProducts, ReadCart];
      notices := [];
    }

    /** loadCart, also run by the 2-second interval init starts: issues GET /cart. */
    method LoadCart()
      modifies this`effects
      ensures effects == old(effects) + [ReadCart]
    {
      effects := effects + [ReadCart];
    }

    /**
      updateCartDisplay: no entries shows total 0 and count 0; otherwise one
      block per entry, the sum of the totals and the sum of the quantities.
    */
    method UpdateCartDisplay(cart: seq<JsEntry>)
      modifies this`blocks, this`shownTotal, this`shownCount
      ensures blocks == Barcodes(cart)
      ensures shownTotal == CartSum(cart) && shownCount == CartCount(cart)
      ensures cart == [] ==> shownTotal == Some(0) && shownCount == 0
    {
      if |cart| == 0 {
        blocks := [];
        shownTotal := Some(0);
        shownCount := 0;
        return;
      }
      var total: Option<int> := Some(0);
      var count := 0;
      var acc: seq<string> := [];
      for i := 0 to |cart|
        invariant total == CartSum(cart[..i])
        invariant count == CartCount(cart[..i])
        invariant acc == Barcodes(cart[..i])
      {
        assert cart[..i + 1][..i] == cart[..i];
        var t := cart[i].item.total;
        total := if total.Some? && t.Some? then Some(total.value + t.value) else None;
        count := count + cart[i].item.qty;
        acc := acc + [cart[i].barcode];
      }
      assert cart[..|cart|] == cart;
      blocks := acc;
      shownTotal := total;
      shownCount := count;
    }

    /** showMessage: fills and shows the message box. */
    method ShowMessage(kind: Kind, title: string, message: Message)
      modifies this`notices, this`messageVisible
      ensures notices == old(notices) + [Notice(kind, title, message)] && messageVisible
    {
      notices := notices + [Notice(kind, title, message)];
      messageVisible := true;
    }

    method HideMessageModal()
      modifies this`messageVisible
      ensures !messageVisible
    {
      messageVisible := false;
    }

    /**
      clearCart: a declined confirm sends nothing. A confirmed one posts
      /cart/clear; any readable reply, whatever its status, gives the success
      box with result.message and a cart reload; a failed fetch gives the error box.
    */
    method ClearCart(confirmed: bool, reply: Fetched<Option<string>>)
      modifies this`effects, this`notices, this`messageVisible
      ensures !confirmed ==> effects == old(effects) && notices == old(notices) && messageVisible == old(messageVisible)
      ensures confirmed ==> messageVisible
      ensures confirmed && reply.Answered? ==>
        && effects == old(effects) + [Send(Request(Post, CartClearPath, NoBody)), ReadCart]
        && notices == old(notices) + [Notice(Success, OkTitle, Text(reply.body))]
      ensures confirmed && reply.Unreachable? ==>
        && effects == old(effects) + [Send(Request(Post, CartClearPath, NoBody))]
        && notices == old(notices) + [Notice(Failure, ErrorTitle, Says(ClearFailedText))]
    {
      if !confirmed {
        return;
      }
      effects := effects + [Send(Request(Post, CartClearPath, NoBody))];
      match reply
      case Answered(_, message) =>
        ShowMessage(Success, OkTitle, Text(message));
        LoadCart();
      case Unreachable =>
        ShowMessage(Failure, ErrorTitle, Says(ClearFailedText));
    }

    /**
      checkout: an ok status gives the order-created box and a cart reload; an
      error status gives result.error and no reload; a failed fetch gives the
      default error text.
    */
    method Checkout(reply: Fetched<CheckoutResult>)
      modifies this`effects, this`notices, this`messageVisible
      ensures reply.Answered? && reply.ok ==>
        && effects == old(effects) + [Send(Request(Post, CheckoutPath, NoBody)), ReadCart]
        && notices == old(notices) + [Notice(Success, OkTitle, OrderCreated(reply.body.orderId))]
      ensures reply.Answered? && !reply.ok ==>
        && effects == old(effects) + [Send(Request(Post, CheckoutPath, NoBody))]
        && notices == old(notices) + [Notice(Failure, ErrorTitle, Text(reply.body.error))]
      ensures reply.Unreachable? ==>
        && effects == old(effects) + [Send(Request(Post, CheckoutPath, NoBody))]
        && notices == old(notices) + [Notice(Failure, ErrorTitle, Says(CheckoutFailedText))]
      ensures messageVisible
    {
      effects := effects + [Send(Request(Post, CheckoutPath, NoBody))];
      match reply
      case Answered(ok, result) =>
        if ok {
          ShowMessage(Success, OkTitle, OrderCreated(result.orderId));
          LoadCart();
        } else {
          ShowMessage(Failure, ErrorTitle, Text(result.error));
        }
      case Unreachable =>
        ShowMessage(Failure, ErrorTitle, Says(CheckoutFailedText));
    }

    /**
      showProductModal: with a product the form is filled from it and the modal
      edits that id; without one the form is reset and the modal adds.
    */
    method ShowProductModal(product: Option<ProductJs>)
      modifies this`form, this`currentProductId, this`productModalVisible
      ensures productModalVisible
      ensures product.Some? ==>
        && currentProductId == Some(product.value.id)
        && form == ItemForm(Typed(product.value.barcode), Typed(product.value.name), Numeric(product.value.price))
      ensures product.None? ==> currentProductId == None && form == BlankForm
    {
      match product {
        case Some(p) =>
          form := ItemForm(Typed(p.barcode), Typed(p.name), Numeric(p.price));
          currentProductId := Some(p.id);
        case None =>
          form := BlankForm;
          currentProductId := None;
      }
      productModalVisible := true;
    }

    /** hideProductModal: hides the modal and always forgets the id. */
    method HideProductModal()
      modifies this`productModalVisible, this`currentProductId
      ensures !productModalVisible && currentProductId == None
    {
      productModalVisible := false;
      currentProductId := None;
    }

    /**
      saveProduct: sends SaveRequest for the current id and form. On an ok
      status it closes the modal, reloads the list and reports with SaveText of
      the id as it is after the close, which is always the add text. An error
      status reports error.error; a failed fetch or unreadable error body
      reports the default text.
    */
    method SaveProduct(reply: Fetched<Option<string>>)
      modifies this`effects, this`notices, this`messageVisible, this`productModalVisible, this`currentProductId
      ensures reply.Answered? && reply.ok ==>
        && effects == old(effects) + [SaveRequest(old(currentProductId), form), ReadProducts]
        && notices == old(notices) + [Notice(Success, OkTitle, Says(AddedText))]
        && !productModalVisible && currentProductId == None
      ensures reply.Answered? && !reply.ok ==>
        && effects == old(effects) + [SaveRequest(old(currentProductId), form)]
        && notices == old(notices) + [Notice(Failure, ErrorTitle, Text(reply.body))]
        && productModalVisible == old(productModalVisible) && currentProductId == old(currentProductId)
      ensures reply.Unreachable? ==>
        && effects == old(effects) + [SaveRequest(old(currentProductId), form)]
        && notices == old(notices) + [Notice(Failure, ErrorTitle, Says(SaveFailedText))]
        && productModalVisible == old(productModalVisible) && currentProductId == old(currentProductId)
      ensures messageVisible
    {
      effects := effects + [SaveRequest(currentProductId, form)];
      match reply
      case Answered(ok, error) =>
        if ok {
          HideProductModal();
          effects := effects + [ReadProducts];
          ShowMessage(Success, OkTitle, Says(SaveText(currentProductId)));
        } else {
          ShowMessage(Failure, ErrorTitle, Text(error));
        }
      case Unreachable =>
        ShowMessage(Failure, ErrorTitle, Says(SaveFailedText));
    }

    /**
      editProduct: fetches the product list and opens the modal on the first
      product with the id; nothing happens when none has it or the fetch fails.
    */
    method EditProduct(productId: int, products: Option<seq<ProductJs>>)
      modifies this`effects, this`form, this`currentProductId, this`productModalVisible
      ensures effects == old(effects) + [ReadProducts]
      ensures products.Some? && FindProduct(products.value, productId).Some? ==>
        && productModalVisible
        && currentProductId == Some(productId)
        && form == ItemForm(Typed(FindProduct(products.value, productId).value.barcode),
                            Typed(FindProduct(products.value, productId).value.name),
                            Numeric(FindProduct(products.value, productId).value.price))
      ensures products.None? || FindProduct(products.value, productId).None? ==>
        form == old(form) && currentProductId == old(currentProductId) && productModalVisible == old(productModalVisible)
    {
      effects := effects + [ReadProducts];
      if products.None? {
        return;
      }
      var product := FindProduct(products.value, productId);
      if product.Some? {
        ShowProductModal(product);
      }
    }
  }

  /** Editing a listed product and saving it: a PUT goes out, yet the box says the product was added. */
  method EditThenSaveScenario(p: ProductJs)
    requires p.id != 0
  {
    var page := new BarcodeSystem();
    page.EditProduct(p.id, Some([p]));
    assert page.currentProductId == Some(p.id);
    page.SaveProduct(Answered(true, None));
    assert page.effects[3].request.verb == Put;
    assert page.notices[|page.notices| - 1].message == Says(AddedText);
  }
}
