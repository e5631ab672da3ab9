/**
  OrderSystem (static/js/order.js): the order page. It polls the server cart
  while the camera stream is showing, issues the cart commands, and ties the
  new-order modal to the camera. Each async method is one step whose awaited
  replies are parameters; the reply to a GET /cart that a method only starts is
  delivered later through UpdateCartDisplay.
*/
module OrderPage {
  import opened Wrappers
  import opened Browser

  /** The modal bound to the camera. */
  const NewOrderModal: string := "orderNewModal"

  const CheckoutOkTitle: string := "Thanh toán thành công!"
  const CheckoutFailTitle: string := "Thanh toán thất bại!"
  const CheckoutFailText: string := "Vui lòng thử lại sau."

  /** item.total || 0 */
  function LineTotal(it: JsItem): int {
    match it.total
    case Some(t) => t
    case None => 0
  }

  /** The grand total the cart table shows: the sum of the line totals, 0 for no entries. */
  function ShownTotal(entries: seq<JsEntry>): int {
    if entries == [] then 0
    else ShownTotal(entries[..|entries| - 1]) + LineTotal(entries[|entries| - 1].item)
  }

  /** The PUT /cart/update/{barcode} request with body {qty}. */
  function UpdateRequest(barcode: string, qty: int): Effect {
    Send(Request(Put, CartUpdatePath(barcode), QtyBody(qty)))
  }

  /** The DELETE /cart/remove/{barcode} request. */
  function RemoveRequest(barcode: string): Effect {
    Send(Request(Delete, CartRemovePath(barcode), NoBody))
  }

  class OrderSystem {
    /** The modal ids present in the page. */
    const modals: set<string>
    /** Whether the page has the #video-feed element. */
    const hasVideo: bool
    /** Whether the page has the cart table and its total element. */
    const hasCartView: bool

    /** The cart-refresh interval handle, null when none. */
    var cartInterval: Option<nat>
    /** The next handle setInterval hands out; handles are positive, hence truthy. */
    var nextTimer: nat
    /** How many cart-refresh intervals the browser is running. */
    ghost var runningTimers: nat

    var visible: set<string>
    /** Modals that got a backdrop click listener from showModal. */
    var listening: set<string>
    var videoSrc: VideoSrc
    /** Whether startCamera installed onload/onerror on the video element. */
    var videoHooked: bool

    /** The barcodes of the rows in the cart table, and the total shown under it. */
    var rows: seq<string>
    var shownTotal: int

    ghost var effects: seq<Effect>
    ghost var notices: seq<Notice>

    /** No interval runs that the page cannot stop: the one running is the one held. */
    ghost predicate Valid()
      reads this
    {
      && nextTimer >= 1
      && runningTimers == (if cartInterval.Some? then 1 else 0)
      && (cartInterval.Some? ==> 1 <= cartInterval.value < nextTimer)
    }

    /** The constructor and init(): loadCart and loadOrder each issue their GET. */
    constructor (modals: set<string>, hasVideo: bool, hasCartView: bool)
      ensures Valid()
      ensures this.modals == modals && this.hasVideo == hasVideo && this.hasCartView == hasCartView
      ensures cartInterval == None && runningTimers == 0
      ensures visible == {} && listening == {} && videoSrc == NoFeed && !videoHooked
      ensures effects == [ReadCart, Send(Request(Get, OrdersPath, NoBody))] && notices == []
    {
      this.modals := modals;
      this.hasVideo := hasVideo;
      this.hasCartView := hasCartView;
      cartInterval := None;
      nextTimer := 1;
      runningTimers := 0;
      visible := {};
      listening := {};
      videoSrc := NoFeed;
      videoHooked := false;
      rows := [];
      shownTotal := 0;
      effects := [ReadCart, Send(Request(Get, OrdersPath, NoBody))];
      notices := [];
    }

    /** startCartAutoRefresh: starts the interval unless one is already held. */
    method StartCartAutoRefresh()
      requires Valid()
      modifies this`cartInterval, this`nextTimer, this`runningTimers
      ensures Valid()
      ensures cartInterval.Some? && runningTimers == 1
      ensures old(cartInterval).Some? ==> cartInterval == old(cartInterval) && nextTimer == old(nextTimer)
    {
      if cartInterval.Some? {
        return;
      }
      cartInterval := Some(nextTimer);
      nextTimer := nextTimer + 1;
      runningTimers := runningTimers + 1;
    }

    /** stopCartAutoRefresh: clears the held interval, if any, and forgets it. */
    method StopCartAutoRefresh()
      requires Valid()
      modifies this`cartInterval, this`runningTimers
      ensures Valid()
      ensures cartInterval == None && runningTimers == 0
    {
      if cartInterval.Some? {
        runningTimers := runningTimers - 1;
        cartInterval := None;
      }
    }

    /** loadCart: issues GET /cart; its reply is handled by UpdateCartDisplay. */
    method LoadCart()
      modifies this`effects
      ensures effects == old(effects) + [ReadCart]
    {
      effects := effects + [ReadCart];
    }

    /**
      updateCartDisplay: a null or empty cart shows no rows and total 0; otherwise
      one row per key and the sum of the line totals, a missing total counting 0.
    */
    method UpdateCartDisplay(cart: Option<seq<JsEntry>>)
      modifies this`rows, this`shownTotal
      ensures hasCartView ==>
        && rows == (if cart.Some? then Barcodes(cart.value) else [])
        && shownTotal == (if cart.Some? then ShownTotal(cart.value) else 0)
      ensures !hasCartView ==> rows == old(rows) && shownTotal == old(shownTotal)
    {
      if !hasCartView {
        return;
      }
      if cart.None? || |cart.value| == 0 {
        rows := [];
        shownTotal := 0;
        return;
      }
      var entries := cart.value;
      var total := 0;
      var acc: seq<string> := [];
      for i := 0 to |entries|
        invariant total == ShownTotal(entries[..i])
        invariant acc == Barcodes(entries[..i])
      {
        assert entries[..i + 1][..i] == entries[..i];
        total := total + LineTotal(entries[i].item);
        acc := acc + [entries[i].barcode];
      }
      assert entries[..|entries|] == entries;
      rows := acc;
      shownTotal := total;
    }

    /**
      updateQty: a quantity of zero or less only removes the item; otherwise one
      PUT with the new quantity and, once it resolves, a cart reload. Nothing in
      the page changes before the reload's reply.
    */
    method UpdateQty(barcode: string, qty: int, ok: bool)
      modifies this`effects
      ensures qty <= 0 ==> effects == old(effects) + [RemoveRequest(barcode)] + (if ok then [ReadCart] else [])
      ensures qty > 0 ==> effects == old(effects) + [UpdateRequest(barcode, qty)] + (if ok then [ReadCart] else [])
    {
      if qty <= 0 {
        RemoveItem(barcode, ok);
        return;
      }
      effects := effects + [UpdateRequest(barcode, qty)];
      if ok {
        LoadCart();
      }
    }

    /** removeItem: DELETE and, once it resolves, a cart reload. */
    method RemoveItem(barcode: string, ok: bool)
      modifies this`effects
      ensures effects == old(effects) + [RemoveRequest(barcode)] + (if ok then [ReadCart] else [])
    {
      effects := effects + [RemoveRequest(barcode)];
      if ok {
        LoadCart();
      }
    }

    /** exportInvoicePDF: fetches the invoice; building the PDF is not modelled. */
    method ExportInvoicePdf(orderId: int)
      modifies this`effects
      ensures effects == old(effects) + [Send(Request(Get, InvoicePath(orderId), NoBody))]
    {
      effects := effects + [Send(Request(Get, InvoicePath(orderId), NoBody))];
    }

    /**
      checkout: a truthy order_id gives a success toast, an invoice export and a
      cart reload; a resolved reply without one gives a failure toast and nothing
      else. A rejected request (any error status, such as 400 for an empty cart)
      ends the method with no toast at all.
    */
    method Checkout(reply: Reply<Option<int>>)
      modifies this`effects, this`notices
      ensures reply.Rejected? ==>
        effects == old(effects) + [Send(Request(Post, CheckoutPath, NoBody))] && notices == old(notices)
      ensures reply.Resolved? && TruthyNumber(reply.body) ==>
        && effects == old(effects) + [Send(Request(Post, CheckoutPath, NoBody)),
                                      Send(Request(Get, InvoicePath(reply.body.value), NoBody)), ReadCart]
        && notices == old(notices) + [Notice(Success, CheckoutOkTitle, OrderCreated(reply.body))]
      ensures reply.Resolved? && !TruthyNumber(reply.body) ==>
        && effects == old(effects) + [Send(Request(Post, CheckoutPath, NoBody))]
        && notices == old(notices) + [Notice(Failure, CheckoutFailTitle, Says(CheckoutFailText))]
    {
      effects := effects + [Send(Request(Post, CheckoutPath, NoBody))];
      if reply.Rejected? {
        return;
      }
      var orderId := reply.body;
      if TruthyNumber(orderId) {
        notices := notices + [Notice(Success, CheckoutOkTitle, OrderCreated(orderId))];
        ExportInvoicePdf(orderId.value);
        LoadCart();
      } else {
        notices := notices + [Notice(Failure, CheckoutFailTitle, Says(CheckoutFailText))];
      }
    }

    /**
      clearCartAndClose: a declined confirm does nothing; a confirmed one posts
      /cart/clear and, once that resolves, reloads the cart, closes the modal
      without a second clear and reloads the page.
    */
    method ClearCartAndClose(modalId: string, confirmed: bool, clearOk: bool, stopOk: bool)
      requires Valid()
      modifies this`effects, this`visible, this`videoSrc, this`cartInterval, this`runningTimers
      ensures Valid()
      ensures !confirmed ==>
        && effects == old(effects) && visible == old(visible)
        && cartInterval == old(cartInterval) && videoSrc == old(videoSrc)
      ensures confirmed && !clearOk ==>
        && effects == old(effects) + [Send(Request(Post, CartClearPath, NoBody))]
        && visible == old(visible) && cartInterval == old(cartInterval) && videoSrc == old(videoSrc)
      ensures confirmed && clearOk ==>
        && visible == old(visible) - (if modalId in modals then {modalId} else {})
        && effects == old(effects) + [Send(Request(Post, CartClearPath, NoBody)), ReadCart]
                      + (if modalId in modals && modalId == NewOrderModal then [StopCameraRequest] else [])
                      + [Reload]
      ensures confirmed && clearOk && modalId in modals && modalId == NewOrderModal ==>
        && (stopOk ==> cartInterval == None && runningTimers == 0 && (hasVideo ==> videoSrc == NoFeed))
        && (!stopOk ==> cartInterval == old(cartInterval) && runningTimers == old(runningTimers) && videoSrc == old(videoSrc))
      ensures confirmed && clearOk && !(modalId in modals && modalId == NewOrderModal) ==>
        cartInterval == old(cartInterval) && videoSrc == old(videoSrc)
    {
      if !confirmed {
        return;
      }
      effects := effects + [Send(Request(Post, CartClearPath, NoBody))];
      if !clearOk {
        return;
      }
      LoadCart();
      var threw := HideModal(modalId, true, stopOk);
      effects := effects + [Reload];
    }

    /**
      startCamera: posts /camera/start; once that resolves, installs the video
      handlers and points the video element at the stream. Cart polling starts
      only from the load event.
    */
    method StartCamera(startOk: bool)
      modifies this`effects, this`videoSrc, this`videoHooked
      ensures effects == old(effects) + [Send(Request(Post, CameraStartPath, NoBody))]
      ensures startOk && hasVideo ==> videoHooked && videoSrc == Feed
      ensures !(startOk && hasVideo) ==> videoHooked == old(videoHooked) && videoSrc == old(videoSrc)
    {
      effects := effects + [Send(Request(Post, CameraStartPath, NoBody))];
      if !startOk {
        return;
      }
      if hasVideo {
        videoHooked := true;
        videoSrc := Feed;
      }
    }

    /** The video element's onload: starts cart polling. */
    method OnVideoLoad()
      requires Valid()
      modifies this`cartInterval, this`nextTimer, this`runningTimers
      ensures Valid()
      ensures videoHooked ==> cartInterval.Some? && runningTimers == 1
      ensures !videoHooked ==> cartInterval == old(cartInterval)
    {
      if videoHooked {
        StartCartAutoRefresh();
      }
    }

    /** The video element's onerror: clears the source and starts no polling. */
    method OnVideoError()
      modifies this`videoSrc
      ensures videoHooked ==> videoSrc == NoFeed
      ensures !videoHooked ==> videoSrc == old(videoSrc)
    {
      if videoHooked {
        videoSrc := NoFeed;
      }
    }

    /**
      stopCamera: posts /camera/stop; only once that resolves does it clear the
      video source and stop cart polling, so a rejected stop leaves polling on.
    */
    method StopCamera(stopOk: bool)
      requires Valid()
      modifies this`effects, this`videoSrc, this`cartInterval, this`runningTimers
      ensures Valid()
      ensures effects == old(effects) + [StopCameraRequest]
      ensures stopOk ==> cartInterval == None && runningTimers == 0 && (hasVideo ==> videoSrc == NoFeed)
      ensures !stopOk ==> cartInterval == old(cartInterval) && runningTimers == old(runningTimers) && videoSrc == old(videoSrc)
    {
      effects := effects + [StopCameraRequest];
      if !stopOk {
        return;
      }
      if hasVideo {
        videoSrc := NoFeed;
      }
      StopCartAutoRefresh();
    }

    /** showModal: shows a modal present in the page and starts the camera for the new-order modal only. */
    method ShowModal(modalId: string, startOk: bool)
      modifies this`visible, this`listening, this`effects, this`videoSrc, this`videoHooked
      ensures modalId !in modals ==>
        visible == old(visible) && listening == old(listening) && effects == old(effects) && videoSrc == old(videoSrc)
      ensures modalId in modals ==>
        && visible == old(visible) + {modalId}
        && listening == old(listening) + {modalId}
        && effects == old(effects) + (if modalId == NewOrderModal then [Send(Request(Post, CameraStartPath, NoBody))] else [])
      ensures modalId in modals && modalId == NewOrderModal && startOk && hasVideo ==> videoHooked && videoSrc == Feed
      ensures !(modalId in modals && modalId == NewOrderModal && startOk && hasVideo) ==>
        videoSrc == old(videoSrc) && videoHooked == old(videoHooked)
    {
      if modalId !in modals {
        return;
      }
      visible := visible + {modalId};
      if modalId == NewOrderModal {
        StartCamera(startOk);
      }
      listening := listening + {modalId};
    }

    /**
      hideModal: hides a modal present in the page; for the new-order modal it
      always stops the camera, and without skipClear it then calls this.clearCart,
      which OrderSystem does not define: the call throws a TypeError (`threw`)
      and no clear request is sent.
    */
    method HideModal(modalId: string, skipClear: bool, stopOk: bool) returns (threw: bool)
      requires Valid()
      modifies this`visible, this`effects, this`videoSrc, this`cartInterval, this`runningTimers
      ensures Valid()
      ensures modalId !in modals ==>
        !threw && visible == old(visible) && effects == old(effects) && cartInterval == old(cartInterval) && videoSrc == old(videoSrc)
      ensures modalId in modals ==> visible == old(visible) - {modalId}
      ensures modalId in modals && modalId == NewOrderModal ==>
        && effects == old(effects) + [StopCameraRequest]
        && (stopOk ==> cartInterval == None && runningTimers == 0 && (hasVideo ==> videoSrc == NoFeed))
        && (!stopOk ==> cartInterval == old(cartInterval) && runningTimers == old(runningTimers) && videoSrc == old(videoSrc))
        && threw == !skipClear
      ensures modalId in modals && modalId != NewOrderModal ==>
        !threw && effects == old(effects) && cartInterval == old(cartInterval) && videoSrc == old(videoSrc)
    {
      threw := false;
      if modalId !in modals {
        return;
      }
      visible := visible - {modalId};
      if modalId == NewOrderModal {
        StopCamera(stopOk);
        if !skipClear {
          threw := true;
        }
      }
    }

    /** The backdrop listener showModal installs: a click closes the modal only when its target is the modal itself. */
    method OnModalClick(modalId: string, targetIsModal: bool, stopOk: bool) returns (threw: bool)
      requires Valid()
      modifies this`visible, this`effects, this`videoSrc, this`cartInterval, this`runningTimers
      ensures Valid()
      ensures !(targetIsModal && modalId in listening && modalId in modals) ==>
        && !threw && visible == old(visible) && effects == old(effects)
        && cartInterval == old(cartInterval) && videoSrc == old(videoSrc)
      ensures targetIsModal && modalId in listening && modalId in modals ==> visible == old(visible) - {modalId}
      ensures targetIsModal && modalId in listening && modalId in modals && modalId == NewOrderModal ==>
        && effects == old(effects) + [StopCameraRequest]
        && (stopOk ==> cartInterval == None && runningTimers == 0 && (hasVideo ==> videoSrc == NoFeed))
        && (!stopOk ==> cartInterval == old(cartInterval) && runningTimers == old(runningTimers) && videoSrc == old(videoSrc))
        && threw
      ensures targetIsModal && modalId in listening && modalId in modals && modalId != NewOrderModal ==>
        !threw && effects == old(effects) && cartInterval == old(cartInterval) && videoSrc == old(videoSrc)
    {
      threw := false;
      if targetIsModal && modalId in listening {
        threw := HideModal(modalId, false, stopOk);
      }
    }
  }

  /** Opening the new-order modal twice and loading the stream twice still leaves one cart interval. */
  method DoubleOpenScenario()
  {
    var page := new OrderSystem({NewOrderModal}, true, true);
    page.ShowModal(NewOrderModal, true);
    page.OnVideoLoad();
    page.ShowModal(NewOrderModal, true);
    page.OnVideoLoad();
    assert page.runningTimers == 1;
    page.ClearCartAndClose(NewOrderModal, true, true, true);
    assert page.cartInterval == None && page.runningTimers == 0;
    assert NewOrderModal !in page.visible;
  }

  /** A stop request that is rejected leaves the cart interval running. */
  method RejectedStopScenario()
  {
    var page := new OrderSystem({NewOrderModal}, true, true);
    page.ShowModal(NewOrderModal, true);
    page.OnVideoLoad();
    var threw := page.HideModal(NewOrderModal, false, false);
    assert threw && page.runningTimers == 1 && page.cartInterval.Some?;
  }
}
