/**
  ProductSystem (static/js/product.js): the product page. While the new-product
  modal is open the camera runs and the page polls GET /get_barcode, writing a
  newly scanned barcode into the form.
*/
module ProductPage {
  import opened Wrappers
  import opened Browser

  /** The modal bound to the camera and the poll. */
  const NewProductModal: string := "newProductModal"

  /** The server message for a barcode that is already a product. */
  const DuplicateMessage: string := "Sản phẩm này đã tồn tại."

  const OkTitle: string := "Thành công"
  const ErrorTitle: string := "Lỗi"
  const ScannedText: string := "Đã quét mã mới"
  const AddedText: string := "Đã thêm sản phẩm mới"
  const AddFailedText: string := "Không thể thêm sản phẩm"

  /** The camera mode startCamera posts when called without one. */
  const DefaultMode: int := 2

  /** GET /get_barcode. */
  const PollRequest: Effect := Send(Request(Get, BarcodePath, NoBody))

  /** The JSON body of GET /get_barcode. */
  datatype BarcodeData = BarcodeData(success: bool, barcode: Option<string>, message: Option<string>)

  /** The four inputs of the new-product form. */
  datatype Form = Form(barcode: Field, name: Field, price: Field, stock: Field)

  const BlankForm: Form := Form(Blank, Blank, Blank, Blank)

  /** What getBarcode does with one poll reply. */
  datatype PollAction =
    | FillBarcode(barcode: string) // write into the form and toast
    | ReportDuplicate              // error toast, form untouched
    | LogOnly                      // console only
    | Skip                         // the barcode equals lastBarcode

  /** The branch getBarcode takes for reply d when lastBarcode holds `last`. */
  function Poll(last: Option<string>, d: BarcodeData): (a: PollAction)
    ensures a.FillBarcode? <==> d.success && TruthyText(d.barcode) && d.barcode != last
    ensures a.FillBarcode? ==> Some(a.barcode) == d.barcode
    ensures a.Skip? <==> d.success && TruthyText(d.barcode) && d.barcode == last
    ensures a.ReportDuplicate? <==> !(d.success && TruthyText(d.barcode)) && d.message == Some(DuplicateMessage)
  {
    if d.success && TruthyText(d.barcode) then
      if d.barcode != last then FillBarcode(d.barcode.value) else Skip
    else if d.message == Some(DuplicateMessage) then ReportDuplicate
    else LogOnly
  }

  /**
    As written, lastBarcode stays null, so a barcode still in front of the camera
    is written and announced again on every poll.
  */
  lemma RepeatNotSuppressed(d: BarcodeData)
    requires d.success && TruthyText(d.barcode)
    ensures Poll(None, d) == FillBarcode(d.barcode.value)
  {
  }

  /** The intended poll: remember the barcode just written, so the next identical reply is skipped. */
  function DedupPoll(last: Option<string>, d: BarcodeData): (r: (PollAction, Option<string>))
    ensures r.0 == Poll(last, d)
    ensures r.0.FillBarcode? ==> r.1 == Some(r.0.barcode)
    ensures !r.0.FillBarcode? ==> r.1 == last
  {
    var a := Poll(last, d);
    if a.FillBarcode? then (a, Some(a.barcode)) else (a, last)
  }

  /** With DedupPoll, two identical successful replies in a row announce the barcode once. */
  lemma DedupAnnouncesOnce(last: Option<string>, d: BarcodeData)
    requires d.success && TruthyText(d.barcode)
    ensures var (a1, l1) := DedupPoll(last, d);
            var (a2, l2) := DedupPoll(l1, d);
            !a2.FillBarcode? && l2 == l1 && l1 == d.barcode
  {
  }

  /** With DedupPoll, a different barcode is still announced after a repeat. */
  lemma DedupAnnouncesNew(last: Option<string>, d: BarcodeData, e: BarcodeData)
    requires d.success && TruthyText(d.barcode)
    requires e.success && TruthyText(e.barcode) && e.barcode != d.barcode
    ensures DedupPoll(DedupPoll(last, d).1, e).0 == FillBarcode(e.barcode.value)
  {
  }

  class ProductSystem {
    const modals: set<string>
    const hasVideo: bool

    var barcodeInterval: Option<nat>
    var nextTimer: nat
    ghost var runningTimers: nat
    /** Set to null by the constructor; no method assigns it. */
    var lastBarcode: Option<string>

    var visible: set<string>
    var listening: set<string>
    var videoSrc: VideoSrc
    var videoHooked: bool
    var form: Form

    ghost var effects: seq<Effect>
    ghost var notices: seq<Notice>

    ghost predicate Valid()
      reads this
    {
      && nextTimer >= 1
      && runningTimers == (if barcodeInterval.Some? then 1 else 0)
      && (barcodeInterval.Some? ==> 1 <= barcodeInterval.value < nextTimer)
    }

    /**
      The constructor and init(): loadProduct issues GET /products and the first
      getBarcode is polled at once; its reply is `firstPoll`.
    */
    constructor (modals: set<string>, hasVideo: bool, firstPoll: Reply<BarcodeData>)
      ensures Valid()
      ensures this.modals == modals && this.hasVideo == hasVideo
      ensures barcodeInterval == None && runningTimers == 0 && lastBarcode == None
      ensures visible == {} && listening == {} && videoSrc == NoFeed && !videoHooked
      ensures effects == [ReadProducts, PollRequest]
      ensures firstPoll.Rejected? ==> notices == [] && form == BlankForm
      ensures firstPoll.Resolved? && Poll(None, firstPoll.body).FillBarcode? ==>
        form.barcode == Typed(Poll(None, firstPoll.body).barcode)
    {
      this.modals := modals;
      this.hasVideo := hasVideo;
      barcodeInterval := None;
      nextTimer := 1;
      runningTimers := 0;
      lastBarcode := None;
      visible := {};
      listening := {};
      videoSrc := NoFeed;
      videoHooked := false;
      form := BlankForm;
      effects := [ReadProducts];
      notices := [];
      new;
      GetBarcode(firstPoll);
    }

    /** startBarcodeAutoRefresh: starts the poll unless a handle is held. */
    method StartBarcodeAutoRefresh()
      requires Valid()
      modifies this`barcodeInterval, this`nextTimer, this`runningTimers
      ensures Valid()
      ensures barcodeInterval.Some? && runningTimers == 1
      ensures old(barcodeInterval).Some? ==> barcodeInterval == old(barcodeInterval) && nextTimer == old(nextTimer)
    {
      if barcodeInterval.Some? {
        return;
      }
      barcodeInterval := Some(nextTimer);
      nextTimer := nextTimer + 1;
      runningTimers := runningTimers + 1;
    }

    /** stopBarcodeAutoRefresh: clears the held handle, if any, and forgets it. */
    method StopBarcodeAutoRefresh()
      requires Valid()
      modifies this`barcodeInterval, this`runningTimers
      ensures Valid()
      ensures barcodeInterval == None && runningTimers == 0
    {
      if barcodeInterval.Some? {
        runningTimers := runningTimers - 1;
        barcodeInterval := None;
      }
    }

    /**
      getBarcode: one poll. A rejected request (HTTP error or bad JSON) is not
      caught and changes nothing further; a reply is handled as Poll decides
      with the current lastBarcode.
    */
    method GetBarcode(reply: Reply<BarcodeData>)
      modifies this`effects, this`notices, this`form
      ensures effects == old(effects) + [PollRequest]
      ensures reply.Resolved? && Poll(lastBarcode, reply.body).FillBarcode? ==>
        && form == old(form).(barcode := Typed(Poll(lastBarcode, reply.body).barcode))
        && notices == old(notices) + [Notice(Success, OkTitle, Says(ScannedText))]
      ensures reply.Resolved? && Poll(lastBarcode, reply.body).ReportDuplicate? ==>
        form == old(form) && notices == old(notices) + [Notice(Failure, ErrorTitle, Says(DuplicateMessage))]
      ensures reply.Rejected? || Poll(lastBarcode, reply.body).LogOnly? || Poll(lastBarcode, reply.body).Skip? ==>
        form == old(form) && notices == old(notices)
    {
      effects := effects + [PollRequest];
      if reply.Rejected? {
        return;
      }
      var data := reply.body;
      if data.success && TruthyText(data.barcode) {
        if data.barcode != lastBarcode {
          form := form.(barcode := Typed(data.barcode.value));
          notices := notices + [Notice(Success, OkTitle, Says(ScannedText))];
        }
      } else if data.message == Some(DuplicateMessage) {
        notices := notices + [Notice(Failure, ErrorTitle, Says(DuplicateMessage))];
      }
    }

    /** clearProductForm: empties all four inputs. */
    method ClearProductForm()
      modifies this`form
      ensures form == BlankForm
    {
      form := BlankForm;
    }

    /**
      addProduct: posts the form. An ok status gives a success toast, closes the
      modal (stopping the camera), clears the form and reloads the list; an error
      status gives an error toast with the server's error text or a default and
      leaves the modal open; a failed fetch or unreadable body gives the default.
    */
    method AddProduct(reply: Fetched<Option<string>>, stopOk: bool)
      requires Valid()
      modifies this`effects, this`notices, this`form, this`visible, this`videoSrc, this`barcodeInterval, this`runningTimers
      ensures Valid()
      ensures reply.Unreachable? ==>
        && effects == old(effects) + [Send(Request(Post, ProductPath, NewProductBody(old(form).barcode, old(form).name, old(form).price, old(form).stock)))]
        && notices == old(notices) + [Notice(Failure, ErrorTitle, Says(AddFailedText))]
        && form == old(form) && visible == old(visible)
        && barcodeInterval == old(barcodeInterval) && runningTimers == old(runningTimers) && videoSrc == old(videoSrc)
      ensures reply.Answered? && !reply.ok ==>
        && effects == old(effects) + [Send(Request(Post, ProductPath, NewProductBody(old(form).barcode, old(form).name, old(form).price, old(form).stock)))]
        && notices == old(notices) + [Notice(Failure, ErrorTitle, Says(if TruthyText(reply.body) then reply.body.value else AddFailedText))]
        && form == old(form) && visible == old(visible)
        && barcodeInterval == old(barcodeInterval) && runningTimers == old(runningTimers) && videoSrc == old(videoSrc)
      ensures reply.Answered? && reply.ok ==>
        && effects == old(effects) + [Send(Request(Post, ProductPath, NewProductBody(old(form).barcode, old(form).name, old(form).price, old(form).stock)))]
                      + (if NewProductModal in modals then [StopCameraRequest] else []) + [ReadProducts]
        && notices == old(notices) + [Notice(Success, OkTitle, Says(AddedText))]
        && form == BlankForm
        && visible == old(visible) - (if NewProductModal in modals then {NewProductModal} else {})
      ensures reply.Answered? && reply.ok && NewProductModal in modals ==>
        && (stopOk ==> barcodeInterval == None && runningTimers == 0 && (hasVideo ==> videoSrc == NoFeed))
        && (!stopOk ==> barcodeInterval == old(barcodeInterval) && runningTimers == old(runningTimers) && videoSrc == old(videoSrc))
      ensures reply.Answered? && reply.ok && NewProductModal !in modals ==>
        barcodeInterval == old(barcodeInterval) && runningTimers == old(runningTimers) && videoSrc == old(videoSrc)
    {
      effects := effects + [Send(Request(Post, ProductPath, NewProductBody(form.barcode, form.name, form.price, form.stock)))];
      match reply
      case Unreachable =>
        notices := notices + [Notice(Failure, ErrorTitle, Says(AddFailedText))];
      case Answered(ok, error) =>
        if ok {
          notices := notices + [Notice(Success, OkTitle, Says(AddedText))];
          HideModal(NewProductModal, stopOk);
          ClearProductForm();
          effects := effects + [ReadProducts];
        } else {
          var text := if TruthyText(error) then error.value else AddFailedText;
          notices := notices + [Notice(Failure, ErrorTitle, Says(text))];
        }
    }

    /**
      startCamera(mode = 2): posts /camera/start/{mode}; once that resolves,
      installs the video handlers and points the video at the stream.
    */
    method StartCamera(mode: int, startOk: bool)
      modifies this`effects, this`videoSrc, this`videoHooked
      ensures effects == old(effects) + [Send(Request(Post, CameraStartModePath(mode), NoBody))]
      ensures startOk && hasVideo ==> videoHooked && videoSrc == Feed
      ensures !(startOk && hasVideo) ==> videoHooked == old(videoHooked) && videoSrc == old(videoSrc)
    {
      effects := effects + [Send(Request(Post, CameraStartModePath(mode), NoBody))];
      if !startOk {
        return;
      }
      if hasVideo {
        videoHooked := true;
        videoSrc := Feed;
      }
    }

    /** The video element's onload: starts barcode polling. */
    method OnVideoLoad()
      requires Valid()
      modifies this`barcodeInterval, this`nextTimer, this`runningTimers
      ensures Valid()
      ensures videoHooked ==> barcodeInterval.Some? && runningTimers == 1
      ensures !videoHooked ==> barcodeInterval == old(barcodeInterval)
    {
      if videoHooked {
        StartBarcodeAutoRefresh();
      }
    }

    /** The video element's onerror: clears the source and starts no polling. */
    method OnVideoError()
      modifies this`videoSrc
      ensures videoHooked ==> videoSrc == NoFeed
      ensures !videoHooked ==> videoSrc == old(videoSrc)
    {
      if videoHooked {
        videoSrc := NoFeed;
      }
    }

    /**
      stopCamera: posts /camera/stop; once that resolves it clears the video
      source and only then stops polling. A rejected stop leaves both as they were.
    */
    method StopCamera(stopOk: bool)
      requires Valid()
      modifies this`effects, this`videoSrc, this`barcodeInterval, this`runningTimers
      ensures Valid()
      ensures effects == old(effects) + [StopCameraRequest]
      ensures stopOk ==> barcodeInterval == None && runningTimers == 0 && (hasVideo ==> videoSrc == NoFeed)
      ensures !stopOk ==> barcodeInterval == old(barcodeInterval) && runningTimers == old(runningTimers) && videoSrc == old(videoSrc)
    {
      effects := effects + [StopCameraRequest];
      if !stopOk {
        return;
      }
      if hasVideo {
        videoSrc := NoFeed;
      }
      StopBarcodeAutoRefresh();
    }

    /** showModal: shows a modal present in the page; the new-product modal also starts the camera in mode 2. */
    method ShowModal(modalId: string, startOk: bool)
      modifies this`visible, this`listening, this`effects, this`videoSrc, this`videoHooked
      ensures modalId !in modals ==>
        visible == old(visible) && listening == old(listening) && effects == old(effects) && videoSrc == old(videoSrc)
      ensures modalId in modals ==>
        && visible == old(visible) + {modalId}
        && listening == old(listening) + {modalId}
        && effects == old(effects) + (if modalId == NewProductModal then [Send(Request(Post, CameraStartModePath(DefaultMode), NoBody))] else [])
      ensures modalId in modals && modalId == NewProductModal && startOk && hasVideo ==> videoHooked && videoSrc == Feed
      ensures !(modalId in modals && modalId == NewProductModal && startOk && hasVideo) ==>
        videoSrc == old(videoSrc) && videoHooked == old(videoHooked)
    {
      if modalId !in modals {
        return;
      }
      visible := visible + {modalId};
      if modalId == NewProductModal {
        StartCamera(DefaultMode, startOk);
      }
      listening := listening + {modalId};
    }

    /** hideModal: hides a modal present in the page; the new-product modal also stops the camera and clears the form. */
    method HideModal(modalId: string, stopOk: bool)
      requires Valid()
      modifies this`visible, this`effects, this`videoSrc, this`barcodeInterval, this`runningTimers, this`form
      ensures Valid()
      ensures modalId !in modals ==>
        visible == old(visible) && effects == old(effects) && barcodeInterval == old(barcodeInterval) && form == old(form) && videoSrc == old(videoSrc)
      ensures modalId in modals ==> visible == old(visible) - {modalId}
      ensures modalId in modals && modalId == NewProductModal ==>
        && effects == old(effects) + [StopCameraRequest]
        && form == BlankForm
        && (stopOk ==> barcodeInterval == None && runningTimers == 0 && (hasVideo ==> videoSrc == NoFeed))
        && (!stopOk ==> barcodeInterval == old(barcodeInterval) && runningTimers == old(runningTimers) && videoSrc == old(videoSrc))
      ensures modalId in modals && modalId != NewProductModal ==>
        effects == old(effects) && barcodeInterval == old(barcodeInterval) && form == old(form) && videoSrc == old(videoSrc)
    {
      if modalId !in modals {
        return;
      }
      visible := visible - {modalId};
      if modalId == NewProductModal {
        StopCamera(stopOk);
        ClearProductForm();
      }
    }

    /** The backdrop listener showModal installs. */
    method OnModalClick(modalId: string, targetIsModal: bool, stopOk: bool)
      requires Valid()
      modifies this`visible, this`effects, this`videoSrc, this`barcodeInterval, this`runningTimers, this`form
      ensures Valid()
      ensures !(targetIsModal && modalId in listening && modalId in modals) ==>
        && visible == old(visible) && effects == old(effects) && barcodeInterval == old(barcodeInterval)
        && form == old(form) && videoSrc == old(videoSrc)
      ensures targetIsModal && modalId in listening && modalId in modals ==> visible == old(visible) - {modalId}
      ensures targetIsModal && modalId in listening && modalId in modals && modalId == NewProductModal ==>
        && effects == old(effects) + [StopCameraRequest]
        && form == BlankForm
        && (stopOk ==> barcodeInterval == None && runningTimers == 0 && (hasVideo ==> videoSrc == NoFeed))
        && (!stopOk ==> barcodeInterval == old(barcodeInterval) && runningTimers == old(runningTimers) && videoSrc == old(videoSrc))
      ensures targetIsModal && modalId in listening && modalId in modals && modalId != NewProductModal ==>
        effects == old(effects) && barcodeInterval == old(barcodeInterval) && form == old(form) && videoSrc == old(videoSrc)
    {
      if targetIsModal && modalId in listening {
        HideModal(modalId, stopOk);
      }
    }
  }

  /** As written: the same barcode polled twice is written and announced twice. */
  method RepeatPollScenario(b: string)
    requires b != ""
  {
    var d := BarcodeData(true, Some(b), None);
    var page := new ProductSystem({NewProductModal}, true, Rejected);
    page.GetBarcode(Resolved(d));
    page.GetBarcode(Resolved(d));
    assert page.lastBarcode == None;
    assert |page.notices| == 2 && page.notices[0] == page.notices[1];
  }

  /** Opening the modal, loading the stream and closing with a resolved stop leaves no poll running. */
  method ModalCycleScenario()
  {
    var page := new ProductSystem({NewProductModal}, true, Rejected);
    page.ShowModal(NewProductModal, true);
    page.OnVideoLoad();
    page.OnVideoLoad();
    assert page.runningTimers == 1;
    page.HideModal(NewProductModal, true);
    assert page.barcodeInterval == None && page.runningTimers == 0 && page.form == BlankForm;
  }
}
