/**
  BarcodeScanner (services/barcode_scanner.py): the camera switch, the scan
  cooldown and the cart that scanned products go into. The camera device and
  the barcode decoder are outside the model: whether the camera opens is a
  parameter, and a frame is given as the list of symbols decoded from it.
*/
module Scanner {
  import opened Wrappers
  import opened CartModel

  /** self.cap: None, or a cv2.VideoCapture that did or did not open. */
  datatype Camera = NoCamera | Capture(isOpened: bool)

  /** One symbol decoded from a frame, with the clock reading taken when it is examined. */
  datatype Decoded = Decoded(data: string, now: int)

  /** The message of the RuntimeError raised when the camera does not open. */
  const CameraError: string := "Không mở được camera"

  /** The default cooldown between two accepted scans, 1.5 s, in milliseconds. */
  const DefaultCooldown: int := 1500

  /** A decoded symbol is taken when the cooldown has passed and its product exists. */
  predicate Takes(d: Decoded, lastScan: int, cooldown: int, catalog: map<string, Product>) {
    d.now - lastScan >= cooldown && d.data in catalog
  }

  /** The position of the first symbol of the frame that scan_barcodes takes, if any. */
  function FirstHit(frame: seq<Decoded>, lastScan: int, cooldown: int, catalog: map<string, Product>): (r: Option<nat>)
    ensures r.Some? ==>
      && r.value < |frame|
      && Takes(frame[r.value], lastScan, cooldown, catalog)
      && forall j :: 0 <= j < r.value ==> !Takes(frame[j], lastScan, cooldown, catalog)
    ensures r.None? ==> forall j :: 0 <= j < |frame| ==> !Takes(frame[j], lastScan, cooldown, catalog)
  {
    if frame == [] then None
    else if Takes(frame[0], lastScan, cooldown, catalog) then Some(0)
    else match FirstHit(frame[1..], lastScan, cooldown, catalog)
      case None => None
      case Some(i) => Some(i + 1)
  }

  class BarcodeScanner {
    const cameraIndex: int
    const cooldown: int
    var cap: Camera
    var isScanning: bool
    var lastScan: int
    var cart: Cart

    /** The cart invariant, and: while scanning, the capture is the one that opened. */
    ghost predicate Valid()
      reads this
    {
      CartModel.Valid(cart) && (isScanning ==> cap == Capture(true))
    }

    constructor (cameraIndex: int, cooldown: int)
      ensures Valid()
      ensures this.cameraIndex == cameraIndex && this.cooldown == cooldown
      ensures cap == NoCamera && !isScanning && lastScan == 0 && cart == Empty()
    {
      this.cameraIndex := cameraIndex;
      this.cooldown := cooldown;
      cap := NoCamera;
      isScanning := false;
      lastScan := 0;
      cart := Empty();
    }

    /**
      start: does nothing while scanning; otherwise opens the capture and either
      starts scanning or raises, leaving the unopened capture in `cap`.
      `opens` says whether the device opened.
    */
    method Start(opens: bool) returns (r: Outcome<string>)
      requires Valid()
      modifies this
      ensures Valid()
      ensures old(isScanning) ==> r == Pass && isScanning && cap == old(cap)
      ensures !old(isScanning) ==>
        && cap == Capture(opens)
        && isScanning == opens
        && r == (if opens then Pass else Fail(CameraError))
      ensures cart == old(cart) && lastScan == old(lastScan)
    {
      r := Pass;
      if !isScanning {
        cap := Capture(opens);
        if !cap.isOpened {
          return Fail(CameraError);
        }
        isScanning := true;
      }
    }

    /** stop: a no-op when not scanning; otherwise stops scanning and releases the capture. */
    method Stop()
      requires Valid()
      modifies this
      ensures Valid()
      ensures !isScanning
      ensures old(isScanning) ==> cap == NoCamera
      ensures !old(isScanning) ==> cap == old(cap)
      ensures cart == old(cart) && lastScan == old(lastScan)
    {
      if isScanning {
        isScanning := false;
        if cap != NoCamera {
          cap := NoCamera;
        }
      }
    }

    /**
      scan_barcodes: skips symbols read within the cooldown of the last accepted
      scan and symbols with no product; the first remaining one is added to the
      cart, stamps the scan time and is returned with its product name. With no
      such symbol nothing changes and (None, None) is returned.
    */
    method ScanBarcodes(frame: seq<Decoded>, catalog: map<string, Product>) returns (barcode: Option<string>, name: Option<string>)
      requires Valid()
      modifies this
      ensures Valid()
      ensures cap == old(cap) && isScanning == old(isScanning)
      ensures var hit := FirstHit(frame, old(lastScan), cooldown, catalog);
        if hit.None? then
          barcode == None && name == None && cart == old(cart) && lastScan == old(lastScan)
        else
          var d := frame[hit.value];
          && barcode == Some(d.data)
          && name == Some(catalog[d.data].name)
          && cart == Add(old(cart), d.data, catalog[d.data])
          && lastScan == d.now
    {
      var i := 0;
      while i < |frame|
        invariant 0 <= i <= |frame|
        invariant forall j :: 0 <= j < i ==> !Takes(frame[j], lastScan, cooldown, catalog)
        invariant cart == old(cart) && lastScan == old(lastScan)
        invariant cap == old(cap) && isScanning == old(isScanning)
      {
        var d := frame[i];
        if d.now - lastScan < cooldown {
          i := i + 1;
          continue;
        }
        if d.data in catalog {
          var product := catalog[d.data];
          AddToCart(d.data, product);
          lastScan := d.now;
          return Some(d.data), Some(product.name);
        }
        i := i + 1;
      }
      return None, None;
    }

    /** _add_to_cart, step by step as the source updates the dict in place. */
    method AddToCart(barcode: string, product: Product)
      requires Valid()
      modifies this
      ensures Valid()
      ensures cart == Add(old(cart), barcode, product)
      ensures cap == old(cap) && isScanning == old(isScanning) && lastScan == old(lastScan)
    {
      if barcode in cart.items {
        var entry := cart.items[barcode];
        cart := cart.(items := cart.items[barcode := entry.(qty := entry.qty + 1)]);
      } else {
        // the new entry has no total yet; the next step sets it
        cart := Cart(cart.keys + [barcode], cart.items[barcode := Item(product.id, product.name, product.price, 1, 0)]);
      }
      var entry := cart.items[barcode];
      cart := cart.(items := cart.items[barcode := entry.(total := entry.qty * entry.price)]);
    }

    /** update_quantity */
    method UpdateQuantity(barcode: string, qty: int)
      requires Valid()
      modifies this
      ensures Valid()
      ensures cart == SetQuantity(old(cart), barcode, qty)
      ensures cap == old(cap) && isScanning == old(isScanning) && lastScan == old(lastScan)
    {
      if barcode !in cart.items {
        return;
      }
      if qty > 0 {
        var entry := cart.items[barcode];
        cart := cart.(items := cart.items[barcode := entry.(qty := qty)]);
        cart := cart.(items := cart.items[barcode := cart.items[barcode].(total := qty * entry.price)]);
      } else {
        RemoveItem(barcode);
      }
    }

    /** remove_item: cart.pop(barcode, None). */
    method RemoveItem(barcode: string)
      requires Valid()
      modifies this
      ensures Valid()
      ensures cart == Remove(old(cart), barcode)
      ensures cap == old(cap) && isScanning == old(isScanning) && lastScan == old(lastScan)
    {
      cart := Cart(Without(cart.keys, barcode), cart.items - {barcode});
    }

    /** clear_cart: cart.clear(). */
    method ClearCart()
      requires Valid()
      modifies this
      ensures Valid()
      ensures cart.items == map[] && cart.keys == []
      ensures cap == old(cap) && isScanning == old(isScanning) && lastScan == old(lastScan)
    {
      cart := Empty();
    }

    /** get_cart: the cart itself, not a copy. */
    function GetCart(): (c: Cart)
      reads this
      ensures c == cart
    {
      cart
    }
  }

  /** Scanning the same product twice within the cooldown adds it once. */
  method CooldownScenario(catalog: map<string, Product>, b: string)
    requires b in catalog
  {
    var s := new BarcodeScanner(1, DefaultCooldown);
    var hit, name := s.ScanBarcodes([Decoded(b, 5000)], catalog);
    assert hit == Some(b);
    assert s.cart.items[b].qty == 1;
    hit, name := s.ScanBarcodes([Decoded(b, 5400)], catalog);
    assert hit == None;
    assert s.cart.items[b].qty == 1;
    hit, name := s.ScanBarcodes([Decoded(b, 6500)], catalog);
    assert s.cart.items[b].qty == 2 && s.cart.items[b].total == 2 * catalog[b].price;
  }
}
