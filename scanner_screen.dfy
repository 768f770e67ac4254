/** The barcode scanner screen: what one scanned code does (nothing while a
    scan is being handled, a message for an unknown code or a failed
    lookup, a redirection to the product list for products with several
    presentations or sold by weight, otherwise a direct add of one unit),
    and the two flags that keep a second scan out until the reset timer. */
module BarcodeScanner {
  import opened JsValues
  import opened CartLedger
  import opened CartProvider
  import opened Catalog

  /** What the lookup by code gives back: a product, no product, or a
      failed request with its HTTP status and the backend's `error` field. */
  datatype Lookup =
    | Found(product: Product)
    | NoProduct
    | LookupFailed(status: Option<int>, dataError: Option<string>)

  /** How a scan ends. */
  datatype ScanResult =
    | Ignored
    | NotFound(message: string)
    | LookupError(message: string)
    | ManyPresentations
    | SoldByWeight
    | Added(candidate: Candidate)

  const NotFoundPrefix: string := "No se encontró un producto con el código: "
  const NotFoundByStatus: string := "Producto no encontrado con ese código de barras"
  const DefaultLookupError: string := "Error al buscar el producto"

  /** The alert text of a failed lookup: a 404 is an unknown code; any other
      failure shows the backend's error, or a fixed text when there is none. */
  function LookupErrorText(status: Option<int>, dataError: Option<string>): (r: string)
    ensures r != ""
    ensures status == Some(404) ==> r == NotFoundByStatus
    ensures status != Some(404) && dataError.Some? && dataError.value != "" ==> r == dataError.value
    ensures status != Some(404) && (dataError.None? || dataError.value == "") ==> r == DefaultLookupError
  {
    if status == Some(404) then NotFoundByStatus
    else if dataError.Some? && dataError.value != "" then dataError.value
    else DefaultLookupError
  }

  /** The line a scan adds: one unit of the default presentation (none when
      no presentation is marked default), at its price or the product's. */
  function DirectCandidate(product: Product): (c: Candidate)
    ensures c.quantity == 1.0
    ensures c.unitPrice == DefaultPrice(product) && c.basePrice == Some(c.unitPrice)
    ensures c.productId == product.id && c.productName == product.name
    ensures c.presentationId == IdOf(DefaultPresentation(product.presentations))
    ensures c.presentationName == NameOf(DefaultPresentation(product.presentations))
    ensures c.saleType == Some(NormalizedSaleType(product.saleType))
  {
    var presentation := DefaultPresentation(product.presentations);
    var base := OrOptional(UnitPriceOf(presentation), product.price);
    Candidate(product.id, product.name, IdOf(presentation), NameOf(presentation),
              1.0, base, Some(NormalizedSaleType(product.saleType)), Some(base))
  }

  /** The decision for a scan that is let through, in the order the screen
      tests: no product, several presentations, sold by weight, direct add;
      a failed request becomes its alert text. */
  function ScanDecision(code: string, lookup: Lookup): (r: ScanResult)
    ensures r != Ignored
    ensures r.NotFound? <==> lookup.NoProduct?
    ensures r.NotFound? ==> r.message == NotFoundPrefix + code
    ensures r.LookupError? <==> lookup.LookupFailed?
    ensures r.LookupError? ==> r.message == LookupErrorText(lookup.status, lookup.dataError)
    ensures r == ManyPresentations <==> lookup.Found? && |lookup.product.presentations| > 1
    ensures r == SoldByWeight <==>
      lookup.Found? && |lookup.product.presentations| <= 1 && IsGranel(lookup.product.saleType)
    ensures r.Added? <==>
      lookup.Found? && |lookup.product.presentations| <= 1 && !IsGranel(lookup.product.saleType)
    ensures r.Added? ==> r.candidate == DirectCandidate(lookup.product)
  {
    match lookup
    case NoProduct => NotFound(NotFoundPrefix + code)
    case LookupFailed(status, dataError) => LookupError(LookupErrorText(status, dataError))
    case Found(product) =>
      if |product.presentations| > 1 then ManyPresentations
      else if IsGranel(product.saleType) then SoldByWeight
      else Added(DirectCandidate(product))
  }

  /** A scanned line is always one piece at the price the product list
      shows for the product. */
  lemma ScannedLineIsOnePieceAtListPrice(code: string, lookup: Lookup)
    requires ScanDecision(code, lookup).Added?
    ensures lookup.Found?
    ensures ScanDecision(code, lookup).candidate.quantity == 1.0
    ensures ScanDecision(code, lookup).candidate.saleType == Some("Pieza")
    ensures ScanDecision(code, lookup).candidate.unitPrice == DefaultPrice(lookup.product)
  {
  }

  /** A product whose only presentation is not marked default is added
      without a presentation, at the product's own price. */
  lemma SingleNonDefaultPresentationIsDropped(code: string, product: Product)
    requires |product.presentations| == 1 && !product.presentations[0].isDefault
    requires !IsGranel(product.saleType)
    ensures ScanDecision(code, Found(product)).Added?
    ensures ScanDecision(code, Found(product)).candidate.presentationId == None
    ensures ScanDecision(code, Found(product)).candidate.unitPrice == product.price
  {
    assert DefaultPresentation(product.presentations) == None;
  }

  /** The success toast: the product's name, followed by the default
      presentation's name when there is one. */
  function AddedToast(product: Product): (r: string)
    ensures DefaultPresentation(product.presentations).None? ==>
      r == "\U{2705} " + product.name + " agregado al carrito"
    ensures DefaultPresentation(product.presentations).Some? ==>
      r == "\U{2705} " + product.name + " - " + DefaultPresentation(product.presentations).value.name +
           " agregado al carrito"
  {
    var itemName :=
      match DefaultPresentation(product.presentations)
      case None => product.name
      case Some(p) => product.name + " - " + p.name;
    "\U{2705} " + itemName + " agregado al carrito"
  }

  class ScannerScreen {
    const cart: Cart
    /** A code has been read and the screen has not yet been reset. */
    var scanned: bool
    /** The lookup (or the pause after an add) is in progress. */
    var loading: bool
    var toastVisible: bool
    var toastMessage: string

    constructor (cart: Cart)
      ensures this.cart == cart && !scanned && !loading && !toastVisible && toastMessage == ""
    {
      this.cart := cart;
      scanned := false;
      loading := false;
      toastVisible := false;
      toastMessage := "";
    }

    method SetBusy(busy: bool)
      modifies this`scanned, this`loading
      ensures scanned == busy && loading == busy
    {
      scanned := busy;
      loading := busy;
    }

    method ShowToast(message: string)
      modifies this`toastVisible, this`toastMessage
      ensures toastVisible && toastMessage == message
    {
      toastMessage := message;
      toastVisible := true;
    }

    /** `handleBarCodeScanned`: while a scan is being handled nothing
        happens; otherwise the product is looked up and either added (the
        flags stay set until the reset timer fires and the toast shows the
        line) or every other outcome clears the flags at once and leaves the
        cart alone. */
    method BarCodeScanned(code: string, lookup: Lookup) returns (result: ScanResult)
      modifies this`scanned, this`loading, this`toastVisible, this`toastMessage, cart
      ensures old(scanned || loading) ==> result == Ignored && unchanged(this) && unchanged(cart)
      ensures !old(scanned || loading) ==> result == ScanDecision(code, lookup)
      ensures result.Added? ==>
        cart.items == AddLine(old(cart.items), result.candidate) &&
        cart.loaded == old(cart.loaded) &&
        cart.stored == (if cart.loaded then Some(cart.items) else old(cart.stored)) &&
        scanned && loading && toastVisible && toastMessage == AddedToast(lookup.product)
      ensures !result.Added? && result != Ignored ==>
        !scanned && !loading && toastVisible == old(toastVisible) && toastMessage == old(toastMessage) &&
        unchanged(cart)
    {
      if scanned || loading {
        return Ignored;
      }
      SetBusy(true);
      result := ScanDecision(code, lookup);
      if !result.Added? {
        SetBusy(false);
        return;
      }
      cart.Add(result.candidate);
      ShowToast(AddedToast(lookup.product));
    }

    /** The two-second timer set after an add: the screen accepts a new scan. */
    method ResetElapsed()
      modifies this`scanned, this`loading
      ensures !scanned && !loading
    {
      SetBusy(false);
    }
  }

  /** Reading the same code twice before the reset timer fires adds it
      once; after the reset it is added again, merging into the same line. */
  method ScanTwiceBeforeReset(cart: Cart, code: string, product: Product) returns (first: ScanResult, second: ScanResult, afterReset: ScanResult)
    requires |product.presentations| <= 1 && !IsGranel(product.saleType)
    modifies cart
    ensures first == Added(DirectCandidate(product)) && second == Ignored && afterReset == first
    ensures cart.items == AddLine(AddLine(old(cart.items), DirectCandidate(product)), DirectCandidate(product))
  {
    var screen := new ScannerScreen(cart);
    first := screen.BarCodeScanned(code, Found(product));
    second := screen.BarCodeScanned(code, Found(product));
    screen.ResetElapsed();
    afterReset := screen.BarCodeScanned(code, Found(product));
  }
}
