/** The search screen: when the debounced query issues a search, what a
    search leaves in the result list and error line, the direct add (always
    one unit), the by-weight modal, and the expanded-row set. */
module ProductSearch {
  import opened JsValues
  import opened CartLedger
  import opened CartProvider
  import opened Catalog

  /** What the debounced effect does with the current query. */
  datatype SearchAction = Search(query: string) | ClearResults | NoAction

  /** The debounce rule: a trimmed query of two or more UTF-16 code units
      is searched (trimmed, so that `performSearch`'s own guard lets it
      through); an empty trimmed query clears the results and the error; a
      query of one code unit does nothing. */
  function SearchTrigger(q: string): (r: SearchAction)
    ensures r.Search? <==> Utf16Length(Trim(q)) >= 2
    ensures r.Search? ==> r.query == Trim(q) && Searchable(r.query)
    ensures r == ClearResults <==> Trim(q) == []
    ensures r == NoAction <==> Utf16Length(Trim(q)) == 1
  {
    var t := Trim(q);
    TrimIdempotent(q);
    var n := Utf16Length(t);
    if n >= 2 then Search(t)
    else if n == 0 then ClearResults
    else NoAction
  }

  /** `performSearch`'s own guard: two or more code units once trimmed. */
  predicate Searchable(q: string)
  {
    Utf16Length(Trim(q)) >= 2
  }

  /** A character outside the Basic Multilingual Plane (an emoji, say) is
      two code units long, so on its own it is already searched. */
  lemma AstralCharacterIsSearched(c: char)
    requires c as int > 0xFFFF
    ensures SearchTrigger([c]) == Search([c])
  {
    AstralCharacterLength(c);
    TrimOfNonWhitespaceChar(c);
  }

  /** Any other single character that is not white space waits for more. */
  lemma SingleBmpCharacterWaits(c: char)
    requires c as int <= 0xFFFF && !IsJsWhitespace(c)
    ensures SearchTrigger([c]) == NoAction
  {
    TrimOfNonWhitespaceChar(c);
    BmpCharacterLength(c);
  }

  /** The results are cleared exactly for a query made only of white space
      (the empty query included). */
  lemma ClearsOnlyBlankQueries(q: string)
    ensures SearchTrigger(q) == ClearResults <==> AllWhitespace(q)
  {
    TrimEmptyIffAllWhitespace(q);
  }

  /** Why a search failed: the backend's `error` field and the exception's
      message, each possibly absent or empty. */
  datatype SearchFailure = SearchFailure(dataError: Option<string>, message: Option<string>)

  const DefaultSearchError: string := "Error al buscar productos"

  /** The error line: the backend's error, else the message, else a fixed
      text; it is never empty. */
  function ErrorText(f: SearchFailure): (r: string)
    ensures r != ""
    ensures f.dataError.Some? && f.dataError.value != "" ==> r == f.dataError.value
    ensures (f.dataError.None? || f.dataError.value == "") && f.message.Some? && f.message.value != "" ==> r == f.message.value
    ensures (f.dataError.None? || f.dataError.value == "") && (f.message.None? || f.message.value == "") ==>
      r == DefaultSearchError
  {
    if f.dataError.Some? && f.dataError.value != "" then f.dataError.value
    else if f.message.Some? && f.message.value != "" then f.message.value
    else DefaultSearchError
  }

  /** The line a product sold by the piece adds from search: always one
      unit, at the base price, with the normalised sale type.  The ids are
      already strings, so `toString` leaves them as they are. */
  function PieceCandidate(product: Product, presentation: Option<Presentation>): (c: Candidate)
    ensures c.productId == product.id && c.productName == product.name
    ensures c.presentationId == IdOf(presentation) && c.presentationName == NameOf(presentation)
    ensures c.quantity == 1.0
    ensures c.unitPrice == BasePrice(presentation, product) && c.basePrice == Some(c.unitPrice)
    ensures c.saleType == Some(NormalizedSaleType(product.saleType))
  {
    var base := BasePrice(presentation, product);
    Candidate(product.id, product.name, IdOf(presentation), NameOf(presentation),
              1.0, base, Some(NormalizedSaleType(product.saleType)), Some(base))
  }

  /** Adding a piece from search adds one unit: a new line costs the base
      price, and the item count goes up by one. */
  lemma SearchPieceAddsOneUnit(items: seq<CartLine>, product: Product, presentation: Option<Presentation>)
    requires !IsGranel(product.saleType)
    ensures PieceCandidate(product, presentation).saleType == Some("Pieza")
    ensures ItemCount(AddLine(items, PieceCandidate(product, presentation))) == ItemCount(items) + 1.0
    ensures !HasKey(items, CandidateKey(PieceCandidate(product, presentation))) ==>
      Total(AddLine(items, PieceCandidate(product, presentation))) == Total(items) + BasePrice(presentation, product)
  {
    var c := PieceCandidate(product, presentation);
    ItemCountAfterAdd(items, c);
    if !HasKey(items, CandidateKey(c)) {
      TotalAfterAddNew(items, c);
    }
  }

  class SearchScreen {
    const cart: Cart
    var searchQuery: string
    var products: seq<Product>
    var loading: bool
    var error: Option<string>
    var expanded: set<string>
    var granelModalVisible: bool
    var selectedProduct: Option<Product>
    var selectedPresentation: Option<Presentation>
    var granelPrice: string

    constructor (cart: Cart)
      ensures this.cart == cart && searchQuery == "" && products == [] && !loading && error.None?
      ensures expanded == {} && !granelModalVisible && selectedProduct.None? && selectedPresentation.None?
      ensures granelPrice == ""
    {
      this.cart := cart;
      searchQuery := "";
      products := [];
      loading := false;
      error := None;
      expanded := {};
      granelModalVisible := false;
      selectedProduct := None;
      selectedPresentation := None;
      granelPrice := "";
    }

    method EnterQuery(q: string)
      modifies this`searchQuery
      ensures searchQuery == q
    {
      searchQuery := q;
    }

    /** `performSearch`: a query shorter than two code units once trimmed is
        ignored; otherwise the results replace the list and the error is
        cleared, or a failure empties the list and sets the error line.
        `response` is what the filter endpoint returns for the query. */
    method PerformSearch(query: string, response: Result<seq<Product>, SearchFailure>) returns (performed: bool)
      modifies this`products, this`loading, this`error
      ensures performed <==> Searchable(query)
      ensures !performed ==> products == old(products) && loading == old(loading) && error == old(error)
      ensures performed ==> !loading
      ensures performed && response.Ok? ==> products == response.value && error.None?
      ensures performed && response.Err? ==> products == [] && error == Some(ErrorText(response.error))
    {
      if query == "" || !Searchable(query) {
        assert query == "" ==> Trim(query) == [];
        performed := false;
        return;
      }
      performed := true;
      loading := true;
      error := None;
      match response {
        case Ok(results) =>
          products := results;
        case Err(failure) =>
          error := Some(ErrorText(failure));
          products := [];
      }
      loading := false;
    }

    /** Empties the result list and the error line. */
    method ClearResultList()
      modifies this`products, this`error
      ensures products == [] && error.None?
    {
      products := [];
      error := None;
    }

    /** The effect's branches once the action is known: search, clear, or
        leave everything as it is. */
    method ApplySearchAction(action: SearchAction, response: Result<seq<Product>, SearchFailure>)
      requires action.Search? ==> Searchable(action.query)
      modifies this`products, this`loading, this`error
      ensures action.Search? ==> (!loading &&
        (response.Ok? ==> products == response.value && error.None?) &&
        (response.Err? ==> products == [] && error == Some(ErrorText(response.error))))
      ensures action == ClearResults ==> products == [] && error.None? && loading == old(loading)
      ensures action == NoAction ==>
        products == old(products) && loading == old(loading) && error == old(error)
    {
      match action {
        case Search(q) =>
          var performed := PerformSearch(q, response);
        case ClearResults =>
          ClearResultList();
        case NoAction =>
      }
    }

    /** The debounced effect firing for the current query. */
    method DebounceElapsed(response: Result<seq<Product>, SearchFailure>) returns (action: SearchAction)
      modifies this`products, this`loading, this`error
      ensures action == SearchTrigger(searchQuery)
      ensures action.Search? ==> (!loading &&
        (response.Ok? ==> products == response.value && error.None?) &&
        (response.Err? ==> products == [] && error == Some(ErrorText(response.error))))
      ensures action == ClearResults ==> products == [] && error.None? && loading == old(loading)
      ensures action == NoAction ==>
        products == old(products) && loading == old(loading) && error == old(error)
    {
      action := SearchTrigger(searchQuery);
      ApplySearchAction(action, response);
    }

    /** `toggleProductExpansion`. */
    method ToggleProductExpansion(id: string)
      modifies this`expanded
      ensures expanded == Toggle(old(expanded), id)
    {
      expanded := Toggle(expanded, id);
    }

    /** `handleAddToCart`: a by-weight product opens the amount modal; any
        other product is added as one unit. */
    method AddToCart(product: Product, presentation: Option<Presentation>)
      modifies this, cart
      ensures expanded == old(expanded) && products == old(products) && searchQuery == old(searchQuery)
      ensures IsGranel(product.saleType) ==>
        granelModalVisible && selectedProduct == Some(product) &&
        selectedPresentation == presentation && granelPrice == "" && unchanged(cart)
      ensures !IsGranel(product.saleType) ==>
        cart.items == AddLine(old(cart.items), PieceCandidate(product, presentation)) &&
        cart.loaded == old(cart.loaded) &&
        cart.stored == (if cart.loaded then Some(cart.items) else old(cart.stored)) &&
        granelModalVisible == old(granelModalVisible) && selectedProduct == old(selectedProduct) &&
        selectedPresentation == old(selectedPresentation) && granelPrice == old(granelPrice)
    {
      if IsGranel(product.saleType) {
        selectedProduct := Some(product);
        selectedPresentation := presentation;
        granelPrice := "";
        granelModalVisible := true;
      } else {
        cart.Add(PieceCandidate(product, presentation));
      }
    }

    /** The modal's amount field. */
    method EnterGranelPrice(text: string)
      modifies this`granelPrice
      ensures granelPrice == text
    {
      granelPrice := text;
    }

    /** Closes the by-weight modal and clears its selection and amount. */
    method CloseGranelModal()
      modifies this`granelModalVisible, this`selectedProduct, this`selectedPresentation, this`granelPrice
      ensures !granelModalVisible && selectedProduct.None? && selectedPresentation.None? && granelPrice == ""
    {
      granelModalVisible := false;
      selectedProduct := None;
      selectedPresentation := None;
      granelPrice := "";
    }

    /** `handleGranelAddToCart`, with the same validation as the list. */
    method GranelAddToCart() returns (outcome: GranelOutcome)
      modifies this`granelModalVisible, this`selectedProduct, this`selectedPresentation, this`granelPrice, cart
      ensures outcome == GranelRequest(old(selectedProduct), old(selectedPresentation), old(granelPrice))
      ensures outcome.Accepted? ==>
        cart.items == AddLine(old(cart.items), outcome.candidate) &&
        cart.loaded == old(cart.loaded) &&
        cart.stored == (if cart.loaded then Some(cart.items) else old(cart.stored)) &&
        !granelModalVisible && selectedProduct.None? && selectedPresentation.None? && granelPrice == ""
      ensures !outcome.Accepted? ==>
        granelModalVisible == old(granelModalVisible) && selectedProduct == old(selectedProduct) &&
        selectedPresentation == old(selectedPresentation) && granelPrice == old(granelPrice) &&
        unchanged(cart)
    {
      outcome := GranelRequest(selectedProduct, selectedPresentation, granelPrice);
      if !outcome.Accepted? {
        return;
      }
      cart.Add(outcome.candidate);
      CloseGranelModal();
    }
  }
}
