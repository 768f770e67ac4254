/** The product list screen: the expanded-row set, the direct add of a
    product sold by the piece, and the by-weight modal (selection, amount
    text, confirmation). */
module ProductsList {
  import opened JsValues
  import opened CartLedger
  import opened CartProvider
  import opened Catalog

  /** The line a product sold by the piece adds: the presentation's own
      quantity (1 when there is none or it is 0), at the base price, with
      the normalised sale type. */
  function PieceCandidate(product: Product, presentation: Option<Presentation>): (c: Candidate)
    ensures c.productId == product.id && c.productName == product.name
    ensures c.presentationId == IdOf(presentation) && c.presentationName == NameOf(presentation)
    ensures presentation.Some? && presentation.value.quantity != 0.0 ==> c.quantity == presentation.value.quantity
    ensures presentation.None? || presentation.value.quantity == 0.0 ==> c.quantity == 1.0
    ensures c.unitPrice == BasePrice(presentation, product) && c.basePrice == Some(c.unitPrice)
    ensures c.saleType == Some(NormalizedSaleType(product.saleType))
  {
    var base := BasePrice(presentation, product);
    var quantity := if presentation.Some? then OrNumber(presentation.value.quantity, 1.0) else 1.0;
    Candidate(product.id, product.name, IdOf(presentation), NameOf(presentation),
              quantity, base, Some(NormalizedSaleType(product.saleType)), Some(base))
  }

  /** On the direct-add path the product is not sold by weight, so its line
      is always a 'Pieza' line; as a new line it costs quantity times the
      base price. */
  lemma PieceLineIsPieza(items: seq<CartLine>, product: Product, presentation: Option<Presentation>)
    requires !IsGranel(product.saleType)
    requires !HasKey(items, CandidateKey(PieceCandidate(product, presentation)))
    ensures PieceCandidate(product, presentation).saleType == Some("Pieza")
    ensures Total(AddLine(items, PieceCandidate(product, presentation))) ==
      Total(items) + PieceCandidate(product, presentation).quantity * BasePrice(presentation, product)
  {
    var c := PieceCandidate(product, presentation);
    TotalAfterAddNew(items, c);
  }

  class ProductsScreen {
    const cart: Cart
    var expanded: set<string>
    var granelModalVisible: bool
    var selectedProduct: Option<Product>
    var selectedPresentation: Option<Presentation>
    var granelPrice: string

    constructor (cart: Cart)
      ensures this.cart == cart && expanded == {}
      ensures !granelModalVisible && selectedProduct.None? && selectedPresentation.None? && granelPrice == ""
    {
      this.cart := cart;
      expanded := {};
      granelModalVisible := false;
      selectedProduct := None;
      selectedPresentation := None;
      granelPrice := "";
    }

    /** `toggleProductExpansion`. */
    method ToggleProductExpansion(id: string)
      modifies this`expanded
      ensures expanded == Toggle(old(expanded), id)
    {
      expanded := Toggle(expanded, id);
    }

    /** `handleAddToCart`: a by-weight product opens the amount modal and
        adds nothing; any other product is added directly. */
    method AddToCart(product: Product, presentation: Option<Presentation>)
      modifies this, cart
      ensures expanded == old(expanded)
      ensures IsGranel(product.saleType) ==>
        granelModalVisible && selectedProduct == Some(product) &&
        selectedPresentation == presentation && granelPrice == "" && unchanged(cart)
      ensures !IsGranel(product.saleType) ==>
        cart.items == AddLine(old(cart.items), PieceCandidate(product, presentation)) &&
        cart.loaded == old(cart.loaded) &&
        cart.stored == (if cart.loaded then Some(cart.items) else old(cart.stored)) &&
        granelModalVisible == old(granelModalVisible) && selectedProduct == old(selectedProduct) &&
        selectedPresentation == old(selectedPresentation) && granelPrice == old(granelPrice)
    {
      if IsGranel(product.saleType) {
        selectedProduct := Some(product);
        selectedPresentation := presentation;
        granelPrice := "";
        granelModalVisible := true;
      } else {
        cart.Add(PieceCandidate(product, presentation));
      }
    }

    /** The modal's amount field. */
    method EnterGranelPrice(text: string)
      modifies this`granelPrice
      ensures granelPrice == text
    {
      granelPrice := text;
    }

    /** Closes the by-weight modal and clears its selection and amount. */
    method CloseGranelModal()
      modifies this`granelModalVisible, this`selectedProduct, this`selectedPresentation, this`granelPrice
      ensures !granelModalVisible && selectedProduct.None? && selectedPresentation.None? && granelPrice == ""
    {
      granelModalVisible := false;
      selectedProduct := None;
      selectedPresentation := None;
      granelPrice := "";
    }

    /** `handleGranelAddToCart`: an accepted amount adds its line and closes
        and clears the modal; a rejected one changes nothing. */
    method GranelAddToCart() returns (outcome: GranelOutcome)
      modifies this`granelModalVisible, this`selectedProduct, this`selectedPresentation, this`granelPrice, cart
      ensures outcome == GranelRequest(old(selectedProduct), old(selectedPresentation), old(granelPrice))
      ensures outcome.Accepted? ==>
        cart.items == AddLine(old(cart.items), outcome.candidate) &&
        cart.loaded == old(cart.loaded) &&
        cart.stored == (if cart.loaded then Some(cart.items) else old(cart.stored)) &&
        !granelModalVisible && selectedProduct.None? && selectedPresentation.None? && granelPrice == ""
      ensures !outcome.Accepted? ==>
        granelModalVisible == old(granelModalVisible) && selectedProduct == old(selectedProduct) &&
        selectedPresentation == old(selectedPresentation) && granelPrice == old(granelPrice) &&
        unchanged(cart)
    {
      outcome := GranelRequest(selectedProduct, selectedPresentation, granelPrice);
      if !outcome.Accepted? {
        return;
      }
      cart.Add(outcome.candidate);
      CloseGranelModal();
    }
  }
}
