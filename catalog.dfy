/** The catalogue rules shared by the product list, the search screen and
    the scanner: which price a line is built from, when a product is sold
    by weight ("granel"), the default presentation, the
    expanded-row toggle, and the validation of a by-weight amount. */
module Catalog {
  import opened JsValues
  import opened CartLedger

  datatype Presentation = Presentation(
    id: string,
    name: string,
    quantity: real,
    unitPrice: real,
    isDefault: bool)

  /** A product as the backend lists it, with the fields the rules read. */
  datatype Product = Product(
    id: string,
    name: string,
    price: real,
    saleType: Option<string>,
    presentations: seq<Presentation>)

  function UnitPriceOf(p: Option<Presentation>): Option<real>
  {
    if p.Some? then Some(p.value.unitPrice) else None
  }

  function IdOf(p: Option<Presentation>): Option<string>
  {
    if p.Some? then Some(p.value.id) else None
  }

  function NameOf(p: Option<Presentation>): Option<string>
  {
    if p.Some? then Some(p.value.name) else None
  }

  /** `presentation?.unitPrice || product.price`: the presentation's price
      unless there is no presentation or its price is 0. */
  function BasePrice(presentation: Option<Presentation>, product: Product): (r: real)
    ensures presentation.Some? && presentation.value.unitPrice != 0.0 ==> r == presentation.value.unitPrice
    ensures presentation.None? || presentation.value.unitPrice == 0.0 ==> r == product.price
  {
    OrOptional(UnitPriceOf(presentation), product.price)
  }

  /** `saleType?.toLowerCase() === 'granel'`. */
  predicate IsGranel(saleType: Option<string>)
  {
    saleType.Some? && EqualsIgnoringCase(saleType.value, "granel")
  }

  /** "granel" is recognised in any mix of upper and lower case, and only
      as a six-letter word. */
  lemma IsGranelIgnoresCase(saleType: string)
    ensures IsGranel(Some(saleType)) <==>
      |saleType| == 6 &&
      forall k :: 0 <= k < 6 ==> saleType[k] == "granel"[k] || saleType[k] == "GRANEL"[k]
  {
    EqualsIgnoringCaseLetters(saleType, "granel");
  }

  /** The normalised sale type: 'Granel' for a by-weight product and
      'Pieza' for everything else, including a missing or empty one. */
  function NormalizedSaleType(saleType: Option<string>): (r: string)
    ensures r == (if IsGranel(saleType) then "Granel" else "Pieza")
  {
    if saleType.Some? && saleType.value != "" then
      (if EqualsIgnoringCase(saleType.value, "granel") then "Granel" else "Pieza")
    else "Pieza"
  }

  /** `presentations.find(p => p.isDefault)`. */
  function DefaultPresentation(ps: seq<Presentation>): (r: Option<Presentation>)
    ensures r.None? <==> forall k :: 0 <= k < |ps| ==> !ps[k].isDefault
    ensures r.Some? ==> exists k ::
      0 <= k < |ps| && ps[k] == r.value && ps[k].isDefault &&
      forall j :: 0 <= j < k ==> !ps[j].isDefault
  {
    if ps == [] then None
    else if ps[0].isDefault then Some(ps[0])
    else
      var r := DefaultPresentation(ps[1..]);
      assert forall k :: 1 <= k < |ps| ==> ps[k] == ps[1..][k - 1];
      if r.Some? then
        var k :| 0 <= k < |ps[1..]| && ps[1..][k] == r.value && ps[1..][k].isDefault &&
          forall j :: 0 <= j < k ==> !ps[1..][j].isDefault;
        assert ps[k + 1] == r.value;
        r
      else r
  }

  /** The price a list row shows: that of the default presentation, or the
      product's own when there is none or its price is 0. */
  function DefaultPrice(product: Product): (r: real)
    ensures r == BasePrice(DefaultPresentation(product.presentations), product)
  {
    OrOptional(UnitPriceOf(DefaultPresentation(product.presentations)), product.price)
  }

  /** `toggleProductExpansion`'s updater: the expanded-row set with one id's
      membership flipped. */
  function Toggle(expanded: set<string>, id: string): (r: set<string>)
    ensures id in r <==> id !in expanded
    ensures forall other :: other != id ==> (other in r <==> other in expanded)
  {
    if id in expanded then expanded - {id} else expanded + {id}
  }

  /** Toggling the same row twice restores the set. */
  lemma ToggleInvolution(expanded: set<string>, id: string)
    ensures Toggle(Toggle(expanded, id), id) == expanded
  {
    var once := Toggle(expanded, id);
    var twice := Toggle(once, id);
    assert forall x :: x in twice <==> x in expanded;
  }

  // ---------------------------------------------------------------------
  // Selling by weight

  /** How a by-weight add ends. */
  datatype GranelOutcome =
    | NoSelection
    | BlankAmount
    | InvalidAmount
    | InvalidQuantity
    | Accepted(candidate: Candidate)

  /** An IEEE quotient of a positive amount: `x / 0` is +Infinity. */
  datatype Quotient = Finite(value: real) | PositiveInfinity

  function Divide(x: real, y: real): Quotient
    requires x > 0.0
  {
    if y == 0.0 then PositiveInfinity else Finite(x / y)
  }

  /** The quantity check as written: `quantity <= 0 || isNaN(quantity)`
      rejects; +Infinity passes it.  `None` is a rejection. */
  function GranelQuantityAsWritten(entered: real, basePrice: real): Option<Quotient>
    requires entered > 0.0
  {
    var q := Divide(entered, basePrice);
    if q.Finite? && q.value <= 0.0 then None else Some(q)
  }

  /** With a base price of 0 the check lets an infinite quantity through:
      the line is then priced at 0 with quantity +Infinity, whose total
      (Infinity times 0) is NaN rather than the entered amount. */
  lemma GranelZeroBasePriceAccepted()
    ensures GranelQuantityAsWritten(10.0, 0.0) == Some(PositiveInfinity)
  {
  }

  /** The quantity check as evidently intended: a finite, positive quantity
      that at the base price makes up exactly the entered amount. */
  function GranelQuantity(entered: real, basePrice: real): (r: Option<real>)
    requires entered > 0.0
    ensures r.None? <==> basePrice <= 0.0
    ensures r.Some? ==> r.value > 0.0 && r.value * basePrice == entered
  {
    match Divide(entered, basePrice)
    case PositiveInfinity => None
    case Finite(q) => if q <= 0.0 then None else Some(q)
  }

  /** The text-field amount, when it is one the modal accepts. */
  function EnteredAmount(granelPrice: string): (r: Option<real>)
    ensures r.Some? ==> r.value > 0.0 && !IsBlank(granelPrice) && ParseFloat(granelPrice) == r
    ensures r.None? <==> IsBlank(granelPrice) || ParseFloat(granelPrice).None? || ParseFloat(granelPrice).value <= 0.0
  {
    if IsBlank(granelPrice) then None
    else
      match ParseFloat(granelPrice)
      case None => None
      case Some(v) => if v <= 0.0 then None else Some(v)
  }

  /** The steps after the amount is read: the quantity is the amount divided
      by the base price, the line is priced at the base price and sold as
      'Granel'. */
  function GranelCandidate(product: Product, presentation: Option<Presentation>, entered: real): (r: GranelOutcome)
    requires entered > 0.0
    ensures r == InvalidQuantity <==> BasePrice(presentation, product) <= 0.0
    ensures !(r == NoSelection || r == BlankAmount || r == InvalidAmount)
    ensures r.Accepted? ==>
      var c := r.candidate;
      var base := BasePrice(presentation, product);
      c.productId == product.id && c.productName == product.name &&
      c.presentationId == IdOf(presentation) && c.presentationName == NameOf(presentation) &&
      c.unitPrice == base && c.basePrice == Some(base) && c.saleType == Some("Granel") &&
      c.quantity > 0.0 && c.quantity * base == entered
  {
    var base := BasePrice(presentation, product);
    match GranelQuantity(entered, base)
    case None => InvalidQuantity
    case Some(quantity) =>
      Accepted(Candidate(
        product.id, product.name, IdOf(presentation), NameOf(presentation),
        quantity, base, Some("Granel"), Some(base)))
  }

  /** `handleGranelAddToCart`'s validation and candidate: a selection is
      needed, then an amount that is non-blank, numeric and positive, then a
      positive quantity. */
  function GranelRequest(product: Option<Product>, presentation: Option<Presentation>, granelPrice: string): (r: GranelOutcome)
    ensures r == NoSelection <==> product.None?
    ensures r == BlankAmount <==> product.Some? && IsBlank(granelPrice)
    ensures r == InvalidAmount <==> product.Some? && !IsBlank(granelPrice) && EnteredAmount(granelPrice).None?
    ensures product.Some? && EnteredAmount(granelPrice).Some? ==>
      r == GranelCandidate(product.value, presentation, EnteredAmount(granelPrice).value)
  {
    if product.None? then NoSelection
    else if IsBlank(granelPrice) then BlankAmount
    else
      match EnteredAmount(granelPrice)
      case None => InvalidAmount
      case Some(entered) => GranelCandidate(product.value, presentation, entered)
  }

  /** The total the modal previews: the entered amount once it is valid. */
  function PreviewTotal(granelPrice: string): real
  {
    match EnteredAmount(granelPrice)
    case None => 0.0
    case Some(v) => v
  }

  /** A new line priced at its own unit price adds its charge to the total. */
  lemma AddChargedAtUnitPrice(items: seq<CartLine>, c: Candidate, charge: real)
    requires !HasKey(items, CandidateKey(c))
    requires c.basePrice == Some(c.unitPrice) && c.quantity * c.unitPrice == charge
    ensures Total(AddLine(items, c)) == Total(items) + charge
  {
    TotalAfterAddNew(items, c);
  }

  /** An accepted by-weight line is charged exactly the entered amount:
      added as a new line it raises the cart's total by that amount. */
  lemma GranelAddsEnteredAmount(items: seq<CartLine>, product: Product, presentation: Option<Presentation>, entered: real)
    requires entered > 0.0
    requires GranelCandidate(product, presentation, entered).Accepted?
    requires !HasKey(items, CandidateKey(GranelCandidate(product, presentation, entered).candidate))
    ensures Total(AddLine(items, GranelCandidate(product, presentation, entered).candidate)) ==
      Total(items) + entered
  {
    var c := GranelCandidate(product, presentation, entered).candidate;
    AddChargedAtUnitPrice(items, c, entered);
  }

  /** An accepted request was built from the amount the modal previews. */
  lemma GranelAcceptsPreviewedAmount(product: Product, presentation: Option<Presentation>, granelPrice: string)
    requires GranelRequest(Some(product), presentation, granelPrice).Accepted?
    ensures PreviewTotal(granelPrice) > 0.0
    ensures GranelRequest(Some(product), presentation, granelPrice) ==
      GranelCandidate(product, presentation, PreviewTotal(granelPrice))
  {
  }
}
