/** Sending the cart to the cashier: the validating conversion of cart lines
    into the backend's order details, the guards on the client name, the
    cart and the total, and the checkout screen's state (`showClientModal`,
    `clientName`, `isSubmitting`) around the request. */
module PendingSale {
  import opened JsValues
  import opened CartLedger
  import opened CartProvider

  /** One order detail as the backend expects it.  `null` is `None`. */
  datatype Detail = Detail(
    productId: int,
    quantity: real,
    price: real,
    subTotal: real,
    productName: Option<string>,
    presentationId: Option<int>,
    presentationName: Option<string>,
    saleType: Option<string>,
    basePrice: real)

  /** The pending-sale request body. */
  datatype Payload = Payload(
    clientName: string,
    total: real,
    branch: string,
    cashRegister: string,
    details: seq<Detail>)

  /** Why a confirmation did not end in a stored sale. */
  datatype Rejection =
    | BlankClientName
    | EmptyCart
    | InvalidProductId(productId: string)
    | InvalidTotal(total: real)
    | NoResponse
    | MissingCode

  /** What the backend does with a request: it fails (network or HTTP
      error), or it answers with a body whose `code` may be absent. */
  datatype Reply = RequestFailed | Answered(code: Option<string>)

  const Branch: string := "Sucursal Default"
  const CashRegister: string := "Caja 1"

  /** `s || null` for a string. */
  function OrNull(s: string): (r: Option<string>)
    ensures r.None? <==> s == ""
    ensures r.Some? ==> r.value == s
  {
    if s == "" then None else Some(s)
  }

  /** `s || null` for an optional string. */
  function OptionalOrNull(s: Option<string>): (r: Option<string>)
    ensures r.None? <==> s.None? || s.value == ""
    ensures r.Some? ==> r == s
  {
    if s.Some? && s.value != "" then s else None
  }

  /** A base-10 id that is accepted only when it is a positive number. */
  function PositiveId(s: string): Option<int>
  {
    match ParseInt(s)
    case Some(n) => if n > 0 then Some(n) else None
    case None => None
  }

  /** Whether a cart line can be sent: only its product id can make the
      conversion throw. */
  predicate Converts(l: CartLine)
  {
    PositiveId(l.productId).Some?
  }

  /** The detail of a line that converts.  A presentation id that is not a
      positive number is sent as `null`; empty names and sale types are
      sent as `null`; the base price is the line's effective price. */
  function DetailOf(l: CartLine): Detail
    requires Converts(l)
  {
    Detail(
      PositiveId(l.productId).value,
      l.quantity,
      l.unitPrice,
      l.total,
      OrNull(l.productName),
      if l.presentationId.Some? then PositiveId(l.presentationId.value) else None,
      OptionalOrNull(l.presentationName),
      OptionalOrNull(l.saleType),
      EffectivePrice(l.basePrice, l.unitPrice))
  }

  /** A line fails to convert exactly when its product id does not parse to
      a positive number; the presentation id never makes it fail. */
  lemma ConvertsExactly(l: CartLine)
    ensures Converts(l) <==> ParseInt(l.productId).Some? && ParseInt(l.productId).value > 0
    ensures forall p :: Converts(l.(presentationId := p)) <==> Converts(l)
  {
  }

  /** The fields of a converted line: the parsed positive product id, a
      presentation id only when it parses to a positive number, and
      quantity, price, subtotal and base price taken from the line. */
  lemma DetailFields(l: CartLine)
    requires Converts(l)
    ensures DetailOf(l).productId > 0
    ensures ParseInt(l.productId) == Some(DetailOf(l).productId)
    ensures DetailOf(l).presentationId.Some? <==>
      (l.presentationId.Some? && ParseInt(l.presentationId.value).Some? &&
       ParseInt(l.presentationId.value).value > 0)
    ensures DetailOf(l).presentationId.Some? ==>
      ParseInt(l.presentationId.value) == DetailOf(l).presentationId
    ensures DetailOf(l).quantity == l.quantity
    ensures DetailOf(l).price == l.unitPrice
    ensures DetailOf(l).subTotal == l.total
    ensures DetailOf(l).basePrice == LinePrice(l)
    ensures DetailOf(l).productName == if l.productName == "" then None else Some(l.productName)
  {
  }

  /** `items.map(...)`: one detail per line, in cart order, or the error of
      the first line that does not convert. */
  function BuildDetails(items: seq<CartLine>): (r: Result<seq<Detail>, Rejection>)
    ensures r.Ok? <==> forall k :: 0 <= k < |items| ==> Converts(items[k])
    ensures r.Ok? ==> (|r.value| == |items| &&
      forall k :: 0 <= k < |items| ==> r.value[k] == DetailOf(items[k]))
    ensures r.Err? ==> r.error.InvalidProductId?
  {
    if items == [] then Ok([])
    else if !Converts(items[0]) then Err(InvalidProductId(items[0].productId))
    else
      var rest := BuildDetails(items[1..]);
      if rest.Err? then
        rest
      else
        assert forall k :: 1 <= k < |items| ==> items[k] == items[1..][k - 1];
        Ok([DetailOf(items[0])] + rest.value)
  }

  /** A line that converts passes a failure in the rest through. */
  lemma BuildDetailsSkipsConvertedHead(items: seq<CartLine>)
    requires items != [] && Converts(items[0]) && BuildDetails(items).Err?
    ensures BuildDetails(items[1..]).Err? && BuildDetails(items) == BuildDetails(items[1..])
  {
  }

  /** Lines that convert, before a prefix of the rest that converts, make a
      longer prefix that converts. */
  lemma ConvertedPrefixExtends(items: seq<CartLine>, n: nat)
    requires items != [] && Converts(items[0]) && n < |items|
    requires forall j :: 0 <= j < n ==> Converts(items[1..][j])
    ensures forall j :: 0 <= j < n + 1 ==> Converts(items[j])
  {
    forall j | 0 <= j < n + 1
      ensures Converts(items[j])
    {
      if j > 0 {
        assert items[j] == items[1..][j - 1];
      }
    }
  }

  /** A failed conversion reports the first line whose product id is not a
      positive number; `k` is that line's index. */
  lemma {:induction false} BuildDetailsFirstFailure(items: seq<CartLine>) returns (k: nat)
    requires BuildDetails(items).Err?
    ensures k < |items| && !Converts(items[k])
    ensures BuildDetails(items) == Err(InvalidProductId(items[k].productId))
    ensures forall j :: 0 <= j < k ==> Converts(items[j])
  {
    if Converts(items[0]) {
      BuildDetailsSkipsConvertedHead(items);
      var next := BuildDetailsFirstFailure(items[1..]);
      ConvertedPrefixExtends(items, next);
      k := next + 1;
      assert items[k] == items[1..][next];
    } else {
      k := 0;
    }
  }

  /** The request body and its guards, in the order the handler applies
      them: blank client name, empty cart, per-line conversion, total. */
  function BuildPayload(clientName: string, items: seq<CartLine>): (r: Result<Payload, Rejection>)
    ensures r == Err(BlankClientName) <==> IsBlank(clientName)
    ensures r == Err(EmptyCart) <==> !IsBlank(clientName) && items == []
    ensures !IsBlank(clientName) && items != [] && BuildDetails(items).Err? ==>
      r == Err(BuildDetails(items).error)
    ensures r.Ok? <==>
      !IsBlank(clientName) && items != [] && BuildDetails(items).Ok? && Total(items) > 0.0
    ensures r.Ok? ==>
      r.value.clientName == Trim(clientName) && r.value.total == Total(items) &&
      r.value.branch == Branch && r.value.cashRegister == CashRegister &&
      BuildDetails(items) == Ok(r.value.details)
    ensures r.Err? && r.error.InvalidTotal? ==> BuildDetails(items).Ok? && Total(items) <= 0.0
  {
    if IsBlank(clientName) then Err(BlankClientName)
    else if items == [] then Err(EmptyCart)
    else
      match BuildDetails(items)
      case Err(e) => Err(e)
      case Ok(details) =>
        var total := Total(items);
        if total <= 0.0 then Err(InvalidTotal(total))
        else Ok(Payload(Trim(clientName), total, Branch, CashRegister, details))
  }

  /** The outcome of confirming: the backend's `code` on success. */
  function Submission(clientName: string, items: seq<CartLine>, reply: Reply): Result<string, Rejection>
  {
    match BuildPayload(clientName, items)
    case Err(e) => Err(e)
    case Ok(_) =>
      match reply
      case RequestFailed => Err(NoResponse)
      case Answered(code) => if code.None? || code.value == "" then Err(MissingCode) else Ok(code.value)
  }

  /** A confirmation succeeds exactly when the payload is valid and the
      backend answers with a non-empty code. */
  lemma SubmissionSucceeds(clientName: string, items: seq<CartLine>, reply: Reply)
    ensures Submission(clientName, items, reply).Ok? <==>
      !IsBlank(clientName) && items != [] && BuildDetails(items).Ok? && Total(items) > 0.0 &&
      reply.Answered? && reply.code.Some? && reply.code.value != ""
    ensures IsBlank(clientName) ==> Submission(clientName, items, reply) == Err(BlankClientName)
    ensures !IsBlank(clientName) && items == [] ==> Submission(clientName, items, reply) == Err(EmptyCart)
  {
  }

  /** The sum of the details' subtotals, folded like the cart total. */
  function SubTotalSum(details: seq<Detail>): real
  {
    if details == [] then 0.0 else SubTotalSum(details[..|details| - 1]) + details[|details| - 1].subTotal
  }

  lemma {:induction false} SubTotalsMatchTotals(items: seq<CartLine>, details: seq<Detail>)
    requires |details| == |items|
    requires forall k :: 0 <= k < |items| ==> details[k].subTotal == items[k].total
    ensures SubTotalSum(details) == Total(items)
  {
    if items != [] {
      var n := |items| - 1;
      SubTotalsMatchTotals(items[..n], details[..n]);
    }
  }

  /** The payload's total is the sum of its details' subtotals and, for a
      cart whose lines are priced by the ledger's rule, the sum of
      quantity times effective price. */
  lemma PayloadTotalIsSumOfDetails(clientName: string, items: seq<CartLine>)
    requires BuildPayload(clientName, items).Ok?
    ensures SubTotalSum(BuildPayload(clientName, items).value.details) == BuildPayload(clientName, items).value.total
    ensures AllNormalized(items) ==> BuildPayload(clientName, items).value.total == PricedSum(items)
  {
    var p := BuildPayload(clientName, items).value;
    SubTotalsMatchTotals(items, p.details);
    if AllNormalized(items) { TotalIsPricedSum(items); }
  }

  /** A line whose ids are the decimal text of numbers sends those numbers;
      a presentation id of 0 is sent as `null`. */
  lemma DetailOfNumericIds(l: CartLine, productId: nat, presentationId: nat)
    requires productId > 0
    requires l.productId == NatToString(productId)
    requires l.presentationId == Some(NatToString(presentationId))
    ensures Converts(l)
    ensures DetailOf(l).productId == productId
    ensures DetailOf(l).presentationId == if presentationId > 0 then Some(presentationId) else None
  {
    ParseIntNatToString(productId);
    ParseIntNatToString(presentationId);
  }

  /** The checkout part of the cart screen. */
  class CheckoutScreen {
    const cart: Cart
    var clientName: string
    var showClientModal: bool
    var isSubmitting: bool

    constructor (cart: Cart)
      ensures this.cart == cart
      ensures clientName == "" && !showClientModal && !isSubmitting
    {
      this.cart := cart;
      clientName := "";
      showClientModal := false;
      isSubmitting := false;
    }

    /** The client-name text field. */
    method EnterClientName(name: string)
      modifies this`clientName
      ensures clientName == name
    {
      clientName := name;
    }

    /** `handleSendToCashier`: an empty cart is refused; otherwise the
        client-name modal opens. */
    method SendToCashier() returns (modalOpens: bool)
      modifies this`showClientModal
      ensures modalOpens <==> cart.items != []
      ensures showClientModal == if modalOpens then true else old(showClientModal)
    {
      if cart.items == [] {
        modalOpens := false;
        return;
      }
      showClientModal := true;
      modalOpens := true;
    }

    /** `handleConfirmSendToCashier`.  `reply` is what the backend would
        answer to the request; `sent` is the request issued, if any.  Only a
        reply with a code clears the cart and the name (the delayed step of
        the success path is taken at once); every other outcome after the
        name check closes the modal and leaves the cart as it was. */
    method ConfirmSendToCashier(reply: Reply) returns (r: Result<string, Rejection>, sent: Option<Payload>)
      modifies this, cart
      ensures r == Submission(old(clientName), old(cart.items), reply)
      ensures sent.Some? <==> BuildPayload(old(clientName), old(cart.items)).Ok?
      ensures sent.Some? ==> sent.value == BuildPayload(old(clientName), old(cart.items)).value
      ensures showClientModal == if r == Err(BlankClientName) then old(showClientModal) else false
      ensures isSubmitting ==
        if r == Err(BlankClientName) || r == Err(EmptyCart) then old(isSubmitting) else false
      ensures clientName == if r.Ok? then "" else old(clientName)
      ensures r.Ok? ==> (cart.items == [] && cart.loaded == old(cart.loaded) &&
        cart.stored == (if cart.loaded then Some([]) else None))
      ensures r.Err? ==> unchanged(cart)
    {
      var payload := BuildPayload(clientName, cart.items);
      sent := None;
      if payload == Err(BlankClientName) {
        r := Err(BlankClientName);
        return;
      }
      if payload == Err(EmptyCart) {
        showClientModal := false;
        r := Err(EmptyCart);
        return;
      }
      isSubmitting := true;
      if payload.Err? {
        r := Err(payload.error);
      } else {
        sent := Some(payload.value);
        match reply
        case RequestFailed =>
          r := Err(NoResponse);
        case Answered(code) =>
          if code.None? || code.value == "" {
            r := Err(MissingCode);
          } else {
            r := Ok(code.value);
          }
      }
      if r.Ok? {
        showClientModal := false;
        clientName := "";
        cart.Clear();
      } else {
        showClientModal := false;
      }
      isSubmitting := false;
    }
  }
}
