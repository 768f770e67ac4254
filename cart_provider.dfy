/** The cart provider: the state (`items` and the loading flag) that
    `addToCart`, `removeFromCart`, `updateQuantity`, `clearCart` and the
    initial load replace, and the write-back to the key-value store that
    follows every change of `items` once loading has finished.

    The store is modelled as the value held under the cart's one storage key
    (`None` when the key is absent); serialisation is the identity. */
module CartProvider {
  import opened JsValues
  import opened CartLedger

  class Cart {
    /** The current line sequence. */
    var items: seq<CartLine>
    /** `!isLoading`: the initial load has resolved, so changes are saved. */
    var loaded: bool
    /** What the key-value store holds under the cart key. */
    var stored: Option<seq<CartLine>>

    /** A fresh provider: empty, still loading, over whatever the store holds. */
    constructor (persisted: Option<seq<CartLine>>)
      ensures items == [] && !loaded && stored == persisted
    {
      items := [];
      loaded := false;
      stored := persisted;
    }

    /** The write-back effect on `items`: it saves only after loading. */
    method SaveIfLoaded()
      modifies this`stored
      ensures stored == if loaded then Some(items) else old(stored)
    {
      if loaded {
        stored := Some(items);
      }
    }

    /** `loadCartFromStorage`, run once when the provider mounts.  A stored
        sequence replaces `items` (a change made before the load resolves is
        NOT kept); an absent key or a failed read leaves `items` alone.  The
        flag is set in every case.  The write-back effect fires only when
        `items` changes, and then it writes back the value just read, so the
        store is unchanged. */
    method Load(readFails: bool)
      requires !loaded
      modifies this
      ensures loaded
      ensures stored == old(stored)
      ensures items == if !readFails && old(stored).Some? then old(stored).value else old(items)
    {
      if !readFails && stored.Some? {
        items := stored.value;
      }
      loaded := true;
    }

    /** `addToCart`.  The add sound is fire-and-forget and is left out. */
    method Add(c: Candidate)
      modifies this
      ensures items == AddLine(old(items), c)
      ensures loaded == old(loaded)
      ensures stored == if loaded then Some(items) else old(stored)
      ensures NoDuplicateKeys(old(items)) ==> NoDuplicateKeys(items)
      ensures AllNormalized(old(items)) ==> AllNormalized(items)
      ensures ItemCount(items) == ItemCount(old(items)) + c.quantity
    {
      if NoDuplicateKeys(items) { AddPreservesNoDuplicates(items, c); }
      if AllNormalized(items) { AddPreservesNormalized(items, c); }
      ItemCountAfterAdd(items, c);
      items := AddLine(items, c);
      SaveIfLoaded();
    }

    /** `removeFromCart`. */
    method Remove(productId: string, presentationId: Option<string>)
      modifies this
      ensures items == RemoveLines(old(items), Key(productId, presentationId))
      ensures loaded == old(loaded)
      ensures stored == if loaded then Some(items) else old(stored)
      ensures NoDuplicateKeys(old(items)) ==> NoDuplicateKeys(items)
      ensures AllNormalized(old(items)) ==> AllNormalized(items)
    {
      var key := Key(productId, presentationId);
      if NoDuplicateKeys(items) { RemovePreservesNoDuplicates(items, key); }
      if AllNormalized(items) { RemovePreservesNormalized(items, key); }
      items := RemoveLines(items, key);
      SaveIfLoaded();
    }

    /** `updateQuantity`: a quantity of zero or less is `removeFromCart`. */
    method UpdateQuantity(productId: string, presentationId: Option<string>, quantity: real)
      modifies this
      ensures items == UpdateQuantityLines(old(items), Key(productId, presentationId), quantity)
      ensures loaded == old(loaded)
      ensures stored == if loaded then Some(items) else old(stored)
      ensures NoDuplicateKeys(old(items)) ==> NoDuplicateKeys(items)
      ensures AllNormalized(old(items)) ==> AllNormalized(items)
    {
      if quantity <= 0.0 {
        Remove(productId, presentationId);
        return;
      }
      var key := Key(productId, presentationId);
      if NoDuplicateKeys(items) { UpdatePreservesNoDuplicates(items, key, quantity); }
      if AllNormalized(items) { UpdatePreservesNormalized(items, key, quantity); }
      items := UpdateLines(items, key, quantity);
      SaveIfLoaded();
    }

    /** `clearCart`: empties the sequence and removes the storage key.  The
        removal is issued first; once loaded, the write-back effect that the
        emptied sequence triggers then stores the empty sequence. */
    method Clear()
      modifies this
      ensures items == [] && loaded == old(loaded)
      ensures stored == if loaded then Some([]) else None
    {
      items := [];
      stored := None;
      SaveIfLoaded();
    }

    /** `getTotal`. */
    method GetTotal() returns (t: real)
      ensures t == Total(items)
      ensures AllNormalized(items) ==> t == PricedSum(items)
    {
      if AllNormalized(items) { TotalIsPricedSum(items); }
      t := Total(items);
    }

    /** The sum of quantities behind `getItemCount`. */
    method GetItemCount() returns (n: real)
      ensures n == ItemCount(items)
    {
      n := ItemCount(items);
    }
  }

  /** Whatever a fresh provider holds after the load, it is empty when the
      store was last written by `clearCart`. */
  method ReloadAfterClear(persisted: Option<seq<CartLine>>, readFails: bool)
    returns (reloaded: seq<CartLine>)
    requires persisted == None || persisted == Some([])
    ensures reloaded == []
  {
    var cart := new Cart(persisted);
    cart.Load(readFails);
    reloaded := cart.items;
  }

  /** The load replaces the in-memory sequence: a line added before the load
      resolves is gone once a stored sequence has been read, and nothing was
      written to the store before then. */
  method AddBeforeLoadIsOverwritten(persisted: seq<CartLine>, c: Candidate)
    returns (afterLoad: seq<CartLine>, storedAfterLoad: Option<seq<CartLine>>)
    ensures afterLoad == persisted
    ensures storedAfterLoad == Some(persisted)
  {
    var cart := new Cart(Some(persisted));
    cart.Add(c);
    assert cart.items == AddLine([], c) && cart.stored == Some(persisted);
    cart.Load(false);
    afterLoad, storedAfterLoad := cart.items, cart.stored;
  }

  /** A session over an empty store: adding two units, then three more of
      the same product merges them into one line of five, and clearing
      empties the cart and stores the empty sequence. */
  method ExampleSession() returns (first: seq<CartLine>, t1: real, merged: seq<CartLine>, t2: real, saved: Option<seq<CartLine>>)
    ensures first == [CartLine("P1", "Producto", None, None, 2.0, 10.0, 20.0, Some("Pieza"), None)]
    ensures t1 == 20.0
    ensures merged == [CartLine("P1", "Producto", None, None, 5.0, 10.0, 50.0, Some("Pieza"), None)]
    ensures t2 == 0.0 && saved == Some([])
  {
    var cart := new Cart(None);
    cart.Load(false);
    cart.Add(Candidate("P1", "Producto", None, None, 2.0, 10.0, Some("Pieza"), None));
    first := cart.items;
    t1 := cart.GetTotal();
    cart.Add(Candidate("P1", "Producto", None, None, 3.0, 10.0, Some("Pieza"), None));
    merged := cart.items;
    cart.Clear();
    t2 := cart.GetTotal();
    saved := cart.stored;
  }
}
