/** The cart ledger's pure rules: an ordered sequence of line items keyed by
    (productId, presentationId), with merge-on-add, removal by key, quantity
    updates and the derived totals.  The stateful provider that holds the
    sequence is in module CartProvider. */
module CartLedger {
  import opened JsValues

  /** One line of the cart.  `presentationId`, `presentationName`, `saleType`
      and `basePrice` are optional fields (`None` is `undefined`). */
  datatype CartLine = CartLine(
    productId: string,
    productName: string,
    presentationId: Option<string>,
    presentationName: Option<string>,
    quantity: real,
    unitPrice: real,
    total: real,
    saleType: Option<string>,
    basePrice: Option<real>)

  /** What callers pass to add: a line without its `total`. */
  datatype Candidate = Candidate(
    productId: string,
    productName: string,
    presentationId: Option<string>,
    presentationName: Option<string>,
    quantity: real,
    unitPrice: real,
    saleType: Option<string>,
    basePrice: Option<real>)

  /** The identity of a line.  `===` on an optional string: `undefined`
      matches only `undefined`. */
  datatype Key = Key(productId: string, presentationId: Option<string>)

  function KeyOf(l: CartLine): Key
  {
    Key(l.productId, l.presentationId)
  }

  function CandidateKey(c: Candidate): Key
  {
    Key(c.productId, c.presentationId)
  }

  /** The price a line is charged at: `basePrice || unitPrice`, so a missing
      or zero base price falls back to the unit price. */
  function EffectivePrice(basePrice: Option<real>, unitPrice: real): (p: real)
    ensures basePrice.Some? && basePrice.value != 0.0 ==> p == basePrice.value
    ensures basePrice.None? || basePrice.value == 0.0 ==> p == unitPrice
  {
    OrOptional(basePrice, unitPrice)
  }

  function LinePrice(l: CartLine): real
  {
    EffectivePrice(l.basePrice, l.unitPrice)
  }

  /** No two lines share a key. */
  predicate NoDuplicateKeys(items: seq<CartLine>)
  {
    forall i, j :: 0 <= i < |items| && 0 <= j < |items| && i != j ==> KeyOf(items[i]) != KeyOf(items[j])
  }

  predicate HasKey(items: seq<CartLine>, key: Key)
  {
    exists k :: 0 <= k < |items| && KeyOf(items[k]) == key
  }

  /** A line whose unit price is already its effective price and whose total
      is its quantity times that price.  Every line the ledger writes has
      this shape. */
  predicate Normalized(l: CartLine)
  {
    l.unitPrice == LinePrice(l) && l.total == l.quantity * l.unitPrice
  }

  predicate AllNormalized(items: seq<CartLine>)
  {
    forall k :: 0 <= k < |items| ==> Normalized(items[k])
  }

  // ---------------------------------------------------------------------
  // Lookup

  /** `findIndex` on the key: the first position holding `key`, or -1. */
  function FindIndex(items: seq<CartLine>, key: Key): (i: int)
    ensures -1 <= i < |items|
    ensures 0 <= i ==> KeyOf(items[i]) == key
    ensures forall k :: 0 <= k < |items| && (i < 0 || k < i) ==> KeyOf(items[k]) != key
  {
    if items == [] then -1
    else if KeyOf(items[0]) == key then 0
    else
      var j := FindIndex(items[1..], key);
      if j < 0 then -1 else j + 1
  }

  // ---------------------------------------------------------------------
  // Add

  /** A new line built from a candidate: its unit price becomes the
      candidate's effective price and the total is computed from it. */
  function NewLine(c: Candidate): CartLine
  {
    var price := EffectivePrice(c.basePrice, c.unitPrice);
    CartLine(c.productId, c.productName, c.presentationId, c.presentationName,
             c.quantity, price, c.quantity * price, c.saleType, c.basePrice)
  }

  /** The existing line with `extra` more units, totalled at the existing
      line's own effective price. */
  function MergedLine(existing: CartLine, extra: real): CartLine
  {
    var quantity := existing.quantity + extra;
    existing.(quantity := quantity, total := quantity * LinePrice(existing))
  }

  /** `addToCart`'s updater: merge into the first line with the same key, or
      append a new line. */
  function AddLine(items: seq<CartLine>, c: Candidate): (r: seq<CartLine>)
    ensures |r| == if HasKey(items, CandidateKey(c)) then |items| else |items| + 1
  {
    var i := FindIndex(items, CandidateKey(c));
    if i >= 0 then items[i := MergedLine(items[i], c.quantity)]
    else items + [NewLine(c)]
  }

  /** Adding an absent key appends exactly one line, built from the candidate,
      and leaves the earlier lines as they were. */
  lemma AddAbsentAppends(items: seq<CartLine>, c: Candidate)
    requires !HasKey(items, CandidateKey(c))
    ensures var r := AddLine(items, c);
      var price := EffectivePrice(c.basePrice, c.unitPrice);
      && |r| == |items| + 1
      && r[..|items|] == items
      && KeyOf(r[|items|]) == CandidateKey(c)
      && r[|items|].productName == c.productName
      && r[|items|].presentationName == c.presentationName
      && r[|items|].saleType == c.saleType
      && r[|items|].basePrice == c.basePrice
      && r[|items|].quantity == c.quantity
      && r[|items|].unitPrice == price
      && r[|items|].total == c.quantity * price
  {
    assert FindIndex(items, CandidateKey(c)) < 0;
  }

  /** Adding a key that is present keeps length and order; the matching line
      gets the summed quantity, priced at its own effective price (the
      candidate's prices are ignored), and nothing else changes. */
  lemma AddPresentMerges(items: seq<CartLine>, c: Candidate, i: nat)
    requires NoDuplicateKeys(items)
    requires i < |items| && KeyOf(items[i]) == CandidateKey(c)
    ensures var r := AddLine(items, c);
      && |r| == |items|
      && (forall k :: 0 <= k < |items| && k != i ==> r[k] == items[k])
      && r[i] == items[i].(quantity := items[i].quantity + c.quantity,
                           total := (items[i].quantity + c.quantity) * LinePrice(items[i]))
  {
    var j := FindIndex(items, CandidateKey(c));
    assert j == i;
  }

  /** Adding never creates a second line with a key already present. */
  lemma AddPreservesNoDuplicates(items: seq<CartLine>, c: Candidate)
    requires NoDuplicateKeys(items)
    ensures NoDuplicateKeys(AddLine(items, c))
  {
    var r := AddLine(items, c);
    var i := FindIndex(items, CandidateKey(c));
    if i >= 0 {
      forall a, b | 0 <= a < |r| && 0 <= b < |r| && a != b
        ensures KeyOf(r[a]) != KeyOf(r[b])
      {
        assert KeyOf(r[a]) == KeyOf(items[a]) && KeyOf(r[b]) == KeyOf(items[b]);
      }
    } else {
      forall a, b | 0 <= a < |r| && 0 <= b < |r| && a != b
        ensures KeyOf(r[a]) != KeyOf(r[b])
      {
        if a < |items| && b < |items| {
          assert r[a] == items[a] && r[b] == items[b];
        }
      }
    }
  }

  lemma AddPreservesNormalized(items: seq<CartLine>, c: Candidate)
    requires AllNormalized(items)
    ensures AllNormalized(AddLine(items, c))
  {
    var r := AddLine(items, c);
    var i := FindIndex(items, CandidateKey(c));
    if i < 0 {
      forall k | 0 <= k < |r| ensures Normalized(r[k]) {
        if k < |items| { assert r[k] == items[k]; }
      }
    }
  }

  // ---------------------------------------------------------------------
  // Remove

  /** `removeFromCart`'s updater: `filter` keeping the lines without `key`. */
  function RemoveLines(items: seq<CartLine>, key: Key): (r: seq<CartLine>)
    ensures |r| <= |items|
    ensures forall l :: l in r ==> l in items && KeyOf(l) != key
    ensures forall l :: l in items && KeyOf(l) != key ==> l in r
  {
    if items == [] then []
    else
      var rest := RemoveLines(items[1..], key);
      assert forall l :: l in items[1..] ==> l in items;
      if KeyOf(items[0]) == key then rest else [items[0]] + rest
  }

  /** Removing distributes over concatenation, so the kept lines stay in
      their original relative order. */
  lemma {:induction false} RemoveDistributes(a: seq<CartLine>, b: seq<CartLine>, key: Key)
    ensures RemoveLines(a + b, key) == RemoveLines(a, key) + RemoveLines(b, key)
  {
    if a == [] {
      assert a + b == b;
    } else {
      assert (a + b)[0] == a[0];
      assert (a + b)[1..] == a[1..] + b;
      RemoveDistributes(a[1..], b, key);
    }
  }

  /** A cart without `key` is left as it is. */
  lemma {:induction false} RemoveAbsent(items: seq<CartLine>, key: Key)
    requires !HasKey(items, key)
    ensures RemoveLines(items, key) == items
  {
    if items != [] {
      assert !HasKey(items[1..], key) by {
        forall k | 0 <= k < |items[1..]| ensures KeyOf(items[1..][k]) != key {
          assert items[1..][k] == items[k + 1];
        }
      }
      RemoveAbsent(items[1..], key);
    }
  }

  /** With unique keys, removing a present key deletes exactly that one line. */
  lemma RemoveDeletesOne(items: seq<CartLine>, key: Key, i: nat)
    requires NoDuplicateKeys(items)
    requires i < |items| && KeyOf(items[i]) == key
    ensures RemoveLines(items, key) == items[..i] + items[i + 1..]
  {
    assert items == items[..i] + ([items[i]] + items[i + 1..]);
    RemoveDistributes(items[..i], [items[i]] + items[i + 1..], key);
    RemoveDistributes([items[i]], items[i + 1..], key);
    assert !HasKey(items[..i], key) by {
      forall k | 0 <= k < i ensures KeyOf(items[..i][k]) != key {
        assert items[..i][k] == items[k];
      }
    }
    var post := items[i + 1..];
    assert !HasKey(post, key) by {
      forall k | 0 <= k < |post| ensures KeyOf(post[k]) != key {
        assert post[k] == items[i + 1 + k];
      }
    }
    RemoveAbsent(items[..i], key);
    RemoveAbsent(items[i + 1..], key);
  }

  /** Removing twice is removing once. */
  lemma RemoveIdempotent(items: seq<CartLine>, key: Key)
    ensures RemoveLines(RemoveLines(items, key), key) == RemoveLines(items, key)
  {
    var r := RemoveLines(items, key);
    assert !HasKey(r, key) by {
      forall k | 0 <= k < |r| ensures KeyOf(r[k]) != key {
        assert r[k] in r;
      }
    }
    RemoveAbsent(r, key);
  }

  lemma {:induction false} RemovePreservesNoDuplicates(items: seq<CartLine>, key: Key)
    requires NoDuplicateKeys(items)
    ensures NoDuplicateKeys(RemoveLines(items, key))
  {
    if items != [] {
      var rest := RemoveLines(items[1..], key);
      assert NoDuplicateKeys(items[1..]) by {
        forall a, b | 0 <= a < |items[1..]| && 0 <= b < |items[1..]| && a != b
          ensures KeyOf(items[1..][a]) != KeyOf(items[1..][b])
        {
          assert items[1..][a] == items[a + 1] && items[1..][b] == items[b + 1];
        }
      }
      RemovePreservesNoDuplicates(items[1..], key);
      if KeyOf(items[0]) != key {
        var r := [items[0]] + rest;
        forall a, b | 0 <= a < |r| && 0 <= b < |r| && a != b
          ensures KeyOf(r[a]) != KeyOf(r[b])
        {
          if a == 0 || b == 0 {
            var other := if a == 0 then r[b] else r[a];
            assert other in rest;
            assert other in items[1..];
            var m :| 0 <= m < |items[1..]| && items[1..][m] == other;
            assert items[m + 1] == other;
          } else {
            assert r[a] == rest[a - 1] && r[b] == rest[b - 1];
          }
        }
      }
    }
  }

  lemma {:induction false} RemovePreservesNormalized(items: seq<CartLine>, key: Key)
    requires AllNormalized(items)
    ensures AllNormalized(RemoveLines(items, key))
  {
    var r := RemoveLines(items, key);
    forall k | 0 <= k < |r| ensures Normalized(r[k]) {
      assert r[k] in r;
      var m :| 0 <= m < |items| && items[m] == r[k];
    }
  }

  // ---------------------------------------------------------------------
  // Update quantity

  /** A line with a new positive quantity, re-priced at its effective price,
      which also becomes its unit price. */
  function RequantifiedLine(l: CartLine, quantity: real): CartLine
  {
    var price := LinePrice(l);
    l.(quantity := quantity, total := quantity * price, unitPrice := price)
  }

  /** The `map` branch of `updateQuantity`: every line with `key` is
      re-quantified, the others are kept. */
  function UpdateLines(items: seq<CartLine>, key: Key, quantity: real): (r: seq<CartLine>)
    ensures |r| == |items|
    ensures forall k :: 0 <= k < |items| ==>
      r[k] == if KeyOf(items[k]) == key then RequantifiedLine(items[k], quantity) else items[k]
  {
    seq(|items|, k requires 0 <= k < |items| =>
      if KeyOf(items[k]) == key then RequantifiedLine(items[k], quantity) else items[k])
  }

  /** `updateQuantity`: a non-positive quantity removes the line, any other
      quantity re-quantifies it. */
  function UpdateQuantityLines(items: seq<CartLine>, key: Key, quantity: real): seq<CartLine>
  {
    if quantity <= 0.0 then RemoveLines(items, key) else UpdateLines(items, key, quantity)
  }

  /** A non-positive quantity has exactly the effect of removing the key. */
  lemma UpdateNonPositiveIsRemove(items: seq<CartLine>, key: Key, quantity: real)
    requires quantity <= 0.0
    ensures UpdateQuantityLines(items, key, quantity) == RemoveLines(items, key)
  {
  }

  /** A positive quantity changes only the matching line: its quantity, its
      total (quantity times effective price) and its unit price (set to that
      price).  Length, order and every other field are kept. */
  lemma UpdatePositiveChangesMatchOnly(items: seq<CartLine>, key: Key, quantity: real)
    requires quantity > 0.0
    ensures var r := UpdateQuantityLines(items, key, quantity);
      && |r| == |items|
      && forall k :: 0 <= k < |items| ==>
           if KeyOf(items[k]) == key then
             && r[k].quantity == quantity
             && r[k].unitPrice == LinePrice(items[k])
             && r[k].total == quantity * LinePrice(items[k])
             && KeyOf(r[k]) == key
             && r[k].productName == items[k].productName
             && r[k].presentationName == items[k].presentationName
             && r[k].saleType == items[k].saleType
             && r[k].basePrice == items[k].basePrice
           else r[k] == items[k]
  {
  }

  /** Updating a key that is not in the cart changes nothing. */
  lemma UpdateAbsentIsNoOp(items: seq<CartLine>, key: Key, quantity: real)
    requires !HasKey(items, key)
    ensures UpdateQuantityLines(items, key, quantity) == items
  {
    if quantity <= 0.0 {
      RemoveAbsent(items, key);
    }
  }

  lemma UpdatePreservesNoDuplicates(items: seq<CartLine>, key: Key, quantity: real)
    requires NoDuplicateKeys(items)
    ensures NoDuplicateKeys(UpdateQuantityLines(items, key, quantity))
  {
    if quantity <= 0.0 {
      RemovePreservesNoDuplicates(items, key);
    } else {
      var r := UpdateLines(items, key, quantity);
      forall a, b | 0 <= a < |r| && 0 <= b < |r| && a != b
        ensures KeyOf(r[a]) != KeyOf(r[b])
      {
        assert KeyOf(r[a]) == KeyOf(items[a]) && KeyOf(r[b]) == KeyOf(items[b]);
      }
    }
  }

  lemma UpdatePreservesNormalized(items: seq<CartLine>, key: Key, quantity: real)
    requires AllNormalized(items)
    ensures AllNormalized(UpdateQuantityLines(items, key, quantity))
  {
    if quantity <= 0.0 {
      RemovePreservesNormalized(items, key);
    }
  }

  // ---------------------------------------------------------------------
  // Totals

  /** `getTotal`: `reduce((sum, item) => sum + item.total, 0)`. */
  function Total(items: seq<CartLine>): real
  {
    if items == [] then 0.0 else Total(items[..|items| - 1]) + items[|items| - 1].total
  }

  /** The numeric sum of the quantities, before `getItemCount` formats it. */
  function ItemCount(items: seq<CartLine>): real
  {
    if items == [] then 0.0 else ItemCount(items[..|items| - 1]) + items[|items| - 1].quantity
  }

  /** The sum of quantity times effective price over the lines. */
  function PricedSum(items: seq<CartLine>): real
  {
    if items == [] then 0.0 else items[0].quantity * LinePrice(items[0]) + PricedSum(items[1..])
  }

  lemma {:induction false} TotalAppend(a: seq<CartLine>, b: seq<CartLine>)
    ensures Total(a + b) == Total(a) + Total(b)
    decreases |b|
  {
    if b != [] {
      assert (a + b)[..|a + b| - 1] == a + b[..|b| - 1];
      TotalAppend(a, b[..|b| - 1]);
    } else {
      assert a + b == a;
    }
  }

  lemma {:induction false} ItemCountAppend(a: seq<CartLine>, b: seq<CartLine>)
    ensures ItemCount(a + b) == ItemCount(a) + ItemCount(b)
    decreases |b|
  {
    if b != [] {
      assert (a + b)[..|a + b| - 1] == a + b[..|b| - 1];
      ItemCountAppend(a, b[..|b| - 1]);
    } else {
      assert a + b == a;
    }
  }

  /** The total, and the item count, see one line replaced as the difference
      of that line's old and new values. */
  lemma SumsAfterReplace(items: seq<CartLine>, i: nat, l: CartLine)
    requires i < |items|
    ensures Total(items[i := l]) == Total(items) - items[i].total + l.total
    ensures ItemCount(items[i := l]) == ItemCount(items) - items[i].quantity + l.quantity
  {
    var pre, post := items[..i], items[i + 1..];
    assert items == pre + [items[i]] + post;
    assert items[i := l] == pre + [l] + post;
    TotalAppend(pre + [items[i]], post);
    TotalAppend(pre, [items[i]]);
    TotalAppend(pre + [l], post);
    TotalAppend(pre, [l]);
    ItemCountAppend(pre + [items[i]], post);
    ItemCountAppend(pre, [items[i]]);
    ItemCountAppend(pre + [l], post);
    ItemCountAppend(pre, [l]);
    assert Total([items[i]]) == items[i].total by { assert [items[i]][..0] == []; }
    assert Total([l]) == l.total by { assert [l][..0] == []; }
    assert ItemCount([items[i]]) == items[i].quantity by { assert [items[i]][..0] == []; }
    assert ItemCount([l]) == l.quantity by { assert [l][..0] == []; }
  }

  /** For lines the ledger wrote, the total is the sum of quantity times
      effective price, and it is 0 for an empty cart. */
  lemma {:induction false} TotalIsPricedSum(items: seq<CartLine>)
    requires AllNormalized(items)
    ensures Total(items) == PricedSum(items)
    ensures items == [] ==> Total(items) == 0.0
  {
    if items != [] {
      assert items == [items[0]] + items[1..];
      TotalAppend([items[0]], items[1..]);
      assert Total([items[0]]) == items[0].total by { assert [items[0]][..0] == []; }
      TotalIsPricedSum(items[1..]);
    }
  }

  /** Each add raises the item count by the candidate's quantity, whether it
      merges or appends. */
  lemma ItemCountAfterAdd(items: seq<CartLine>, c: Candidate)
    ensures ItemCount(AddLine(items, c)) == ItemCount(items) + c.quantity
  {
    var i := FindIndex(items, CandidateKey(c));
    if i >= 0 {
      SumsAfterReplace(items, i, MergedLine(items[i], c.quantity));
    } else {
      ItemCountAppend(items, [NewLine(c)]);
      assert ItemCount([NewLine(c)]) == c.quantity by { assert [NewLine(c)][..0] == []; }
    }
  }

  /** Adding a new line raises the total by the candidate's quantity at the
      candidate's own effective price. */
  lemma TotalAfterAddNew(items: seq<CartLine>, c: Candidate)
    requires !HasKey(items, CandidateKey(c))
    ensures Total(AddLine(items, c)) == Total(items) + c.quantity * EffectivePrice(c.basePrice, c.unitPrice)
  {
    var l := NewLine(c);
    assert AddLine(items, c) == items + [l];
    TotalAppend(items, [l]);
    assert Total([l]) == l.total by { assert [l][..0] == []; }
  }

  /** When the line merged into was written by the ledger, merging raises the
      total by the candidate's quantity at that line's effective price. */
  lemma TotalAfterAddMerge(items: seq<CartLine>, c: Candidate, i: nat)
    requires i < |items| && FindIndex(items, CandidateKey(c)) == i
    requires Normalized(items[i])
    ensures Total(AddLine(items, c)) == Total(items) + c.quantity * LinePrice(items[i])
  {
    MergeTotalShape(items, c, i);
    MergedTotal(items, c, i);
  }

  lemma MergedTotal(items: seq<CartLine>, c: Candidate, i: nat)
    requires i < |items|
    requires Normalized(items[i])
    ensures Total(items[i := MergedLine(items[i], c.quantity)]) == Total(items) + c.quantity * LinePrice(items[i])
  {
    TotalAfterMerge(items, i, c.quantity);
  }

  lemma MergeTotalShape(items: seq<CartLine>, c: Candidate, i: nat)
    requires i < |items| && FindIndex(items, CandidateKey(c)) == i
    ensures Total(AddLine(items, c)) == Total(items[i := MergedLine(items[i], c.quantity)])
  {
  }

  lemma TotalAfterMerge(items: seq<CartLine>, i: nat, extra: real)
    requires i < |items| && Normalized(items[i])
    ensures Total(items[i := MergedLine(items[i], extra)]) == Total(items) + extra * LinePrice(items[i])
  {
    var m := MergedLine(items[i], extra);
    SumsAfterReplace(items, i, m);
    var p := LinePrice(items[i]);
    assert items[i].total == items[i].quantity * p;
    assert m.total == (items[i].quantity + extra) * p;
    assert (items[i].quantity + extra) * p == items[i].quantity * p + extra * p;
  }
}
