/** The cart's entry list and the pure operations the store applies to it:
    finding an entry, adding a product, removing, incrementing and
    decrementing by product id. Each operation is a function from the old
    list to the new one; the lemmas state what it keeps and what it changes. */
module CartItems {
  import opened Types
  import opened CartTotals

  predicate HasId(s: seq<CartEntry>, id: string)
  {
    exists k :: 0 <= k < |s| && s[k].product.id == id
  }

  /** At most one entry per product id. */
  predicate UniqueIds(s: seq<CartEntry>)
  {
    forall i, j :: 0 <= i < j < |s| ==> s[i].product.id != s[j].product.id
  }

  /** No entry is kept with a quantity below one. */
  predicate PositiveQuantities(s: seq<CartEntry>)
  {
    forall k :: 0 <= k < |s| ==> s[k].quantity >= 1
  }

  /** The store's invariant on its entries. */
  predicate WellFormed(s: seq<CartEntry>)
  {
    UniqueIds(s) && PositiveQuantities(s)
  }

  /** The same entry with its quantity moved by delta. */
  function Bumped(e: CartEntry, delta: int): CartEntry
  {
    CartEntry(e.product, e.quantity + delta)
  }

  /** Moving one entry's quantity by delta moves the item count by delta
      and the total by delta times that entry's effective price. */
  lemma {:induction false} TotalsBumped(s: seq<CartEntry>, i: nat, delta: int)
    requires i < |s|
    ensures ItemsCount(s[i := Bumped(s[i], delta)]) == ItemsCount(s) + delta
    ensures CartTotal(s[i := Bumped(s[i], delta)]) == CartTotal(s) + delta * EffectivePrice(s[i].product)
  {
    TotalsUpdate(s, i, Bumped(s[i], delta));
    LineTotalBumped(s[i], delta);
  }

  /** Moving a line's quantity by delta moves its line total by delta
      effective unit prices. */
  lemma LineTotalBumped(e: CartEntry, delta: int)
    ensures LineTotal(Bumped(e, delta)) == LineTotal(e) + delta * EffectivePrice(e.product)
  {
  }

  /** `findIndex` on the product id: the index of the first entry with that
      id, or -1 when there is none. */
  function FindIndex(s: seq<CartEntry>, id: string): (r: int)
    ensures -1 <= r < |s|
    ensures r == -1 <==> !HasId(s, id)
    ensures r != -1 ==> s[r].product.id == id && forall k :: 0 <= k < r ==> s[k].product.id != id
  {
    if s == [] then -1
    else if s[0].product.id == id then 0
    else
      var j := FindIndex(s[1..], id);
      assert forall k :: 1 <= k < |s| ==> s[k] == s[1..][k - 1];
      if j == -1 then -1 else j + 1
  }

  /** `find` on the product id: the first entry with that id, if any. */
  function Find(s: seq<CartEntry>, id: string): (r: Option<CartEntry>)
    ensures r == None <==> !HasId(s, id)
    ensures r != None ==> r.value.product.id == id && r.value == s[FindIndex(s, id)]
  {
    var i := FindIndex(s, id);
    if i == -1 then None else Some(s[i])
  }

  /** Under the uniqueness invariant, the first match is the only match. */
  lemma {:induction false} OnlyMatch(s: seq<CartEntry>, id: string, k: nat)
    requires UniqueIds(s)
    requires k < |s| && s[k].product.id == id
    ensures FindIndex(s, id) == k
  {
  }

  /** Adding a product, as a reference definition by recursion on the list:
      the first entry with the product's id gains one, and when there is
      none a new entry with quantity one goes at the end. The stored
      product of an existing entry is kept. */
  function Added(s: seq<CartEntry>, p: Product): (r: seq<CartEntry>)
    ensures |s| <= |r| <= |s| + 1
    ensures |r| == |s| + 1 ==> r == s + [CartEntry(p, 1)]
  {
    if s == [] then [CartEntry(p, 1)]
    else if s[0].product.id == p.id then [Bumped(s[0], 1)] + s[1..]
    else [s[0]] + Added(s[1..], p)
  }

  /** Adding a product already in the cart raises that entry's quantity by
      exactly one; length, order and every other entry are unchanged. */
  lemma {:induction false} AddedExisting(s: seq<CartEntry>, p: Product)
    requires HasId(s, p.id)
    ensures 0 <= FindIndex(s, p.id)
    ensures Added(s, p) == s[FindIndex(s, p.id) := Bumped(s[FindIndex(s, p.id)], 1)]
  {
    if s[0].product.id != p.id {
      var i := FindIndex(s, p.id);
      assert HasId(s[1..], p.id) by {
        assert s[1..][i - 1] == s[i];
      }
      AddedExisting(s[1..], p);
      assert FindIndex(s[1..], p.id) == i - 1;
      assert [s[0]] + s[1..][i - 1 := Bumped(s[i], 1)] == s[i := Bumped(s[i], 1)];
    }
  }

  /** Adding a product not in the cart appends one entry with quantity one
      and leaves every existing entry unchanged. */
  lemma {:induction false} AddedNew(s: seq<CartEntry>, p: Product)
    requires !HasId(s, p.id)
    ensures Added(s, p) == s + [CartEntry(p, 1)]
  {
    if s != [] {
      assert !HasId(s[1..], p.id) by {
        forall k | 0 <= k < |s[1..]| ensures s[1..][k].product.id != p.id {
          assert s[1..][k] == s[k + 1];
        }
      }
      AddedNew(s[1..], p);
      assert [s[0]] + (s[1..] + [CartEntry(p, 1)]) == s + [CartEntry(p, 1)];
    }
  }

  /** Adding keeps the store's invariant. */
  lemma {:induction false} AddedWellFormed(s: seq<CartEntry>, p: Product)
    requires WellFormed(s)
    ensures WellFormed(Added(s, p))
  {
    if HasId(s, p.id) {
      AddedExisting(s, p);
    } else {
      AddedNew(s, p);
    }
  }

  /** Adding a product already in the cart puts one more item in the cart
      and raises the total by the effective price of the product that the
      matching entry stores (not of the product passed in). */
  lemma {:induction false} AddedExistingTotals(s: seq<CartEntry>, p: Product)
    requires HasId(s, p.id)
    ensures 0 <= FindIndex(s, p.id)
    ensures ItemsCount(Added(s, p)) == ItemsCount(s) + 1
    ensures CartTotal(Added(s, p)) == CartTotal(s) + EffectivePrice(s[FindIndex(s, p.id)].product)
  {
    AddedExisting(s, p);
    TotalsBumped(s, FindIndex(s, p.id), 1);
  }

  /** Adding a new product puts one more item in the cart and raises the
      total by that product's effective price. */
  lemma {:induction false} AddedNewTotals(s: seq<CartEntry>, p: Product)
    requires !HasId(s, p.id)
    ensures ItemsCount(Added(s, p)) == ItemsCount(s) + 1
    ensures CartTotal(Added(s, p)) == CartTotal(s) + EffectivePrice(p)
  {
    AddedNew(s, p);
    TotalsAppend(s, [CartEntry(p, 1)]);
  }

  /** `filter`: the entries whose product id differs from id, in order. */
  function Removed(s: seq<CartEntry>, id: string): (r: seq<CartEntry>)
    ensures forall e :: e in r <==> e in s && e.product.id != id
    ensures !HasId(s, id) ==> r == s
  {
    if s == [] then []
    else if s[0].product.id == id then Removed(s[1..], id)
    else [s[0]] + Removed(s[1..], id)
  }

  /** Removing distributes over concatenation: filtering keeps relative order. */
  lemma {:induction false} RemovedAppend(a: seq<CartEntry>, b: seq<CartEntry>, id: string)
    ensures Removed(a + b, id) == Removed(a, id) + Removed(b, id)
  {
    if a == [] {
      assert a + b == b;
    } else {
      assert (a + b)[1..] == a[1..] + b;
      RemovedAppend(a[1..], b, id);
    }
  }

  /** In a cart with unique ids, removing a present id deletes exactly the
      entry that holds it and keeps the others in their relative order. */
  lemma {:induction false} RemovedUnique(s: seq<CartEntry>, id: string)
    requires UniqueIds(s)
    requires HasId(s, id)
    ensures 0 <= FindIndex(s, id)
    ensures Removed(s, id) == s[..FindIndex(s, id)] + s[FindIndex(s, id) + 1..]
  {
    var i := FindIndex(s, id);
    var before, after := s[..i], s[i + 1..];
    assert s == before + ([s[i]] + after);
    assert !HasId(before, id);
    assert !HasId(after, id) by {
      forall k | 0 <= k < |after| ensures after[k].product.id != id {
        assert after[k] == s[i + 1 + k];
      }
    }
    RemovedAppend(before, [s[i]] + after, id);
    RemovedAppend([s[i]], after, id);
    assert Removed([s[i]], id) == [];
  }

  /** Removing keeps the store's invariant. */
  lemma {:induction false} RemovedWellFormed(s: seq<CartEntry>, id: string)
    requires WellFormed(s)
    ensures WellFormed(Removed(s, id))
  {
    if s != [] {
      RemovedWellFormed(s[1..], id);
      if s[0].product.id != id {
        var r := Removed(s[1..], id);
        forall k | 0 <= k < |r| ensures r[k].product.id != s[0].product.id {
          assert r[k] in s[1..];
        }
        assert WellFormed([s[0]] + r);
      }
    }
  }

  /** In a cart with unique ids, removing a present id takes that entry's
      line total and quantity out of the aggregates. */
  lemma {:induction false} RemovedTotals(s: seq<CartEntry>, id: string)
    requires UniqueIds(s)
    requires HasId(s, id)
    ensures 0 <= FindIndex(s, id)
    ensures CartTotal(Removed(s, id)) == CartTotal(s) - LineTotal(s[FindIndex(s, id)])
    ensures ItemsCount(Removed(s, id)) == ItemsCount(s) - s[FindIndex(s, id)].quantity
  {
    RemovedUnique(s, id);
    TotalsDelete(s, FindIndex(s, id));
  }

  /** `map` over the entries: every entry with the given id has its
      quantity moved by delta, every other entry is kept as it is. */
  function QuantityChanged(s: seq<CartEntry>, id: string, delta: int): (r: seq<CartEntry>)
    ensures |r| == |s|
    ensures forall k :: 0 <= k < |s| ==>
      r[k] == (if s[k].product.id == id then Bumped(s[k], delta) else s[k])
  {
    if s == [] then []
    else
      var head := if s[0].product.id == id then Bumped(s[0], delta) else s[0];
      [head] + QuantityChanged(s[1..], id, delta)
  }

  /** In a cart with unique ids, the map changes only the entry found by
      FindIndex, and an absent id changes nothing. */
  lemma {:induction false} QuantityChangedUnique(s: seq<CartEntry>, id: string, delta: int)
    requires UniqueIds(s)
    ensures !HasId(s, id) ==> QuantityChanged(s, id, delta) == s
    ensures HasId(s, id) ==>
      0 <= FindIndex(s, id) &&
      QuantityChanged(s, id, delta) == s[FindIndex(s, id) := Bumped(s[FindIndex(s, id)], delta)]
  {
    var r := QuantityChanged(s, id, delta);
    if HasId(s, id) {
      var i := FindIndex(s, id);
      forall k | 0 <= k < |s| ensures r[k] == s[i := Bumped(s[i], delta)][k] {
        if s[k].product.id == id {
          OnlyMatch(s, id, k);
        }
      }
    } else {
      assert r == s;
    }
  }

  /** incrementQuantity: add one to the matching entry's quantity. */
  function Incremented(s: seq<CartEntry>, id: string): (r: seq<CartEntry>)
    ensures |r| == |s|
    ensures forall k :: 0 <= k < |s| ==>
      r[k].product == s[k].product &&
      r[k].quantity == (if s[k].product.id == id then s[k].quantity + 1 else s[k].quantity)
    ensures !HasId(s, id) ==> r == s
  {
    QuantityChanged(s, id, 1)
  }

  /** decrementQuantity: nothing changes when the first entry with that id
      is missing or has a quantity of at most one; otherwise every entry
      with that id loses one. */
  function Decremented(s: seq<CartEntry>, id: string): (r: seq<CartEntry>)
    ensures !HasId(s, id) ==> r == s
    ensures HasId(s, id) && s[FindIndex(s, id)].quantity <= 1 ==> r == s
    ensures HasId(s, id) && s[FindIndex(s, id)].quantity > 1 ==>
      |r| == |s| &&
      forall k :: 0 <= k < |s| ==>
        r[k].product == s[k].product &&
        r[k].quantity == (if s[k].product.id == id then s[k].quantity - 1 else s[k].quantity)
  {
    match Find(s, id)
    case None => s
    case Some(item) => if item.quantity <= 1 then s else QuantityChanged(s, id, -1)
  }

  /** Incrementing a present id adds one to that entry only; an absent id
      leaves the cart unchanged. */
  lemma {:induction false} IncrementedSpec(s: seq<CartEntry>, id: string)
    requires UniqueIds(s)
    ensures !HasId(s, id) ==> Incremented(s, id) == s
    ensures HasId(s, id) ==>
      0 <= FindIndex(s, id) &&
      Incremented(s, id) == s[FindIndex(s, id) := Bumped(s[FindIndex(s, id)], 1)]
  {
    QuantityChangedUnique(s, id, 1);
  }

  /** Decrementing leaves the cart unchanged when the id is absent or its
      quantity is at most one, and otherwise lowers that entry alone by one. */
  lemma {:induction false} DecrementedSpec(s: seq<CartEntry>, id: string)
    requires UniqueIds(s)
    ensures !HasId(s, id) ==> Decremented(s, id) == s
    ensures HasId(s, id) && s[FindIndex(s, id)].quantity <= 1 ==> Decremented(s, id) == s
    ensures HasId(s, id) && s[FindIndex(s, id)].quantity > 1 ==>
      Decremented(s, id) == s[FindIndex(s, id) := Bumped(s[FindIndex(s, id)], -1)]
  {
    QuantityChangedUnique(s, id, -1);
  }

  /** Incrementing keeps the store's invariant. */
  lemma {:induction false} IncrementedWellFormed(s: seq<CartEntry>, id: string)
    requires WellFormed(s)
    ensures WellFormed(Incremented(s, id))
  {
    IncrementedSpec(s, id);
  }

  /** Incrementing a present id adds one item and one effective unit price
      of that entry to the aggregates. */
  lemma {:induction false} IncrementedTotals(s: seq<CartEntry>, id: string)
    requires UniqueIds(s)
    requires HasId(s, id)
    ensures 0 <= FindIndex(s, id)
    ensures ItemsCount(Incremented(s, id)) == ItemsCount(s) + 1
    ensures CartTotal(Incremented(s, id)) == CartTotal(s) + EffectivePrice(s[FindIndex(s, id)].product)
  {
    IncrementedSpec(s, id);
    TotalsBumped(s, FindIndex(s, id), 1);
  }

  /** Decrementing keeps the store's invariant: no quantity drops below one. */
  lemma {:induction false} DecrementedWellFormed(s: seq<CartEntry>, id: string)
    requires WellFormed(s)
    ensures WellFormed(Decremented(s, id))
  {
    DecrementedSpec(s, id);
  }

  /** Decrementing a present id whose quantity exceeds one takes one item
      and one effective unit price of that entry out of the aggregates. */
  lemma {:induction false} DecrementedTotals(s: seq<CartEntry>, id: string)
    requires UniqueIds(s)
    requires HasId(s, id)
    requires s[FindIndex(s, id)].quantity > 1
    ensures ItemsCount(Decremented(s, id)) == ItemsCount(s) - 1
    ensures CartTotal(Decremented(s, id)) == CartTotal(s) - EffectivePrice(s[FindIndex(s, id)].product)
  {
    DecrementedSpec(s, id);
    TotalsBumped(s, FindIndex(s, id), -1);
  }

  /** The five store operations as values, for reasoning about any
      sequence of them. */
  datatype CartAction =
    | Add(product: Product)
    | Remove(productId: string)
    | Increment(productId: string)
    | Decrement(productId: string)
    | Clear

  function Apply(s: seq<CartEntry>, a: CartAction): seq<CartEntry>
  {
    match a
    case Add(p) => Added(s, p)
    case Remove(id) => Removed(s, id)
    case Increment(id) => Incremented(s, id)
    case Decrement(id) => Decremented(s, id)
    case Clear => []
  }

  function ApplyAll(s: seq<CartEntry>, actions: seq<CartAction>): seq<CartEntry>
    decreases |actions|
  {
    if actions == [] then s else ApplyAll(Apply(s, actions[0]), actions[1..])
  }

  /** Each single operation keeps the store's invariant. */
  lemma {:induction false} ApplyWellFormed(s: seq<CartEntry>, a: CartAction)
    requires WellFormed(s)
    ensures WellFormed(Apply(s, a))
  {
    match a
    case Add(p) => AddedWellFormed(s, p);
    case Remove(id) => RemovedWellFormed(s, id);
    case Increment(id) => IncrementedWellFormed(s, id);
    case Decrement(id) => DecrementedWellFormed(s, id);
    case Clear =>
  }

  /** Every sequence of operations keeps at most one entry per product id
      and every quantity at least one. */
  lemma {:induction false} ApplyAllWellFormed(s: seq<CartEntry>, actions: seq<CartAction>)
    requires WellFormed(s)
    ensures WellFormed(ApplyAll(s, actions))
    decreases |actions|
  {
    if actions != [] {
      ApplyWellFormed(s, actions[0]);
      ApplyAllWellFormed(Apply(s, actions[0]), actions[1..]);
    }
  }
}
