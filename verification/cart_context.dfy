/** The cart store that the app shares between its screens: the ordered
    entries and three aggregate cells (total, item count, points to earn).
    Every operation replaces the entries and then recomputes the aggregates
    before returning, so no reader ever sees aggregates that disagree with
    the entries. */
module CartContext {
  import opened Types
  import opened CartTotals
  import opened CartItems

  class CartStore {
    var cartItems: seq<CartEntry>
    var cartTotal: int
    var cartItemsCount: int
    var pointsToEarn: int

    /** Unique ids, quantities of at least one, and aggregates that are the
        sums over the current entries. */
    ghost predicate Valid()
      reads this
    {
      WellFormed(cartItems) &&
      cartTotal == CartTotal(cartItems) &&
      cartItemsCount == ItemsCount(cartItems) &&
      pointsToEarn == PointsToEarn(cartTotal)
    }

    /** A new session starts with an empty cart and zero aggregates. */
    constructor ()
      ensures Valid()
      ensures cartItems == []
      ensures cartTotal == 0 && cartItemsCount == 0 && pointsToEarn == 0
    {
      cartItems := [];
      cartTotal, cartItemsCount, pointsToEarn := 0, 0, 0;
    }

    /** Recomputes the three aggregate cells from the entries. */
    method RecalculateTotals()
      modifies this`cartTotal, this`cartItemsCount, this`pointsToEarn
      ensures cartTotal == CartTotal(cartItems)
      ensures cartItemsCount == ItemsCount(cartItems)
      ensures pointsToEarn == PointsToEarn(cartTotal)
    {
      var total, count, points := CalculateCartTotals(cartItems);
      cartTotal, cartItemsCount, pointsToEarn := total, count, points;
    }

    /** Raises the quantity of the entry with the product's id in place, or
        appends a new entry with quantity one. */
    method AddToCart(product: Product)
      requires Valid()
      modifies this
      ensures Valid()
      ensures cartItems == Added(old(cartItems), product)
      ensures cartItemsCount == old(cartItemsCount) + 1
    {
      var prevItems := cartItems;
      var existingItemIndex := FindIndex(prevItems, product.id);
      if existingItemIndex != -1 {
        var item := prevItems[existingItemIndex];
        cartItems := prevItems[existingItemIndex := CartEntry(item.product, item.quantity + 1)];
        AddedExisting(prevItems, product);
        AddedExistingTotals(prevItems, product);
      } else {
        cartItems := prevItems + [CartEntry(product, 1)];
        AddedNew(prevItems, product);
        AddedNewTotals(prevItems, product);
      }
      AddedWellFormed(prevItems, product);
      RecalculateTotals();
    }

    /** Keeps only the entries whose product id differs from productId. */
    method RemoveFromCart(productId: string)
      requires Valid()
      modifies this
      ensures Valid()
      ensures cartItems == Removed(old(cartItems), productId)
    {
      RemovedWellFormed(cartItems, productId);
      cartItems := Removed(cartItems, productId);
      RecalculateTotals();
    }

    /** Adds one to the quantity of the entry with productId, if any. */
    method IncrementQuantity(productId: string)
      requires Valid()
      modifies this
      ensures Valid()
      ensures cartItems == Incremented(old(cartItems), productId)
    {
      IncrementedWellFormed(cartItems, productId);
      cartItems := Incremented(cartItems, productId);
      RecalculateTotals();
    }

    /** Takes one from the quantity of the entry with productId, unless it
        is absent or already at one. */
    method DecrementQuantity(productId: string)
      requires Valid()
      modifies this
      ensures Valid()
      ensures cartItems == Decremented(old(cartItems), productId)
    {
      DecrementedWellFormed(cartItems, productId);
      cartItems := Decremented(cartItems, productId);
      RecalculateTotals();
    }

    /** Empties the cart; all three aggregates become zero. */
    method ClearCart()
      requires Valid()
      modifies this
      ensures Valid()
      ensures cartItems == []
      ensures cartTotal == 0 && cartItemsCount == 0 && pointsToEarn == 0
    {
      cartItems := [];
      RecalculateTotals();
    }
  }
}
