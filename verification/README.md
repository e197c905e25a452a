# Cart store of the smart_shop mobile app

This project models the shopping-cart store of the smart_shop app
(`context/CartContext.tsx`). The store keeps an ordered list of cart
entries. Each entry is a product and a quantity. Five operations change the
list: add a product, remove by product id, increment by id, decrement by id,
and clear. After every change the store recomputes three aggregates from the
list:

- the cart total: the sum of effective unit price times quantity;
- the item count: the sum of the quantities;
- the loyalty points to earn: one point per 100 currency units, rounded down.

The effective unit price is the discounted price when it is present and
nonzero, and the list price otherwise. The cart row
(`components/CartItem.tsx:15-16`) uses the same rule for its line total.
`CartTotals.LineTotal` models both places, so the cart total is, by
definition, the sum of the line totals the rows display.

Layout:

- `types.dfy` (module `Types`): `Product` (id, price, optional discounted
  price) and `CartEntry`. The app's `types` file is not part of this model.
  These records carry only the fields the cart reads.
- `cart_totals.dfy` (module `CartTotals`): the effective price, the line
  total, the two sums, the points rule, and the source's accumulation loop
  as a method.
- `cart_items.dfy` (module `CartItems`): `findIndex` and `find` by product
  id, and the list operations as functions from the old list to the new one.
  It also holds the lemmas on what each operation keeps and what it changes.
  Finally it has the operations as a datatype and the invariant for any
  sequence of them.
- `cart_context.dfy` (module `CartContext`): class `CartStore`, holding the
  entries and the three aggregate cells. Each method replaces the entries and
  then calls `RecalculateTotals`. `AddToCart` does what the source does: it
  finds the index and updates that entry in place, or it appends. It is
  proved equal to the recursive reference definition `CartItems.Added`. The
  class invariant `Valid()` covers three things: unique ids, quantities of
  at least one, and aggregates equal to the sums over the current entries.

Notes on the code's behaviour that the model keeps:

- The effective price is `discountPrice || price`
  (`context/CartContext.tsx:38`), so a discounted price of 0 also falls
  back to the list price.
- `decrementQuantity` checks only the first entry with the id
  (`Array.find`), but then decrements every entry with that id (`map`).
  `CartItems.Decremented` does the same. Because the ids are unique, only
  that one entry changes (`DecrementedSpec`).
- When a product is already in the cart, adding it again keeps the product
  record the entry already holds. The record passed in is ignored. So the
  price added to the total is the stored entry's price (`AddedExistingTotals`).

## Model

| member | source | states |
|---|---|---|
| `CartTotals.EffectivePrice` | context/CartContext.tsx:38 | A nonzero discounted price is charged. An absent or zero discounted price falls back to the list price. This follows JavaScript truthiness, and `components/CartItem.tsx:15` uses the same rule. |
| `CartTotals.LineTotal` | components/CartItem.tsx:15-16 | The row total is the effective price times the quantity, the same product the store sums at `context/CartContext.tsx:38-39`. A line of quantity 0 costs 0, and a line of quantity 1 costs the effective price. |
| `CartTotals.CartTotal` | context/CartContext.tsx:37-39 | The sum of the line totals. The empty cart costs 0, and a one-line cart costs exactly that row's total. Its additivity is stated by `TotalsAppend`. |
| `CartTotals.ItemsCount` | context/CartContext.tsx:37-40 | The sum of the quantities. The empty cart holds 0 items, and a one-line cart holds that line's quantity. Its additivity is stated by `TotalsAppend`. |
| `CartTotals.PointsToEarn` | context/CartContext.tsx:46-47 | The points are the floor of total / 100: `100 * r <= total < 100 * r + 100`. So 15000 gives 150 and 99 gives 0. |
| `CartTotals.TotalsAppend` | context/CartContext.tsx:37-41 | Both the total and the item count split over a concatenation of entry lists. |
| `CartTotals.TotalsUpdate` | context/CartContext.tsx:37-41 | Replacing one entry changes the total by the difference of the two line totals. It changes the count by the difference of the two quantities. |
| `CartTotals.TotalsDelete` | context/CartContext.tsx:37-41 | Deleting one entry takes its line total out of the total and its quantity out of the count. |
| `CartTotals.ItemsCountAtLeastLines` | context/CartContext.tsx:40 | When every quantity is at least one, the item count is at least the number of entries. The count is zero exactly when the cart is empty. |
| `CartTotals.CalculateCartTotals` | context/CartContext.tsx:33-48 | The forEach loop returns three values: the sum of the line totals, the sum of the quantities, and the points `PointsToEarn(total)`, that is floor(total / 100). |
| `CartItems.TotalsBumped` | context/CartContext.tsx:37-41 | Moving one entry's quantity by delta moves the item count by delta and the total by delta times that entry's effective price. |
| `CartItems.LineTotalBumped` | components/CartItem.tsx:16 | Moving a line's quantity by delta moves its row total by delta effective prices. |
| `CartItems.FindIndex` | context/CartContext.tsx:53-55 | The result is -1 exactly when no entry has the id. Otherwise it is an index holding the id, and no earlier index holds it. |
| `CartItems.Find` | context/CartContext.tsx:88 | The result is None exactly when no entry has the id. Otherwise it is the entry at the index findIndex returns: the first entry with that id, whose quantity the guard at line 91 reads. |
| `CartItems.OnlyMatch` | context/CartContext.tsx:53-55 | With unique ids, any entry holding the id is the one that findIndex returns. |
| `CartItems.Added` | context/CartContext.tsx:50-67 | Adding grows the cart by at most one entry. When it grows, the result is exactly the old entries followed by `{product, quantity: 1}`. `AddedExisting` and `AddedNew` state each case in full. |
| `CartItems.AddedExisting` | context/CartContext.tsx:57-61 | Adding a product already in the cart gives the old list with that one entry's quantity raised by exactly 1. Length, order and all other entries are unchanged. |
| `CartItems.AddedNew` | context/CartContext.tsx:62-65 | Adding a product not in the cart gives the old list followed by `{product, quantity: 1}`. |
| `CartItems.AddedWellFormed` | context/CartContext.tsx:50-67 | Adding keeps the ids unique and every quantity at least 1. |
| `CartItems.AddedExistingTotals` | context/CartContext.tsx:57-61 | Re-adding raises the count by 1 and the total by the effective price of the stored entry's product. |
| `CartItems.AddedNewTotals` | context/CartContext.tsx:62-65 | Adding a new product raises the count by 1 and the total by its effective price. |
| `CartItems.Removed` | context/CartContext.tsx:69-73 | An entry is kept exactly when it is in the old cart and its id differs from the removed one. An absent id leaves the cart unchanged. |
| `CartItems.RemovedAppend` | context/CartContext.tsx:71 | The filter distributes over concatenation, so the kept entries stay in their original relative order. |
| `CartItems.RemovedUnique` | context/CartContext.tsx:69-73 | With unique ids, removing a present id deletes exactly the entry at its index, and the remaining entries keep their order. |
| `CartItems.RemovedWellFormed` | context/CartContext.tsx:69-73 | Removing keeps the ids unique and every quantity at least 1. |
| `CartItems.RemovedTotals` | context/CartContext.tsx:69-73 | Removing a present id takes that entry's line total out of the total and its quantity out of the count. |
| `CartItems.QuantityChanged` | context/CartContext.tsx:77-81 | The map keeps the length. Each entry with the id has its quantity moved by delta, and every other entry is kept as it is. |
| `CartItems.QuantityChangedUnique` | context/CartContext.tsx:94-98 | With unique ids, the map changes only the entry at the found index. An absent id changes nothing. |
| `CartItems.Incremented` | context/CartContext.tsx:75-83 | The length is kept. Every entry keeps its product; an entry whose id matches gains exactly 1 and every other quantity is unchanged. An absent id leaves the cart unchanged. |
| `CartItems.IncrementedSpec` | context/CartContext.tsx:75-83 | Incrementing adds 1 to the matching entry only. An absent id leaves the cart unchanged. |
| `CartItems.IncrementedWellFormed` | context/CartContext.tsx:75-83 | Incrementing keeps the ids unique and every quantity at least 1. |
| `CartItems.IncrementedTotals` | context/CartContext.tsx:75-83 | Incrementing a present id raises the count by 1 and the total by that entry's effective price. |
| `CartItems.Decremented` | context/CartContext.tsx:85-100 | The cart is unchanged when the id is absent or the first entry with it has quantity at most 1. Otherwise the length is kept, every entry keeps its product, each entry with the id loses exactly 1, and every other quantity is unchanged. |
| `CartItems.DecrementedSpec` | context/CartContext.tsx:85-100 | The cart is unchanged when the id is absent or its quantity is at most 1. Otherwise exactly that entry loses 1 and nothing else changes. |
| `CartItems.DecrementedWellFormed` | context/CartContext.tsx:85-100 | Decrementing never takes a quantity below 1 and keeps the ids unique. |
| `CartItems.DecrementedTotals` | context/CartContext.tsx:94-98 | An effective decrement lowers the count by 1 and the total by that entry's effective price. |
| `CartItems.ApplyWellFormed` | context/CartContext.tsx:50-104 | Each of the five operations keeps the ids unique and every quantity at least 1. |
| `CartItems.ApplyAllWellFormed` | context/CartContext.tsx:50-104 | Every sequence of operations keeps the ids unique and every quantity at least 1. |
| `CartContext.CartStore.constructor` | context/CartContext.tsx:23-26 | The store starts with no entries and all three aggregates at 0. |
| `CartContext.CartStore.RecalculateTotals` | context/CartContext.tsx:28-48 | After a recompute, the three cells equal the total, the count and the points of the current entries. |
| `CartContext.CartStore.AddToCart` | context/CartContext.tsx:50-67 | The in-place update or append equals `Added` of the old entries. The invariant and fresh aggregates hold afterwards, and the count rises by 1. |
| `CartContext.CartStore.RemoveFromCart` | context/CartContext.tsx:69-73 | The new entries are `Removed` of the old ones. The invariant holds and the aggregates are recomputed. |
| `CartContext.CartStore.IncrementQuantity` | context/CartContext.tsx:75-83 | The new entries are `Incremented` of the old ones. The invariant holds and the aggregates are recomputed. |
| `CartContext.CartStore.DecrementQuantity` | context/CartContext.tsx:85-100 | The new entries are `Decremented` of the old ones. The invariant holds and the aggregates are recomputed. |
| `CartContext.CartStore.ClearCart` | context/CartContext.tsx:102-104 | The cart becomes empty, and the total, the count and the points are all 0. |

## Left out

- React plumbing is not modelled: the context object, the provider
  component, the `useCart` hook and its "must be used within a
  CartProvider" error (`context/CartContext.tsx:1-22, 106-131`). These are
  framework wiring with no cart logic.
- `useEffect` scheduling is not modelled. The source recomputes the
  aggregates in an effect after the entries change. Here every mutating
  method calls `RecalculateTotals` before it returns. So the model does not
  capture the render in which the source shows the new entries beside the
  old aggregates.
- Sharing of entry objects is not modelled. The source's `addToCart`
  mutates the entry object that the previous array also holds. In a single,
  sequential store the only visible effect is the quantity rising by one,
  so the model replaces the entry with a new value.
- JavaScript numbers are modelled as unbounded integers. Float rounding
  beyond 2^53 is not modelled. A `NaN` discounted price is not modelled
  either; it would also fall back to the list price.
- The checkout summary on the cart screen is not part of this model
  (`app/(tabs)/cart.tsx:31-62`). That covers the promo code, the loyalty
  redemption, the delivery fee and the payable total. It is local state of
  that screen, not of the cart store, and it rounds a floating-point 10%
  discount with `Math.round`.
- The other screens and components are display, navigation, camera,
  clock-dependent formatting or file-system scripts with no cart logic.
  Among them, `components/CartItem.tsx` contributes only the price and
  line-total rule modelled above. Its disabled decrement button mirrors the
  store's `quantity <= 1` guard.
- Product fields the cart never reads (name, image, category) are left
  out.
