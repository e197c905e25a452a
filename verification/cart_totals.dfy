/** The aggregates the cart shows: the money total, the number of items and
    the loyalty points the purchase earns. They are functions of the entries
    alone, so they can never be stale with respect to the entries. */
module CartTotals {
  import opened Types

  /** The unit price a cart line charges. The source writes
      `discountPrice || price`, so a discounted price that is absent OR zero
      falls back to the list price. */
  function EffectivePrice(p: Product): (r: int)
    ensures p.discountPrice.Some? && p.discountPrice.value != 0 ==> r == p.discountPrice.value
    ensures p.discountPrice == None || p.discountPrice == Some(0) ==> r == p.price
  {
    match p.discountPrice
    case Some(d) => if d != 0 then d else p.price
    case None => p.price
  }

  /** What one cart row shows as its total: the effective unit price times
      the quantity, so an empty line costs nothing and one unit costs the
      effective price. */
  function LineTotal(e: CartEntry): (r: int)
    ensures e.quantity == 0 ==> r == 0
    ensures e.quantity == 1 ==> r == EffectivePrice(e.product)
  {
    EffectivePrice(e.product) * e.quantity
  }

  /** The sum of the line totals of the entries: the empty cart costs
      nothing, and a cart of one line costs what that row shows. */
  function CartTotal(s: seq<CartEntry>): (r: int)
    ensures s == [] ==> r == 0
    ensures |s| == 1 ==> r == LineTotal(s[0])
  {
    if s == [] then 0 else LineTotal(s[0]) + CartTotal(s[1..])
  }

  /** The sum of the quantities of the entries: the empty cart holds no
      items, and a cart of one line holds that line's quantity. */
  function ItemsCount(s: seq<CartEntry>): (r: int)
    ensures s == [] ==> r == 0
    ensures |s| == 1 ==> r == s[0].quantity
  {
    if s == [] then 0 else s[0].quantity + ItemsCount(s[1..])
  }

  /** One loyalty point per 100 currency units, rounded down. */
  function PointsToEarn(total: int): (r: int)
    ensures 100 * r <= total < 100 * r + 100
  {
    total / 100
  }

  /** Both sums split over a concatenation. */
  lemma {:induction false} TotalsAppend(s: seq<CartEntry>, t: seq<CartEntry>)
    ensures CartTotal(s + t) == CartTotal(s) + CartTotal(t)
    ensures ItemsCount(s + t) == ItemsCount(s) + ItemsCount(t)
  {
    if s == [] {
      assert s + t == t;
    } else {
      assert (s + t)[1..] == s[1..] + t;
      TotalsAppend(s[1..], t);
    }
  }

  /** Replacing the entry at index i changes both sums by the difference
      between the new entry and the old one. */
  lemma {:induction false} TotalsUpdate(s: seq<CartEntry>, i: nat, e: CartEntry)
    requires i < |s|
    ensures CartTotal(s[i := e]) == CartTotal(s) - LineTotal(s[i]) + LineTotal(e)
    ensures ItemsCount(s[i := e]) == ItemsCount(s) - s[i].quantity + e.quantity
  {
    var before, after := s[..i], s[i + 1..];
    assert s == before + ([s[i]] + after);
    assert s[i := e] == before + ([e] + after);
    TotalsAppend(before, [s[i]] + after);
    TotalsAppend([s[i]], after);
    TotalsAppend(before, [e] + after);
    TotalsAppend([e], after);
  }

  /** Removing the entry at index i takes its line total and its quantity
      out of the two sums. */
  lemma {:induction false} TotalsDelete(s: seq<CartEntry>, i: nat)
    requires i < |s|
    ensures CartTotal(s[..i] + s[i + 1..]) == CartTotal(s) - LineTotal(s[i])
    ensures ItemsCount(s[..i] + s[i + 1..]) == ItemsCount(s) - s[i].quantity
  {
    var before, after := s[..i], s[i + 1..];
    assert s == before + ([s[i]] + after);
    TotalsAppend(before, [s[i]] + after);
    TotalsAppend([s[i]], after);
    TotalsAppend(before, after);
  }

  /** When every quantity is at least one, the item count is at least the
      number of lines, and it is zero exactly for the empty cart. */
  lemma {:induction false} ItemsCountAtLeastLines(s: seq<CartEntry>)
    requires forall k :: 0 <= k < |s| ==> s[k].quantity >= 1
    ensures ItemsCount(s) >= |s|
    ensures ItemsCount(s) == 0 <==> s == []
  {
    if s != [] {
      ItemsCountAtLeastLines(s[1..]);
    }
  }

  /** The source's accumulation loop: one pass over the entries adding the
      effective price times the quantity to the total and the quantity to
      the count, then the points from the total. */
  method CalculateCartTotals(items: seq<CartEntry>) returns (total: int, count: int, points: int)
    ensures total == CartTotal(items)
    ensures count == ItemsCount(items)
    ensures points == PointsToEarn(total)
  {
    total, count := 0, 0;
    var i := 0;
    while i < |items|
      invariant 0 <= i <= |items|
      invariant total == CartTotal(items[..i])
      invariant count == ItemsCount(items[..i])
    {
      var item := items[i];
      var itemPrice := EffectivePrice(item.product);
      assert items[..i+1] == items[..i] + [item];
      TotalsAppend(items[..i], [item]);
      total := total + itemPrice * item.quantity;
      count := count + item.quantity;
      i := i + 1;
    }
    assert items[..i] == items;
    points := PointsToEarn(total);
  }
}
