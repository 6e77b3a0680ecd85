/**
 * The cart engine of `lib/cart-context.tsx`: an ordered list of line items and
 * an optional applied coupon, the operations that change them, and the
 * subtotal, discount, clamped total and item count derived from them.
 */
module CartContext {
  import opened Wrappers
  import Lists
  import opened ProductsContext

  /** A line item; `price` is the unit price captured when the item was first added. */
  datatype CartItem = CartItem(id: string, title: string, image: string, price: real, quantity: int)

  /** What `addItem` receives: a line item without its quantity. */
  datatype ItemInput = ItemInput(id: string, title: string, image: string, price: real)

  function ItemId(i: CartItem): string { i.id }

  function IdIs(id: string): CartItem -> bool { (i: CartItem) => i.id == id }
  function IdIsNot(id: string): CartItem -> bool { (i: CartItem) => i.id != id }

  /** `{ ...i, quantity: i.quantity + 1 }` */
  function Incremented(i: CartItem): CartItem { i.(quantity := i.quantity + 1) }

  /** `{ ...item, quantity }` */
  function WithQuantity(q: int): CartItem -> CartItem { (i: CartItem) => i.(quantity := q) }

  /** `{ ...item, quantity: 1 }` */
  function NewLine(item: ItemInput): CartItem {
    CartItem(item.id, item.title, item.image, item.price, 1)
  }

  /** The cart invariant: no id occurs twice and every quantity is at least one. */
  ghost predicate ValidItems(items: seq<CartItem>) {
    Lists.UniqueBy(items, ItemId) && forall i :: 0 <= i < |items| ==> items[i].quantity >= 1
  }

  // ---------------------------------------------------------------- item-list transitions

  /**
   * `addItem`: an item already in the cart gets one more unit at its first
   * captured price; a new item is appended with quantity one.
   */
  function AddedItems(items: seq<CartItem>, item: ItemInput): (r: seq<CartItem>)
    ensures (exists k :: 0 <= k < |items| && items[k].id == item.id) ==>
              |r| == |items| && forall i :: 0 <= i < |items| ==>
                r[i] == if items[i].id == item.id then items[i].(quantity := items[i].quantity + 1) else items[i]
    ensures (forall k :: 0 <= k < |items| ==> items[k].id != item.id) ==>
              r == items + [CartItem(item.id, item.title, item.image, item.price, 1)]
    ensures ValidItems(items) ==> ValidItems(r)
  {
    if Lists.Find(items, IdIs(item.id)).Some? then
      Lists.MapIfUnique(items, IdIs(item.id), Incremented, ItemId);
      Lists.MapIf(items, IdIs(item.id), Incremented)
    else
      items + [NewLine(item)]
  }

  /** `removeItem`: the items with another id, in their order. */
  function RemovedItems(items: seq<CartItem>, id: string): (r: seq<CartItem>)
    ensures Lists.IsSubsequence(r, items)
    ensures forall i :: 0 <= i < |r| ==> r[i].id != id
    ensures forall i :: 0 <= i < |items| && items[i].id != id ==> items[i] in r
    ensures forall i :: 0 <= i < |items| && items[i].id != id ==> multiset(r)[items[i]] == multiset(items)[items[i]]
    ensures ValidItems(items) ==> ValidItems(r)
  {
    Lists.FilterUnique(items, IdIsNot(id), ItemId);
    Lists.FilterCounts(items, IdIsNot(id));
    Lists.Filter(items, IdIsNot(id))
  }

  /** `updateQuantity`: a quantity of zero or less removes the item; otherwise that item, uncapped, gets it. */
  function QuantityUpdated(items: seq<CartItem>, id: string, quantity: int): (r: seq<CartItem>)
    ensures quantity <= 0 ==> r == RemovedItems(items, id)
    ensures quantity > 0 ==> |r| == |items| && forall i :: 0 <= i < |items| ==>
              r[i] == if items[i].id == id then items[i].(quantity := quantity) else items[i]
    ensures ValidItems(items) ==> ValidItems(r)
  {
    if quantity <= 0 then RemovedItems(items, id)
    else
      Lists.MapIfUnique(items, IdIs(id), WithQuantity(quantity), ItemId);
      Lists.MapIf(items, IdIs(id), WithQuantity(quantity))
  }

  /** Removing an id that is not in the cart changes nothing. */
  lemma RemoveAbsentIsNoop(items: seq<CartItem>, id: string)
    requires forall i :: 0 <= i < |items| ==> items[i].id != id
    ensures RemovedItems(items, id) == items
  {
    Lists.FilterAll(items, IdIsNot(id));
  }

  // ---------------------------------------------------------------- derived values

  /** One line's contribution to the subtotal: its captured price times its quantity. */
  function LineTotal(i: CartItem): (r: real)
    ensures i.quantity == 0 ==> r == 0.0
    ensures i.quantity == 1 ==> r == i.price
    ensures i.price >= 0.0 && i.quantity >= 1 ==> r >= i.price
  {
    i.price * i.quantity as real
  }

  /** `subtotal`: the left fold of price times quantity; non-negative lines give a non-negative subtotal. */
  function SubtotalOf(items: seq<CartItem>): (r: real)
    ensures (forall i :: 0 <= i < |items| ==> items[i].price >= 0.0 && items[i].quantity >= 0) ==> r >= 0.0
    decreases |items|
  {
    if |items| == 0 then 0.0 else SubtotalOf(items[..|items| - 1]) + LineTotal(items[|items| - 1])
  }

  /** `itemCount`: the left fold of the quantities; non-negative quantities give a non-negative count. */
  function ItemCountOf(items: seq<CartItem>): (r: int)
    ensures (forall i :: 0 <= i < |items| ==> items[i].quantity >= 0) ==> r >= 0
    decreases |items|
  {
    if |items| == 0 then 0 else ItemCountOf(items[..|items| - 1]) + items[|items| - 1].quantity
  }

  /** Both folds can equally be taken from the front: the order of the lines does not matter to the sums' shape. */
  lemma {:induction false} FoldsFromFront(items: seq<CartItem>)
    requires |items| > 0
    ensures SubtotalOf(items) == LineTotal(items[0]) + SubtotalOf(items[1..])
    ensures ItemCountOf(items) == items[0].quantity + ItemCountOf(items[1..])
    decreases |items|
  {
    var n := |items| - 1;
    if n > 0 {
      FoldsFromFront(items[..n]);
      assert items[..n][1..] == items[1..][..n - 1];
      assert items[..n][0] == items[0] && items[1..][n - 1] == items[n];
    }
  }

  /** `discount`: nothing without a coupon, a share of the subtotal for a percentage, else the value itself, uncapped. */
  function DiscountFor(subtotal: real, coupon: Option<Coupon>): (d: real)
    ensures coupon.None? ==> d == 0.0
    ensures coupon.Some? && coupon.value.discountType == Percentage ==> d * 100.0 == subtotal * coupon.value.discountValue
    ensures coupon.Some? && coupon.value.discountType == Fixed ==> d == coupon.value.discountValue
  {
    match coupon
    case None => 0.0
    case Some(c) => if c.discountType == Percentage then subtotal * c.discountValue / 100.0 else c.discountValue
  }

  /** `total`: the subtotal less the discount, clamped at zero. */
  function TotalFor(subtotal: real, discount: real): (t: real)
    ensures t >= 0.0 && t >= subtotal - discount
    ensures t == 0.0 || t == subtotal - discount
  {
    if subtotal - discount > 0.0 then subtotal - discount else 0.0
  }

  lemma SubtotalAppend(items: seq<CartItem>, x: CartItem)
    ensures SubtotalOf(items + [x]) == SubtotalOf(items) + LineTotal(x)
    ensures ItemCountOf(items + [x]) == ItemCountOf(items) + x.quantity
  {
    assert (items + [x])[..|items|] == items;
  }

  /** Changing one position of the list changes the folds by that position's difference. */
  lemma {:induction false} PointUpdate(s: seq<CartItem>, t: seq<CartItem>, k: int)
    requires |s| == |t| && 0 <= k < |s|
    requires forall i :: 0 <= i < |s| && i != k ==> s[i] == t[i]
    ensures SubtotalOf(t) == SubtotalOf(s) - LineTotal(s[k]) + LineTotal(t[k])
    ensures ItemCountOf(t) == ItemCountOf(s) - s[k].quantity + t[k].quantity
    decreases |s|
  {
    var n := |s| - 1;
    if k == n {
      assert s[..n] == t[..n];
    } else {
      PointUpdate(s[..n], t[..n], k);
    }
  }

  /**
   * On a valid cart, adding an item already there raises the item count by one
   * and the subtotal by that item's captured unit price, not the new price.
   */
  lemma {:induction false} AddExistingTotals(items: seq<CartItem>, item: ItemInput, k: int)
    requires ValidItems(items) && 0 <= k < |items| && items[k].id == item.id
    ensures ItemCountOf(AddedItems(items, item)) == ItemCountOf(items) + 1
    ensures SubtotalOf(AddedItems(items, item)) == SubtotalOf(items) + items[k].price
  {
    var r := AddedItems(items, item);
    assert 0 <= k < |items| && items[k].id == item.id;
    assert |r| == |items| && r[k] == Incremented(items[k]);
    forall i | 0 <= i < |items| && i != k ensures items[i] == r[i] {
      if i < k {
        assert ItemId(items[i]) != ItemId(items[k]);
      } else {
        assert ItemId(items[k]) != ItemId(items[i]);
      }
    }
    PointUpdate(items, r, k);
    IncrementedLineTotal(items[k]);
  }

  lemma IncrementedLineTotal(x: CartItem)
    ensures LineTotal(Incremented(x)) == LineTotal(x) + x.price
  {
    assert (x.quantity + 1) as real == x.quantity as real + 1.0;
  }

  /** Adding a new item raises the item count by one and the subtotal by its price. */
  lemma {:induction false} AddNewTotals(items: seq<CartItem>, item: ItemInput)
    requires forall k :: 0 <= k < |items| ==> items[k].id != item.id
    ensures ItemCountOf(AddedItems(items, item)) == ItemCountOf(items) + 1
    ensures SubtotalOf(AddedItems(items, item)) == SubtotalOf(items) + item.price
  {
    assert AddedItems(items, item) == items + [NewLine(item)];
    SubtotalAppend(items, NewLine(item));
  }

  /**
   * Adding the same product twice, the second time at another price, gives one
   * line of quantity two at the first price.
   */
  lemma AddTwiceKeepsFirstPrice(first: ItemInput, second: ItemInput)
    requires first.id == second.id
    ensures AddedItems(AddedItems([], first), second) == [CartItem(first.id, first.title, first.image, first.price, 2)]
  {
    var once := AddedItems([], first);
    assert once == [NewLine(first)];
    assert once[0].id == second.id;
  }

  /** The two boundary examples of the pricing rules: a fixed discount above the subtotal, and a percentage. */
  lemma PricingExamples(fixed50: Coupon, pct15: Coupon)
    requires fixed50.discountType == Fixed && fixed50.discountValue == 50.0
    requires pct15.discountType == Percentage && pct15.discountValue == 15.0
    ensures DiscountFor(10.0, Some(fixed50)) == 50.0 && TotalFor(10.0, DiscountFor(10.0, Some(fixed50))) == 0.0
    ensures DiscountFor(200.0, Some(pct15)) == 30.0 && TotalFor(200.0, DiscountFor(200.0, Some(pct15))) == 170.0
  {
  }

  // ---------------------------------------------------------------- the provider's state

  /** The cart provider's `items`, `appliedCoupon` and `isCartOpen` state. */
  class Cart {
    var items: seq<CartItem>
    var appliedCoupon: Option<Coupon>
    var isCartOpen: bool

    ghost predicate Valid()
      reads this
    {
      ValidItems(items)
    }

    constructor ()
      ensures Valid() && items == [] && appliedCoupon.None? && !isCartOpen
    {
      items, appliedCoupon, isCartOpen := [], None, false;
    }

    method AddItem(item: ItemInput)
      requires Valid()
      modifies this`items
      ensures Valid() && items == AddedItems(old(items), item)
    {
      items := AddedItems(items, item);
    }

    method RemoveItem(id: string)
      requires Valid()
      modifies this`items
      ensures Valid() && items == RemovedItems(old(items), id)
    {
      items := RemovedItems(items, id);
    }

    method UpdateQuantity(id: string, quantity: int)
      requires Valid()
      modifies this`items
      ensures Valid() && items == QuantityUpdated(old(items), id, quantity)
    {
      if quantity <= 0 {
        RemoveItem(id);
        return;
      }
      items := Lists.MapIf(items, IdIs(id), WithQuantity(quantity));
    }

    /** Empties the items; the applied coupon stays. */
    method ClearCart()
      requires Valid()
      modifies this`items
      ensures Valid() && items == []
    {
      items := [];
    }

    method OpenCart()
      modifies this`isCartOpen
      ensures isCartOpen
    {
      isCartOpen := true;
    }

    method SetIsCartOpen(open: bool)
      modifies this`isCartOpen
      ensures isCartOpen == open
    {
      isCartOpen := open;
    }

    /** Replaces any coupon applied before. */
    method ApplyCoupon(coupon: Coupon)
      modifies this`appliedCoupon
      ensures appliedCoupon == Some(coupon)
    {
      appliedCoupon := Some(coupon);
    }

    method RemoveCoupon()
      modifies this`appliedCoupon
      ensures appliedCoupon.None?
    {
      appliedCoupon := None;
    }

    /** The cart's subtotal: the fold over its current lines. */
    function Subtotal(): (r: real)
      reads this
      ensures r == SubtotalOf(items)
      ensures items == [] ==> r == 0.0
      ensures (forall i :: 0 <= i < |items| ==> items[i].price >= 0.0) && Valid() ==> r >= 0.0
    {
      SubtotalOf(items)
    }

    /** The cart's discount: the applied coupon's discount on the current subtotal. */
    function Discount(): (d: real)
      reads this
      ensures d == DiscountFor(Subtotal(), appliedCoupon)
      ensures appliedCoupon.None? ==> d == 0.0
      ensures appliedCoupon.Some? && appliedCoupon.value.discountType == Percentage ==>
                d * 100.0 == Subtotal() * appliedCoupon.value.discountValue
      ensures appliedCoupon.Some? && appliedCoupon.value.discountType == Fixed ==> d == appliedCoupon.value.discountValue
    {
      DiscountFor(SubtotalOf(items), appliedCoupon)
    }

    /** Never negative, whatever the coupon. */
    function Total(): (t: real)
      reads this
      ensures t >= 0.0 && t >= Subtotal() - Discount()
      ensures t == 0.0 || t == Subtotal() - Discount()
      ensures t == TotalFor(Subtotal(), Discount())
    {
      TotalFor(Subtotal(), Discount())
    }

    /** The cart's item count: the fold of its quantities; on a valid cart at least the number of lines. */
    function ItemCount(): (n: int)
      reads this
      ensures n == ItemCountOf(items)
      ensures Valid() ==> n >= |items| && (n == 0 <==> items == [])
    {
      ItemCountBounds(items);
      ItemCountOf(items)
    }
  }

  lemma ItemCountBounds(items: seq<CartItem>)
    ensures ValidItems(items) ==> ItemCountOf(items) >= |items| && (ItemCountOf(items) == 0 <==> items == [])
  {
    if ValidItems(items) {
      ItemCountEmpty(items);
    }
  }

  /** On a valid cart the item count is never negative; it is zero exactly when the cart is empty. */
  lemma {:induction false} ItemCountEmpty(items: seq<CartItem>)
    requires forall i :: 0 <= i < |items| ==> items[i].quantity >= 1
    ensures ItemCountOf(items) >= |items|
    ensures ItemCountOf(items) == 0 <==> items == []
    decreases |items|
  {
    if |items| > 0 {
      ItemCountEmpty(items[..|items| - 1]);
    }
  }
}
