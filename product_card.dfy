/**
 * The price logic of a product tile (`components/product-card.tsx`): the
 * effective price under the resolved promotion, the displayed discount, the
 * struck-through original price, and the two buttons that put the product in
 * the cart at that price.
 */
module ProductCard {
  import opened Wrappers
  import opened ProductsContext
  import opened PromotionsContext
  import opened PromotionsManager
  import opened CartContext

  /** The card's props that the price logic and the cart use. */
  datatype CardProps = CardProps(id: string, title: string, image: string, originalPrice: real)

  /** `finalPrice`: the discounted price under an active promotion, else the original price. */
  function FinalPrice(originalPrice: real, promotion: Option<Promotion>): (r: real)
    ensures promotion.Some? && promotion.value.active ==>
              r == CalculateDiscountedPrice(originalPrice, promotion.value.discountPercentage)
    ensures promotion.None? || !promotion.value.active ==> r == originalPrice
    ensures (originalPrice >= 0.0 && (promotion.Some? ==> 0.0 <= promotion.value.discountPercentage <= 100.0))
              ==> 0.0 <= r <= originalPrice
  {
    if promotion.Some? && promotion.value.active
    then CalculateDiscountedPrice(originalPrice, promotion.value.discountPercentage)
    else originalPrice
  }

  /** `discount`: the promotion's percentage when one is active, else zero. */
  function DisplayedDiscount(promotion: Option<Promotion>): (d: real)
    ensures promotion.Some? && promotion.value.active ==> d == promotion.value.discountPercentage
    ensures promotion.None? || !promotion.value.active ==> d == 0.0
  {
    if promotion.Some? && promotion.value.active then promotion.value.discountPercentage else 0.0
  }

  /**
   * The corner class of the promotion badge, shown only under an active
   * promotion; the card's `getBadgeStyleClass` is the same mapping as the
   * admin screen's.
   */
  function PromotionBadgeClass(promotion: Option<Promotion>): (r: Option<string>)
    ensures r.Some? <==> promotion.Some? && promotion.value.active
    ensures r.Some? ==> r.value == BadgeStyleClass(promotion.value.badgeStyle)
    ensures r.Some? && promotion.value.badgeStyle == "glow" ==> r.value == "rounded-md shadow-lg"
    ensures r.Some? && promotion.value.badgeStyle !in {"rounded", "sharp", "glow"} ==> r.value == "rounded-md"
  {
    if promotion.Some? && promotion.value.active then Some(BadgeStyleClass(promotion.value.badgeStyle)) else None
  }

  /** The original price is shown struck through only for a positive displayed discount. */
  predicate ShowsOriginalPrice(promotion: Option<Promotion>) {
    DisplayedDiscount(promotion) > 0.0
  }

  /** When the original price is struck through, the price shown beside it is lower. */
  lemma StruckPriceIsHigher(originalPrice: real, promotion: Option<Promotion>)
    requires originalPrice > 0.0 && ShowsOriginalPrice(promotion)
    ensures FinalPrice(originalPrice, promotion) < originalPrice
  {
  }

  /**
   * A promotion resolved from the list is always active, so the card's own
   * `active` check never changes the price it shows.
   */
  lemma ResolvedPromotionPrice(promotions: seq<Promotion>, card: CardProps, now: int)
    ensures var promotion := GetPromotionByProductId(promotions, card.id, now);
            FinalPrice(card.originalPrice, promotion)
              == if promotion.Some?
                 then CalculateDiscountedPrice(card.originalPrice, promotion.value.discountPercentage)
                 else card.originalPrice
  {
  }

  /** The payload both buttons give `addItem`. */
  function CartPayload(card: CardProps, promotion: Option<Promotion>): (item: ItemInput)
    ensures item.id == card.id && item.title == card.title && item.image == card.image
    ensures item.price == FinalPrice(card.originalPrice, promotion)
  {
    ItemInput(card.id, card.title, card.image, FinalPrice(card.originalPrice, promotion))
  }

  /** `handleAddToCart`: adds the product at its final price; the cart stays closed or open as it was. */
  method HandleAddToCart(cart: Cart, card: CardProps, promotion: Option<Promotion>)
    requires cart.Valid()
    modifies cart`items
    ensures cart.Valid()
    ensures cart.items == AddedItems(old(cart.items), CartPayload(card, promotion))
  {
    cart.AddItem(CartPayload(card, promotion));
  }

  /** `handleBuyNow`: adds the product at its final price and opens the cart. */
  method HandleBuyNow(cart: Cart, card: CardProps, promotion: Option<Promotion>)
    requires cart.Valid()
    modifies cart`items, cart`isCartOpen
    ensures cart.Valid()
    ensures cart.items == AddedItems(old(cart.items), CartPayload(card, promotion))
    ensures cart.isCartOpen
  {
    cart.AddItem(CartPayload(card, promotion));
    cart.OpenCart();
  }

  /**
   * End to end: a product of 100 under an active 20% promotion with no end
   * date is added twice to an empty cart; the subtotal is 160, and a fixed
   * coupon of 10 leaves a total of 150.
   */
  lemma EndToEndScenario(card: CardProps, promo: Promotion, coupon: Coupon, now: int)
    requires card.originalPrice == 100.0
    requires promo.productId == card.id && promo.active && promo.discountPercentage == 20.0 && promo.endDate.None?
    requires coupon.discountType == Fixed && coupon.discountValue == 10.0
    ensures var promotion := GetPromotionByProductId([promo], card.id, now);
            var item := CartPayload(card, promotion);
            var items := AddedItems(AddedItems([], item), item);
            && item.price == 80.0
            && SubtotalOf(items) == 160.0
            && DiscountFor(SubtotalOf(items), Some(coupon)) == 10.0
            && TotalFor(SubtotalOf(items), DiscountFor(SubtotalOf(items), Some(coupon))) == 150.0
  {
    var promotion := GetPromotionByProductId([promo], card.id, now);
    assert FirstActiveFor([promo], card.id, 0);
    GetPromotionByPosition([promo], card.id, now);
    assert promotion == Some(promo);
    var item := CartPayload(card, promotion);
    var once := AddedItems([], item);
    assert once == [NewLine(item)];
    AddExistingTotals(once, item, 0);
    AddNewTotals([], item);
  }
}
