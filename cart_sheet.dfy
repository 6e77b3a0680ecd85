/**
 * The coupon controls and quantity buttons of the cart drawer
 * (`components/cart-sheet.tsx`): the `couponCode` and `couponError` state and
 * how the apply, remove, typing and +/- actions change it and the cart.
 */
module CartSheet {
  import opened Wrappers
  import Text
  import opened ProductsContext
  import opened CartContext

  /** "Digite um código de cupom" */
  const EmptyCodeError := "Digite um c\U{F3}digo de cupom"

  /** "Cupom inválido ou expirado" */
  const InvalidCodeError := "Cupom inv\U{E1}lido ou expirado"

  /** The drawer's coupon input and error message. */
  class CouponBox {
    var couponCode: string
    var couponError: string

    constructor ()
      ensures couponCode == "" && couponError == ""
    {
      couponCode, couponError := "", "";
    }

    /**
     * `handleApplyCoupon`: a blank code is refused without a lookup; a valid
     * code is applied and the input cleared; an invalid one leaves the cart's
     * coupon as it was. The lookup is the catalog store's `validateCoupon`, and
     * because the store only holds loaded coupons, a coupon that gets applied
     * is the first code match and is active.
     */
    method HandleApplyCoupon(cart: Cart, store: ProductsStore, now: int)
      requires store.Valid()
      modifies this, cart`appliedCoupon
      ensures Text.IsBlank(old(couponCode)) ==>
                couponError == EmptyCodeError && couponCode == old(couponCode)
                && cart.appliedCoupon == old(cart.appliedCoupon)
      ensures !Text.IsBlank(old(couponCode)) && ValidateCoupon(store.coupons, old(couponCode), now).Some? ==>
                cart.appliedCoupon == ValidateCoupon(store.coupons, old(couponCode), now)
                && couponCode == "" && couponError == ""
      ensures !Text.IsBlank(old(couponCode)) && ValidateCoupon(store.coupons, old(couponCode), now).None? ==>
                couponError == InvalidCodeError && couponCode == old(couponCode)
                && cart.appliedCoupon == old(cart.appliedCoupon)
      ensures cart.appliedCoupon != old(cart.appliedCoupon) ==>
                cart.appliedCoupon.Some? && cart.appliedCoupon.value in store.coupons
                && Text.Upper(cart.appliedCoupon.value.code) == Text.Upper(old(couponCode))
                && Usable(cart.appliedCoupon.value, now)
      ensures cart.appliedCoupon != old(cart.appliedCoupon) ==>
                exists k :: FirstCodeMatch(store.coupons, old(couponCode), k)
                            && cart.appliedCoupon == Some(store.coupons[k]) && store.coupons[k].active
    {
      Text.TrimEmptyIffBlank(couponCode);
      if Text.Trim(couponCode) == "" {
        couponError := EmptyCodeError;
        return;
      }
      var coupon := ValidateCoupon(store.coupons, couponCode, now);
      LoadedValidIsFirstActive(store.coupons, couponCode, now);
      if coupon.Some? {
        cart.ApplyCoupon(coupon.value);
        couponCode := "";
        couponError := "";
      } else {
        couponError := InvalidCodeError;
      }
    }

    /** `handleRemoveCoupon`: no coupon, no error. */
    method HandleRemoveCoupon(cart: Cart)
      modifies this`couponError, cart`appliedCoupon
      ensures cart.appliedCoupon.None? && couponError == ""
    {
      cart.RemoveCoupon();
      couponError := "";
    }

    /** Typing in the input stores it upper-cased and clears the error. */
    method OnCodeInput(value: string)
      modifies this
      ensures couponCode == Text.Upper(value) && couponError == ""
    {
      couponCode := Text.Upper(value);
      couponError := "";
    }
  }

  /** The minus button: one unit less, so a line at quantity one is removed. */
  method MinusClicked(cart: Cart, item: CartItem)
    requires cart.Valid()
    modifies cart`items
    ensures cart.Valid()
    ensures cart.items == QuantityUpdated(old(cart.items), item.id, item.quantity - 1)
    ensures item.quantity <= 1 ==> cart.items == RemovedItems(old(cart.items), item.id)
  {
    cart.UpdateQuantity(item.id, item.quantity - 1);
  }

  /** The plus button: one unit more, with no upper bound. */
  method PlusClicked(cart: Cart, item: CartItem)
    requires cart.Valid()
    modifies cart`items
    ensures cart.Valid()
    ensures cart.items == QuantityUpdated(old(cart.items), item.id, item.quantity + 1)
  {
    cart.UpdateQuantity(item.id, item.quantity + 1);
  }

  /** The discount row is shown with a coupon applied and a positive discount. */
  predicate ShowDiscountRow(subtotal: real, coupon: Option<Coupon>) {
    coupon.Some? && DiscountFor(subtotal, coupon) > 0.0
  }

  /**
   * When the discount row is shown on a non-empty subtotal, the total is below
   * the subtotal; a coupon worth nothing never shows the row.
   */
  lemma DiscountRowMeansSaving(subtotal: real, coupon: Option<Coupon>)
    ensures ShowDiscountRow(subtotal, coupon) && subtotal > 0.0 ==>
              TotalFor(subtotal, DiscountFor(subtotal, coupon)) < subtotal
    ensures coupon.Some? && coupon.value.discountValue == 0.0 ==> !ShowDiscountRow(subtotal, coupon)
  {
  }
}
