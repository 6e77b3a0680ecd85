/**
 * The pricing and form logic of the promotions admin screen
 * (`components/admin/promotions-manager.tsx`): the discounted-price formula,
 * the badge style classes, which product options are disabled, the discount
 * preview, the form defaults and what submitting the form sends.
 */
module PromotionsManager {
  import opened Wrappers
  import Lists
  import Text
  import opened ProductsContext
  import opened PromotionsContext

  /** `calculateDiscountedPrice`: the price less `discountPercentage` percent of it. */
  function CalculateDiscountedPrice(originalPrice: real, discountPercentage: real): (r: real)
    ensures discountPercentage == 0.0 ==> r == originalPrice
    ensures discountPercentage == 100.0 ==> r == 0.0
    ensures r * 100.0 == originalPrice * (100.0 - discountPercentage)
    ensures originalPrice >= 0.0 && 0.0 <= discountPercentage <= 100.0 ==> 0.0 <= r <= originalPrice
    ensures originalPrice > 0.0 && discountPercentage > 0.0 ==> r < originalPrice
  {
    var r := originalPrice * (1.0 - discountPercentage / 100.0);
    DiscountBounds(originalPrice, discountPercentage, r);
    r
  }

  lemma DiscountBounds(p: real, d: real, r: real)
    requires r == p * (1.0 - d / 100.0)
    ensures r * 100.0 == p * (100.0 - d)
    ensures p >= 0.0 && 0.0 <= d <= 100.0 ==> 0.0 <= r <= p
    ensures p > 0.0 && d > 0.0 ==> r < p
  {
    var f := 1.0 - d / 100.0;
    assert r == p * f;
    if p >= 0.0 && 0.0 <= d <= 100.0 {
      assert 0.0 <= f <= 1.0;
      assert p * f <= p * 1.0;
    }
    if p > 0.0 && d > 0.0 {
      assert f < 1.0;
      assert p * f < p * 1.0;
    }
  }

  /** `getBadgeStyleClass`: the three named styles have their own corner classes; anything else is `rounded-md`. */
  function BadgeStyleClass(style: string): (r: string)
    ensures style == "rounded" ==> r == "rounded-full"
    ensures style == "sharp" ==> r == "rounded-none"
    ensures style == "glow" ==> r == "rounded-md shadow-lg"
    ensures style !in {"rounded", "sharp", "glow"} ==> r == "rounded-md"
    ensures Text.StartsWith(r, "rounded-")
  {
    if style == "rounded" then "rounded-full"
    else if style == "sharp" then "rounded-none"
    else if style == "glow" then "rounded-md shadow-lg"
    else "rounded-md"
  }

  /**
   * A product option is disabled when the product already has a resolved
   * promotion and is not the product of the promotion being edited.
   */
  function OptionDisabled(promotions: seq<Promotion>, productId: string, editing: Option<Promotion>, now: int): (r: bool)
    ensures r ==> exists i :: 0 <= i < |promotions| && promotions[i].productId == productId && promotions[i].active
    ensures r <==> GetPromotionByProductId(promotions, productId, now).Some?
                   && !(editing.Some? && editing.value.productId == productId)
    ensures editing.None? ==> (r <==> GetPromotionByProductId(promotions, productId, now).Some?)
  {
    var hasPromotion := GetPromotionByProductId(promotions, productId, now);
    var isCurrentProduct := editing.Some? && editing.value.productId == productId;
    hasPromotion.Some? && !isCurrentProduct
  }

  /** An option that is enabled while creating a promotion has no promotion in effect. */
  lemma EnabledOptionHasNoPromotionInEffect(promotions: seq<Promotion>, productId: string, now: int, k: int)
    requires !OptionDisabled(promotions, productId, None, now)
    requires FirstActiveFor(promotions, productId, k)
    ensures Ended(promotions[k], now)
  {
    GetPromotionByPosition(promotions, productId, now);
  }

  /** The form state: a draft as `addPromotion` receives it, dates as the form's text. */
  function ResetForm(): (f: PromotionDraft)
    ensures f.productId == "" && f.active && f.discountPercentage == 10.0
    ensures f.badgeText == "OFF" && f.badgeColor == "#ef4444" && f.badgeTextColor == "#ffffff"
    ensures f.badgeStyle == "default" && f.startDate == Some("") && f.endDate == Some("")
  {
    PromotionDraft("", true, 10.0, "OFF", "#ef4444", "#ffffff", "default", Some(""), Some(""))
  }

  /** Submitting the defaults as a new promotion inserts nothing: no product is selected. */
  lemma ResetFormInsertsNothing()
    ensures AddPromotionInsert(ResetForm()) == None
  {
  }

  /** The preview line is shown with a product selected and a positive discount. */
  predicate ShowDiscountPreview(form: PromotionDraft) {
    form.productId != "" && form.discountPercentage > 0.0
  }

  function ProductIdIs(id: string): Product -> bool { (p: Product) => p.id == id }

  /** The previewed discounted price: a missing product or a zero price count as 0. */
  function PreviewPrice(products: seq<Product>, form: PromotionDraft): (r: Option<real>)
    ensures r.Some? <==> ShowDiscountPreview(form)
    ensures r.Some? && (forall i :: 0 <= i < |products| ==> products[i].id != form.productId) ==> r == Some(0.0)
    ensures forall k :: ShowDiscountPreview(form) && 0 <= k < |products| && products[k].id == form.productId
                        && (forall j :: 0 <= j < k ==> products[j].id != form.productId) ==>
                          r == Some(CalculateDiscountedPrice(products[k].originalPrice, form.discountPercentage))
  {
    if !ShowDiscountPreview(form) then None
    else
      var found := Lists.Find(products, ProductIdIs(form.productId));
      var price := if found.Some? && found.value.originalPrice != 0.0 then found.value.originalPrice else 0.0;
      Some(CalculateDiscountedPrice(price, form.discountPercentage))
  }

  /** What `handleSubmit` sends. */
  datatype Submission = UpdateSent(id: string, data: PromotionUpdate) | InsertSent(row: PromotionInsert) | NothingSent

  /** The whole form as a partial promotion: every field provided. */
  function AsPatch(form: PromotionDraft): PromotionPatch {
    PromotionPatch(Some(form.productId), Some(form.active), Some(form.discountPercentage), Some(form.badgeText),
                   Some(form.badgeColor), Some(form.badgeTextColor), Some(form.badgeStyle), form.startDate, form.endDate)
  }

  /** `handleSubmit`: an update of the edited promotion with every form field, else an insert. */
  function Submit(editing: Option<Promotion>, form: PromotionDraft): (s: Submission)
    ensures s.NothingSent? <==> editing.None? && form.productId == ""
    ensures s.UpdateSent? ==> editing.Some? && s.id == editing.value.id
                              && s.data.productId == Some(form.productId) && s.data.active == Some(form.active)
                              && s.data.discountPercentage == Some(form.discountPercentage)
    ensures s.InsertSent? ==> editing.None? && s.row.productId == form.productId
    ensures s.UpdateSent? ==> s.data == BuildPromotionUpdate(AsPatch(form))
    ensures s.InsertSent? ==> Some(s.row) == AddPromotionInsert(form)
  {
    if editing.Some? then UpdateSent(editing.value.id, BuildPromotionUpdate(AsPatch(form)))
    else match AddPromotionInsert(form)
      case None => NothingSent
      case Some(row) => InsertSent(row)
  }
}
