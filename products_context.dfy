/**
 * The catalog mirror of `lib/products-context.tsx`: the product and coupon
 * records, the normalisation of store rows into them, the list each change-feed
 * event leaves behind, coupon validation, the `addCategory` guard and the update
 * data `updateProduct` sends.
 */
module ProductsContext {
  import opened Wrappers
  import opened ChangeFeed
  import Lists
  import Text

  /** The category every product falls back to. */
  const NoCategory := "Sem Categoria"

  datatype Section = Section(kind: string, content: string)

  datatype Product = Product(
    id: string,
    title: string,
    image: string,
    images: seq<string>,
    originalPrice: real,
    categories: seq<string>,
    featured: bool,
    badgeId: Option<string>,
    description: string,
    pageLayout: string,
    customSections: seq<Section>,
    enableReviews: bool,
    customRating: real,
    totalReviews: int,
    relatedProductIds: seq<string>)

  /** A `products` row as the store delivers it; `None` is a null or missing column. */
  datatype ProductRow = ProductRow(
    id: string,
    name: string,
    image: string,
    images: Option<seq<string>>,
    originalPrice: Option<real>,
    price: real,
    categories: Option<seq<string>>,
    category: Option<string>,
    featured: Option<bool>,
    badgeId: Option<string>,
    description: Option<string>,
    pageLayout: Option<string>,
    customSections: Option<seq<Section>>,
    enableReviews: Option<bool>,
    customRating: Option<real>,
    totalReviews: Option<int>,
    relatedProductIds: Option<seq<string>>)

  datatype DiscountType = Percentage | Fixed

  datatype Coupon = Coupon(
    id: string,
    code: string,
    discountType: DiscountType,
    discountValue: real,
    expiryDate: Option<int>,
    usageLimit: Option<int>,
    usedCount: int,
    active: bool)

  /** A `coupons` row: its `type` column is `kind` here. */
  datatype CouponRow = CouponRow(id: string, code: string, kind: string, discount: real, active: bool)

  // ---------------------------------------------------------------- JavaScript `x || d`

  /** `s || d` for an optional string: the empty string is falsy. */
  function TextOr(o: Option<string>, d: string): string {
    if o.Some? && o.value != "" then o.value else d
  }

  /** `x || d` for an optional number: zero is falsy. */
  function NumberOr(o: Option<real>, d: real): real {
    if o.Some? && o.value != 0.0 then o.value else d
  }

  /** `x || d` for an optional array: every array is truthy. */
  function ListOr<T>(o: Option<seq<T>>, d: seq<T>): seq<T> {
    if o.Some? then o.value else d
  }

  // ---------------------------------------------------------------- row normalisation

  /** The `categories` of a normalised product: the row's list, else `[category]`, else the sentinel. */
  function CategoriesOf(row: ProductRow): (r: seq<string>)
    ensures |r| > 0
    ensures row.categories.Some? && row.categories.value != [] ==> r == row.categories.value
    ensures (row.categories.None? || row.categories.value == []) ==>
              r == if row.category.Some? && row.category.value != "" then [row.category.value] else [NoCategory]
  {
    if row.categories.Some? && |row.categories.value| > 0 then row.categories.value
    else if row.category.Some? && row.category.value != "" then [row.category.value]
    else [NoCategory]
  }

  /** The `images` of a normalised product: the row's non-empty list, else the main image alone. */
  function ImagesOf(row: ProductRow): (r: seq<string>)
    ensures |r| > 0
    ensures row.images.Some? && row.images.value != [] ==> r == row.images.value
    ensures row.images.None? || row.images.value == [] ==> r == [row.image]
  {
    if row.images.Some? && |row.images.value| > 0 then row.images.value else [row.image]
  }

  /** A product as the storefront holds it: non-empty `categories` and `images`. */
  predicate WellFormed(p: Product) {
    |p.categories| > 0 && |p.images| > 0
  }

  /** The record the load and the INSERT/UPDATE handlers build from a row. */
  function NormalizeProduct(row: ProductRow): (p: Product)
    ensures WellFormed(p)
    ensures p.id == row.id && p.title == row.name && p.image == row.image
    ensures p.categories == CategoriesOf(row) && p.images == ImagesOf(row)
    ensures p.originalPrice == if row.originalPrice.Some? && row.originalPrice.value != 0.0
                               then row.originalPrice.value else row.price
    ensures p.featured <==> row.featured == Some(true)
    ensures p.badgeId.Some? <==> row.badgeId.Some? && row.badgeId.value != ""
    ensures p.badgeId.Some? ==> p.badgeId == row.badgeId
    ensures p.description == (if row.description.Some? then row.description.value else "")
    ensures p.pageLayout == (if row.pageLayout.Some? && row.pageLayout.value != "" then row.pageLayout.value else "default")
    ensures p.customSections == (if row.customSections.Some? then row.customSections.value else [])
    ensures p.enableReviews <==> row.enableReviews != Some(false)
    ensures p.customRating == (if row.customRating.Some? && row.customRating.value != 0.0 then row.customRating.value else 4.5)
    ensures p.totalReviews == (if row.totalReviews.Some? then row.totalReviews.value else 0)
    ensures p.relatedProductIds == (if row.relatedProductIds.Some? then row.relatedProductIds.value else [])
  {
    Product(
      row.id,
      row.name,
      row.image,
      ImagesOf(row),
      NumberOr(row.originalPrice, row.price),
      CategoriesOf(row),
      row.featured == Some(true),
      if row.badgeId.Some? && row.badgeId.value != "" then row.badgeId else None,
      TextOr(row.description, ""),
      TextOr(row.pageLayout, "default"),
      ListOr(row.customSections, []),
      row.enableReviews != Some(false),
      NumberOr(row.customRating, 4.5),
      if row.totalReviews.Some? then row.totalReviews.value else 0,
      ListOr(row.relatedProductIds, []))
  }

  /** The `type` column read as a discount type: only "percentage" is a percentage. */
  function DiscountTypeOf(kind: string): DiscountType {
    if kind == "percentage" then Percentage else Fixed
  }

  /** A coupon as the load and the INSERT handler hold it: nothing used, no expiry, no limit. */
  predicate Loaded(c: Coupon) {
    c.usedCount == 0 && c.expiryDate.None? && c.usageLimit.None?
  }

  function NormalizeCoupon(row: CouponRow): (c: Coupon)
    ensures Loaded(c)
    ensures c.id == row.id && c.code == row.code && c.discountValue == row.discount && c.active == row.active
    ensures c.discountType == Percentage <==> row.kind == "percentage"
  {
    Coupon(row.id, row.code, DiscountTypeOf(row.kind), row.discount, None, None, 0, row.active)
  }

  // ---------------------------------------------------------------- change-feed reducers

  function ProductIdIs(id: string): Product -> bool { (p: Product) => p.id == id }
  function ProductIdIsNot(id: string): Product -> bool { (p: Product) => p.id != id }

  ghost predicate AllWellFormed(ps: seq<Product>) {
    forall i :: 0 <= i < |ps| ==> WellFormed(ps[i])
  }

  /** The product list after one change event. */
  function ProductsAfter(prev: seq<Product>, ev: Change<ProductRow>): (r: seq<Product>)
    ensures ev.Insert? ==> |r| == |prev| + 1 && r[0] == NormalizeProduct(ev.newRecord) && r[1..] == prev
    ensures ev.Update? ==> |r| == |prev| && forall i :: 0 <= i < |prev| ==>
              r[i] == if prev[i].id == ev.newRecord.id then NormalizeProduct(ev.newRecord) else prev[i]
    ensures ev.Delete? ==> Lists.IsSubsequence(r, prev)
                           && (forall i :: 0 <= i < |r| ==> r[i].id != ev.oldKey)
                           && (forall i :: 0 <= i < |prev| && prev[i].id != ev.oldKey ==> multiset(r)[prev[i]] == multiset(prev)[prev[i]])
                           && (forall i :: 0 <= i < |prev| && prev[i].id != ev.oldKey ==> prev[i] in r)
    ensures AllWellFormed(prev) ==> AllWellFormed(r)
  {
    match ev
    case Insert(row) => [NormalizeProduct(row)] + prev
    case Update(row) => Lists.MapIf(prev, ProductIdIs(row.id), Lists.Const(NormalizeProduct(row)))
    case Delete(id) =>
      Lists.FilterCounts(prev, ProductIdIsNot(id));
      Lists.Filter(prev, ProductIdIsNot(id))
  }

  /** The category list after one change event; an UPDATE is ignored. */
  function CategoriesAfter(prev: seq<string>, ev: Change<string>): (r: seq<string>)
    ensures ev.Insert? ==> r == prev + [ev.newRecord]
    ensures ev.Update? ==> r == prev
    ensures ev.Delete? ==> Lists.IsSubsequence(r, prev)
                           && (forall i :: 0 <= i < |r| ==> r[i] != ev.oldKey)
                           && (forall i :: 0 <= i < |prev| && prev[i] != ev.oldKey ==> multiset(r)[prev[i]] == multiset(prev)[prev[i]])
                           && (forall i :: 0 <= i < |prev| && prev[i] != ev.oldKey ==> prev[i] in r)
  {
    match ev
    case Insert(name) => prev + [name]
    case Update(_) => prev
    case Delete(name) =>
      Lists.FilterCounts(prev, NotEqual(name));
      Lists.Filter(prev, NotEqual(name))
  }

  function NotEqual(x: string): string -> bool { (y: string) => y != x }

  function CouponIdIs(id: string): Coupon -> bool { (c: Coupon) => c.id == id }
  function CouponIdIsNot(id: string): Coupon -> bool { (c: Coupon) => c.id != id }

  /** `{...c, code, discountType, discountValue, active}` from the UPDATE payload. */
  function MergeCoupon(row: CouponRow): Coupon -> Coupon {
    (c: Coupon) => c.(code := row.code, discountType := DiscountTypeOf(row.kind),
                      discountValue := row.discount, active := row.active)
  }

  ghost predicate AllLoaded(cs: seq<Coupon>) {
    forall i :: 0 <= i < |cs| ==> Loaded(cs[i])
  }

  /** The coupon list after one change event. */
  function CouponsAfter(prev: seq<Coupon>, ev: Change<CouponRow>): (r: seq<Coupon>)
    ensures ev.Insert? ==> |r| == |prev| + 1 && r[0] == NormalizeCoupon(ev.newRecord) && r[1..] == prev
    ensures ev.Update? ==> |r| == |prev| && forall i :: 0 <= i < |prev| ==>
              && r[i].id == prev[i].id
              && r[i].usedCount == prev[i].usedCount
              && r[i].expiryDate == prev[i].expiryDate
              && r[i].usageLimit == prev[i].usageLimit
              && (prev[i].id == ev.newRecord.id ==>
                    r[i].code == ev.newRecord.code && r[i].active == ev.newRecord.active
                    && r[i].discountValue == ev.newRecord.discount
                    && r[i].discountType == DiscountTypeOf(ev.newRecord.kind))
              && (prev[i].id != ev.newRecord.id ==> r[i] == prev[i])
    ensures ev.Delete? ==> Lists.IsSubsequence(r, prev)
                           && (forall i :: 0 <= i < |r| ==> r[i].id != ev.oldKey)
                           && (forall i :: 0 <= i < |prev| && prev[i].id != ev.oldKey ==> multiset(r)[prev[i]] == multiset(prev)[prev[i]])
                           && (forall i :: 0 <= i < |prev| && prev[i].id != ev.oldKey ==> prev[i] in r)
    ensures AllLoaded(prev) ==> AllLoaded(r)
  {
    match ev
    case Insert(row) => [NormalizeCoupon(row)] + prev
    case Update(row) => Lists.MapIf(prev, CouponIdIs(row.id), MergeCoupon(row))
    case Delete(id) =>
      Lists.FilterCounts(prev, CouponIdIsNot(id));
      Lists.Filter(prev, CouponIdIsNot(id))
  }

  // ---------------------------------------------------------------- coupon validation

  function CodeMatches(code: string): Coupon -> bool {
    (c: Coupon) => Text.Upper(c.code) == Text.Upper(code)
  }

  /** The expiry gate rejects: an expiry date strictly before now. */
  predicate Expired(c: Coupon, now: int) {
    c.expiryDate.Some? && c.expiryDate.value < now
  }

  /** The usage gate rejects: a truthy (non-zero) limit that the used count has reached. */
  predicate UsedUp(c: Coupon) {
    c.usageLimit.Some? && c.usageLimit.value != 0 && c.usedCount >= c.usageLimit.value
  }

  /** A coupon that passes every gate. */
  predicate Usable(c: Coupon, now: int) {
    c.active && !Expired(c, now) && !UsedUp(c)
  }

  /** `validateCoupon`: the first case-insensitive code match, if it passes every gate. */
  function ValidateCoupon(coupons: seq<Coupon>, code: string, now: int): (r: Option<Coupon>)
    ensures r.Some? ==> r.value in coupons && Text.Upper(r.value.code) == Text.Upper(code) && Usable(r.value, now)
  {
    var found := Lists.Find(coupons, CodeMatches(code));
    if found.None? then None
    else if !found.value.active then None
    else if Expired(found.value, now) then None
    else if UsedUp(found.value) then None
    else found
  }

  /** `k` is the position of the first coupon whose code matches `code` case-insensitively. */
  ghost predicate FirstCodeMatch(coupons: seq<Coupon>, code: string, k: int) {
    0 <= k < |coupons| && Text.Upper(coupons[k].code) == Text.Upper(code)
    && forall j :: 0 <= j < k ==> Text.Upper(coupons[j].code) != Text.Upper(code)
  }

  /**
   * The outcome of validation by positions: the first match decides alone, a later
   * coupon with the same code is never consulted, and no match gives `None`.
   */
  lemma ValidateCouponByPosition(coupons: seq<Coupon>, code: string, now: int)
    ensures (forall i :: 0 <= i < |coupons| ==> Text.Upper(coupons[i].code) != Text.Upper(code))
              ==> ValidateCoupon(coupons, code, now) == None
    ensures forall k :: FirstCodeMatch(coupons, code, k) ==>
              ValidateCoupon(coupons, code, now) == if Usable(coupons[k], now) then Some(coupons[k]) else None
  {
    var found := Lists.Find(coupons, CodeMatches(code));
    forall k | FirstCodeMatch(coupons, code, k)
      ensures found == Some(coupons[k])
    {
      var m :| 0 <= m < |coupons| && coupons[m] == found.value && CodeMatches(code)(coupons[m])
               && forall j :: 0 <= j < m ==> !CodeMatches(code)(coupons[j]);
      if k < m {
        assert CodeMatches(code)(coupons[k]);
      }
    }
  }

  /** Case does not matter: validating a code and its upper-cased or lower-cased form agree. */
  lemma ValidateIgnoresCase(coupons: seq<Coupon>, code: string, now: int)
    ensures ValidateCoupon(coupons, Text.Upper(code), now) == ValidateCoupon(coupons, code, now)
    ensures ValidateCoupon(coupons, Text.Lower(code), now) == ValidateCoupon(coupons, code, now)
  {
    Text.UpperIdempotent(code);
    Text.UpperOfLower(code);
    assert CodeMatches(Text.Upper(code)) == CodeMatches(code);
    assert CodeMatches(Text.Lower(code)) == CodeMatches(code);
  }

  /** An inactive first match rejects the code even when a later coupon with that code is usable. */
  lemma InactiveFirstMatchRejects(coupons: seq<Coupon>, code: string, now: int, k: int)
    requires FirstCodeMatch(coupons, code, k) && !coupons[k].active
    ensures ValidateCoupon(coupons, code, now) == None
  {
    ValidateCouponByPosition(coupons, code, now);
  }

  /** A usage limit of zero or none never rejects, whatever the used count. */
  lemma ZeroLimitIsUnlimited(coupons: seq<Coupon>, code: string, now: int, k: int)
    requires FirstCodeMatch(coupons, code, k)
    requires coupons[k].usageLimit == None || coupons[k].usageLimit == Some(0)
    ensures ValidateCoupon(coupons, code, now).Some? <==> coupons[k].active && !Expired(coupons[k], now)
  {
    ValidateCouponByPosition(coupons, code, now);
  }

  /** The expiry comparison is strict: a coupon expiring exactly now is still accepted. */
  lemma ExpiryBoundary(c: Coupon, now: int)
    requires c.active && c.usageLimit.None?
    ensures c.expiryDate == Some(now) ==> ValidateCoupon([c], c.code, now) == Some(c)
    ensures c.expiryDate == Some(now - 1) ==> ValidateCoupon([c], c.code, now) == None
    ensures c.expiryDate == Some(now + 1) ==> ValidateCoupon([c], c.code, now) == Some(c)
  {
    assert FirstCodeMatch([c], c.code, 0);
    ValidateCouponByPosition([c], c.code, now);
  }

  /** With a limit of 5, a used count of 5 is rejected and 4 accepted. */
  lemma UsageBoundary(c: Coupon, now: int)
    requires c.active && c.expiryDate.None? && c.usageLimit == Some(5)
    ensures c.usedCount == 5 ==> ValidateCoupon([c], c.code, now) == None
    ensures c.usedCount == 4 ==> ValidateCoupon([c], c.code, now) == Some(c)
  {
    assert FirstCodeMatch([c], c.code, 0);
    ValidateCouponByPosition([c], c.code, now);
  }

  /**
   * Over coupons as the store loads and inserts them, validation reduces to
   * "the first code match is active", and the clock never matters.
   */
  lemma LoadedCouponsIgnoreClock(coupons: seq<Coupon>, code: string, now: int, later: int)
    requires AllLoaded(coupons)
    ensures ValidateCoupon(coupons, code, now) == ValidateCoupon(coupons, code, later)
    ensures forall k :: FirstCodeMatch(coupons, code, k) ==>
              ValidateCoupon(coupons, code, now) == if coupons[k].active then Some(coupons[k]) else None
  {
    ValidateCouponByPosition(coupons, code, now);
    ValidateCouponByPosition(coupons, code, later);
  }

  /** Over loaded coupons, a coupon that validates is the first code match, and it is active. */
  lemma LoadedValidIsFirstActive(coupons: seq<Coupon>, code: string, now: int)
    requires AllLoaded(coupons)
    ensures ValidateCoupon(coupons, code, now).Some? ==>
              exists k :: FirstCodeMatch(coupons, code, k)
                          && ValidateCoupon(coupons, code, now) == Some(coupons[k]) && coupons[k].active
  {
    var r := ValidateCoupon(coupons, code, now);
    if r.Some? {
      var first := Lists.FirstIndex(coupons, CodeMatches(code));
      assert FirstCodeMatch(coupons, code, first.value);
      LoadedCouponsIgnoreClock(coupons, code, now, now);
    }
  }

  // ---------------------------------------------------------------- addCategory, updateProduct

  /** The row `addCategory` inserts: none when the category is already listed. */
  function AddCategoryInsert(categories: seq<string>, category: string): (r: Option<string>)
    ensures r.None? <==> category in categories
    ensures r.Some? ==> r.value == category
  {
    if category in categories then None else Some(category)
  }

  /**
   * `addCategory` followed by the INSERT its row echoes back keeps the category
   * list free of repeats and ends with the category listed.
   */
  lemma AddCategoryKeepsDistinct(categories: seq<string>, category: string)
    requires Lists.Distinct(categories)
    ensures var after := match AddCategoryInsert(categories, category)
                         case None => categories
                         case Some(name) => CategoriesAfter(categories, Insert(name));
            Lists.Distinct(after) && category in after
  {
  }

  /** `Partial<Product>` as `updateProduct` receives it. */
  datatype ProductPatch = ProductPatch(
    title: Option<string>,
    originalPrice: Option<real>,
    image: Option<string>,
    images: Option<seq<string>>,
    categories: Option<seq<string>>,
    description: Option<string>,
    featured: Option<bool>,
    badgeId: Option<string>,
    pageLayout: Option<string>,
    customSections: Option<seq<Section>>,
    enableReviews: Option<bool>,
    customRating: Option<real>,
    totalReviews: Option<int>,
    relatedProductIds: Option<seq<string>>)

  /** The columns `updateProduct` writes; `None` is a column left out, `badgeId: Some(None)` writes null. */
  datatype ProductUpdate = ProductUpdate(
    name: Option<string>,
    price: Option<real>,
    image: Option<string>,
    images: Option<seq<string>>,
    categories: Option<seq<string>>,
    category: Option<string>,
    description: Option<string>,
    featured: Option<bool>,
    badgeId: Option<Option<string>>,
    pageLayout: Option<string>,
    customSections: Option<seq<Section>>,
    enableReviews: Option<bool>,
    customRating: Option<real>,
    totalReviews: Option<int>,
    relatedProductIds: Option<seq<string>>)

  /** A provided field whose value is truthy; `title` and `image` are tested this way. */
  function IfTruthy(o: Option<string>): Option<string> {
    if o.Some? && o.value != "" then o else None
  }

  /** The update data `updateProduct` builds from a partial product. */
  function BuildProductUpdate(patch: ProductPatch): (u: ProductUpdate)
    ensures u.name.Some? <==> patch.title.Some? && patch.title.value != ""
    ensures u.name.Some? ==> u.name == patch.title
    ensures u.image.Some? <==> patch.image.Some? && patch.image.value != ""
    ensures u.image.Some? ==> u.image == patch.image
    ensures u.categories.Some? <==> patch.categories.Some?
    ensures u.category.Some? <==> patch.categories.Some?
    ensures patch.categories.Some? ==>
              && |u.categories.value| > 0
              && u.categories.value == (if patch.categories.value == [] then [NoCategory] else patch.categories.value)
              && u.category.value == (if patch.categories.value != [] && patch.categories.value[0] != ""
                                      then patch.categories.value[0] else NoCategory)
              && u.category.value in u.categories.value + [NoCategory]
    ensures u.badgeId.Some? <==> patch.badgeId.Some?
    ensures patch.badgeId == Some("") ==> u.badgeId == Some(None)
    ensures patch.badgeId.Some? && patch.badgeId.value != "" ==> u.badgeId == Some(patch.badgeId)
    ensures u.price == patch.originalPrice && u.images == patch.images && u.description == patch.description
    ensures u.featured == patch.featured && u.pageLayout == patch.pageLayout
    ensures u.customSections == patch.customSections && u.enableReviews == patch.enableReviews
    ensures u.customRating == patch.customRating && u.totalReviews == patch.totalReviews
    ensures u.relatedProductIds == patch.relatedProductIds
  {
    var cats := patch.categories;
    ProductUpdate(
      IfTruthy(patch.title),
      patch.originalPrice,
      IfTruthy(patch.image),
      patch.images,
      if cats.Some? then Some(if |cats.value| > 0 then cats.value else [NoCategory]) else None,
      if cats.Some? then Some(if |cats.value| > 0 && cats.value[0] != "" then cats.value[0] else NoCategory) else None,
      patch.description,
      patch.featured,
      if patch.badgeId.Some? then Some(if patch.badgeId.value == "" then None else patch.badgeId) else None,
      patch.pageLayout,
      patch.customSections,
      patch.enableReviews,
      patch.customRating,
      patch.totalReviews,
      patch.relatedProductIds)
  }

  // ---------------------------------------------------------------- the provider's state

  /** The provider's `products`, `categories` and `coupons` state lists. */
  class ProductsStore {
    var products: seq<Product>
    var categories: seq<string>
    var coupons: seq<Coupon>

    /** Everything in the mirror came through normalisation. */
    ghost predicate Valid()
      reads this
    {
      AllWellFormed(products) && AllLoaded(coupons)
    }

    constructor ()
      ensures Valid() && products == [] && categories == [] && coupons == []
    {
      products, categories, coupons := [], [], [];
    }

    /** The initial load of the `products` rows. */
    method LoadProducts(rows: seq<ProductRow>)
      requires Valid()
      modifies this`products
      ensures Valid()
      ensures products == Lists.Map(rows, NormalizeProduct)
    {
      products := Lists.Map(rows, NormalizeProduct);
    }

    /** The initial load of the category names. */
    method LoadCategories(names: seq<string>)
      requires Valid()
      modifies this`categories
      ensures Valid() && categories == names
    {
      categories := names;
    }

    /** The initial load of the `coupons` rows. */
    method LoadCoupons(rows: seq<CouponRow>)
      requires Valid()
      modifies this`coupons
      ensures Valid()
      ensures coupons == Lists.Map(rows, NormalizeCoupon)
    {
      coupons := Lists.Map(rows, NormalizeCoupon);
    }

    method OnProductChange(ev: Change<ProductRow>)
      requires Valid()
      modifies this`products
      ensures Valid() && products == ProductsAfter(old(products), ev)
    {
      products := ProductsAfter(products, ev);
    }

    method OnCategoryChange(ev: Change<string>)
      requires Valid()
      modifies this`categories
      ensures Valid() && categories == CategoriesAfter(old(categories), ev)
    {
      categories := CategoriesAfter(categories, ev);
    }

    method OnCouponChange(ev: Change<CouponRow>)
      requires Valid()
      modifies this`coupons
      ensures Valid() && coupons == CouponsAfter(old(coupons), ev)
    {
      coupons := CouponsAfter(coupons, ev);
    }
  }
}
