# ANOXQUI storefront: pricing, cart and catalog lists in Dafny

This project models the client-side logic of the ANOXQUI digital storefront, a
Next.js shop that sells digital products. The logic it covers:

- **The cart engine.** An ordered list of line items and at most one applied
  coupon. The cart supports add, remove, set quantity, clear, apply coupon and
  remove coupon, and derives the subtotal, discount, clamped total and item
  count.
- **Coupon validation.** A case-insensitive lookup by code, followed by the
  active, expiry and usage-limit gates.
- **The catalog mirrors.** The product, category, coupon, promotion and badge
  lists that each live change-feed event (INSERT, UPDATE, DELETE) rewrites. This
  includes the normalisation of store rows into records and the update data the
  admin operations send.
- **Promotion resolution** by product and the **effective price** a product
  tile shows and puts in the cart.
- **The storefront filter.** A category selection plus a case-insensitive
  substring search.
- **The admin product form's list editing.** Toggling a category or a related
  product, adding an image URL, and removing an image by index.
- **The cart drawer's coupon controls** and its quantity buttons.
- **The admin gate.** One fixed credential pair and a flag in local storage.

## How the model is built

There is one module per source file. Four shared modules sit beneath them:

- `Wrappers`: the `Option` type, standing for `null` and `undefined`.
- `ChangeFeed`: one change event, with the new row for INSERT and UPDATE and
  the old key for DELETE.
- `Lists` and `Text`: the JavaScript array and string operations the code
  uses (`find`, `filter`, `map`, `trim`, `includes`, upper- and lower-casing).

State that the source keeps in React state and replaces through setters
becomes a class:

- `CartContext.Cart` holds `items`, `appliedCoupon` and `isCartOpen`;
- `ProductsContext.ProductsStore`, `PromotionsContext.PromotionsStore` and
  `BadgesContext.BadgesStore` hold the mirrored lists;
- `ProductFormDialog.ProductForm` holds `formData`;
- `CartSheet.CouponBox` holds `couponCode` and `couponError`;
- `AdminAuth.Session` holds the local-storage map.

Each method is specified by the pure function it applies, and the properties
are proved about those functions. The store classes keep a `Valid()`
invariant:

- in the cart, ids are unique and every quantity is at least 1;
- in the catalog store, every product is well formed (non-empty categories
  and images) and every coupon is loaded.

Other modelling choices:

- Prices are exact `real`s.
- Timestamps, including "now", are `int` parameters.
- Case mapping covers ASCII letters only.
- JavaScript truthiness is written out where the code relies on it. The empty
  string and `0` are falsy, arrays are always truthy, and `x || d` falls back to
  `d` on a falsy `x`.

Two points about coupons that the model takes from the code as written:

- The `Coupon` interface declares an optional `expiryDate` and `usageLimit`
  (`lib/products-context.tsx:25-34`), and the coupon form lets an admin set
  both (`components/admin/coupon-manager.tsx:138-161`). Yet the loader and the
  INSERT handler build coupons with `usedCount: 0` and neither field
  (`lib/products-context.tsx:123-130`, `240-248`). Both gates in
  `validateCoupon` are modelled as written. `LoadedCouponsIgnoreClock` and
  `LoadedValidIsFirstActive` prove that, over coupons as the store holds them,
  validity reduces to "the first code match is active".
- The usage gate tests the limit for truthiness, so a limit of `0` means
  unlimited (`lib/products-context.tsx:451`, `ZeroLimitIsUnlimited`).

## Model

| member | source | states |
|---|---|---|
| Text.IncludesAt | app/page.tsx:25-30 | `s.includes(sub)` holds exactly when `sub` occurs in `s` at some position |
| Text.TrimEmptyIffBlank | app/page.tsx:24 | `s.trim()` is the empty (falsy) string exactly when every character of `s` is ECMAScript white space or a line terminator |
| ProductsContext.CategoriesOf | lib/products-context.tsx:83-88 | a product's categories are never empty: the row's non-empty list, else `[category]` for a non-empty `category`, else `["Sem Categoria"]` |
| ProductsContext.ImagesOf | lib/products-context.tsx:81 | a product's images are never empty: the row's non-empty list, else the main image alone |
| ProductsContext.NormalizeProduct | lib/products-context.tsx:77-98 | the record built from a row is well formed (non-empty categories and images), keeps id, name and image, takes `original_price` unless it is null or 0 and then `price`, is featured only for `true`, has the row's badge only for a non-empty id, and falls back to `""` for a missing description, `default` for an empty layout, `[]` for missing sections and related ids, 4.5 for a zero or missing rating and 0 for missing review totals; reviews are enabled unless the column is `false` |
| ProductsContext.NormalizeCoupon | lib/products-context.tsx:123-130 | a loaded coupon has `usedCount` 0, no expiry and no limit, keeps id, code, value and active flag, and is a percentage coupon exactly when its type is `"percentage"` |
| ProductsContext.ProductsAfter | lib/products-context.tsx:148-211 | INSERT prepends the normalised row; UPDATE keeps length and order and replaces exactly the entries with that id; DELETE leaves an order-preserving subsequence with no entry of that id and every other entry as many times as before; every event keeps all products well formed |
| ProductsContext.CategoriesAfter | lib/products-context.tsx:222-227 | INSERT appends the name; DELETE leaves an order-preserving subsequence without that name that keeps every other name as many times as before; UPDATE changes nothing |
| ProductsContext.CouponsAfter | lib/products-context.tsx:238-267 | INSERT prepends the normalised row; UPDATE overwrites only code, type, value and active flag of the same-id coupons and keeps their id, `usedCount`, expiry and limit; DELETE removes by id in order and keeps every other coupon as many times as before; every event keeps all coupons loaded |
| ProductsContext.ValidateCoupon | lib/products-context.tsx:445-454 | a coupon returned is in the list, has the given code up to case, is active, not expired and not used up |
| ProductsContext.ValidateCouponByPosition | lib/products-context.tsx:446-453 | with no case-insensitive code match the result is none; otherwise the first match alone decides: it is returned when it passes every gate and none is returned when it does not, whatever later coupons with that code are like |
| ProductsContext.ValidateIgnoresCase | lib/products-context.tsx:446 | validating a code, its upper-cased form or its lower-cased form gives the same result |
| ProductsContext.InactiveFirstMatchRejects | lib/products-context.tsx:449 | an inactive first match is rejected whatever its other fields |
| ProductsContext.ZeroLimitIsUnlimited | lib/products-context.tsx:451 | with a usage limit of 0 or none, the code is valid exactly when the first match is active and not expired, whatever the used count |
| ProductsContext.ExpiryBoundary | lib/products-context.tsx:450 | expiry is a strict comparison: expiring a moment before now rejects; expiring now or later accepts |
| ProductsContext.UsageBoundary | lib/products-context.tsx:451 | with a limit of 5, a used count of 5 rejects and 4 accepts |
| ProductsContext.LoadedCouponsIgnoreClock | lib/products-context.tsx:445-454 | over loaded coupons the result does not depend on now, and equals the first code match exactly when that match is active |
| ProductsContext.LoadedValidIsFirstActive | lib/products-context.tsx:445-454 | over loaded coupons, a coupon that validates is the first case-insensitive code match and is active |
| ProductsContext.AddCategoryInsert | lib/products-context.tsx:365-366 | `addCategory` inserts nothing exactly when the category is already listed, and otherwise inserts that category |
| ProductsContext.AddCategoryKeepsDistinct | lib/products-context.tsx:366 | `addCategory` followed by the INSERT it causes keeps a duplicate-free category list duplicate-free, with the category listed |
| ProductsContext.BuildProductUpdate | lib/products-context.tsx:310-332 | the update holds only the provided fields: title and image only when non-empty; provided categories are written non-empty (`[]` becomes `["Sem Categoria"]`) together with `category`, which is the first category or the sentinel; a `badgeId` of `""` is written as null; the rest are copied when provided |
| ProductsContext.ProductsStore.constructor | lib/products-context.tsx:55-57 | the three lists start empty |
| ProductsContext.ProductsStore.LoadProducts | lib/products-context.tsx:77-99 | the product list becomes the normalised rows in query order, keeping the invariant |
| ProductsContext.ProductsStore.LoadCategories | lib/products-context.tsx:111 | the category list becomes the loaded names |
| ProductsContext.ProductsStore.LoadCoupons | lib/products-context.tsx:123-131 | the coupon list becomes the normalised rows, keeping the invariant |
| ProductsContext.ProductsStore.OnProductChange | lib/products-context.tsx:148-212 | the product list becomes `ProductsAfter` of the old list and the event, keeping the invariant |
| ProductsContext.ProductsStore.OnCategoryChange | lib/products-context.tsx:222-228 | the category list becomes `CategoriesAfter` of the old list and the event |
| ProductsContext.ProductsStore.OnCouponChange | lib/products-context.tsx:238-268 | the coupon list becomes `CouponsAfter` of the old list and the event, keeping the invariant |
| PromotionsContext.GetPromotionByProductId | lib/promotions-context.tsx:123-132 | a promotion returned is in the list, belongs to the product, is active and has not ended |
| PromotionsContext.GetPromotionByPosition | lib/promotions-context.tsx:124-131 | with no active promotion of the product the result is none; otherwise it is the first such promotion, or none when that one's end date is strictly before now |
| PromotionsContext.EndedFirstMatchShadows | lib/promotions-context.tsx:127-129 | an ended first match yields none even when a later active promotion of the product has not ended |
| PromotionsContext.StartDateIrrelevant | lib/promotions-context.tsx:123-132 | erasing every start date changes the result only by erasing its start date |
| PromotionsContext.PromotionsAfter | lib/promotions-context.tsx:75-113 | INSERT prepends; UPDATE keeps length and order and replaces the whole same-id record; DELETE leaves an order-preserving subsequence without that id and keeps every other promotion as many times as before |
| PromotionsContext.DeleteAbsentPromotion | lib/promotions-context.tsx:113 | deleting an id that is not listed leaves the list unchanged |
| PromotionsContext.DateOrNull | lib/promotions-context.tsx:151-152 | a date is written as null exactly when it is missing or empty, and otherwise as itself |
| PromotionsContext.AddPromotionInsert | lib/promotions-context.tsx:138-153 | nothing is inserted exactly when no product is selected; otherwise the row copies every field, with empty dates as null |
| PromotionsContext.DateUpdate | lib/promotions-context.tsx:186-187 | a date is in the update exactly when provided, and an empty one is written as null |
| PromotionsContext.BuildPromotionUpdate | lib/promotions-context.tsx:177-187 | the update holds exactly the provided fields, copied, with provided empty dates as null |
| PromotionsContext.PromotionsStore.constructor | lib/promotions-context.tsx:32 | the list starts empty |
| PromotionsContext.PromotionsStore.Load | lib/promotions-context.tsx:46-58 | the list becomes the loaded promotions |
| PromotionsContext.PromotionsStore.OnPromotionChange | lib/promotions-context.tsx:75-114 | the list becomes `PromotionsAfter` of the old list and the event |
| PromotionsContext.PromotionsStore.Lookup | lib/promotions-context.tsx:123-132 | the lookup over the current list is `getPromotionByProductId` of it: a promotion found is in the list, belongs to the product, is active and has not ended |
| BadgesContext.GetBadgeById | lib/badges-context.tsx:69-71 | none exactly when no badge has the id; otherwise the first badge with that id |
| BadgesContext.BadgesAfter | lib/badges-context.tsx:54-60 | INSERT appends at the end; UPDATE keeps length and order and replaces same-id badges; DELETE leaves an order-preserving subsequence without that id and keeps every other badge as many times as before |
| BadgesContext.InsertKeepsLookups | lib/badges-context.tsx:55 | because an INSERT appends, the lookup of an id already listed is unchanged, and the lookup of a new id finds the inserted badge |
| BadgesContext.DeleteHidesBadge | lib/badges-context.tsx:59 | after a DELETE of an id its lookup finds nothing |
| BadgesContext.BadgesStore.constructor | lib/badges-context.tsx:23 | the list starts empty |
| BadgesContext.BadgesStore.Load | lib/badges-context.tsx:37 | the list becomes the loaded badges |
| BadgesContext.BadgesStore.OnBadgeChange | lib/badges-context.tsx:54-60 | the list becomes `BadgesAfter` of the old list and the event |
| CartContext.AddedItems | lib/cart-context.tsx:50-58 | adding an id already present increments exactly that line's quantity by one and keeps its captured price, leaving every other line; a new id is appended with quantity 1 at the given price; the cart invariant is kept |
| CartContext.RemovedItems | lib/cart-context.tsx:60-62 | an order-preserving subsequence with no line of that id that keeps every other line as many times as before, keeping the invariant |
| CartContext.QuantityUpdated | lib/cart-context.tsx:64-70 | a quantity of 0 or less is `removeItem`; a positive one sets exactly that line's quantity, with no upper bound, and changes nothing else; the invariant is kept |
| CartContext.RemoveAbsentIsNoop | lib/cart-context.tsx:61 | removing an id that is not in the cart leaves it unchanged |
| CartContext.LineTotal | lib/cart-context.tsx:88 | a line contributes its captured price times its quantity: 0 at quantity 0, the price at quantity 1, at least the price for a non-negative price and a positive quantity |
| CartContext.SubtotalOf | lib/cart-context.tsx:88 | `subtotal` is the running sum of price × quantity over the lines, taken left to right from 0; with non-negative prices and quantities it is never negative |
| CartContext.ItemCountOf | lib/cart-context.tsx:100 | `itemCount` is the running sum of the quantities, taken left to right from 0; with non-negative quantities it is never negative |
| CartContext.FoldsFromFront | lib/cart-context.tsx:88-100 | both running sums equal the first line's contribution plus the sum over the remaining lines |
| CartContext.DiscountFor | lib/cart-context.tsx:90-97 | no coupon gives 0; a percentage coupon gives subtotal × value / 100; a fixed coupon gives its value, uncapped |
| CartContext.TotalFor | lib/cart-context.tsx:99 | the total is the larger of 0 and subtotal − discount: it is never negative |
| CartContext.SubtotalAppend | lib/cart-context.tsx:88 | appending a line adds its price × quantity to the subtotal and its quantity to the item count |
| CartContext.PointUpdate | lib/cart-context.tsx:88 | changing one line changes the subtotal and the item count by exactly that line's difference |
| CartContext.AddExistingTotals | lib/cart-context.tsx:52-54 | on a valid cart, adding a product already there raises the item count by one and the subtotal by the captured unit price, not the new one |
| CartContext.AddNewTotals | lib/cart-context.tsx:56 | adding a new product raises the item count by one and the subtotal by its price |
| CartContext.AddTwiceKeepsFirstPrice | lib/cart-context.tsx:52-56 | adding the same product twice, the second time at another price, gives one line of quantity 2 at the first price |
| CartContext.PricingExamples | lib/cart-context.tsx:90-99 | a fixed coupon of 50 on a subtotal of 10 discounts 50 and totals 0; a 15% coupon on 200 discounts 30 and totals 170 |
| CartContext.ItemCountEmpty | lib/cart-context.tsx:100 | with every quantity at least 1, the item count is at least the number of lines and is 0 exactly for the empty cart |
| CartContext.Cart.constructor | lib/cart-context.tsx:35-37 | a new cart is empty, closed and without coupon |
| CartContext.Cart.AddItem | lib/cart-context.tsx:50-58 | the items become `AddedItems` of the old items, keeping the invariant; the coupon and open flag are untouched |
| CartContext.Cart.RemoveItem | lib/cart-context.tsx:60-62 | the items become `RemovedItems` of the old items, keeping the invariant |
| CartContext.Cart.UpdateQuantity | lib/cart-context.tsx:64-70 | the items become `QuantityUpdated` of the old items, keeping the invariant |
| CartContext.Cart.ClearCart | lib/cart-context.tsx:72-74 | the items become empty and the applied coupon stays |
| CartContext.Cart.OpenCart | lib/cart-context.tsx:76-78 | the cart is open |
| CartContext.Cart.SetIsCartOpen | lib/cart-context.tsx:36 | the open flag becomes the given value |
| CartContext.Cart.ApplyCoupon | lib/cart-context.tsx:80-82 | the applied coupon becomes the given one, replacing any before it |
| CartContext.Cart.RemoveCoupon | lib/cart-context.tsx:84-86 | no coupon is applied |
| CartContext.Cart.Subtotal | lib/cart-context.tsx:88 | the cart's subtotal is the fold `SubtotalOf` over its current items: 0 for the empty cart, never negative on a valid cart with non-negative prices |
| CartContext.Cart.Discount | lib/cart-context.tsx:90-97 | the cart's discount is `DiscountFor` of its subtotal and its applied coupon: 0 without a coupon, subtotal × value / 100 for a percentage coupon, the value for a fixed one |
| CartContext.Cart.ItemCount | lib/cart-context.tsx:100 | the cart's item count is the fold `ItemCountOf` over its items; on a valid cart it is at least the number of lines and 0 exactly for the empty cart |
| CartContext.Cart.Total | lib/cart-context.tsx:99 | the cart total is the clamped `TotalFor` of the cart's subtotal and discount: never negative, at least subtotal − discount, and either 0 or subtotal − discount |
| PromotionsManager.CalculateDiscountedPrice | components/admin/promotions-manager.tsx:93-95 | the result × 100 is price × (100 − d); a discount of 0 gives the price and of 100 gives 0; for a price ≥ 0 and d in [0, 100] the result lies in [0, price], and is strictly below a positive price for a positive d |
| PromotionsManager.BadgeStyleClass | components/admin/promotions-manager.tsx:97-108 | `rounded` gives `rounded-full`, `sharp` gives `rounded-none`, `glow` gives `rounded-md shadow-lg`, and every other style gives `rounded-md`; every class starts with `rounded-`; the product card's copy of the mapping is `ProductCard.PromotionBadgeClass` |
| ProductCard.PromotionBadgeClass | components/product-card.tsx:63-101 | the promotion badge is drawn exactly under an active promotion, with the same corner class the admin screen's `getBadgeStyleClass` gives its style |
| PromotionsManager.OptionDisabled | components/admin/promotions-manager.tsx:224-229 | an option is disabled exactly when its product has a resolved promotion and is not the product of the promotion being edited; a disabled option's product has an active promotion in the list |
| PromotionsManager.EnabledOptionHasNoPromotionInEffect | components/admin/promotions-manager.tsx:225-229 | when creating, an enabled product whose list has an active promotion has its first such promotion ended |
| PromotionsManager.ResetForm | components/admin/promotions-manager.tsx:49-61 | the defaults: no product, active, 10%, text "OFF", colours `#ef4444` on `#ffffff`, style `default`, empty dates |
| PromotionsManager.ResetFormInsertsNothing | components/admin/promotions-manager.tsx:49-61 | submitting the default form as a new promotion inserts nothing |
| PromotionsManager.PreviewPrice | components/admin/promotions-manager.tsx:236-249 | a preview is shown exactly with a product selected and a positive discount; it is the discounted price of the first product with the selected id, and 0 for a product not in the list |
| PromotionsManager.Submit | components/admin/promotions-manager.tsx:35-47 | while editing, the form goes to `updatePromotion` for the edited id as the update data of every form field (`BuildPromotionUpdate`); otherwise it goes to `addPromotion`, whose row is `AddPromotionInsert` of the form and which sends nothing exactly when no product is selected |
| ProductCard.FinalPrice | components/product-card.tsx:43-44 | the discounted price under an active promotion, the original price otherwise; for a price ≥ 0 and a discount in [0, 100] it lies in [0, price] |
| ProductCard.DisplayedDiscount | components/product-card.tsx:46 | the promotion's percentage when one is active, else 0 |
| ProductCard.StruckPriceIsHigher | components/product-card.tsx:132-135 | when the original price is struck through, the price shown is strictly lower |
| ProductCard.ResolvedPromotionPrice | components/product-card.tsx:40-44 | for a resolved promotion the card's own `active` test is redundant: the price is discounted exactly when a promotion is resolved |
| ProductCard.CartPayload | components/product-card.tsx:52 | the payload is the card's id, title and image with the final price |
| ProductCard.HandleAddToCart | components/product-card.tsx:48-54 | the cart's items become `AddedItems` of the payload at the final price; the open flag is untouched |
| ProductCard.HandleBuyNow | components/product-card.tsx:56-61 | the same addition, and the cart is open |
| ProductCard.EndToEndScenario | components/product-card.tsx:43-59 | a product of 100 under an active 20% promotion with no end date costs 80; added twice the subtotal is 160; a fixed coupon of 10 discounts 10 and totals 150 |
| HomePage.ByCategory | app/page.tsx:19-21 | "Todos" keeps every product; any other category keeps, in order, exactly the products listing it, each as many times as the catalog lists it |
| HomePage.FilterProducts | app/page.tsx:15-34 | an order-preserving subsequence of the products holding exactly, and as many times as they are listed, those in the category whose lower-cased title or some lower-cased category contains the lower-cased, untrimmed query, the search applying only to a non-blank query; "Todos" with a blank query gives the products themselves |
| HomePage.SearchStage | app/page.tsx:24-31 | the search stage keeps exactly the products matching the query among those the category stage kept |
| HomePage.SearchStageCounts | app/page.tsx:24-31 | the search stage keeps each matching product of the category stage as many times as the catalog lists it |
| HomePage.SearchIgnoresQueryCase | app/page.tsx:25 | a query and its lower-cased form filter alike |
| ProductFormDialog.Toggle | components/admin/product-form-dialog.tsx:93-103 | a listed value is removed everywhere, keeping every other value in order and as many times as before; an unlisted one is appended at the end |
| ProductFormDialog.ToggleTwiceAbsent | components/admin/product-form-dialog.tsx:100 | toggling an unlisted value twice restores the list |
| ProductFormDialog.ToggleTwicePresent | components/admin/product-form-dialog.tsx:100 | toggling a listed value twice moves it to the end |
| ProductFormDialog.ToggleTwiceReorders | components/admin/product-form-dialog.tsx:100 | toggling `"a"` twice in `["a", "b"]` gives `["b", "a"]`, so a double toggle does not restore a duplicate-free list in general |
| ProductFormDialog.ToggleKeepsDistinct | components/admin/product-form-dialog.tsx:100 | a toggle keeps a duplicate-free list duplicate-free |
| ProductFormDialog.WithoutIndex | components/admin/product-form-dialog.tsx:115-120 | filtering out position `index` removes exactly that element and keeps the rest in order; an index out of range changes nothing |
| ProductFormDialog.AvailableProducts | components/admin/product-form-dialog.tsx:131 | while editing, an order-preserving subsequence of the products without the edited id that keeps every other product as many times as before; otherwise all products |
| ProductFormDialog.FormOf | components/admin/product-form-dialog.tsx:44-79 | without a product the empty form; with one its fields, with an empty badge becoming `""`, an empty layout `default` and a rating of 0 becoming 4.5 |
| ProductFormDialog.ProductForm.constructor | components/admin/product-form-dialog.tsx:28-42 | the form starts empty |
| ProductFormDialog.ProductForm.Load | components/admin/product-form-dialog.tsx:44-79 | the form becomes `FormOf` the edited product |
| ProductFormDialog.ProductForm.ToggleCategory | components/admin/product-form-dialog.tsx:93-103 | only the categories change, to their toggle |
| ProductFormDialog.ProductForm.ToggleRelatedProduct | components/admin/product-form-dialog.tsx:122-129 | only the related ids change, to their toggle |
| ProductFormDialog.ProductForm.AddImageUrl | components/admin/product-form-dialog.tsx:105-113 | a non-empty, unlisted input URL is appended and the input cleared; otherwise nothing changes; a duplicate-free image list stays duplicate-free |
| ProductFormDialog.ProductForm.RemoveImage | components/admin/product-form-dialog.tsx:115-120 | only the images change: exactly position `index` is removed, and an index out of range changes nothing |
| CartSheet.CouponBox.constructor | components/cart-sheet.tsx:28-29 | the code and the error start empty |
| CartSheet.CouponBox.HandleApplyCoupon | components/cart-sheet.tsx:31-45 | a blank code sets "Digite um código de cupom" and changes neither code nor coupon; a valid code applies the validated coupon and clears code and error; an invalid one sets "Cupom inválido ou expirado" and keeps the coupon; a newly applied coupon is in the list, matches the code up to case and is usable; the lookup runs over the catalog store's coupons, so an applied coupon is the first code match and is active |
| CartSheet.CouponBox.HandleRemoveCoupon | components/cart-sheet.tsx:47-50 | no coupon is applied and the error is cleared |
| CartSheet.CouponBox.OnCodeInput | components/cart-sheet.tsx:157-160 | the code becomes the upper-cased input and the error is cleared |
| CartSheet.MinusClicked | components/cart-sheet.tsx:104 | the line's quantity is set to one less, so a line at quantity 1 is removed |
| CartSheet.PlusClicked | components/cart-sheet.tsx:113 | the line's quantity is set to one more |
| CartSheet.DiscountRowMeansSaving | components/cart-sheet.tsx:181 | when the discount row shows on a positive subtotal, the total is below the subtotal; a coupon worth 0 never shows it |
| AdminAuth.Session.IsAuthenticated | lib/admin-auth.ts:20-23 | false without a window; with one, true exactly when the key holds `"authenticated"` |
| AdminAuth.Session.Login | lib/admin-auth.ts:7-14 | succeeds exactly for `ANOXADMIN` / `anoxaipim`; success writes `"authenticated"` under `anox_admin_auth` and nothing else, making the session authenticated in a window; failure leaves the storage unchanged |
| AdminAuth.Session.Logout | lib/admin-auth.ts:16-18 | the key is removed, nothing else changes, and the session is not authenticated |

## Left out

- Remote data store I/O is not modelled: the Supabase queries, the realtime
  channel set-up and teardown, and the insert, update and delete calls. Each
  change event reaches the model as its payload value.
- The promotion change payload is taken as the record itself, because the
  handlers only rename the row's fields.
- The store classes hold no loading flag and no error path. Load errors only
  log to the console; the `alert` and rethrow of a failed `addPromotion` or
  `updatePromotion` belong to the remote call, which is left out.
- `addProduct`, `deleteProduct`, `addCoupon`, `updateCoupon`, `deleteCoupon`,
  `deleteCategory` and `deletePromotion` are calls to the remote store. They
  are left out; their local effect arrives as a change event.
- Cart persistence to local storage and its rehydration (JSON) are not
  modelled; a new cart starts empty.
- Dates: the model compares integer timestamps. It leaves out `new Date()`
  parsing, the ISO formatting and `.slice(0, 16)` in `handleEdit` of the
  promotions screen, and the conversion of the form's date text into the
  stored timestamp.
- Numbers: prices are exact reals. IEEE-754 behaviour, `NaN`, `toFixed`
  display rounding and `parseInt`/`parseFloat` of form input are out, and so
  is `Number(...)` of a non-numeric column.
- Case mapping and `trim`: upper- and lower-casing cover ASCII letters only.
  Unicode case mapping is not modelled. `trim` uses ECMAScript's white-space
  set.
- Quantities are integers, because the buttons only ever pass q ± 1.
  Fractional quantities are not modelled.
- Categories are modelled as a sequence, so the `Array.isArray` fallback for
  a non-array `categories` column cannot arise.
- Rendering, dialogs, tabs and routing are out. So are `alert`, `confirm`,
  `console.log` and the 500 ms `isAdding` animation timer of the add-to-cart
  button.
- The checkout page is left out: a simulated payment, then `clearCart` and
  navigation.
- The product form's `handleSubmit` is left out: it passes `formData`
  unchanged to `addProduct` or `updateProduct`, and the latter's update data is
  `BuildProductUpdate`.
- AdminAuth.Session.Login: it models the browser only. Outside a window,
  `localStorage` would throw for the right credentials; that path is not
  modelled, and only `isAuthenticated` is guarded.
- AdminAuth.Session.Logout: likewise models the browser only; outside a window
  `localStorage.removeItem` would throw, and that path is not modelled.
