/**
 * The list editing of the admin product form
 * (`components/admin/product-form-dialog.tsx`): toggling a category or a
 * related product, adding and removing image URLs, loading the form from the
 * edited product, and the products offered as related ones.
 */
module ProductFormDialog {
  import opened Wrappers
  import Lists
  import opened ProductsContext

  function Differs(x: string): string -> bool { (y: string) => y != x }

  /** The toggle both `toggleCategory` and `toggleRelatedProduct` apply: remove every `x` if present, else append it. */
  function Toggle(s: seq<string>, x: string): (r: seq<string>)
    ensures x in s ==> x !in r && Lists.IsSubsequence(r, s)
                       && (forall i :: 0 <= i < |s| && s[i] != x ==> s[i] in r)
                       && forall i :: 0 <= i < |s| && s[i] != x ==> multiset(r)[s[i]] == multiset(s)[s[i]]
    ensures x !in s ==> r == s + [x]
  {
    if x in s then
      Lists.FilterCounts(s, Differs(x));
      Lists.Filter(s, Differs(x))
    else s + [x]
  }

  /** Toggling a value that is not listed, and toggling it again, restores the list. */
  lemma ToggleTwiceAbsent(s: seq<string>, x: string)
    requires x !in s
    ensures Toggle(Toggle(s, x), x) == s
  {
    assert x in s + [x];
    Lists.FilterAppend(s, x, Differs(x));
    Lists.FilterAll(s, Differs(x));
  }

  /** Toggling a listed value twice does not restore the list: the value moves to the end. */
  lemma ToggleTwicePresent(s: seq<string>, x: string)
    requires x in s
    ensures Toggle(Toggle(s, x), x) == Lists.Filter(s, Differs(x)) + [x]
  {
  }

  /** The smallest case where a double toggle reorders the list. */
  lemma ToggleTwiceReorders()
    ensures Toggle(Toggle(["a", "b"], "a"), "a") == ["b", "a"]
  {
    assert Toggle(["a", "b"], "a") == ["b"] by {
      assert ["a", "b"][1..] == ["b"];
      assert ["b"][1..] == [];
    }
  }

  function Self(x: string): string { x }

  /** A toggle keeps a duplicate-free list duplicate-free. */
  lemma ToggleKeepsDistinct(s: seq<string>, x: string)
    requires Lists.Distinct(s)
    ensures Lists.Distinct(Toggle(s, x))
  {
    assert Lists.UniqueBy(s, Self);
    Lists.FilterUnique(s, Differs(x), Self);
    assert Lists.UniqueBy(Lists.Filter(s, Differs(x)), Self);
  }

  /** `s.filter((_, i) => i !== index)`, counting positions from `s[0]`. */
  function WithoutIndex(s: seq<string>, index: int): (r: seq<string>)
    ensures 0 <= index < |s| ==> r == s[..index] + s[index + 1..]
    ensures !(0 <= index < |s|) ==> r == s
    decreases |s|
  {
    if |s| == 0 then []
    else
      var rest := WithoutIndex(s[1..], index - 1);
      if index == 0 then
        rest
      else
        assert 0 <= index < |s| ==> [s[0]] + s[1..][..index - 1] == s[..index];
        [s[0]] + rest
  }

  function ProductIdIsNot(id: string): Product -> bool { (p: Product) => p.id != id }

  /** `availableProducts`: every product but the one being edited, in order. */
  function AvailableProducts(products: seq<Product>, editing: Option<Product>): (r: seq<Product>)
    ensures Lists.IsSubsequence(r, products)
    ensures editing.Some? ==> (forall i :: 0 <= i < |r| ==> r[i].id != editing.value.id)
                              && (forall i :: 0 <= i < |products| && products[i].id != editing.value.id ==> products[i] in r)
                              && forall i :: 0 <= i < |products| && products[i].id != editing.value.id ==>
                                   multiset(r)[products[i]] == multiset(products)[products[i]]
    ensures editing.None? ==> r == products
  {
    if editing.Some? then
      Lists.FilterCounts(products, ProductIdIsNot(editing.value.id));
      Lists.Filter(products, ProductIdIsNot(editing.value.id))
    else
      Lists.SubsequenceRefl(products);
      products
  }

  /** The form's `formData` record. */
  datatype FormData = FormData(
    title: string,
    image: string,
    images: seq<string>,
    originalPrice: real,
    categories: seq<string>,
    featured: bool,
    badgeId: string,
    description: string,
    pageLayout: string,
    enableReviews: bool,
    customRating: real,
    totalReviews: int,
    relatedProductIds: seq<string>)

  function EmptyForm(): FormData {
    FormData("", "", [], 0.0, [], false, "", "", "default", true, 4.5, 0, [])
  }

  /** The form the dialog opens with: the edited product's fields with their fallbacks, or the empty form. */
  function FormOf(product: Option<Product>): (f: FormData)
    ensures product.None? ==> f == EmptyForm()
    ensures product.Some? ==>
              && f.title == product.value.title && f.image == product.value.image
              && f.images == product.value.images && f.originalPrice == product.value.originalPrice
              && f.categories == product.value.categories && f.featured == product.value.featured
              && f.badgeId == (if product.value.badgeId.Some? then product.value.badgeId.value else "")
              && f.description == product.value.description
              && f.pageLayout == (if product.value.pageLayout == "" then "default" else product.value.pageLayout)
              && f.enableReviews == product.value.enableReviews
              && f.customRating == (if product.value.customRating == 0.0 then 4.5 else product.value.customRating)
              && f.totalReviews == product.value.totalReviews
              && f.relatedProductIds == product.value.relatedProductIds
  {
    match product
    case None => EmptyForm()
    case Some(p) =>
      FormData(
        p.title, p.image, p.images, p.originalPrice, p.categories, p.featured,
        if p.badgeId.Some? then p.badgeId.value else "",
        p.description,
        if p.pageLayout == "" then "default" else p.pageLayout,
        p.enableReviews,
        if p.customRating == 0.0 then 4.5 else p.customRating,
        p.totalReviews,
        p.relatedProductIds)
  }

  /** The dialog's `formData` state; each handler replaces it with an updated copy. */
  class ProductForm {
    var formData: FormData

    constructor ()
      ensures formData == EmptyForm()
    {
      formData := EmptyForm();
    }

    /** Runs when the dialog opens or the edited product changes. */
    method Load(product: Option<Product>)
      modifies this
      ensures formData == FormOf(product)
    {
      formData := FormOf(product);
    }

    method ToggleCategory(category: string)
      modifies this
      ensures formData == old(formData).(categories := Toggle(old(formData).categories, category))
    {
      formData := formData.(categories := Toggle(formData.categories, category));
    }

    method ToggleRelatedProduct(productId: string)
      modifies this
      ensures formData == old(formData).(relatedProductIds := Toggle(old(formData).relatedProductIds, productId))
    {
      formData := formData.(relatedProductIds := Toggle(formData.relatedProductIds, productId));
    }

    /** Moves a non-empty, not yet listed image URL from the input to the list; otherwise nothing changes. */
    method AddImageUrl()
      modifies this
      ensures old(formData.image) != "" && old(formData.image) !in old(formData.images) ==>
                formData == old(formData).(images := old(formData.images) + [old(formData.image)], image := "")
      ensures old(formData.image) == "" || old(formData.image) in old(formData.images) ==> formData == old(formData)
      ensures Lists.Distinct(old(formData.images)) ==> Lists.Distinct(formData.images)
    {
      if formData.image != "" && formData.image !in formData.images {
        formData := formData.(images := formData.images + [formData.image], image := "");
      }
    }

    /** Removes exactly position `index`; an index out of range changes nothing. */
    method RemoveImage(index: int)
      modifies this
      ensures formData == old(formData).(images := WithoutIndex(old(formData.images), index))
      ensures 0 <= index < |old(formData.images)| ==>
                formData.images == old(formData.images)[..index] + old(formData.images)[index + 1..]
      ensures !(0 <= index < |old(formData.images)|) ==> formData == old(formData)
    {
      formData := formData.(images := WithoutIndex(formData.images, index));
    }
  }
}
