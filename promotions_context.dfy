/**
 * The promotions mirror of `lib/promotions-context.tsx`: promotion lookup by
 * product with its end-date check, the list each change-feed event leaves
 * behind, the `addPromotion` guard and the data `updatePromotion` sends.
 */
module PromotionsContext {
  import opened Wrappers
  import opened ChangeFeed
  import Lists

  /** A promotion; its dates are timestamps, `None` when the column is null. */
  datatype Promotion = Promotion(
    id: string,
    productId: string,
    active: bool,
    discountPercentage: real,
    badgeText: string,
    badgeColor: string,
    badgeTextColor: string,
    badgeStyle: string,
    startDate: Option<int>,
    endDate: Option<int>)

  // ---------------------------------------------------------------- lookup

  function ActiveFor(productId: string): Promotion -> bool {
    (p: Promotion) => p.productId == productId && p.active
  }

  /** The end date has passed: strictly before now. */
  predicate Ended(p: Promotion, now: int) {
    p.endDate.Some? && p.endDate.value < now
  }

  /** `getPromotionByProductId`: the first active promotion of the product, unless it has ended. */
  function GetPromotionByProductId(promotions: seq<Promotion>, productId: string, now: int): (r: Option<Promotion>)
    ensures r.Some? ==> r.value in promotions && r.value.productId == productId && r.value.active && !Ended(r.value, now)
  {
    var found := Lists.Find(promotions, ActiveFor(productId));
    if found.Some? && Ended(found.value, now) then None else found
  }

  /** `k` is the position of the first active promotion of `productId`. */
  ghost predicate FirstActiveFor(promotions: seq<Promotion>, productId: string, k: int) {
    0 <= k < |promotions| && promotions[k].productId == productId && promotions[k].active
    && forall j :: 0 <= j < k ==> !(promotions[j].productId == productId && promotions[j].active)
  }

  /**
   * The lookup by positions: without an active promotion of the product the
   * result is `None`; otherwise the first one alone decides.
   */
  lemma GetPromotionByPosition(promotions: seq<Promotion>, productId: string, now: int)
    ensures (forall i :: 0 <= i < |promotions| ==> !(promotions[i].productId == productId && promotions[i].active))
              ==> GetPromotionByProductId(promotions, productId, now) == None
    ensures forall k :: FirstActiveFor(promotions, productId, k) ==>
              GetPromotionByProductId(promotions, productId, now)
                == if Ended(promotions[k], now) then None else Some(promotions[k])
  {
    var found := Lists.Find(promotions, ActiveFor(productId));
    forall k | FirstActiveFor(promotions, productId, k)
      ensures found == Some(promotions[k])
    {
      var m :| 0 <= m < |promotions| && promotions[m] == found.value && ActiveFor(productId)(promotions[m])
               && forall j :: 0 <= j < m ==> !ActiveFor(productId)(promotions[j]);
      if k < m {
        assert ActiveFor(productId)(promotions[k]);
      }
    }
  }

  /**
   * An ended first match hides every later active promotion of the same
   * product, even one that has not ended.
   */
  lemma EndedFirstMatchShadows(promotions: seq<Promotion>, productId: string, now: int, k: int, later: int)
    requires FirstActiveFor(promotions, productId, k) && Ended(promotions[k], now)
    requires k < later < |promotions| && ActiveFor(productId)(promotions[later]) && !Ended(promotions[later], now)
    ensures GetPromotionByProductId(promotions, productId, now) == None
  {
    GetPromotionByPosition(promotions, productId, now);
  }

  /** A promotion with its start date erased. */
  function WithoutStart(p: Promotion): Promotion {
    p.(startDate := None)
  }

  function EraseStart(o: Option<Promotion>): Option<Promotion> {
    if o.Some? then Some(WithoutStart(o.value)) else None
  }

  /** Start dates never matter: erasing them all changes the result only by its start date. */
  lemma StartDateIrrelevant(promotions: seq<Promotion>, productId: string, now: int)
    ensures GetPromotionByProductId(Lists.Map(promotions, WithoutStart), productId, now)
              == EraseStart(GetPromotionByProductId(promotions, productId, now))
  {
    var erased := Lists.Map(promotions, WithoutStart);
    GetPromotionByPosition(promotions, productId, now);
    GetPromotionByPosition(erased, productId, now);
    var first := Lists.FirstIndex(promotions, ActiveFor(productId));
    if first.Some? {
      var k := first.value;
      assert FirstActiveFor(promotions, productId, k) by {
        forall j | 0 <= j < k ensures !(promotions[j].productId == productId && promotions[j].active) {
          assert !ActiveFor(productId)(promotions[j]);
        }
      }
      assert FirstActiveFor(erased, productId, k);
    } else {
      forall i | 0 <= i < |erased| ensures !(erased[i].productId == productId && erased[i].active) {
        assert !ActiveFor(productId)(promotions[i]);
      }
    }
  }

  // ---------------------------------------------------------------- change-feed reducer

  function PromotionIdIs(id: string): Promotion -> bool { (p: Promotion) => p.id == id }
  function PromotionIdIsNot(id: string): Promotion -> bool { (p: Promotion) => p.id != id }

  /** The promotion list after one change event. */
  function PromotionsAfter(prev: seq<Promotion>, ev: Change<Promotion>): (r: seq<Promotion>)
    ensures ev.Insert? ==> r == [ev.newRecord] + prev
    ensures ev.Update? ==> |r| == |prev| && forall i :: 0 <= i < |prev| ==>
              r[i] == if prev[i].id == ev.newRecord.id then ev.newRecord else prev[i]
    ensures ev.Delete? ==> Lists.IsSubsequence(r, prev)
                           && (forall i :: 0 <= i < |r| ==> r[i].id != ev.oldKey)
                           && (forall i :: 0 <= i < |prev| && prev[i].id != ev.oldKey ==> multiset(r)[prev[i]] == multiset(prev)[prev[i]])
                           && (forall i :: 0 <= i < |prev| && prev[i].id != ev.oldKey ==> prev[i] in r)
  {
    match ev
    case Insert(p) => [p] + prev
    case Update(p) => Lists.MapIf(prev, PromotionIdIs(p.id), Lists.Const(p))
    case Delete(id) =>
      Lists.FilterCounts(prev, PromotionIdIsNot(id));
      Lists.Filter(prev, PromotionIdIsNot(id))
  }

  /** Deleting an id that is not listed leaves the list as it was. */
  lemma DeleteAbsentPromotion(prev: seq<Promotion>, id: string)
    requires forall i :: 0 <= i < |prev| ==> prev[i].id != id
    ensures PromotionsAfter(prev, Delete(id)) == prev
  {
    Lists.FilterAll(prev, PromotionIdIsNot(id));
  }

  // ---------------------------------------------------------------- addPromotion, updatePromotion

  /** What `addPromotion` receives: `Omit<Promotion, "id">` with its dates as form text. */
  datatype PromotionDraft = PromotionDraft(
    productId: string,
    active: bool,
    discountPercentage: real,
    badgeText: string,
    badgeColor: string,
    badgeTextColor: string,
    badgeStyle: string,
    startDate: Option<string>,
    endDate: Option<string>)

  /** The row `addPromotion` inserts; a `None` date is written as null. */
  datatype PromotionInsert = PromotionInsert(
    productId: string,
    active: bool,
    discountPercentage: real,
    badgeText: string,
    badgeColor: string,
    badgeTextColor: string,
    badgeStyle: string,
    startDate: Option<string>,
    endDate: Option<string>)

  /** `d || null` for an optional date text: missing and empty both become null. */
  function DateOrNull(d: Option<string>): (r: Option<string>)
    ensures r.None? <==> d.None? || d.value == ""
    ensures r.Some? ==> r == d
  {
    if d.Some? && d.value != "" then d else None
  }

  /** The row `addPromotion` inserts, or `None` when no product is selected. */
  function AddPromotionInsert(draft: PromotionDraft): (r: Option<PromotionInsert>)
    ensures r.None? <==> draft.productId == ""
    ensures r.Some? ==>
              && r.value.productId == draft.productId && r.value.active == draft.active
              && r.value.discountPercentage == draft.discountPercentage
              && r.value.badgeText == draft.badgeText && r.value.badgeColor == draft.badgeColor
              && r.value.badgeTextColor == draft.badgeTextColor && r.value.badgeStyle == draft.badgeStyle
              && (r.value.startDate.None? <==> draft.startDate.None? || draft.startDate.value == "")
              && (r.value.endDate.None? <==> draft.endDate.None? || draft.endDate.value == "")
              && r.value.startDate == DateOrNull(draft.startDate) && r.value.endDate == DateOrNull(draft.endDate)
  {
    if draft.productId == "" then None
    else Some(PromotionInsert(
      draft.productId, draft.active, draft.discountPercentage, draft.badgeText, draft.badgeColor,
      draft.badgeTextColor, draft.badgeStyle, DateOrNull(draft.startDate), DateOrNull(draft.endDate)))
  }

  /** `Partial<Promotion>` as `updatePromotion` receives it, dates as form text. */
  datatype PromotionPatch = PromotionPatch(
    productId: Option<string>,
    active: Option<bool>,
    discountPercentage: Option<real>,
    badgeText: Option<string>,
    badgeColor: Option<string>,
    badgeTextColor: Option<string>,
    badgeStyle: Option<string>,
    startDate: Option<string>,
    endDate: Option<string>)

  /** The columns `updatePromotion` writes; a date is `Some(None)` when it is written as null. */
  datatype PromotionUpdate = PromotionUpdate(
    productId: Option<string>,
    active: Option<bool>,
    discountPercentage: Option<real>,
    badgeText: Option<string>,
    badgeColor: Option<string>,
    badgeTextColor: Option<string>,
    badgeStyle: Option<string>,
    startDate: Option<Option<string>>,
    endDate: Option<Option<string>>)

  /** A provided date written as itself, or as null when it is empty. */
  function DateUpdate(d: Option<string>): (r: Option<Option<string>>)
    ensures r.Some? <==> d.Some?
    ensures d.Some? ==> r.value == DateOrNull(d)
  {
    if d.Some? then Some(DateOrNull(d)) else None
  }

  /** The update data `updatePromotion` builds: exactly the provided fields, empty dates as null. */
  function BuildPromotionUpdate(patch: PromotionPatch): (u: PromotionUpdate)
    ensures u.productId == patch.productId && u.active == patch.active
    ensures u.discountPercentage == patch.discountPercentage && u.badgeText == patch.badgeText
    ensures u.badgeColor == patch.badgeColor && u.badgeTextColor == patch.badgeTextColor
    ensures u.badgeStyle == patch.badgeStyle
    ensures u.startDate.Some? <==> patch.startDate.Some?
    ensures u.endDate.Some? <==> patch.endDate.Some?
    ensures patch.startDate == Some("") ==> u.startDate == Some(None)
    ensures patch.endDate == Some("") ==> u.endDate == Some(None)
    ensures patch.startDate.Some? && patch.startDate.value != "" ==> u.startDate == Some(patch.startDate)
    ensures patch.endDate.Some? && patch.endDate.value != "" ==> u.endDate == Some(patch.endDate)
  {
    PromotionUpdate(
      patch.productId, patch.active, patch.discountPercentage, patch.badgeText, patch.badgeColor,
      patch.badgeTextColor, patch.badgeStyle, DateUpdate(patch.startDate), DateUpdate(patch.endDate))
  }

  // ---------------------------------------------------------------- the provider's state

  /** The provider's `promotions` state list. */
  class PromotionsStore {
    var promotions: seq<Promotion>

    constructor ()
      ensures promotions == []
    {
      promotions := [];
    }

    /** The initial load, newest first as the query orders it. */
    method Load(rows: seq<Promotion>)
      modifies this
      ensures promotions == rows
    {
      promotions := rows;
    }

    method OnPromotionChange(ev: Change<Promotion>)
      modifies this
      ensures promotions == PromotionsAfter(old(promotions), ev)
    {
      promotions := PromotionsAfter(promotions, ev);
    }

    /** The context's `getPromotionByProductId` over the current list. */
    function Lookup(productId: string, now: int): (r: Option<Promotion>)
      reads this
      ensures r.Some? ==> r.value in promotions && r.value.productId == productId && r.value.active
      ensures r.Some? ==> !Ended(r.value, now)
      ensures r == GetPromotionByProductId(promotions, productId, now)
    {
      GetPromotionByProductId(promotions, productId, now)
    }
  }
}
