/**
 * The featured-badge mirror of `lib/badges-context.tsx`: lookup by id and the
 * list each change-feed event leaves behind.
 */
module BadgesContext {
  import opened Wrappers
  import opened ChangeFeed
  import Lists

  datatype Badge = Badge(id: string, name: string, emoji: string, color: string)

  function BadgeIdIs(id: string): Badge -> bool { (b: Badge) => b.id == id }
  function BadgeIdIsNot(id: string): Badge -> bool { (b: Badge) => b.id != id }

  /** `getBadgeById`: the first badge with that id, or `None`. */
  function GetBadgeById(badges: seq<Badge>, id: string): (r: Option<Badge>)
    ensures r.None? <==> forall i :: 0 <= i < |badges| ==> badges[i].id != id
    ensures r.Some? ==> exists k :: 0 <= k < |badges| && badges[k] == r.value && r.value.id == id
                                    && forall j :: 0 <= j < k ==> badges[j].id != id
  {
    Lists.Find(badges, BadgeIdIs(id))
  }

  /** The badge list after one change event; an INSERT appends, unlike the other mirrors. */
  function BadgesAfter(prev: seq<Badge>, ev: Change<Badge>): (r: seq<Badge>)
    ensures ev.Insert? ==> r == prev + [ev.newRecord]
    ensures ev.Update? ==> |r| == |prev| && forall i :: 0 <= i < |prev| ==>
              r[i] == if prev[i].id == ev.newRecord.id then ev.newRecord else prev[i]
    ensures ev.Delete? ==> Lists.IsSubsequence(r, prev)
                           && (forall i :: 0 <= i < |r| ==> r[i].id != ev.oldKey)
                           && (forall i :: 0 <= i < |prev| && prev[i].id != ev.oldKey ==> multiset(r)[prev[i]] == multiset(prev)[prev[i]])
                           && (forall i :: 0 <= i < |prev| && prev[i].id != ev.oldKey ==> prev[i] in r)
  {
    match ev
    case Insert(b) => prev + [b]
    case Update(b) => Lists.MapIf(prev, BadgeIdIs(b.id), Lists.Const(b))
    case Delete(id) =>
      Lists.FilterCounts(prev, BadgeIdIsNot(id));
      Lists.Filter(prev, BadgeIdIsNot(id))
  }

  /**
   * Because an INSERT appends, it never changes what a lookup finds for an id
   * already listed; a new id is found as the inserted badge.
   */
  lemma InsertKeepsLookups(prev: seq<Badge>, b: Badge, id: string)
    ensures (exists i :: 0 <= i < |prev| && prev[i].id == id) ==>
              GetBadgeById(BadgesAfter(prev, Insert(b)), id) == GetBadgeById(prev, id)
    ensures (forall i :: 0 <= i < |prev| ==> prev[i].id != id) && b.id == id ==>
              GetBadgeById(BadgesAfter(prev, Insert(b)), id) == Some(b)
  {
    var after := BadgesAfter(prev, Insert(b));
    var r0 := GetBadgeById(prev, id);
    var r1 := GetBadgeById(after, id);
    if exists i :: 0 <= i < |prev| && prev[i].id == id {
      var k :| 0 <= k < |prev| && prev[k] == r0.value && r0.value.id == id
               && forall j :: 0 <= j < k ==> prev[j].id != id;
      assert after[k] == prev[k];
      var m :| 0 <= m < |after| && after[m] == r1.value && r1.value.id == id
               && forall j :: 0 <= j < m ==> after[j].id != id;
    } else if b.id == id {
      assert after[|prev|] == b;
      var m :| 0 <= m < |after| && after[m] == r1.value && r1.value.id == id
               && forall j :: 0 <= j < m ==> after[j].id != id;
    }
  }

  /** After a DELETE of an id, a lookup of that id finds nothing. */
  lemma DeleteHidesBadge(prev: seq<Badge>, id: string)
    ensures GetBadgeById(BadgesAfter(prev, Delete(id)), id) == None
  {
  }

  /** The provider's `badges` state list. */
  class BadgesStore {
    var badges: seq<Badge>

    constructor ()
      ensures badges == []
    {
      badges := [];
    }

    /** The initial load, oldest first as the query orders it. */
    method Load(rows: seq<Badge>)
      modifies this
      ensures badges == rows
    {
      badges := rows;
    }

    method OnBadgeChange(ev: Change<Badge>)
      modifies this
      ensures badges == BadgesAfter(old(badges), ev)
    {
      badges := BadgesAfter(badges, ev);
    }
  }
}
