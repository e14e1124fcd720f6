/** The ID arrays by which the controlling program learns about items that were removed. */
module DropReport {
  import opened Player

  function IdsInOrder(tags: seq<Tag>): seq<nat> {
    seq(|tags|, i requires 0 <= i < |tags| => tags[i].id)
  }

  function Members(ids: seq<nat>): set<nat> {
    set i | 0 <= i < |ids| :: ids[i]
  }

  /** `ids` lists the removed items in the order of their removal, and then each of the other dropped
      IDs once, in any order. */
  ghost predicate Lists(ids: seq<nat>, removed: seq<nat>, extra: set<nat>) {
    && removed <= ids
    && var rest := ids[|removed|..];
    && (forall id :: id in rest <==> id in extra)
    && (forall i, j :: 0 <= i < j < |rest| ==> rest[i] != rest[j])
  }

  ghost predicate Listing(ids: seq<nat>, r: Report) {
    Lists(ids, IdsInOrder(r.removed), r.extra)
  }

  method MkIdArray(removed: seq<nat>, dropped: set<nat>) returns (ids: seq<nat>)
    ensures Lists(ids, removed, dropped - Members(removed))
  {
    ids := [];
    var rest := dropped;
    for i := 0 to |removed|
      invariant ids == removed[..i]
      invariant rest == dropped - Members(removed[..i])
    {
      assert Members(removed[..i + 1]) == Members(removed[..i]) + {removed[i]};
      rest := rest - {removed[i]};
      ids := ids + [removed[i]];
    }
    assert removed[..|removed|] == removed;
    ghost var extra := rest;
    while rest != {}
      invariant |ids| >= |removed| && ids[..|removed|] == removed
      invariant rest <= extra
      invariant forall id :: id in ids[|removed|..] <==> id in extra - rest
      invariant forall i, j :: |removed| <= i < j < |ids| ==> ids[i] != ids[j]
    {
      var id :| id in rest;
      assert id !in ids[|removed|..];
      assert (ids + [id])[|removed|..] == ids[|removed|..] + [id];
      rest := rest - {id};
      ids := ids + [id];
    }
  }

  /** A report is empty exactly if its listing is. */
  lemma EmptyListing(ids: seq<nat>, r: Report)
    requires Listing(ids, r)
    ensures ids == [] <==> IsEmptyReport(r)
  {
    assert ids != [] && r.removed == [] ==> ids[0] in ids[0..];
  }

  lemma SameMembers(tags: seq<Tag>)
    ensures Members(IdsInOrder(tags)) == Ids(tags)
  {
    forall i | 0 <= i < |tags| ensures IdsInOrder(tags)[i] == tags[i].id {
    }
  }
}
