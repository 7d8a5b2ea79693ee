/** The live timeline component (home, local, public and list timelines): the rendered
    statuses, the buffer of statuses that arrived while the reader was scrolled down,
    and the first-item index handed to the virtualised list. */
module LiveTimeline {

  import opened Wrappers
  import opened Entity
  import opened JsArray
  import Reconcile

  /** Page size of every request, and the most unread statuses moved in one go. */
  const TimelineStatusesCount: nat := 30
  /** Initial first-item index of the virtualised list (the largest 32-bit signed integer). */
  const TimelineMaxStatuses: int := 2147483647
  /** Scroll offset, in pixels, beyond which the reader counts as scrolled away from the top. */
  const ScrollThreshold: real := 10.0

  function Min(a: nat, b: nat): nat { if a < b then a else b }

  /** The options of a page request. */
  datatype PageOptions = PageOptions(limit: nat, maxId: Option<string>)

  /** Options built by `loadTimeline`: always the fixed page size, and a `max_id` cursor
      exactly when one is given and is a non-empty string (`if (maxId)` is a truthiness test). */
  function PageRequest(maxId: Option<string>): (r: PageOptions)
    ensures r.limit == TimelineStatusesCount
    ensures r.maxId.Some? <==> maxId.Some? && maxId.value != ""
    ensures r.maxId.Some? ==> r.maxId == maxId
  {
    var options := PageOptions(30, None);
    if maxId.Some? && maxId.value != "" then options.(maxId := maxId) else options
  }

  /** `scrollerRef.current && scrollerRef.current.scrollTop > 10`; `None` is a scroller
      that is not mounted (the list is only rendered once it has statuses). */
  predicate ScrolledAway(scrollTop: Option<real>) {
    scrollTop.Some? && scrollTop.value > ScrollThreshold
  }

  /** The batch `prependUnreads` moves: `unreads.slice().reverse().slice(0, 30).reverse()`.
      These are the OLDEST `min(|unreads|, 30)` unread statuses, newest first as in `unreads`. */
  function UnreadBatch(unreads: seq<Status>): (u: seq<Status>)
    ensures |u| == Min(|unreads|, TimelineStatusesCount)
    ensures u == unreads[|unreads| - |u|..]
  {
    KeepLast(unreads, TimelineStatusesCount);
    Reverse(Slice(Reverse(unreads), 0, TimelineStatusesCount))
  }

  /** What `prependUnreads` leaves in the buffer, as written: `u.slice(0, -30)` of the batch itself.
      The batch never has more than 30 items, so nothing is left. */
  function AsWrittenRemains(unreads: seq<Status>): (remains: seq<Status>)
    ensures remains == []
  {
    var u := UnreadBatch(unreads);
    DropLastAll(u, TimelineStatusesCount);
    Slice(u, 0, -(TimelineStatusesCount as int))
  }

  /** As written, a flush of more than 30 unread statuses loses the newer ones: remainder and
      batch together are only the oldest 30, not the whole buffer. */
  lemma AsWrittenDropsOverflow(unreads: seq<Status>)
    requires |unreads| > TimelineStatusesCount
    ensures AsWrittenRemains(unreads) + UnreadBatch(unreads) == unreads[|unreads| - TimelineStatusesCount..]
    ensures AsWrittenRemains(unreads) + UnreadBatch(unreads) != unreads
  {
    assert |AsWrittenRemains(unreads) + UnreadBatch(unreads)| < |unreads|;
  }

  /** What the buffer evidently should keep: `unreads.slice(0, -30)`, the newer statuses
      that did not fit in the batch. */
  function IntendedRemains(unreads: seq<Status>): (remains: seq<Status>)
    ensures |remains| == |unreads| - |UnreadBatch(unreads)|
  {
    Slice(unreads, 0, -(TimelineStatusesCount as int))
  }

  /** With the intended remainder nothing is lost: remainder then batch is the whole buffer,
      in order, and the remainder is empty exactly when everything fit in one batch. */
  lemma IntendedRemainsConserves(unreads: seq<Status>)
    ensures IntendedRemains(unreads) + UnreadBatch(unreads) == unreads
    ensures IntendedRemains(unreads) == [] <==> |unreads| <= TimelineStatusesCount
  {
    var rest, u := IntendedRemains(unreads), UnreadBatch(unreads);
    assert rest == unreads[..|unreads| - |u|];
    assert unreads == unreads[..|unreads| - |u|] + unreads[|unreads| - |u|..];
  }

  class Timeline {
    /** The rendered statuses, newest first. */
    var statuses: seq<Status>
    /** Statuses that arrived while the reader was scrolled away from the top, newest first. */
    var unreads: seq<Status>
    /** Index of the first rendered row, lowered whenever rows are prepended above the viewport. */
    var firstItemIndex: int
    /** Total number of statuses moved from `unreads` to `statuses` so far. */
    ghost var moved: nat

    /** The first-item index has been lowered by exactly the number of statuses prepended by flushes. */
    ghost predicate Valid()
      reads this
    {
      firstItemIndex + moved == TimelineMaxStatuses
    }

    /** The component's initial state. */
    constructor ()
      ensures Valid()
      ensures statuses == [] && unreads == [] && firstItemIndex == TimelineMaxStatuses && moved == 0
    {
      statuses, unreads, firstItemIndex := [], [], TimelineMaxStatuses;
      moved := 0;
    }

    /** The streaming `update` handler: a new status goes to the front of the buffer when the
        reader is scrolled away from the top, and to the front of the list otherwise. There is no
        de-duplication by id, and the first-item index does not move. */
    method OnUpdate(status: Status, scrollTop: Option<real>)
      requires Valid()
      modifies this
      ensures Valid()
      ensures firstItemIndex == old(firstItemIndex) && moved == old(moved)
      ensures ScrolledAway(scrollTop) ==> unreads == [status] + old(unreads) && statuses == old(statuses)
      ensures !ScrolledAway(scrollTop) ==> statuses == [status] + old(statuses) && unreads == old(unreads)
    {
      if scrollTop.Some? && scrollTop.value > ScrollThreshold {
        unreads := [status] + unreads;
      } else {
        statuses := [status] + statuses;
      }
    }

    /** `prependUnreads`, the list's at-top-state-change callback (it ignores the new state, so it
        runs both when the list reaches the top and when it leaves it): the oldest (at most 30) unread
        statuses move to the front of the list, the buffer is emptied, and the first-item index
        drops by the batch size so that every row already shown keeps its index. */
    method PrependUnreads() returns (r: bool)
      requires Valid()
      modifies this
      ensures Valid()
      ensures !r
      ensures var n := Min(|old(unreads)|, TimelineStatusesCount);
        && statuses == old(unreads)[|old(unreads)| - n..] + old(statuses)
        && unreads == []
        && firstItemIndex == old(firstItemIndex) - n
        && moved == old(moved) + n
      ensures forall k :: 0 <= k < |old(statuses)| ==>
        var n := |statuses| - |old(statuses)|;
        statuses[n + k] == old(statuses)[k] && firstItemIndex + (n + k) == old(firstItemIndex) + k
    {
      var u := UnreadBatch(unreads);
      var remains := AsWrittenRemains(unreads);
      unreads := remains;
      firstItemIndex := firstItemIndex - |u|;
      statuses := u + statuses;
      moved := moved + |u|;
      r := false;
    }

    /** `loadMore`: requests the page older than the last rendered status and appends it.
        `page` is the server's answer to the returned request. */
    method LoadMore(page: seq<Status>) returns (request: PageOptions)
      requires Valid() && |statuses| > 0
      modifies this
      ensures Valid()
      ensures request == PageRequest(Some(old(statuses)[|old(statuses)| - 1].id))
      ensures statuses == old(statuses) + page
      ensures statuses[..|old(statuses)|] == old(statuses)
      ensures unreads == old(unreads) && firstItemIndex == old(firstItemIndex) && moved == old(moved)
    {
      var maxId := statuses[|statuses| - 1].id;
      request := PageRequest(Some(maxId));
      statuses := statuses + page;
    }

    /** `reload`, and the initial load when the timeline is opened: the list is replaced by a
        freshly fetched first page (requested without a cursor); the buffer and the first-item
        index are kept. */
    method Reload(page: seq<Status>) returns (request: PageOptions)
      requires Valid()
      modifies this
      ensures Valid()
      ensures request.limit == TimelineStatusesCount && request.maxId == None
      ensures statuses == page
      ensures unreads == old(unreads) && firstItemIndex == old(firstItemIndex) && moved == old(moved)
    {
      request := PageRequest(None);
      statuses := page;
    }

    /** `onRefresh` of a rendered status: the refreshed status is reconciled into the list. */
    method Refresh(status: Status)
      requires Valid()
      modifies this
      ensures Valid()
      ensures statuses == Reconcile.UpdateStatus(old(statuses), status)
      ensures Ids(statuses) == Ids(old(statuses))
      ensures unreads == old(unreads) && firstItemIndex == old(firstItemIndex) && moved == old(moved)
    {
      statuses := Reconcile.UpdateStatus(statuses, status);
    }
  }

  /** Three live statuses arrive while the reader is scrolled down; returning to the top shows
      all three, newest first, above the old rows, with the first-item index lowered by three. */
  method ScrolledDownScenario(a: Status, b: Status, c: Status, old0: Status)
  {
    var tl := new Timeline();
    var _ := tl.Reload([old0]);
    tl.OnUpdate(a, Some(120.0));
    tl.OnUpdate(b, Some(120.0));
    tl.OnUpdate(c, Some(120.0));
    assert tl.unreads == [c, b, a] && tl.statuses == [old0];
    var r := tl.PrependUnreads();
    assert tl.statuses == [c, b, a, old0] && tl.unreads == [];
    assert tl.firstItemIndex == TimelineMaxStatuses - 3;
  }

}
