/** The timeline shown on a user's profile: the user's own statuses, refreshed in place. */
module ProfileTimeline {

  import opened Entity
  import Reconcile

  class Timeline {
    /** The rendered statuses of the profile's user. */
    var statuses: seq<Status>

    constructor ()
      ensures statuses == []
    {
      statuses := [];
    }

    /** The load effect: when a user id is set, the list is replaced wholesale by that user's
        statuses (`page`, the server's answer); with an empty user id nothing is fetched. */
    method Load(userId: string, page: seq<Status>)
      modifies this
      ensures userId != "" ==> statuses == page
      ensures userId == "" ==> statuses == old(statuses)
    {
      if userId != "" {
        statuses := page;
      }
    }

    /** `onRefresh` of a rendered status: the same reconciliation as the live timeline's. */
    method Refresh(status: Status)
      modifies this
      ensures statuses == Reconcile.UpdateStatus(old(statuses), status)
      ensures |statuses| == |old(statuses)| && Ids(statuses) == Ids(old(statuses))
    {
      statuses := Reconcile.UpdateStatus(statuses, status);
    }
  }

}
