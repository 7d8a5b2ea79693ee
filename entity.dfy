/** The status record delivered by the server, reduced to what the timeline logic reads. */
module Entity {

  import opened Wrappers

  /** A status. `reblog` is the boosted status when this one is a boost, `None` otherwise.
      `account` and `content` stand for the remaining fields, which the timeline logic
      copies but never inspects. */
  datatype Status = Status(id: string, account: string, content: string, reblog: Option<Status>)
  {
    /** True when this status is a boost whose target has the given id. */
    predicate Boosts(target: string) {
      reblog.Some? && reblog.value.id == target
    }

    /** At most one level of boosting: the target of a boost is not itself a boost. */
    predicate WellFormed() {
      reblog.Some? ==> reblog.value.reblog.None?
    }
  }

  /** The ids of a list of statuses, slot by slot. */
  function Ids(s: seq<Status>): seq<string>
  {
    seq(|s|, i requires 0 <= i < |s| => s[i].id)
  }

}
