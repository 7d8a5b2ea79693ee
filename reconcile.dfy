/** `updateStatus`: how a refreshed status is folded into a rendered list of statuses.
    Both timeline components carry a textually identical copy of it; this one
    definition models both. */
module Reconcile {

  import opened Wrappers
  import opened Entity

  /** True when one of the four reconciliation cases applies to slot `s` for the incoming status `t`. */
  predicate Related(s: Status, t: Status) {
    || s.id == t.id
    || s.Boosts(t.id)
    || (t.reblog.Some? && s.id == t.reblog.value.id)
    || (t.reblog.Some? && s.Boosts(t.reblog.value.id))
  }

  /** One slot of the `map`: four cases tried in order, first match wins. */
  function ReconcileSlot(s: Status, t: Status): (r: Status)
    ensures r.id == s.id
    ensures !Related(s, t) ==> r == s
  {
    if s.id == t.id then t
    else if s.Boosts(t.id) then s.(reblog := Some(t))
    else if t.reblog.Some? && s.id == t.reblog.value.id then t.reblog.value
    else if t.reblog.Some? && s.Boosts(t.reblog.value.id) then s.(reblog := t.reblog)
    else s
  }

  /** The new list: every slot reconciled on its own. No slot is added, dropped or moved,
      every slot keeps its id, and a slot the incoming status does not concern is untouched. */
  function UpdateStatus(current: seq<Status>, t: Status): (r: seq<Status>)
    ensures |r| == |current|
    ensures Ids(r) == Ids(current)
    ensures forall i :: 0 <= i < |current| && !Related(current[i], t) ==> r[i] == current[i]
  {
    seq(|current|, i requires 0 <= i < |current| => ReconcileSlot(current[i], t))
  }

  /** The list after the update shows the incoming status wherever it is referenced:
      a slot with its id holds it, and a boost of it (under another id) embeds it. */
  ghost predicate Reflects(r: seq<Status>, t: Status) {
    forall i :: 0 <= i < |r| ==>
      && (r[i].id == t.id ==> r[i] == t)
      && (r[i].id != t.id && r[i].Boosts(t.id) ==> r[i].reblog == Some(t))
  }

  /** Each output slot is computed from the input slot at the same position alone:
      the update distributes over concatenation, so nothing is reordered. */
  lemma UpdateStatusConcat(a: seq<Status>, b: seq<Status>, t: Status)
    ensures UpdateStatus(a + b, t) == UpdateStatus(a, t) + UpdateStatus(b, t)
    ensures UpdateStatus([], t) == []
  {
    var lhs, rhs := UpdateStatus(a + b, t), UpdateStatus(a, t) + UpdateStatus(b, t);
    forall i | 0 <= i < |lhs| ensures lhs[i] == rhs[i] {
      if i < |a| {
        assert (a + b)[i] == a[i];
      } else {
        assert (a + b)[i] == b[i - |a|];
      }
    }
  }

  /** Case 1: a slot with the incoming id is replaced by the incoming status, even when it is a boost. */
  lemma UpdateStatusReplacesSameId(current: seq<Status>, t: Status, i: nat)
    requires i < |current| && current[i].id == t.id
    ensures UpdateStatus(current, t)[i] == t
  {
  }

  /** Case 2: a boost whose target is the incoming status keeps its own fields and embeds the new target. */
  lemma UpdateStatusRefreshesTarget(current: seq<Status>, t: Status, i: nat)
    requires i < |current| && current[i].id != t.id && current[i].Boosts(t.id)
    ensures var r := UpdateStatus(current, t)[i];
      r.id == current[i].id && r.account == current[i].account
      && r.content == current[i].content && r.reblog == Some(t)
  {
  }

  /** Case 3: an incoming boost turns a plain slot holding its target into that target (not the boost). */
  lemma UpdateStatusUnwrapsBoost(current: seq<Status>, t: Status, i: nat)
    requires i < |current| && current[i].id != t.id && !current[i].Boosts(t.id)
    requires t.reblog.Some? && current[i].id == t.reblog.value.id
    ensures UpdateStatus(current, t)[i] == t.reblog.value
  {
  }

  /** Case 4: a boost of the same target as the incoming boost keeps its fields and embeds the new target. */
  lemma UpdateStatusSharedTarget(current: seq<Status>, t: Status, i: nat)
    requires i < |current| && current[i].id != t.id && !current[i].Boosts(t.id)
    requires t.reblog.Some? && current[i].id != t.reblog.value.id && current[i].Boosts(t.reblog.value.id)
    ensures var r := UpdateStatus(current, t)[i];
      r.id == current[i].id && r.account == current[i].account
      && r.content == current[i].content && r.reblog == t.reblog
  {
  }

  /** After the update the list reflects the incoming status, provided the incoming status
      boosts at most one level deep. */
  lemma UpdateStatusReflects(current: seq<Status>, t: Status)
    requires t.WellFormed()
    ensures Reflects(UpdateStatus(current, t), t)
  {
    var r := UpdateStatus(current, t);
    forall i | 0 <= i < |r|
      ensures r[i].id == t.id ==> r[i] == t
      ensures r[i].id != t.id && r[i].Boosts(t.id) ==> r[i].reblog == Some(t)
    {
      assert r[i] == ReconcileSlot(current[i], t);
    }
  }

  lemma ReconcileSlotIdempotent(s: Status, t: Status)
    requires t.WellFormed()
    ensures ReconcileSlot(ReconcileSlot(s, t), t) == ReconcileSlot(s, t)
  {
  }

  /** Refreshing with the same status twice is the same as refreshing once, provided
      the incoming status boosts at most one level deep. */
  lemma {:induction false} UpdateStatusIdempotent(current: seq<Status>, t: Status)
    requires t.WellFormed()
    ensures UpdateStatus(UpdateStatus(current, t), t) == UpdateStatus(current, t)
  {
    var once := UpdateStatus(current, t);
    var twice := UpdateStatus(once, t);
    forall i | 0 <= i < |current| ensures twice[i] == once[i] {
      ReconcileSlotIdempotent(current[i], t);
    }
  }

  /** Without well-formedness idempotence fails: an incoming boost `b` of `a`, where `a`
      itself boosts `b`, first unwraps slot `a` (case 3) and then, on the second pass,
      the unwrapped slot matches case 2 and changes again. */
  lemma IdempotenceNeedsWellFormed()
    ensures var b0 := Status("b", "", "", None);
      var a := Status("a", "", "", Some(b0));
      var t := Status("b", "", "", Some(a));
      var once := UpdateStatus([Status("a", "", "", None)], t);
      once == [a] && UpdateStatus(once, t) == [a.(reblog := Some(t))] && UpdateStatus(once, t) != once
  {
  }

}
