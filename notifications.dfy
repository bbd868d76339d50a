/**
 * NotificationService: gathers, per subscription id, the rules that would
 * fire now. The Python dictionary becomes a map; a later subscription with
 * the same id replaces an earlier entry, as a dictionary assignment does.
 */
module Notifications {
  import opened Time
  import opened Entities
  import opened SubscriptionModel
  import opened Aggregate

  /** One value of the pending dictionary: the subscription and its firing rules. */
  datatype PendingEntry = PendingEntry(subscription: Subscription, rules: seq<NotificationRule>)

  /** The dictionary the loop builds after visiting every subscription of `subs`, in order. */
  function PendingFor(subs: seq<Subscription>, now: Instant): map<Id, PendingEntry>
    reads subs
  {
    if subs == [] then map[]
    else
      var last := subs[|subs| - 1];
      var rules := RulesNow(last, now);
      var earlier := PendingFor(subs[..|subs| - 1], now);
      if rules != [] then earlier[last.id := PendingEntry(last, rules)] else earlier
  }

  /** The rules `s` would report now. */
  function RulesNow(s: Subscription, now: Instant): seq<NotificationRule>
    reads s
  {
    PendingNotifications(s.Snapshot(), now)
  }

  /** An id has an entry exactly when some subscription with that id has pending rules. */
  lemma {:induction false} PendingForKeys(subs: seq<Subscription>, now: Instant, k: Id)
    ensures k in PendingFor(subs, now) <==>
      exists i :: 0 <= i < |subs| && subs[i].id == k && RulesNow(subs[i], now) != []
  {
    if subs != [] {
      var n := |subs| - 1;
      PendingForKeys(subs[..n], now, k);
      assert forall i :: 0 <= i < n ==> subs[..n][i] == subs[i];
    }
  }

  /** An entry belongs to the last subscription with its id that has pending rules, and holds those rules. */
  lemma {:induction false} PendingForEntry(subs: seq<Subscription>, now: Instant, k: Id)
    requires k in PendingFor(subs, now)
    ensures exists i ::
              && 0 <= i < |subs| && subs[i] == PendingFor(subs, now)[k].subscription
              && subs[i].id == k && PendingFor(subs, now)[k].rules == RulesNow(subs[i], now) != []
              && forall j :: i < j < |subs| && subs[j].id == k ==> RulesNow(subs[j], now) == []
  {
    var n := |subs| - 1;
    var front := subs[..n];
    if subs[n].id == k && RulesNow(subs[n], now) != [] {
      assert subs[n] == PendingFor(subs, now)[k].subscription;
    } else {
      assert PendingFor(subs, now)[k] == PendingFor(front, now)[k];
      PendingForEntry(front, now, k);
      var i :|
        && 0 <= i < n && front[i] == PendingFor(front, now)[k].subscription
        && front[i].id == k && PendingFor(front, now)[k].rules == RulesNow(front[i], now) != []
        && forall j :: i < j < n && front[j].id == k ==> RulesNow(front[j], now) == [];
      assert subs[i] == front[i];
      forall j | i < j < |subs| && subs[j].id == k
        ensures RulesNow(subs[j], now) == []
      {
        if j < n {
          assert subs[j] == front[j];
        }
      }
    }
  }

  /** get_all_pending_notifications: asks each subscription for its pending rules and keeps the non-empty ones. */
  method GetAllPendingNotifications(subs: seq<Subscription>, now: Instant) returns (pending: map<Id, PendingEntry>)
    ensures pending == PendingFor(subs, now)
  {
    pending := map[];
    var i := 0;
    while i < |subs|
      invariant 0 <= i <= |subs|
      invariant pending == PendingFor(subs[..i], now)
    {
      assert subs[..i + 1][..i] == subs[..i];
      var rules := subs[i].GetPendingNotifications(now);
      if rules != [] {
        pending := pending[subs[i].id := PendingEntry(subs[i], rules)];
      }
      i := i + 1;
    }
    assert subs[..i] == subs;
  }
}
