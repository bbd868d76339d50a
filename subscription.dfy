/**
 * The Subscription aggregate root as an object whose operations update its
 * fields in place. Each operation is proved to move the object from state
 * `old(Snapshot())` to the state the matching transition of
 * SubscriptionModel prescribes, or to leave it untouched when it refuses.
 */
module Aggregate {
  import opened Wrappers
  import opened Errors
  import opened Time
  import opened ValueObjects
  import opened Entities
  import opened SubscriptionModel

  /** A transition that returns nothing took effect exactly as `spec` says. */
  predicate Applied(spec: Result<SubscriptionState, Error>, r: Result<(), Error>,
                    before: SubscriptionState, after: SubscriptionState)
  {
    match spec
    case Ok(s) => r == Ok(()) && after == s
    case Err(e) => r == Err(e) && after == before
  }

  /** A transition that returns a value took effect exactly as `spec` says. */
  predicate AppliedWith<T(==)>(spec: Result<(SubscriptionState, T), Error>, r: Result<T, Error>,
                           before: SubscriptionState, after: SubscriptionState)
  {
    match spec
    case Ok(p) => r == Ok(p.1) && after == p.0
    case Err(e) => r == Err(e) && after == before
  }

  class Subscription {
    const id: Id
    var name: string
    var provider: Provider
    var cost: Money
    var billingCycle: BillingCycle
    var status: Status
    var startDate: Instant
    var nextBillingDate: Instant
    var notificationRules: seq<NotificationRule>
    var renewalEvents: seq<RenewalEvent>
    var cancellationDate: Option<Instant>
    var notes: Option<string>

    /** The dataclass constructor: both lists start empty and there is no cancellation date. */
    constructor (id: Id, name: string, provider: Provider, cost: Money, billingCycle: BillingCycle,
                 status: Status, startDate: Instant, nextBillingDate: Instant, notes: Option<string>)
      ensures Snapshot() == SubscriptionState(id, name, provider, cost, billingCycle, status,
                                              startDate, nextBillingDate, [], [], None, notes)
    {
      this.id := id;
      this.name := name;
      this.provider := provider;
      this.cost := cost;
      this.billingCycle := billingCycle;
      this.status := status;
      this.startDate := startDate;
      this.nextBillingDate := nextBillingDate;
      this.notificationRules := [];
      this.renewalEvents := [];
      this.cancellationDate := None;
      this.notes := notes;
    }

    /** The object's current state as a value. */
    function Snapshot(): SubscriptionState
      reads this
    {
      SubscriptionState(id, name, provider, cost, billingCycle, status, startDate, nextBillingDate,
                        notificationRules, renewalEvents, cancellationDate, notes)
    }

    /** `_generate_next_renewal_event`: appends and returns an unprocessed event at the next billing date. */
    method GenerateNextRenewalEvent(eventId: Id) returns (e: RenewalEvent)
      modifies this
      ensures e == NewEvent(old(Snapshot()), eventId)
      ensures Snapshot() == WithNextEvent(old(Snapshot()), eventId)
    {
      e := RenewalEvent(eventId, id, nextBillingDate, cost, false);
      renewalEvents := renewalEvents + [e];
    }

    /** `_regenerate_renewal_events`. */
    method RegenerateRenewalEvents(eventId: Id)
      modifies this
      ensures Snapshot() == Regenerate(old(Snapshot()), eventId)
    {
      renewalEvents := Processed(renewalEvents);
      if status == Active {
        var _ := GenerateNextRenewalEvent(eventId);
      }
    }

    method Pause() returns (r: Result<(), Error>)
      modifies this
      ensures Applied(SubscriptionModel.Pause(old(Snapshot())), r, old(Snapshot()), Snapshot())
    {
      if status == Cancelled {
        return Err(PauseCancelled);
      }
      if status == Paused {
        return Err(AlreadyPaused);
      }
      status := Paused;
      r := Ok(());
    }

    method Resume(now: Instant, eventId: Id) returns (r: Result<(), Error>)
      modifies this
      ensures Applied(SubscriptionModel.Resume(old(Snapshot()), now, eventId), r, old(Snapshot()), Snapshot())
    {
      if status != Paused {
        return Err(NotPaused);
      }
      status := Active;
      nextBillingDate := NextDate(billingCycle, now);
      var _ := GenerateNextRenewalEvent(eventId);
      r := Ok(());
    }

    method Cancel(now: Instant) returns (r: Result<(), Error>)
      modifies this
      ensures Applied(SubscriptionModel.Cancel(old(Snapshot()), now), r, old(Snapshot()), Snapshot())
    {
      if status == Cancelled {
        return Err(AlreadyCancelled);
      }
      status := Cancelled;
      cancellationDate := Some(now);
      renewalEvents := Processed(renewalEvents);
      r := Ok(());
    }

    /** `update_cost`: the loop overwrites the amount of each unprocessed event, one at a time. */
    method UpdateCost(newCost: Money) returns (r: Result<(), Error>)
      modifies this
      ensures Applied(SubscriptionModel.UpdateCost(old(Snapshot()), newCost), r, old(Snapshot()), Snapshot())
    {
      if newCost.currency != cost.currency {
        return Err(CurrencyChange);
      }
      cost := newCost;
      var events := renewalEvents;
      var i := 0;
      while i < |events|
        invariant 0 <= i <= |events| == |renewalEvents|
        invariant forall j :: 0 <= j < i ==> events[j] == RepricedEvent(renewalEvents[j], newCost)
        invariant forall j :: i <= j < |events| ==> events[j] == renewalEvents[j]
      {
        if !events[i].isProcessed {
          events := events[i := events[i].(amount := newCost)];
        }
        i := i + 1;
      }
      assert events == Repriced(renewalEvents, newCost);
      renewalEvents := events;
      r := Ok(());
    }

    method UpdateBillingCycle(newCycle: BillingCycle, now: Instant, eventId: Id)
      modifies this
      ensures Snapshot() == SubscriptionModel.UpdateBillingCycle(old(Snapshot()), newCycle, now, eventId)
    {
      billingCycle := newCycle;
      nextBillingDate := NextDate(newCycle, now);
      RegenerateRenewalEvents(eventId);
    }

    /** `process_renewal`: a search loop that stops at the first due event, then one cycle step. */
    method ProcessRenewal(now: Instant, eventId: Id) returns (r: Result<RenewalEvent, Error>)
      modifies this
      ensures AppliedWith(SubscriptionModel.ProcessRenewal(old(Snapshot()), now, eventId), r, old(Snapshot()), Snapshot())
    {
      if status != Active {
        return Err(RenewalInactive);
      }
      var found := None;
      var i := 0;
      while i < |renewalEvents|
        invariant 0 <= i <= |renewalEvents|
        invariant forall j :: 0 <= j < i ==> !IsDue(renewalEvents[j], now)
        invariant found.None?
      {
        if !renewalEvents[i].isProcessed && renewalEvents[i].renewalDate <= now {
          found := Some(i);
          break;
        }
        i := i + 1;
      }
      assert found == FirstDue(renewalEvents, now) by {
        if found.Some? {
          var k := FirstDue(renewalEvents, now).value;
          assert !(k < i) && !(i < k);
        }
      }
      if found.Some? {
        var k := found.value;
        renewalEvents := renewalEvents[k := renewalEvents[k].(isProcessed := true)];
      }
      nextBillingDate := NextDate(billingCycle, nextBillingDate);
      var e := GenerateNextRenewalEvent(eventId);
      r := Ok(e);
    }

    method AddNotificationRule(timing: NotificationTiming, ruleId: Id) returns (r: Result<NotificationRule, Error>)
      modifies this
      ensures AppliedWith(SubscriptionModel.AddNotificationRule(old(Snapshot()), timing, ruleId), r, old(Snapshot()), Snapshot())
    {
      if HasRuleFor(notificationRules, timing) {
        return Err(DuplicateRule);
      }
      var rule := NotificationRule(ruleId, timing, true);
      notificationRules := notificationRules + [rule];
      r := Ok(rule);
    }

    /** `get_pending_notifications`: collects, in order, the rules that fire for the next billing date. */
    method GetPendingNotifications(now: Instant) returns (pending: seq<NotificationRule>)
      ensures pending == PendingNotifications(Snapshot(), now)
      ensures forall rule :: rule in pending <==>
        status == Active && rule in notificationRules && ShouldNotify(rule, nextBillingDate, now)
    {
      if status != Active {
        return [];
      }
      pending := [];
      var i := 0;
      while i < |notificationRules|
        invariant 0 <= i <= |notificationRules|
        invariant pending == Firing(notificationRules[..i], nextBillingDate, now)
      {
        if ShouldNotify(notificationRules[i], nextBillingDate, now) {
          pending := pending + [notificationRules[i]];
        }
        assert notificationRules[..i + 1][..i] == notificationRules[..i];
        i := i + 1;
      }
      assert notificationRules[..i] == notificationRules;
    }
  }

  /** The states of a list of subscriptions, in list order. */
  function Snapshots(subs: seq<Subscription>): (r: seq<SubscriptionState>)
    reads subs
    ensures |r| == |subs|
    ensures forall i :: 0 <= i < |subs| ==> r[i] == subs[i].Snapshot()
  {
    if subs == [] then [] else Snapshots(subs[..|subs| - 1]) + [subs[|subs| - 1].Snapshot()]
  }
}
