/**
 * The Subscription aggregate as a value: its data, the rules each of its
 * operations follows (as transition functions from one state to the next),
 * its cost equivalents and its pending notifications. The class in module
 * Aggregate carries out these transitions in place and is proved against
 * them.
 */
module SubscriptionModel {
  import opened Wrappers
  import opened Errors
  import opened Time
  import opened ValueObjects
  import opened Entities

  /** Every field of the aggregate, as one value. */
  datatype SubscriptionState = SubscriptionState(
    id: Id,
    name: string,
    provider: Provider,
    cost: Money,
    billingCycle: BillingCycle,
    status: Status,
    startDate: Instant,
    nextBillingDate: Instant,
    notificationRules: seq<NotificationRule>,
    renewalEvents: seq<RenewalEvent>,
    cancellationDate: Option<Instant>,
    notes: Option<string>)

  /** contributes_to_expenses: only an active subscription costs anything. */
  predicate ContributesToExpenses(st: SubscriptionState)
  {
    st.status == Active
  }

  // ------------------------------------------------------------------
  // The aggregate's invariant
  // ------------------------------------------------------------------

  /** At most one notification rule per timing. */
  predicate DistinctTimings(rules: seq<NotificationRule>)
  {
    forall i, j :: 0 <= i < j < |rules| ==> rules[i].timing != rules[j].timing
  }

  /**
   * Rules have distinct timings, every event belongs to this subscription, and
   * a cancelled subscription has a cancellation date and only processed events.
   */
  predicate Invariant(st: SubscriptionState)
  {
    && DistinctTimings(st.notificationRules)
    && (forall e :: e in st.renewalEvents ==> e.subscriptionId == st.id)
    && (st.status == Cancelled ==>
          st.cancellationDate.Some? && forall e :: e in st.renewalEvents ==> e.isProcessed)
  }

  // ------------------------------------------------------------------
  // Renewal-event lists
  // ------------------------------------------------------------------

  /** `[e for e in events if e.is_processed]`. */
  function Processed(events: seq<RenewalEvent>): (r: seq<RenewalEvent>)
    ensures forall e :: e in r ==> e in events && e.isProcessed
    ensures forall e :: e in events && e.isProcessed ==> e in r
    ensures |r| <= |events|
  {
    if events == [] then []
    else (if events[0].isProcessed then [events[0]] else []) + Processed(events[1..])
  }

  /** Filtering distributes over concatenation, so processed events keep their relative order. */
  lemma {:induction false} ProcessedConcat(a: seq<RenewalEvent>, b: seq<RenewalEvent>)
    ensures Processed(a + b) == Processed(a) + Processed(b)
  {
    if a == [] {
      assert a + b == b;
    } else {
      assert (a + b)[0] == a[0];
      assert (a + b)[1..] == a[1..] + b;
      ProcessedConcat(a[1..], b);
    }
  }

  /** A list of processed events is its own filter: filtering twice changes nothing. */
  lemma {:induction false} ProcessedAllProcessed(events: seq<RenewalEvent>)
    requires forall e :: e in events ==> e.isProcessed
    ensures Processed(events) == events
  {
    if events != [] {
      assert events[0] in events;
      assert forall e :: e in events[1..] ==> e in events;
      ProcessedAllProcessed(events[1..]);
      assert [events[0]] + events[1..] == events;
    }
  }

  /** One event after a price change: unprocessed events take the new cost. */
  function RepricedEvent(e: RenewalEvent, cost: Money): RenewalEvent
  {
    if e.isProcessed then e else e.(amount := cost)
  }

  /** The event list after `update_cost`: same length and order, history untouched. */
  function Repriced(events: seq<RenewalEvent>, cost: Money): (r: seq<RenewalEvent>)
    ensures |r| == |events|
    ensures forall i :: 0 <= i < |events| && events[i].isProcessed ==> r[i] == events[i]
    ensures forall i :: 0 <= i < |events| && !events[i].isProcessed ==> r[i] == events[i].(amount := cost)
  {
    if events == [] then []
    else [RepricedEvent(events[0], cost)] + Repriced(events[1..], cost)
  }

  /** The event `_generate_next_renewal_event` creates: unprocessed, at the next billing date, for the current cost. */
  function NewEvent(st: SubscriptionState, eventId: Id): RenewalEvent
  {
    RenewalEvent(eventId, st.id, st.nextBillingDate, st.cost, false)
  }

  /** `_generate_next_renewal_event`: appends that event and changes nothing else. */
  function WithNextEvent(st: SubscriptionState, eventId: Id): (r: SubscriptionState)
    ensures |r.renewalEvents| == |st.renewalEvents| + 1
    ensures r.renewalEvents[..|st.renewalEvents|] == st.renewalEvents
    ensures r.renewalEvents[|st.renewalEvents|] == NewEvent(st, eventId)
    ensures r.(renewalEvents := st.renewalEvents) == st
  {
    st.(renewalEvents := st.renewalEvents + [NewEvent(st, eventId)])
  }

  /** `_regenerate_renewal_events`: keeps processed events, then adds one fresh event if active. */
  function Regenerate(st: SubscriptionState, eventId: Id): (r: SubscriptionState)
    ensures forall e :: e in r.renewalEvents && e.isProcessed ==> e in st.renewalEvents
    ensures forall e :: e in st.renewalEvents && e.isProcessed ==> e in r.renewalEvents
    ensures forall e :: e in r.renewalEvents && !e.isProcessed ==> st.status == Active && e == NewEvent(st, eventId)
    ensures r.renewalEvents == Processed(st.renewalEvents) + (if st.status == Active then [NewEvent(st, eventId)] else [])
    ensures r.(renewalEvents := st.renewalEvents) == st
  {
    var kept := st.(renewalEvents := Processed(st.renewalEvents));
    if kept.status == Active then WithNextEvent(kept, eventId) else kept
  }

  /** An event the renewal step may mature: not yet processed and dated no later than now. */
  predicate IsDue(e: RenewalEvent, now: Instant)
  {
    !e.isProcessed && e.renewalDate <= now
  }

  /** The position of the first due event in list order, if any. */
  function FirstDue(events: seq<RenewalEvent>, now: Instant): (r: Option<nat>)
    ensures r.Some? ==> r.value < |events| && IsDue(events[r.value], now)
    ensures r.Some? ==> forall j :: 0 <= j < r.value ==> !IsDue(events[j], now)
    ensures r.None? ==> forall j :: 0 <= j < |events| ==> !IsDue(events[j], now)
  {
    if events == [] then None
    else if IsDue(events[0], now) then Some(0)
    else match FirstDue(events[1..], now)
      case None => None
      case Some(k) => Some(k + 1)
  }

  /** The event list after the renewal step marks the first due event processed. */
  function MarkFirstDue(events: seq<RenewalEvent>, now: Instant): (r: seq<RenewalEvent>)
    ensures |r| == |events|
    ensures FirstDue(events, now).None? ==> r == events
    ensures FirstDue(events, now).Some? ==>
      var k := FirstDue(events, now).value;
      r[k] == events[k].(isProcessed := true) && forall i :: 0 <= i < |events| && i != k ==> r[i] == events[i]
  {
    match FirstDue(events, now)
    case None => events
    case Some(k) => events[k := events[k].(isProcessed := true)]
  }

  // ------------------------------------------------------------------
  // Transitions
  // ------------------------------------------------------------------

  /** `pause`: refused when cancelled, then when paused; otherwise only the status changes. */
  function Pause(st: SubscriptionState): (r: Result<SubscriptionState, Error>)
    ensures st.status == Cancelled ==> r == Err(PauseCancelled)
    ensures st.status == Paused ==> r == Err(AlreadyPaused)
    ensures st.status == Active ==> r.Ok? && r.value.status == Paused && r.value.(status := Active) == st
  {
    if st.status == Cancelled then Err(PauseCancelled)
    else if st.status == Paused then Err(AlreadyPaused)
    else Ok(st.(status := Paused))
  }

  /**
   * `resume`: only from paused; becomes active, bills one cycle after `now`,
   * and schedules one unprocessed event at that date.
   */
  function Resume(st: SubscriptionState, now: Instant, eventId: Id): (r: Result<SubscriptionState, Error>)
    ensures r.Ok? <==> st.status == Paused
    ensures r.Err? ==> r.error == NotPaused
  {
    if st.status != Paused then Err(NotPaused)
    else
      var resumed := st.(status := Active, nextBillingDate := NextDate(st.billingCycle, now));
      Ok(WithNextEvent(resumed, eventId))
  }

  /** `cancel`: refused when already cancelled; records the date and drops every unprocessed event. */
  function Cancel(st: SubscriptionState, now: Instant): (r: Result<SubscriptionState, Error>)
    ensures r.Ok? <==> st.status != Cancelled
    ensures r.Err? ==> r.error == AlreadyCancelled
  {
    if st.status == Cancelled then Err(AlreadyCancelled)
    else Ok(st.(status := Cancelled, cancellationDate := Some(now),
                renewalEvents := Processed(st.renewalEvents)))
  }

  /** `update_cost`: refused on a currency change; otherwise reprices every unprocessed event. */
  function UpdateCost(st: SubscriptionState, newCost: Money): (r: Result<SubscriptionState, Error>)
    ensures r.Ok? <==> newCost.currency == st.cost.currency
    ensures r.Err? ==> r.error == CurrencyChange
  {
    if newCost.currency != st.cost.currency then Err(CurrencyChange)
    else Ok(st.(cost := newCost, renewalEvents := Repriced(st.renewalEvents, newCost)))
  }

  /** `update_billing_cycle`: never refused; bills one new cycle after `now` and regenerates the events. */
  function UpdateBillingCycle(st: SubscriptionState, newCycle: BillingCycle, now: Instant, eventId: Id): (r: SubscriptionState)
    ensures r.billingCycle == newCycle && r.nextBillingDate > now
    ensures forall e :: e in r.renewalEvents && !e.isProcessed ==> e.renewalDate == r.nextBillingDate
  {
    var changed := st.(billingCycle := newCycle, nextBillingDate := NextDate(newCycle, now));
    Regenerate(changed, eventId)
  }

  /**
   * `process_renewal`: only when active; matures the first due event, advances
   * the billing date by one cycle from its previous value, and appends and
   * returns one new unprocessed event at that date.
   */
  function ProcessRenewal(st: SubscriptionState, now: Instant, eventId: Id): (r: Result<(SubscriptionState, RenewalEvent), Error>)
    ensures r.Ok? <==> st.status == Active
    ensures r.Err? ==> r.error == RenewalInactive
  {
    if st.status != Active then Err(RenewalInactive)
    else
      var marked := st.(renewalEvents := MarkFirstDue(st.renewalEvents, now),
                        nextBillingDate := NextDate(st.billingCycle, st.nextBillingDate));
      Ok((WithNextEvent(marked, eventId), NewEvent(marked, eventId)))
  }

  /** `any(r.timing == timing for r in rules)`. */
  predicate HasRuleFor(rules: seq<NotificationRule>, timing: NotificationTiming)
  {
    exists i :: 0 <= i < |rules| && rules[i].timing == timing
  }

  /** `add_notification_rule`: refused for a timing already present; otherwise appends an enabled rule and returns it. */
  function AddNotificationRule(st: SubscriptionState, timing: NotificationTiming, ruleId: Id)
    : (r: Result<(SubscriptionState, NotificationRule), Error>)
    ensures r.Ok? <==> !HasRuleFor(st.notificationRules, timing)
    ensures r.Err? ==> r.error == DuplicateRule
  {
    if HasRuleFor(st.notificationRules, timing) then Err(DuplicateRule)
    else
      var rule := NotificationRule(ruleId, timing, true);
      Ok((st.(notificationRules := st.notificationRules + [rule]), rule))
  }

  // ------------------------------------------------------------------
  // Cost equivalents and pending notifications
  // ------------------------------------------------------------------

  /** `calculate_monthly_cost`: zero in the subscription's currency unless active, else cost times the monthly multiplier. */
  function MonthlyCost(st: SubscriptionState): (r: Result<Money, Error>)
    ensures r.Ok? && r.value.currency == st.cost.currency
    ensures !ContributesToExpenses(st) ==> r.value.amount == 0.0
    ensures ContributesToExpenses(st) ==> r.value.amount == st.cost.amount * MonthlyMultiplier(st.billingCycle)
  {
    if !ContributesToExpenses(st) then NewMoney(0.0, st.cost.currency)
    else
      TimesNonNegative(st.cost, MonthlyMultiplier(st.billingCycle));
      Times(st.cost, MonthlyMultiplier(st.billingCycle))
  }

  /** `calculate_annual_cost`: zero in the subscription's currency unless active, else cost times the annual multiplier. */
  function AnnualCost(st: SubscriptionState): (r: Result<Money, Error>)
    ensures r.Ok? && r.value.currency == st.cost.currency
    ensures !ContributesToExpenses(st) ==> r.value.amount == 0.0
  {
    if !ContributesToExpenses(st) then NewMoney(0.0, st.cost.currency)
    else
      TimesNonNegative(st.cost, AnnualMultiplier(st.billingCycle));
      Times(st.cost, AnnualMultiplier(st.billingCycle))
  }

  /** The rules among `rules` that fire for `renewalDate` at `now`, in list order. */
  function Firing(rules: seq<NotificationRule>, renewalDate: Instant, now: Instant): (r: seq<NotificationRule>)
    ensures forall rule :: rule in r <==> rule in rules && ShouldNotify(rule, renewalDate, now)
    ensures |r| <= |rules|
    ensures multiset(r) <= multiset(rules)
  {
    if rules == [] then []
    else
      var last := rules[|rules| - 1];
      assert rules == rules[..|rules| - 1] + [last];
      Firing(rules[..|rules| - 1], renewalDate, now) + (if ShouldNotify(last, renewalDate, now) then [last] else [])
  }

  /** Selecting the firing rules distributes over concatenation, so it keeps the list order. */
  lemma {:induction false} FiringConcat(a: seq<NotificationRule>, b: seq<NotificationRule>, renewalDate: Instant, now: Instant)
    ensures Firing(a + b, renewalDate, now) == Firing(a, renewalDate, now) + Firing(b, renewalDate, now)
    decreases |b|
  {
    if b == [] {
      assert a + b == a;
    } else {
      var n := |b| - 1;
      assert (a + b)[..|a + b| - 1] == a + b[..n];
      FiringConcat(a, b[..n], renewalDate, now);
    }
  }

  /** `get_pending_notifications`: nothing unless active, else the rules that fire for the next billing date. */
  function PendingNotifications(st: SubscriptionState, now: Instant): (r: seq<NotificationRule>)
    ensures |r| <= |st.notificationRules|
    ensures st.status != Active ==> r == []
    ensures forall rule :: rule in r ==> rule in st.notificationRules && rule.isEnabled
  {
    if st.status != Active then [] else Firing(st.notificationRules, st.nextBillingDate, now)
  }

  // ------------------------------------------------------------------
  // Properties of the transitions
  // ------------------------------------------------------------------

  /** Pausing an active subscription changes nothing but its status; a second pause is refused. */
  lemma PauseEffects(st: SubscriptionState)
    requires st.status == Active
    ensures Pause(st) == Ok(st.(status := Paused))
    ensures Pause(Pause(st).value) == Err(AlreadyPaused)
  {
  }

  /** Resume makes the subscription active, bills one cycle after now, and appends exactly one unprocessed event there. */
  lemma ResumeEffects(st: SubscriptionState, now: Instant, eventId: Id)
    requires st.status == Paused
    ensures var s := Resume(st, now, eventId).value;
      && s.status == Active
      && s.nextBillingDate == NextDate(st.billingCycle, now)
      && s.nextBillingDate > now
      && s.renewalEvents == st.renewalEvents + [RenewalEvent(eventId, st.id, s.nextBillingDate, st.cost, false)]
      && s.(status := st.status, nextBillingDate := st.nextBillingDate, renewalEvents := st.renewalEvents) == st
  {
  }

  /**
   * Pausing and resuming leaves the subscription active with everything it
   * had, plus one event one cycle after the time of resumption.
   */
  lemma PauseResume(st: SubscriptionState, now: Instant, eventId: Id)
    requires st.status == Active
    ensures Pause(st).Ok? && Resume(Pause(st).value, now, eventId).Ok?
    ensures var s := Resume(Pause(st).value, now, eventId).value;
      s == WithNextEvent(st.(nextBillingDate := NextDate(st.billingCycle, now)), eventId)
  {
  }

  /**
   * Cancelling sets the cancellation date and keeps exactly the processed
   * events, in their original order; nothing else changes.
   */
  lemma CancelEffects(st: SubscriptionState, now: Instant)
    requires st.status != Cancelled
    ensures var s := Cancel(st, now).value;
      && s.status == Cancelled
      && s.cancellationDate == Some(now)
      && (forall e :: e in s.renewalEvents <==> e in st.renewalEvents && e.isProcessed)
      && s.renewalEvents == Processed(st.renewalEvents)
      && s.(status := st.status, cancellationDate := st.cancellationDate, renewalEvents := st.renewalEvents) == st
  {
  }

  /** Cancellation is terminal: afterwards pause, resume, cancel and renewal are all refused. */
  lemma CancelIsTerminal(st: SubscriptionState, now: Instant, later: Instant, eventId: Id)
    requires Cancel(st, now).Ok?
    ensures var s := Cancel(st, now).value;
      && Pause(s) == Err(PauseCancelled)
      && Resume(s, later, eventId) == Err(NotPaused)
      && Cancel(s, later) == Err(AlreadyCancelled)
      && ProcessRenewal(s, later, eventId) == Err(RenewalInactive)
  {
  }

  /**
   * A price change keeps the event list's length and order, gives every
   * unprocessed event the new cost and leaves processed events untouched.
   */
  lemma UpdateCostEffects(st: SubscriptionState, newCost: Money)
    requires newCost.currency == st.cost.currency
    ensures var s := UpdateCost(st, newCost).value;
      && s.cost == newCost
      && |s.renewalEvents| == |st.renewalEvents|
      && (forall i :: 0 <= i < |st.renewalEvents| ==>
            if st.renewalEvents[i].isProcessed then s.renewalEvents[i] == st.renewalEvents[i]
            else s.renewalEvents[i] == st.renewalEvents[i].(amount := newCost))
      && s.(cost := st.cost, renewalEvents := st.renewalEvents) == st
  {
  }

  /** A new cycle bills one new cycle after now, keeps the processed events and adds one fresh event only if active. */
  lemma UpdateBillingCycleEffects(st: SubscriptionState, newCycle: BillingCycle, now: Instant, eventId: Id)
    ensures var s := UpdateBillingCycle(st, newCycle, now, eventId);
      && s.billingCycle == newCycle
      && s.nextBillingDate == NextDate(newCycle, now)
      && s.renewalEvents == Processed(st.renewalEvents) +
           (if st.status == Active then [RenewalEvent(eventId, st.id, NextDate(newCycle, now), st.cost, false)] else [])
      && s.(billingCycle := st.billingCycle, nextBillingDate := st.nextBillingDate, renewalEvents := st.renewalEvents) == st
  {
  }

  /**
   * A renewal step flips at most one event, the first due one in list order;
   * advances the billing date one cycle from its previous value; and appends,
   * and returns, exactly one unprocessed event at the new date.
   */
  lemma ProcessRenewalEffects(st: SubscriptionState, now: Instant, eventId: Id)
    requires st.status == Active
    ensures var (s, e) := ProcessRenewal(st, now, eventId).value;
      var n := |st.renewalEvents|;
      && s.nextBillingDate == NextDate(st.billingCycle, st.nextBillingDate)
      && s.nextBillingDate > st.nextBillingDate
      && e == RenewalEvent(eventId, st.id, s.nextBillingDate, st.cost, false)
      && |s.renewalEvents| == n + 1
      && s.renewalEvents[n] == e
      && (forall i :: 0 <= i < n && s.renewalEvents[i] != st.renewalEvents[i] ==>
            && s.renewalEvents[i] == st.renewalEvents[i].(isProcessed := true)
            && IsDue(st.renewalEvents[i], now)
            && forall j :: 0 <= j < i ==> !IsDue(st.renewalEvents[j], now))
      && (forall i, j :: 0 <= i < j < n && s.renewalEvents[i] != st.renewalEvents[i] ==>
            s.renewalEvents[j] == st.renewalEvents[j])
      && (FirstDue(st.renewalEvents, now).Some? ==>
            var k := FirstDue(st.renewalEvents, now).value;
            s.renewalEvents[k] == st.renewalEvents[k].(isProcessed := true))
      && s.(renewalEvents := st.renewalEvents, nextBillingDate := st.nextBillingDate) == st
  {
  }

  /** Adding a rule for a new timing appends one enabled rule; adding the same timing again is refused. */
  lemma AddRuleEffects(st: SubscriptionState, timing: NotificationTiming, ruleId: Id, otherId: Id)
    requires !HasRuleFor(st.notificationRules, timing)
    ensures var (s, rule) := AddNotificationRule(st, timing, ruleId).value;
      && rule == NotificationRule(ruleId, timing, true)
      && s.notificationRules == st.notificationRules + [rule]
      && s.(notificationRules := st.notificationRules) == st
      && AddNotificationRule(s, timing, otherId) == Err(DuplicateRule)
  {
    var s := AddNotificationRule(st, timing, ruleId).value.0;
    assert s.notificationRules[|st.notificationRules|].timing == timing;
  }

  /** The annual cost is always twelve times the monthly cost, in the same currency. */
  lemma AnnualIsTwelveMonths(st: SubscriptionState)
    ensures AnnualCost(st).value.amount == 12.0 * MonthlyCost(st).value.amount
    ensures AnnualCost(st).value.currency == MonthlyCost(st).value.currency
  {
    if ContributesToExpenses(st) {
      var a := st.cost.amount;
      var m := MonthlyMultiplier(st.billingCycle);
      assert a * (m * 12.0) == 12.0 * (a * m);
    }
  }

  /** Pausing, resuming, cancelling and changing the billing cycle keep the invariant. */
  lemma StatusChangesPreserveInvariant(st: SubscriptionState, now: Instant, eventId: Id, newCycle: BillingCycle)
    requires Invariant(st)
    ensures Pause(st).Ok? ==> Invariant(Pause(st).value)
    ensures Resume(st, now, eventId).Ok? ==> Invariant(Resume(st, now, eventId).value)
    ensures Cancel(st, now).Ok? ==> Invariant(Cancel(st, now).value)
    ensures Invariant(UpdateBillingCycle(st, newCycle, now, eventId))
  {
  }

  /** Repricing keeps every event attached to the subscription. */
  lemma UpdateCostPreservesInvariant(st: SubscriptionState, newCost: Money)
    requires Invariant(st)
    ensures UpdateCost(st, newCost).Ok? ==> Invariant(UpdateCost(st, newCost).value)
  {
    if UpdateCost(st, newCost).Ok? {
      var s := UpdateCost(st, newCost).value;
      forall e | e in s.renewalEvents ensures e.subscriptionId == st.id {
        var i :| 0 <= i < |s.renewalEvents| && s.renewalEvents[i] == e;
        assert st.renewalEvents[i] in st.renewalEvents;
      }
    }
  }

  /** Processing a renewal keeps every event attached to the subscription. */
  lemma ProcessRenewalPreservesInvariant(st: SubscriptionState, now: Instant, eventId: Id)
    requires Invariant(st)
    ensures ProcessRenewal(st, now, eventId).Ok? ==> Invariant(ProcessRenewal(st, now, eventId).value.0)
  {
    if ProcessRenewal(st, now, eventId).Ok? {
      var s := ProcessRenewal(st, now, eventId).value.0;
      forall e | e in s.renewalEvents ensures e.subscriptionId == st.id {
        var i :| 0 <= i < |s.renewalEvents| && s.renewalEvents[i] == e;
        if i < |st.renewalEvents| {
          assert st.renewalEvents[i] in st.renewalEvents;
        }
      }
    }
  }

  /** Adding a rule keeps the timings distinct. */
  lemma AddRulePreservesInvariant(st: SubscriptionState, timing: NotificationTiming, ruleId: Id)
    requires Invariant(st)
    ensures AddNotificationRule(st, timing, ruleId).Ok? ==> Invariant(AddNotificationRule(st, timing, ruleId).value.0)
  {
    if AddNotificationRule(st, timing, ruleId).Ok? {
      var rules := AddNotificationRule(st, timing, ruleId).value.0.notificationRules;
      forall i, j | 0 <= i < j < |rules| ensures rules[i].timing != rules[j].timing {
        if j == |st.notificationRules| {
          assert st.notificationRules[i].timing != timing;
        }
      }
    }
  }

  /** Pending notifications are empty unless active, and otherwise exactly the rules that fire for the next billing date. */
  lemma PendingNotificationsExact(st: SubscriptionState, now: Instant, rule: NotificationRule)
    ensures st.status != Active ==> PendingNotifications(st, now) == []
    ensures st.status == Active ==>
      (rule in PendingNotifications(st, now) <==>
         rule in st.notificationRules && rule.isEnabled &&
         DaysBetween(st.nextBillingDate, now) == DaysBefore(rule.timing))
  {
  }
}
