/**
 * The enumerations and the small entities of the domain: providers,
 * renewal events and notification rules. Entities here are values: an
 * update to one is a new value written back into the list that holds it.
 */
module Entities {
  import opened Wrappers
  import opened Time
  import opened ValueObjects

  /** An opaque identifier (a UUID in the source). */
  type Id = nat

  datatype Status = Active | Paused | Cancelled

  datatype NotificationTiming = OneDayBefore | ThreeDaysBefore | OneWeekBefore | TwoWeeksBefore

  datatype Provider = Provider(id: Id, name: string, category: string, website: Option<string>)

  datatype RenewalEvent = RenewalEvent(
    id: Id,
    subscriptionId: Id,
    renewalDate: Instant,
    amount: Money,
    isProcessed: bool)

  /** RenewalEvent.is_upcoming: the renewal is between 0 and `days` whole days after `now`. */
  predicate IsUpcoming(e: RenewalEvent, days: int, now: Instant)
    ensures IsUpcoming(e, days, now) ==> now <= e.renewalDate && days >= 0
  {
    0 <= DaysBetween(e.renewalDate, now) <= days
  }

  /** An upcoming renewal lies in the window from `now` up to, not including, the end of day `days`. */
  lemma IsUpcomingWindow(e: RenewalEvent, days: int, now: Instant)
    ensures IsUpcoming(e, days, now) <==> now <= e.renewalDate < AddDays(now, days + 1)
  {
    DaysBetweenAtLeast(e.renewalDate, now, 0);
    DaysBetweenAtLeast(e.renewalDate, now, days + 1);
  }

  datatype NotificationRule = NotificationRule(id: Id, timing: NotificationTiming, isEnabled: bool)

  /** NotificationRule.days_before: the lead time in days of each timing. */
  function DaysBefore(timing: NotificationTiming): (d: nat)
    ensures d in {1, 3, 7, 14}
  {
    match timing
    case OneDayBefore => 1
    case ThreeDaysBefore => 3
    case OneWeekBefore => 7
    case TwoWeeksBefore => 14
  }

  /** Distinct timings have distinct lead times. */
  lemma DaysBeforeInjective(a: NotificationTiming, b: NotificationTiming)
    ensures DaysBefore(a) == DaysBefore(b) ==> a == b
  {
  }

  /**
   * NotificationRule.should_notify: an enabled rule fires when the renewal is
   * exactly its lead time away in whole days.
   */
  predicate ShouldNotify(rule: NotificationRule, renewalDate: Instant, now: Instant)
    ensures ShouldNotify(rule, renewalDate, now) ==> rule.isEnabled && renewalDate >= AddDays(now, 1)
  {
    rule.isEnabled && DaysBetween(renewalDate, now) == DaysBefore(rule.timing)
  }

  /**
   * A rule fires during exactly one day: the one that starts its lead time
   * before the renewal and ends a day later.
   */
  lemma ShouldNotifyWindow(rule: NotificationRule, renewalDate: Instant, now: Instant)
    ensures ShouldNotify(rule, renewalDate, now) <==>
      rule.isEnabled &&
      AddDays(now, DaysBefore(rule.timing)) <= renewalDate < AddDays(now, DaysBefore(rule.timing) + 1)
  {
    var d := DaysBefore(rule.timing);
    DaysBetweenAtLeast(renewalDate, now, d);
    DaysBetweenAtLeast(renewalDate, now, d + 1);
  }
}
