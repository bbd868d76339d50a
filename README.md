# Subscription management core, modelled in Dafny

This project models the domain and application layers of a personal
subscription manager. A **subscription** belongs to a **provider**, which has
a category. It costs **Money** (a non-negative amount in a three-letter
currency) once per **billing cycle** (a positive number of days, weeks,
months or years). It is *active*, *paused* or *cancelled*. It keeps a list of
**renewal events**, one per scheduled charge, each either processed or not.
It also keeps a list of **notification rules**, which fire one, three, seven
or fourteen days before the next billing date.

The model covers the following:

- **Value objects.** Money is validated and added or multiplied only within
  one currency. A billing cycle computes the next billing date and its
  monthly and annual multipliers (`value_objects.dfy`).
- **Entities.** Providers, renewal events with their "upcoming" window, and
  notification rules with their lead times and firing day (`entities.dfy`).
- **The Subscription aggregate.** The aggregate is a `class` whose methods
  update its fields in place (`subscription.dfy`). Each method is specified
  by a transition function on the value `SubscriptionState`
  (`subscription_model.dfy`). That file also proves what each transition
  leaves alone and what it changes, that cancellation is terminal, that
  pausing and then resuming restores an active subscription, and that every
  transition keeps the aggregate's invariant. The invariant is: timings are
  distinct, every event belongs to the subscription, and a cancelled
  subscription has a cancellation date and only processed events.
- **SubscriptionAnalysisService.** Monthly and annual totals, upcoming
  renewals in date order, grouping by category, and the monthly cost
  breakdown by category (`analysis.dfy`). The stable sort by date is in
  `sorting.dfy`.
- **NotificationService.** The pending rules per subscription id
  (`notifications.dfy`).
- **The in-memory repositories.** Each is a dictionary modelled as a map plus
  its key order (`repositories.dfy`).
- **The seven use cases.** Create, update cost, pause, resume, cancel, add a
  notification rule, and insights (`use_cases.dfy`). On every error path
  they leave the repository and the stored subscription as they were.

Conventions of the model:

- **Time.** An instant is an integer count of seconds. A `timedelta` of n
  days is n·86400 seconds. The `.days` of a difference is that difference
  divided by 86400, rounded down.
- **Inputs that were ambient in the source.** The clock (`datetime.now()`)
  and fresh UUIDs (`uuid4()`) are explicit parameters: `now`, `newId`,
  `eventId`, `ruleId`.
- **Errors.** Each `ValueError` the source raises is an `Err` value of the
  datatype `Errors.Error`, one constructor per message.

Notes on the source:

- **Totals use the first subscription's currency.** The source reads the
  currency from the first subscription even when that subscription does not
  contribute to expenses. `TotalCostSpec` states exactly that: the total is
  refused when an active subscription is billed in another currency. It is
  not refused for a mismatch among inactive subscriptions.
- **A breakdown error fails the whole breakdown.** The source raises the
  first category error it meets, so one category that mixes currencies
  refuses the whole breakdown. Every such error is the same currency error,
  so the dictionary's iteration order cannot change the outcome.
  `GetCostBreakdownByCategory` is therefore stated independently of that
  order.

## Model

| member | source | states |
|---|---|---|
| Time.DaysBetween | subscriptions_ddd.py:125-128 | the day count d satisfies d·86400 ≤ later − earlier < (d+1)·86400, which is `timedelta.days` rounded down |
| Time.DaysBetweenUnique | subscriptions_ddd.py:125-128 | the rounded-down day count is the only integer whose one-day window holds the difference |
| Time.DaysBetweenAddDays | subscriptions_ddd.py:50-60 | adding n days and measuring the difference again gives n days |
| Time.DaysBetweenAtLeast | subscriptions_ddd.py:125-128 | the day count is ≥ n exactly when `later` is at least n whole days after `earlier` |
| ValueObjects.NewMoney | subscriptions_ddd.py:23-27 | accepted iff amount ≥ 0 and the currency has 3 characters; a negative amount is reported before a bad currency; an accepted value keeps both fields |
| ValueObjects.NewMoneyRoundTrip | subscriptions_ddd.py:17-27 | every valid Money is accepted back by the constructor unchanged |
| ValueObjects.Add | subscriptions_ddd.py:29-32 | refused with the currency error iff the currencies differ, otherwise the sum in the shared currency |
| ValueObjects.AddCommutative | subscriptions_ddd.py:29-32 | addition succeeds in both orders or in neither, and gives the same sum |
| ValueObjects.AddZero | subscriptions_ddd.py:29-32 | zero in the same currency is neutral, which is the start of every running total |
| ValueObjects.Times | subscriptions_ddd.py:34-35 | the scaled amount in the same currency, refused as negative iff amount·factor < 0 |
| ValueObjects.TimesNonNegative | subscriptions_ddd.py:34-35 | scaling by a non-negative factor never fails and stays non-negative |
| ValueObjects.ParseUnit | subscriptions_ddd.py:47-48 | recognises exactly the four unit spellings: a recognised unit spells the input, and an unrecognised input spells no unit |
| ValueObjects.ParseUnitName | subscriptions_ddd.py:42-48 | parsing a unit's spelling gives back that unit |
| ValueObjects.NewBillingCycle | subscriptions_ddd.py:44-48 | accepted iff interval > 0 and the unit is known; the interval is checked before the unit; an accepted cycle keeps both |
| ValueObjects.NextDate | subscriptions_ddd.py:50-60 | the next date is exactly `from` plus interval × (1, 7, 30 or 365) days of 86400 seconds, so it is strictly later and that many whole days away |
| ValueObjects.MonthlyMultiplier | subscriptions_ddd.py:62-72 | the monthly multiplier is positive |
| ValueObjects.AnnualMultiplier | subscriptions_ddd.py:74-76 | the annual multiplier is positive |
| ValueObjects.MultiplierNormalisation | subscriptions_ddd.py:62-76 | annual = 12 × monthly; an n-month cycle bills 1/n times a month and an n-year cycle 1/n times a year; days and weeks scale 30 and 4.33 by 1/n |
| Entities.IsUpcoming | subscriptions_ddd.py:125-128 | an upcoming renewal is never in the past (0 ≤ whole days until it ≤ `days`), and only a non-negative window admits any |
| Entities.IsUpcomingWindow | subscriptions_ddd.py:125-128 | an event is upcoming iff its date lies in [now, now + days + 1 days) |
| Entities.DaysBefore | subscriptions_ddd.py:143-151 | every timing's lead time is one of 1, 3, 7 or 14 days |
| Entities.DaysBeforeInjective | subscriptions_ddd.py:143-151 | distinct timings have distinct lead times |
| Entities.ShouldNotify | subscriptions_ddd.py:153-159 | a rule that fires is enabled, and the renewal is at least one whole day after now |
| Entities.ShouldNotifyWindow | subscriptions_ddd.py:153-159 | an enabled rule fires during exactly one day, the one starting its lead time before the renewal |
| SubscriptionModel.ContributesToExpenses | subscriptions_ddd.py:202-204 | defines contributing to expenses as being active; the totals in `Analysis` sum exactly these subscriptions |
| SubscriptionModel.Invariant | subscriptions_ddd.py:171-188 | defines the aggregate invariant (distinct rule timings, events owned by the subscription, a cancelled subscription dated and holding only processed events); the `*PreservesInvariant` lemmas and `UseCases.Created` establish it |
| SubscriptionModel.Processed | subscriptions_ddd.py:333-336 | the filtered list holds exactly the processed events of the input and is no longer |
| SubscriptionModel.ProcessedConcat | subscriptions_ddd.py:333-336 | filtering distributes over concatenation, so processed events keep their relative order |
| SubscriptionModel.ProcessedAllProcessed | subscriptions_ddd.py:333-336 | a list of processed events is left unchanged by the filter, so regenerating twice keeps the same history |
| SubscriptionModel.Repriced | subscriptions_ddd.py:236-245 | same length; processed events unchanged; each unprocessed event takes the new cost, position by position |
| SubscriptionModel.NewEvent | subscriptions_ddd.py:323-328 | defines the event `_generate_next_renewal_event` creates: unprocessed, owned by the subscription, at the next billing date, for the current cost |
| SubscriptionModel.WithNextEvent | subscriptions_ddd.py:321-331 | the event list grows by exactly one, the old events stay in place as a prefix, the new last event is `NewEvent`, and no other field changes |
| SubscriptionModel.Regenerate | subscriptions_ddd.py:333-339 | the new list is exactly the processed events in their original order, followed by one fresh `NewEvent` when the subscription is active and by nothing otherwise; no other field changes |
| SubscriptionModel.FirstDue | subscriptions_ddd.py:304-309 | the position found is due and no earlier event is due; nothing is found iff no event is due |
| SubscriptionModel.MarkFirstDue | subscriptions_ddd.py:304-311 | same length; when an event is due, exactly the first due one is marked processed and every other event is unchanged; otherwise the list is unchanged |
| SubscriptionModel.Pause | subscriptions_ddd.py:206-214 | cancelled is refused first, then paused; an active subscription becomes paused with nothing else changed |
| SubscriptionModel.PauseEffects | subscriptions_ddd.py:206-214 | pausing an active subscription changes only its status, and a second pause is refused |
| SubscriptionModel.Resume | subscriptions_ddd.py:216-224 | accepted iff paused, otherwise refused as not paused |
| SubscriptionModel.ResumeEffects | subscriptions_ddd.py:216-224 | resuming makes the subscription active, bills one cycle after now (strictly later), appends exactly one unprocessed event at that date for the current cost, and changes nothing else |
| SubscriptionModel.PauseResume | subscriptions_ddd.py:206-224 | pause then resume gives the original subscription, billed one cycle after now, plus one new event |
| SubscriptionModel.Cancel | subscriptions_ddd.py:226-234 | accepted iff not already cancelled, otherwise refused |
| SubscriptionModel.CancelEffects | subscriptions_ddd.py:226-234 | cancelling records now as the cancellation date, keeps exactly the processed events in order, and changes nothing else |
| SubscriptionModel.CancelIsTerminal | subscriptions_ddd.py:206-234 | after cancelling, pause, resume, cancel and renewal are all refused with their own errors |
| SubscriptionModel.UpdateCost | subscriptions_ddd.py:236-245 | accepted iff the currency is unchanged, otherwise refused as a currency change |
| SubscriptionModel.UpdateCostEffects | subscriptions_ddd.py:236-245 | the new cost is set; every unprocessed event takes it; processed events and all other fields are untouched |
| SubscriptionModel.UpdateBillingCycle | subscriptions_ddd.py:247-253 | the new cycle is set, the next billing date is strictly after now, and every unprocessed event is dated at that next billing date |
| SubscriptionModel.UpdateBillingCycleEffects | subscriptions_ddd.py:247-253 | the new cycle is set and billing moves one new cycle after now; the events are the processed ones plus one fresh event if active; nothing else changes |
| SubscriptionModel.ProcessRenewal | subscriptions_ddd.py:298-319 | accepted iff active, otherwise refused as inactive |
| SubscriptionModel.ProcessRenewalEffects | subscriptions_ddd.py:298-331 | when an event is due, the first due one is marked processed and no other old event changes; otherwise no old event changes; billing advances one cycle from its previous date; exactly one unprocessed event is appended there and returned |
| SubscriptionModel.AddNotificationRule | subscriptions_ddd.py:271-284 | accepted iff no rule has the timing, otherwise refused as a duplicate |
| SubscriptionModel.AddRuleEffects | subscriptions_ddd.py:271-284 | appends one enabled rule with the given timing and returns it; a second rule for that timing is refused |
| SubscriptionModel.MonthlyCost | subscriptions_ddd.py:255-261 | always defined, in the subscription's currency; zero unless active, otherwise cost × the monthly multiplier |
| SubscriptionModel.AnnualCost | subscriptions_ddd.py:263-269 | always defined, in the subscription's currency; zero unless active |
| SubscriptionModel.AnnualIsTwelveMonths | subscriptions_ddd.py:255-269 | the annual cost is twelve times the monthly cost, in the same currency |
| SubscriptionModel.Firing | subscriptions_ddd.py:286-296 | holds exactly the rules of the list that fire for the renewal date, each no more often than in the list (a sub-multiset of the rules) |
| SubscriptionModel.FiringConcat | subscriptions_ddd.py:286-296 | the selection distributes over concatenation, so the firing rules keep the order of the rule list |
| SubscriptionModel.PendingNotifications | subscriptions_ddd.py:286-296 | nothing is pending unless active; every pending rule is an enabled rule of the subscription, and there are no more than its rules |
| SubscriptionModel.PendingNotificationsExact | subscriptions_ddd.py:286-296 | nothing is pending unless active; otherwise a rule is pending iff it is enabled and the next billing date is exactly its lead time away |
| SubscriptionModel.StatusChangesPreserveInvariant | subscriptions_ddd.py:206-253 | pause, resume, cancel and a new billing cycle keep the aggregate invariant |
| SubscriptionModel.UpdateCostPreservesInvariant | subscriptions_ddd.py:236-245 | repricing keeps the aggregate invariant |
| SubscriptionModel.ProcessRenewalPreservesInvariant | subscriptions_ddd.py:298-319 | processing a renewal keeps the aggregate invariant |
| SubscriptionModel.AddRulePreservesInvariant | subscriptions_ddd.py:271-284 | adding a rule keeps the timings distinct |
| Aggregate.Subscription.constructor | subscriptions_ddd.py:171-188 | the new object holds the given fields, with no rules, no events and no cancellation date |
| Aggregate.Subscription.GenerateNextRenewalEvent | subscriptions_ddd.py:321-331 | appends and returns an unprocessed event at the next billing date for the current cost |
| Aggregate.Subscription.RegenerateRenewalEvents | subscriptions_ddd.py:333-339 | the new state is `Regenerate` of the old: processed events only, plus one fresh event if active |
| Aggregate.Subscription.Pause | subscriptions_ddd.py:206-214 | the object takes the state `Pause` prescribes, or is untouched with the same error |
| Aggregate.Subscription.Resume | subscriptions_ddd.py:216-224 | the object takes the state `Resume` prescribes, or is untouched with the same error |
| Aggregate.Subscription.Cancel | subscriptions_ddd.py:226-234 | the object takes the state `Cancel` prescribes, or is untouched with the same error |
| Aggregate.Subscription.UpdateCost | subscriptions_ddd.py:236-245 | the in-place repricing loop gives the state `UpdateCost` prescribes, or the object is untouched |
| Aggregate.Subscription.UpdateBillingCycle | subscriptions_ddd.py:247-253 | the object takes the state `UpdateBillingCycle` prescribes |
| Aggregate.Subscription.ProcessRenewal | subscriptions_ddd.py:298-319 | the search loop that stops at the first due event gives the state and result `ProcessRenewal` prescribes, or the object is untouched |
| Aggregate.Subscription.AddNotificationRule | subscriptions_ddd.py:271-284 | the object takes the state and rule `AddNotificationRule` prescribes, or is untouched with the duplicate error |
| Aggregate.Subscription.GetPendingNotifications | subscriptions_ddd.py:286-296 | returns `PendingNotifications` of the current state; a rule is returned iff the subscription is active, the rule is in its list and it fires for the next billing date |
| Aggregate.Snapshots | subscriptions_ddd.py:350-363 | the states of a list of subscriptions, position by position |
| Sorting.InsertMultiset | subscriptions_ddd.py:392 | insertion adds exactly one element |
| Sorting.InsertSorted | subscriptions_ddd.py:392 | insertion into a date-sorted list keeps it sorted |
| Sorting.InsertWithDate | subscriptions_ddd.py:392 | the inserted event comes before every event with the same date |
| Sorting.SortByDate | subscriptions_ddd.py:392 | the result is sorted by date, a permutation of the input, and stable: equal dates keep their input order |
| Analysis.ActiveTotal | subscriptions_ddd.py:350-363 | the sum of the active subscriptions' costs is non-negative |
| Analysis.TotalCostSpec | subscriptions_ddd.py:350-378 | zero dollars for no subscriptions; refused with the currency error iff an active subscription is not in the first subscription's currency |
| Analysis.ActiveTotalYearIsTwelveMonths | subscriptions_ddd.py:350-378 | the annual sum is twelve times the monthly sum |
| Analysis.TotalYearIsTwelveMonths | subscriptions_ddd.py:350-378 | the annual and monthly totals are refused together, and otherwise the annual total is twelve monthly ones |
| Analysis.ActiveTotalAppendInactive | subscriptions_ddd.py:358-361 | a subscription that does not contribute to expenses adds nothing |
| Analysis.TotalsExample | subscriptions_ddd.py:350-378 | 15 USD a month plus 120 USD a year total 25 USD a month and 300 USD a year |
| Analysis.TotalCost | subscriptions_ddd.py:350-378 | the running-sum loop returns `TotalCostSpec`, with the sum of active costs as the amount |
| Analysis.UpcomingOf | subscriptions_ddd.py:388-390 | holds exactly the unprocessed upcoming events of one list |
| Analysis.UpcomingCandidates | subscriptions_ddd.py:381-390 | every candidate is unprocessed and within the window |
| Analysis.UpcomingCandidatesExact | subscriptions_ddd.py:381-392 | an event is a candidate iff it is unprocessed, upcoming and owned by an active subscription |
| Analysis.AppendUpcoming | subscriptions_ddd.py:388-390 | the inner loop appends `UpcomingOf` one subscription's events |
| Analysis.CollectUpcoming | subscriptions_ddd.py:381-390 | the outer loop collects the candidates, subscription by subscription |
| Analysis.GetUpcomingRenewals | subscriptions_ddd.py:381-392 | returns the candidates in stable date order: sorted, and holding exactly the unprocessed upcoming events of active subscriptions |
| Analysis.CategoriesExact | subscriptions_ddd.py:395-405 | a category occurs iff some subscription's provider is in it |
| Analysis.InCategoryExact | subscriptions_ddd.py:395-405 | a category's group holds exactly the subscriptions whose provider is in it |
| Analysis.InCategoryAbsent | subscriptions_ddd.py:400-402 | a category that does not occur has an empty group |
| Analysis.CategoryStep | subscriptions_ddd.py:399-403 | one more subscription adds its category and joins only that category's group |
| Analysis.GroupStep | subscriptions_ddd.py:399-403 | one loop step (create the group if missing, then append) keeps the groups exact |
| Analysis.GetSubscriptionsByCategory | subscriptions_ddd.py:395-405 | one key per category that occurs, each holding that category's subscriptions in list order |
| Analysis.CategoryTotal | subscriptions_ddd.py:414-417 | the monthly total of the category's own group; a refusal is always the currency error |
| Analysis.BreakdownExample | subscriptions_ddd.py:408-419 | the Streaming and Software subscriptions above give categories {Streaming, Software} with totals 15 USD and 10 USD |
| Analysis.PriceGroups | subscriptions_ddd.py:414-417 | on success, every group is mapped to its monthly total; on refusal, some group's total is refused with the currency error |
| Analysis.GetCostBreakdownByCategory | subscriptions_ddd.py:408-419 | accepted iff every category's total is defined; then the keys are the categories and each value is that category's monthly total; otherwise the currency error |
| Notifications.PendingFor | subscriptions_ddd.py:426-438 | defines the dictionary after each subscription in turn, a later subscription with the same id overwriting; its keys and entries are characterised by `PendingForKeys` and `PendingForEntry` |
| Notifications.PendingForKeys | subscriptions_ddd.py:426-438 | an id has an entry iff some subscription with that id has pending rules |
| Notifications.PendingForEntry | subscriptions_ddd.py:426-438 | an entry holds the last subscription with its id that has pending rules, together with those rules |
| Notifications.GetAllPendingNotifications | subscriptions_ddd.py:426-438 | the loop builds `PendingFor`, the dictionary characterised by the two lemmas above |
| Repositories.ValuesOf | subscriptions_application.py:81-82 | the value of every key, in key order |
| Repositories.Without | subscriptions_application.py:96-98 | the key order after a delete holds exactly the other keys |
| Repositories.WithoutDistinct | subscriptions_application.py:96-98 | deleting a key keeps the key order free of repetitions |
| Repositories.WithoutAbsent | subscriptions_application.py:96-98 | deleting an absent key leaves the key order unchanged |
| Repositories.DistinctCard | subscriptions_application.py:81-82 | a key order without repetitions is as long as the dictionary |
| Repositories.ActiveOnly | subscriptions_application.py:84-85 | holds exactly the active subscriptions of the list, as a sub-multiset of it, and keeps ids distinct when the list does |
| Repositories.ActiveOnlyCount | subscriptions_application.py:84-85 | the filtered list is as long as the number of positions holding an active subscription |
| Repositories.ActiveOnlyConcat | subscriptions_application.py:84-85 | the filter distributes over concatenation, so it keeps list order |
| Repositories.OfProvider | subscriptions_application.py:87-91 | holds exactly the subscriptions of the list with that provider, as a sub-multiset of it, and keeps ids distinct when the list does |
| Repositories.OfProviderConcat | subscriptions_application.py:87-91 | the provider filter distributes over concatenation, so it keeps list order |
| Repositories.SubscriptionRepository.constructor | subscriptions_application.py:75-76 | the repository starts empty and valid |
| Repositories.SubscriptionRepository.FindById | subscriptions_application.py:78-79 | found iff stored, and then it is the stored subscription with that id |
| Repositories.SubscriptionRepository.FindAll | subscriptions_application.py:81-82 | every stored subscription exactly once, in insertion order, with distinct ids |
| Repositories.SubscriptionRepository.FindActive | subscriptions_application.py:84-85 | returns stored subscriptions only, all active, every stored active one, each once, and no more often than `find_all` lists it |
| Repositories.SubscriptionRepository.FindByProvider | subscriptions_application.py:87-91 | returns stored subscriptions only, all of that provider, every stored one of that provider, each once, and no more often than `find_all` lists it |
| Repositories.SubscriptionRepository.Save | subscriptions_application.py:93-94 | stores under the subscription's id, replacing in place or appending a new key, so it is found afterwards |
| Repositories.SubscriptionRepository.Delete | subscriptions_application.py:96-98 | removes that key and nothing else; nothing changes when it is absent |
| Repositories.LowerChar | subscriptions_application.py:111 | maps each ASCII capital to its small letter, leaves other characters alone, and never yields a capital |
| Repositories.Lower | subscriptions_application.py:111 | lower-cases character by character, keeping the length |
| Repositories.ProviderRepository.constructor | subscriptions_application.py:103-104 | the repository starts empty and valid |
| Repositories.ProviderRepository.FindById | subscriptions_application.py:106-107 | found iff stored, and then it is the stored provider with that id |
| Repositories.ProviderRepository.FindAll | subscriptions_application.py:115-116 | every stored provider, in insertion order |
| Repositories.ProviderRepository.FindByName | subscriptions_application.py:109-113 | none iff no stored name matches ignoring case; otherwise the first match in insertion order |
| Repositories.ProviderRepository.Save | subscriptions_application.py:118-119 | stores under the provider's id, replacing in place or appending a new key |
| UseCases.Created | subscriptions_application.py:155-172 | the created subscription is active, has the given fields and no rules, keeps the invariant, and holds exactly one unprocessed event at its next billing date for its cost |
| UseCases.CreateSubscription | subscriptions_application.py:137-178 | refused iff the provider is missing, the cost is invalid or the cycle is invalid, checked in that order, with the repository unchanged; otherwise a fresh active subscription with one renewal event, saved under the new id, which is appended to the key order unless already present |
| UseCases.CostChange | subscriptions_application.py:196-197 | a new amount in the subscription's own currency is refused only when negative, and otherwise sets the cost and reprices every unprocessed event, keeping the list length |
| UseCases.UpdateSubscriptionCost | subscriptions_application.py:187-202 | a missing id is refused; otherwise the stored subscription takes `CostChange` or is untouched with its error; the repository keeps its keys and order; every other stored subscription keeps its state, and on a missing id none changes |
| UseCases.PauseSubscription | subscriptions_application.py:211-225 | a missing id is refused; otherwise the stored subscription takes `Pause` or is untouched with its error; the repository keeps its keys and order; every other stored subscription keeps its state, and on a missing id none changes |
| UseCases.ResumeSubscription | subscriptions_application.py:234-248 | a missing id is refused; otherwise the stored subscription takes `Resume` or is untouched with its error; the repository keeps its keys and order; every other stored subscription keeps its state, and on a missing id none changes |
| UseCases.CancelSubscription | subscriptions_application.py:257-271 | a missing id is refused; otherwise the stored subscription takes `Cancel` or is untouched with its error; the repository keeps its keys and order; every other stored subscription keeps its state, and on a missing id none changes |
| UseCases.AddNotificationRule | subscriptions_application.py:280-298 | a missing id is refused; otherwise the stored subscription gains the rule `AddNotificationRule` prescribes and returns it, or is untouched with the duplicate error; the repository keeps its keys and order; every other stored subscription keeps its state, and on a missing id none changes |
| UseCases.InsightsOf | subscriptions_application.py:312-336 | the insights are refused iff the monthly total or some category total mixes currencies, always with the currency error; otherwise the total count is the one given and the active count is the number of active subscriptions in the list |
| UseCases.InsightsOfTotals | subscriptions_application.py:320-321 | the annual total is twelve monthly totals, and the monthly total sums the active costs |
| UseCases.InsightsOfBreakdown | subscriptions_application.py:324 | the breakdown maps each category that occurs to its own monthly total |
| UseCases.InsightsOfRenewals | subscriptions_application.py:327 | the renewals are sorted by date and are exactly the 30-day candidates |
| UseCases.BreakdownUnique | subscriptions_application.py:324 | any map with the categories as keys and their totals as values is the breakdown |
| UseCases.InsightsOver | subscriptions_application.py:320-336 | the service calls over a list return `InsightsOf` that list |
| UseCases.InsightsPriced | subscriptions_application.py:323-336 | once the totals are known, the remaining calls return `InsightsOf` |
| UseCases.InsightsRenewals | subscriptions_application.py:326-336 | once the totals and the breakdown are known, the remaining call returns `InsightsOf` |
| UseCases.GetSubscriptionInsights | subscriptions_application.py:312-336 | the insights over every stored subscription, counting exactly the stored entries |

## Left out

- Time: `datetime` is an integer count of seconds, and calendar dates are not modelled. The clock is the parameter `now`, read once per operation. The source calls `datetime.now()` again for each event and each rule.
- Identifiers: `uuid4()` is replaced by the caller-supplied parameters `newId`, `eventId` and `ruleId`. Nothing proves that they are fresh.
- The placeholder id `UUID(int=0).hex` that the create use case assigns before the real id is not modelled, because it is overwritten before anyone can observe it. `Subscription.id` is therefore a `const`.
- Entity equality: the source compares providers, renewal events and notification rules by id alone (`__eq__`). The model uses structural equality of values. Membership statements about events and rules are therefore exact-value statements.
- Aliasing of events and rules: renewal events and notification rules are values, so an update writes a new value into the list. The source mutates shared objects in place. In particular, the event that `process_renewal` returns and the event it marks processed are aliases of list entries there, and copies here. `update_cost` rebinds event amounts in place.
- Dictionary order: the maps returned by `get_subscriptions_by_category`, `get_cost_breakdown_by_category` and `get_all_pending_notifications` are Dafny maps, so their iteration order is not modelled. The repositories do keep insertion order.
- Analysis.GetCostBreakdownByCategory: visits the categories in an arbitrary order rather than the dictionary's, and so does not say which category's error is raised first. Every such error is the same currency error.
- Repositories.Lower: `str.lower()` is modelled for the ASCII letters only. Unicode case mapping is not modelled.
- ValueObjects.NextDate: Python's `datetime` has a bounded range, and `timedelta` refuses more than 999,999,999 days and raises `OverflowError` past `datetime.max`. The model's instants are unbounded, so `NextDate` is total and always strictly later. The overflow that `resume`, `update_billing_cycle` and `process_renewal` (and so `ResumeSubscription`) can raise for a huge interval or a far-future date is not modelled.
- Floating point: amounts and multipliers are exact reals, so rounding of `float` arithmetic (for example 4.33 / n) is not modelled.
- The abstract repository interfaces (`ISubscriptionRepository`, `IProviderRepository`) are not modelled separately: only their in-memory implementations are.
- Not part of this model: the Django layer (models, views, migrations, templates, URLs), `currency.py`, `example_usage` and `demo_with_application_layer`.
- Exceptions are `Err` results carrying one `Errors.Error` constructor per message. The message texts themselves are not modelled.
- `NotificationRule.days_before` falls back to 1 for an unknown timing. That path cannot be reached with the four enumerated timings, so it is not modelled.
- `is_paused` and `is_cancelled` are not separate members: they are the comparisons `status == Paused` and `status == Cancelled`.
