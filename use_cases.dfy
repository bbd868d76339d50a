/**
 * The application services. Each use case looks up what it needs in the
 * repositories, delegates to the domain and saves the aggregate when the
 * domain accepts. A Python `ValueError` becomes an `Err` result; on every
 * error path no repository and no subscription changes.
 */
module UseCases {
  import opened Wrappers
  import opened Errors
  import opened Time
  import opened ValueObjects
  import opened Entities
  import opened SubscriptionModel
  import opened Aggregate
  import opened Sorting
  import opened Analysis
  import opened Repositories

  /** A use case that returns the subscription took effect on `s` exactly as `spec` says. */
  predicate Outcome(spec: Result<SubscriptionState, Error>, r: Result<Subscription, Error>, s: Subscription,
                    before: SubscriptionState, after: SubscriptionState)
  {
    match spec
    case Ok(st) => r == Ok(s) && after == st
    case Err(e) => r == Err(e) && after == before
  }

  /**
   * The subscription a successful create use case builds, before it is saved:
   * active, with the given fields, no rules, keeping the invariant, and
   * holding one unprocessed event at its next billing date.
   */
  function Created(id: Id, name: string, provider: Provider, cost: Money, cycle: BillingCycle,
                   startDate: Instant, nextBillingDate: Instant, notes: Option<string>, eventId: Id): (st: SubscriptionState)
    ensures st.status == Active && Invariant(st)
    ensures st.renewalEvents == [RenewalEvent(eventId, id, nextBillingDate, cost, false)]
    ensures st.(renewalEvents := []) ==
      SubscriptionState(id, name, provider, cost, cycle, Active, startDate, nextBillingDate, [], [], None, notes)
  {
    WithNextEvent(SubscriptionState(id, name, provider, cost, cycle, Active, startDate, nextBillingDate,
                                    [], [], None, notes), eventId)
  }

  /**
   * CreateSubscriptionUseCase.execute: the provider must exist, then the cost
   * and the billing cycle must be valid, in that order; `newId` and `eventId`
   * stand for the two fresh UUIDs.
   */
  method CreateSubscription(subscriptions: SubscriptionRepository, providers: ProviderRepository,
                            name: string, providerId: Id, costAmount: real, currency: string,
                            interval: int, unit: string, startDate: Instant, nextBillingDate: Instant,
                            notes: Option<string>, newId: Id, eventId: Id) returns (r: Result<Subscription, Error>)
    requires subscriptions.Valid() && providers.Valid()
    modifies subscriptions
    ensures subscriptions.Valid()
    ensures r.Err? <==>
      providerId !in providers.entries || NewMoney(costAmount, currency).Err? || NewBillingCycle(interval, unit).Err?
    ensures r.Err? ==>
      r.error == (if providerId !in providers.entries then ProviderNotFound
                  else if NewMoney(costAmount, currency).Err? then NewMoney(costAmount, currency).error
                  else NewBillingCycle(interval, unit).error)
    ensures r.Err? ==> subscriptions.entries == old(subscriptions.entries) && subscriptions.order == old(subscriptions.order)
    ensures r.Ok? ==> fresh(r.value)
    ensures r.Ok? ==>
      r.value.Snapshot() == Created(newId, name, providers.entries[providerId], NewMoney(costAmount, currency).value,
                                    NewBillingCycle(interval, unit).value, startDate, nextBillingDate, notes, eventId)
    ensures r.Ok? ==> subscriptions.entries == old(subscriptions.entries)[newId := r.value]
    ensures r.Ok? ==>
      subscriptions.order == (if newId in old(subscriptions.entries) then old(subscriptions.order)
                              else old(subscriptions.order) + [newId])
  {
    var provider := providers.FindById(providerId);
    if provider.None? {
      return Err(ProviderNotFound);
    }
    var cost := NewMoney(costAmount, currency);
    if cost.Err? {
      return Err(cost.error);
    }
    var cycle := NewBillingCycle(interval, unit);
    if cycle.Err? {
      return Err(cycle.error);
    }
    var s := new Subscription(newId, name, provider.value, cost.value, cycle.value, Active,
                              startDate, nextBillingDate, notes);
    var _ := s.GenerateNextRenewalEvent(eventId);
    subscriptions.Save(s);
    r := Ok(s);
  }

  /**
   * The domain side of UpdateSubscriptionCostUseCase: a new amount in the
   * subscription's own currency. It is refused only for a negative amount,
   * and otherwise reprices the cost and every unprocessed event.
   */
  function CostChange(st: SubscriptionState, amount: real): (r: Result<SubscriptionState, Error>)
    ensures r.Err? <==> amount < 0.0
    ensures r.Err? ==> r.error == NegativeAmount
    ensures r.Ok? ==>
      && r.value.cost == MoneyValue(amount, st.cost.currency)
      && |r.value.renewalEvents| == |st.renewalEvents|
      && forall i :: 0 <= i < |st.renewalEvents| && !st.renewalEvents[i].isProcessed ==>
           r.value.renewalEvents[i].amount == r.value.cost
  {
    match NewMoney(amount, st.cost.currency)
    case Err(e) => Err(e)
    case Ok(cost) =>
      UpdateCostEffects(st, cost);
      SubscriptionModel.UpdateCost(st, cost)
  }

  /** UpdateSubscriptionCostUseCase.execute. */
  method UpdateSubscriptionCost(repo: SubscriptionRepository, id: Id, amount: real) returns (r: Result<Subscription, Error>)
    requires repo.Valid()
    modifies repo, repo.entries.Values
    ensures repo.Valid() && repo.entries == old(repo.entries) && repo.order == old(repo.order)
    ensures id !in repo.entries ==> r == Err(SubscriptionNotFound)
    ensures forall k :: k in repo.entries && k != id ==> repo.entries[k].Snapshot() == old(repo.entries[k].Snapshot())
    ensures id in repo.entries ==>
      Outcome(CostChange(old(repo.entries[id].Snapshot()), amount), r, repo.entries[id],
              old(repo.entries[id].Snapshot()), repo.entries[id].Snapshot())
  {
    var found := repo.FindById(id);
    if found.None? {
      return Err(SubscriptionNotFound);
    }
    var s := found.value;
    var cost := NewMoney(amount, s.cost.currency);
    if cost.Err? {
      return Err(cost.error);
    }
    // The currency is the subscription's own, so the domain accepts the change.
    var _ := s.UpdateCost(cost.value);
    repo.Save(s);
    r := Ok(s);
  }

  /** PauseSubscriptionUseCase.execute. */
  method PauseSubscription(repo: SubscriptionRepository, id: Id) returns (r: Result<Subscription, Error>)
    requires repo.Valid()
    modifies repo, repo.entries.Values
    ensures repo.Valid() && repo.entries == old(repo.entries) && repo.order == old(repo.order)
    ensures id !in repo.entries ==> r == Err(SubscriptionNotFound)
    ensures forall k :: k in repo.entries && k != id ==> repo.entries[k].Snapshot() == old(repo.entries[k].Snapshot())
    ensures id in repo.entries ==>
      Outcome(SubscriptionModel.Pause(old(repo.entries[id].Snapshot())), r, repo.entries[id],
              old(repo.entries[id].Snapshot()), repo.entries[id].Snapshot())
  {
    var found := repo.FindById(id);
    if found.None? {
      return Err(SubscriptionNotFound);
    }
    var s := found.value;
    var done := s.Pause();
    if done.Err? {
      return Err(done.error);
    }
    repo.Save(s);
    r := Ok(s);
  }

  /** ResumeSubscriptionUseCase.execute; `now` and `eventId` stand for the clock and a fresh UUID. */
  method ResumeSubscription(repo: SubscriptionRepository, id: Id, now: Instant, eventId: Id) returns (r: Result<Subscription, Error>)
    requires repo.Valid()
    modifies repo, repo.entries.Values
    ensures repo.Valid() && repo.entries == old(repo.entries) && repo.order == old(repo.order)
    ensures id !in repo.entries ==> r == Err(SubscriptionNotFound)
    ensures forall k :: k in repo.entries && k != id ==> repo.entries[k].Snapshot() == old(repo.entries[k].Snapshot())
    ensures id in repo.entries ==>
      Outcome(SubscriptionModel.Resume(old(repo.entries[id].Snapshot()), now, eventId), r, repo.entries[id],
              old(repo.entries[id].Snapshot()), repo.entries[id].Snapshot())
  {
    var found := repo.FindById(id);
    if found.None? {
      return Err(SubscriptionNotFound);
    }
    var s := found.value;
    var done := s.Resume(now, eventId);
    if done.Err? {
      return Err(done.error);
    }
    repo.Save(s);
    r := Ok(s);
  }

  /** CancelSubscriptionUseCase.execute; `now` stands for the clock. */
  method CancelSubscription(repo: SubscriptionRepository, id: Id, now: Instant) returns (r: Result<Subscription, Error>)
    requires repo.Valid()
    modifies repo, repo.entries.Values
    ensures repo.Valid() && repo.entries == old(repo.entries) && repo.order == old(repo.order)
    ensures id !in repo.entries ==> r == Err(SubscriptionNotFound)
    ensures forall k :: k in repo.entries && k != id ==> repo.entries[k].Snapshot() == old(repo.entries[k].Snapshot())
    ensures id in repo.entries ==>
      Outcome(SubscriptionModel.Cancel(old(repo.entries[id].Snapshot()), now), r, repo.entries[id],
              old(repo.entries[id].Snapshot()), repo.entries[id].Snapshot())
  {
    var found := repo.FindById(id);
    if found.None? {
      return Err(SubscriptionNotFound);
    }
    var s := found.value;
    var done := s.Cancel(now);
    if done.Err? {
      return Err(done.error);
    }
    repo.Save(s);
    r := Ok(s);
  }

  /** AddNotificationRuleUseCase.execute; `ruleId` stands for a fresh UUID. Returns the new rule. */
  method AddNotificationRule(repo: SubscriptionRepository, id: Id, timing: NotificationTiming, ruleId: Id)
    returns (r: Result<NotificationRule, Error>)
    requires repo.Valid()
    modifies repo, repo.entries.Values
    ensures repo.Valid() && repo.entries == old(repo.entries) && repo.order == old(repo.order)
    ensures id !in repo.entries ==> r == Err(SubscriptionNotFound)
    ensures forall k :: k in repo.entries && k != id ==> repo.entries[k].Snapshot() == old(repo.entries[k].Snapshot())
    ensures id in repo.entries ==>
      AppliedWith(SubscriptionModel.AddNotificationRule(old(repo.entries[id].Snapshot()), timing, ruleId), r,
                  old(repo.entries[id].Snapshot()), repo.entries[id].Snapshot())
  {
    var found := repo.FindById(id);
    if found.None? {
      return Err(SubscriptionNotFound);
    }
    var s := found.value;
    r := s.AddNotificationRule(timing, ruleId);
    if r.Err? {
      return;
    }
    repo.Save(s);
  }

  /** The dictionary GetSubscriptionInsightsUseCase returns. */
  datatype Insights = Insights(
    totalSubscriptions: nat,
    activeSubscriptions: nat,
    monthlyTotal: Money,
    annualTotal: Money,
    categoryBreakdown: map<string, Money>,
    upcomingRenewals: seq<RenewalEvent>)

  /** The window of GetSubscriptionInsightsUseCase's upcoming renewals, in days. */
  const InsightsWindow := 30

  /** Each category that occurs, mapped to its monthly total. */
  function Breakdown(all: seq<Subscription>): map<string, Money>
    reads all
    requires AllCategoriesPriced(all)
  {
    map c | c in Categories(all) :: CategoryTotal(all, c).value
  }

  /** The insights over `all`, `count` being the number of stored subscriptions. */
  function InsightsOf(all: seq<Subscription>, count: nat, now: Instant): (r: Result<Insights, Error>)
    reads all
    ensures r.Ok? <==> TotalCostSpec(Snapshots(all), Month).Ok? && AllCategoriesPriced(all)
    ensures r.Err? ==> r.error == IncompatibleCurrency
    ensures r.Ok? ==> r.value.totalSubscriptions == count
    ensures r.Ok? ==> r.value.activeSubscriptions == |ActivePositions(all)|
  {
    ActiveOnlyCount(all);
    var ss := Snapshots(all);
    if TotalCostSpec(ss, Month).Err? || !AllCategoriesPriced(all) then Err(IncompatibleCurrency)
    else
      TotalYearIsTwelveMonths(ss);
      Ok(Insights(count, |ActiveOnly(all)|, TotalCostSpec(ss, Month).value, TotalCostSpec(ss, Year).value,
                  Breakdown(all), SortByDate(UpcomingCandidates(ss, InsightsWindow, now))))
  }

  /** The annual total of the insights is twelve monthly totals, and the monthly one sums the active costs. */
  lemma InsightsOfTotals(all: seq<Subscription>, count: nat, now: Instant)
    requires InsightsOf(all, count, now).Ok?
    ensures InsightsOf(all, count, now).value.annualTotal.amount == 12.0 * InsightsOf(all, count, now).value.monthlyTotal.amount
    ensures InsightsOf(all, count, now).value.monthlyTotal.amount == ActiveTotal(Snapshots(all), Month)
  {
    TotalYearIsTwelveMonths(Snapshots(all));
  }

  /** The breakdown of the insights maps each category that occurs to its own monthly total. */
  lemma InsightsOfBreakdown(all: seq<Subscription>, count: nat, now: Instant)
    requires InsightsOf(all, count, now).Ok?
    ensures InsightsOf(all, count, now).value.categoryBreakdown.Keys == Categories(all)
    ensures forall c :: c in InsightsOf(all, count, now).value.categoryBreakdown ==>
      Ok(InsightsOf(all, count, now).value.categoryBreakdown[c]) == CategoryTotal(all, c)
  {
  }

  /** The renewals of the insights are sorted and are exactly the candidates of the window. */
  lemma InsightsOfRenewals(all: seq<Subscription>, count: nat, now: Instant)
    requires InsightsOf(all, count, now).Ok?
    ensures SortedByDate(InsightsOf(all, count, now).value.upcomingRenewals)
    ensures forall e :: e in InsightsOf(all, count, now).value.upcomingRenewals <==>
      e in UpcomingCandidates(Snapshots(all), InsightsWindow, now)
  {
    var candidates := UpcomingCandidates(Snapshots(all), InsightsWindow, now);
    var sorted := SortByDate(candidates);
    assert InsightsOf(all, count, now).value.upcomingRenewals == sorted;
    forall e ensures e in sorted <==> e in candidates {
      assert e in sorted <==> e in multiset(sorted);
    }
  }

  /** A map with the categories as keys and their totals as values is the breakdown of the insights. */
  lemma BreakdownUnique(all: seq<Subscription>, m: map<string, Money>)
    requires m.Keys == Categories(all)
    requires forall c :: c in m ==> Ok(m[c]) == CategoryTotal(all, c)
    ensures AllCategoriesPriced(all) && m == Breakdown(all)
  {
  }

  /** The service calls of GetSubscriptionInsightsUseCase.execute over the listed subscriptions. */
  method InsightsOver(all: seq<Subscription>, count: nat, now: Instant) returns (r: Result<Insights, Error>)
    ensures r == InsightsOf(all, count, now)
  {
    var monthly := TotalCost(all, Month);
    if monthly.Err? {
      return Err(monthly.error);
    }
    TotalYearIsTwelveMonths(Snapshots(all));
    var annual := TotalCost(all, Year);
    r := InsightsPriced(all, count, now, monthly.value, annual.value);
  }

  /** The breakdown and the renewals, once both totals are known. */
  method InsightsPriced(all: seq<Subscription>, count: nat, now: Instant, monthly: Money, annual: Money)
    returns (r: Result<Insights, Error>)
    requires Ok(monthly) == TotalCostSpec(Snapshots(all), Month)
    requires Ok(annual) == TotalCostSpec(Snapshots(all), Year)
    ensures r == InsightsOf(all, count, now)
  {
    var breakdown := GetCostBreakdownByCategory(all);
    if breakdown.Err? {
      return Err(breakdown.error);
    }
    BreakdownUnique(all, breakdown.value);
    r := InsightsRenewals(all, count, now, monthly, annual, breakdown.value);
  }

  /** The renewals, once both totals and the breakdown are known. */
  method InsightsRenewals(all: seq<Subscription>, count: nat, now: Instant, monthly: Money, annual: Money,
                          breakdown: map<string, Money>) returns (r: Result<Insights, Error>)
    requires Ok(monthly) == TotalCostSpec(Snapshots(all), Month)
    requires Ok(annual) == TotalCostSpec(Snapshots(all), Year)
    requires AllCategoriesPriced(all) && breakdown == Breakdown(all)
    ensures r == InsightsOf(all, count, now)
  {
    var upcoming := GetUpcomingRenewals(all, InsightsWindow, now);
    r := Ok(Insights(count, |ActiveOnly(all)|, monthly, annual, breakdown, upcoming));
  }

  /**
   * GetSubscriptionInsightsUseCase.execute: counts, both totals, the category
   * breakdown and the renewals of the next thirty days.
   */
  method GetSubscriptionInsights(repo: SubscriptionRepository, now: Instant) returns (r: Result<Insights, Error>)
    requires repo.Valid()
    ensures r == InsightsOf(repo.FindAll(), |repo.entries|, now)
  {
    var all := repo.FindAll();
    assert |all| == |repo.entries| by {
      assert KeySet(repo.order) == repo.entries.Keys;
      DistinctCard(repo.order);
    }
    r := InsightsOver(all, |all|, now);
  }
}
