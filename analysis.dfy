/**
 * SubscriptionAnalysisService: totals of the monthly and annual cost
 * equivalents, upcoming renewals in date order, and a breakdown of the
 * monthly total by provider category. Each operation is a loop over the
 * subscriptions, proved equal to a reference definition over their states.
 */
module Analysis {
  import opened Wrappers
  import opened Errors
  import opened Time
  import opened ValueObjects
  import opened Entities
  import opened SubscriptionModel
  import opened Aggregate
  import opened Sorting

  /** Which cost equivalent a total is taken over. */
  datatype Period = Month | Year

  /** `calculate_monthly_cost` or `calculate_annual_cost`. */
  function PeriodCost(st: SubscriptionState, p: Period): Result<Money, Error>
  {
    match p
    case Month => MonthlyCost(st)
    case Year => AnnualCost(st)
  }

  // ------------------------------------------------------------------
  // Totals
  // ------------------------------------------------------------------

  /** Sum of the period costs of the subscriptions that contribute to expenses. */
  function ActiveTotal(ss: seq<SubscriptionState>, p: Period): (r: real)
    ensures r >= 0.0
  {
    if ss == [] then 0.0
    else
      var last := ss[|ss| - 1];
      ActiveTotal(ss[..|ss| - 1], p) + (if ContributesToExpenses(last) then PeriodCost(last, p).value.amount else 0.0)
  }

  /** Every subscription that contributes to expenses is billed in `currency`. */
  predicate ActiveIn(ss: seq<SubscriptionState>, currency: string)
  {
    forall i :: 0 <= i < |ss| && ContributesToExpenses(ss[i]) ==> ss[i].cost.currency == currency
  }

  /**
   * The total as the source computes it: zero dollars for no subscriptions,
   * otherwise the sum over active subscriptions in the first subscription's
   * currency, refused when an active one is billed in another currency.
   */
  function TotalCostSpec(ss: seq<SubscriptionState>, p: Period): (r: Result<Money, Error>)
    ensures r.Err? <==> |ss| > 0 && !ActiveIn(ss, ss[0].cost.currency)
    ensures r.Err? ==> r.error == IncompatibleCurrency
    ensures |ss| == 0 ==> r == Ok(MoneyValue(0.0, "USD"))
  {
    if ss == [] then NewMoney(0.0, "USD")
    else if !ActiveIn(ss, ss[0].cost.currency) then Err(IncompatibleCurrency)
    else Ok(MoneyValue(ActiveTotal(ss, p), ss[0].cost.currency))
  }

  /** The annual sum is twelve times the monthly sum. */
  lemma {:induction false} ActiveTotalYearIsTwelveMonths(ss: seq<SubscriptionState>)
    ensures ActiveTotal(ss, Year) == 12.0 * ActiveTotal(ss, Month)
  {
    if ss != [] {
      ActiveTotalYearIsTwelveMonths(ss[..|ss| - 1]);
      AnnualIsTwelveMonths(ss[|ss| - 1]);
    }
  }

  /** Annual and monthly totals fail together, and otherwise the annual one is twelve monthly ones. */
  lemma TotalYearIsTwelveMonths(ss: seq<SubscriptionState>)
    ensures TotalCostSpec(ss, Year).Ok? <==> TotalCostSpec(ss, Month).Ok?
    ensures TotalCostSpec(ss, Year).Ok? ==>
      TotalCostSpec(ss, Year).value.amount == 12.0 * TotalCostSpec(ss, Month).value.amount
  {
    ActiveTotalYearIsTwelveMonths(ss);
  }

  /** Subscriptions that do not contribute to expenses add nothing to the sum. */
  lemma {:induction false} ActiveTotalAppendInactive(ss: seq<SubscriptionState>, st: SubscriptionState, p: Period)
    requires !ContributesToExpenses(st)
    ensures ActiveTotal(ss + [st], p) == ActiveTotal(ss, p)
  {
    assert (ss + [st])[..|ss|] == ss;
  }

  /**
   * A streaming plan at 15 a month and a software licence at 120 a year, both
   * active and in dollars, total 25 a month and 300 a year.
   */
  lemma TotalsExample(streaming: SubscriptionState, software: SubscriptionState)
    requires streaming.status == Active && streaming.cost == MoneyValue(15.0, "USD")
    requires streaming.billingCycle == CycleValue(1, Months)
    requires software.status == Active && software.cost == MoneyValue(120.0, "USD")
    requires software.billingCycle == CycleValue(1, Years)
    ensures TotalCostSpec([streaming, software], Month) == Ok(MoneyValue(25.0, "USD"))
    ensures TotalCostSpec([streaming, software], Year) == Ok(MoneyValue(300.0, "USD"))
  {
    var ss := [streaming, software];
    assert ss[..1] == [streaming] && [streaming][..0] == [];
    assert ss[0].cost.currency == "USD";
    assert ActiveIn(ss, "USD");
    assert MonthlyMultiplier(streaming.billingCycle) == 1.0;
    assert MonthlyMultiplier(software.billingCycle) == 1.0 / 12.0;
    assert PeriodCost(streaming, Month).value.amount == 15.0;
    assert PeriodCost(software, Month).value.amount == 10.0;
    assert ActiveTotal([streaming], Month) == 15.0;
    assert ActiveTotal(ss, Month) == 25.0;
    assert PeriodCost(streaming, Year).value.amount == 180.0;
    assert PeriodCost(software, Year).value.amount == 120.0;
    assert ActiveTotal([streaming], Year) == 180.0;
    assert ActiveTotal(ss, Year) == 300.0;
  }

  /** calculate_total_monthly_cost / calculate_total_annual_cost: a running Money sum over active subscriptions. */
  method TotalCost(subs: seq<Subscription>, p: Period) returns (r: Result<Money, Error>)
    ensures r == TotalCostSpec(Snapshots(subs), p)
    ensures r.Ok? ==> r.value.amount == ActiveTotal(Snapshots(subs), p)
  {
    if |subs| == 0 {
      return NewMoney(0.0, "USD");
    }
    ghost var ss := Snapshots(subs);
    var currency := subs[0].cost.currency;
    var total := NewMoney(0.0, currency).value;
    var i := 0;
    while i < |subs|
      invariant 0 <= i <= |subs|
      invariant ActiveIn(ss[..i], currency)
      invariant total == MoneyValue(ActiveTotal(ss[..i], p), currency)
    {
      assert ss[..i + 1][..i] == ss[..i];
      if subs[i].status == Active {
        var cost := PeriodCost(subs[i].Snapshot(), p).value;
        var sum := Add(total, cost);
        if sum.Err? {
          assert !ActiveIn(ss, currency) by {
            assert ContributesToExpenses(ss[i]);
          }
          return Err(sum.error);
        }
        total := sum.value;
      }
      i := i + 1;
    }
    assert ss[..i] == ss;
    r := Ok(total);
  }

  // ------------------------------------------------------------------
  // Upcoming renewals
  // ------------------------------------------------------------------

  /** The unprocessed events of `events` within `days` days of `now`, in list order. */
  function UpcomingOf(events: seq<RenewalEvent>, days: int, now: Instant): (r: seq<RenewalEvent>)
    ensures forall e :: e in r <==> e in events && !e.isProcessed && IsUpcoming(e, days, now)
  {
    if events == [] then []
    else
      var last := events[|events| - 1];
      UpcomingOf(events[..|events| - 1], days, now) +
        (if !last.isProcessed && IsUpcoming(last, days, now) then [last] else [])
  }

  /** Every upcoming unprocessed event of every active subscription, subscription by subscription. */
  function UpcomingCandidates(ss: seq<SubscriptionState>, days: int, now: Instant): (r: seq<RenewalEvent>)
    ensures forall e :: e in r ==> !e.isProcessed && IsUpcoming(e, days, now)
  {
    if ss == [] then []
    else
      var last := ss[|ss| - 1];
      UpcomingCandidates(ss[..|ss| - 1], days, now) +
        (if last.status == Active then UpcomingOf(last.renewalEvents, days, now) else [])
  }

  /** An event is a candidate exactly when an active subscription owns it unprocessed and upcoming. */
  lemma {:induction false} UpcomingCandidatesExact(ss: seq<SubscriptionState>, days: int, now: Instant, e: RenewalEvent)
    ensures e in UpcomingCandidates(ss, days, now) <==>
      !e.isProcessed && IsUpcoming(e, days, now) &&
      exists i :: 0 <= i < |ss| && ss[i].status == Active && e in ss[i].renewalEvents
  {
    if ss != [] {
      var front := ss[..|ss| - 1];
      UpcomingCandidatesExact(front, days, now, e);
      assert forall i :: 0 <= i < |front| ==> front[i] == ss[i];
      if e in UpcomingCandidates(ss, days, now) && e !in UpcomingCandidates(front, days, now) {
        assert ss[|ss| - 1].status == Active && e in ss[|ss| - 1].renewalEvents;
      }
    }
  }

  /** The inner loop of get_upcoming_renewals: appends the upcoming unprocessed events of one subscription. */
  method AppendUpcoming(upcoming: seq<RenewalEvent>, events: seq<RenewalEvent>, days: int, now: Instant)
    returns (r: seq<RenewalEvent>)
    ensures r == upcoming + UpcomingOf(events, days, now)
  {
    r := upcoming;
    var j := 0;
    while j < |events|
      invariant 0 <= j <= |events|
      invariant r == upcoming + UpcomingOf(events[..j], days, now)
    {
      assert events[..j + 1][..j] == events[..j];
      if !events[j].isProcessed && IsUpcoming(events[j], days, now) {
        r := r + [events[j]];
      }
      j := j + 1;
    }
    assert events[..j] == events;
  }

  /** The outer loop of get_upcoming_renewals: the candidates, subscription by subscription. */
  method CollectUpcoming(subs: seq<Subscription>, days: int, now: Instant) returns (upcoming: seq<RenewalEvent>)
    ensures upcoming == UpcomingCandidates(Snapshots(subs), days, now)
  {
    ghost var ss := Snapshots(subs);
    upcoming := [];
    var i := 0;
    while i < |subs|
      invariant 0 <= i <= |subs|
      invariant upcoming == UpcomingCandidates(ss[..i], days, now)
    {
      assert ss[..i + 1][..i] == ss[..i];
      if subs[i].status == Active {
        upcoming := AppendUpcoming(upcoming, subs[i].renewalEvents, days, now);
      }
      i := i + 1;
    }
    assert ss[..i] == ss;
  }

  /** get_upcoming_renewals: the candidates sorted by renewal date. */
  method GetUpcomingRenewals(subs: seq<Subscription>, days: int, now: Instant) returns (r: seq<RenewalEvent>)
    ensures r == SortByDate(UpcomingCandidates(Snapshots(subs), days, now))
    ensures SortedByDate(r)
    ensures forall e :: e in r <==>
      !e.isProcessed && IsUpcoming(e, days, now) &&
      exists i :: 0 <= i < |subs| && subs[i].status == Active && e in subs[i].renewalEvents
  {
    var upcoming := CollectUpcoming(subs, days, now);
    r := SortByDate(upcoming);
    forall e ensures e in r <==> e in upcoming {
      assert multiset(r) == multiset(upcoming);
      assert e in r <==> e in multiset(r);
    }
    forall e ensures e in upcoming <==>
      !e.isProcessed && IsUpcoming(e, days, now) &&
      exists k :: 0 <= k < |subs| && subs[k].status == Active && e in subs[k].renewalEvents
    {
      UpcomingCandidatesExact(Snapshots(subs), days, now, e);
    }
  }

  // ------------------------------------------------------------------
  // Grouping by category
  // ------------------------------------------------------------------

  /** The subscriptions of `subs` whose provider is in category `c`, in list order. */
  function InCategory(subs: seq<Subscription>, c: string): seq<Subscription>
    reads subs
  {
    if subs == [] then []
    else
      var last := subs[|subs| - 1];
      InCategory(subs[..|subs| - 1], c) + (if last.provider.category == c then [last] else [])
  }

  /** The provider categories that occur in `subs`. */
  function Categories(subs: seq<Subscription>): set<string>
    reads subs
  {
    if subs == [] then {}
    else Categories(subs[..|subs| - 1]) + {subs[|subs| - 1].provider.category}
  }

  /** A category occurs exactly when some subscription's provider is in it. */
  lemma {:induction false} CategoriesExact(subs: seq<Subscription>, c: string)
    ensures c in Categories(subs) <==> exists i :: 0 <= i < |subs| && subs[i].provider.category == c
  {
    if subs != [] {
      var front := subs[..|subs| - 1];
      CategoriesExact(front, c);
      assert forall i :: 0 <= i < |front| ==> front[i] == subs[i];
    }
  }

  /** A category's group holds exactly the subscriptions whose provider is in it. */
  lemma {:induction false} InCategoryExact(subs: seq<Subscription>, c: string)
    ensures forall k :: 0 <= k < |InCategory(subs, c)| ==>
      InCategory(subs, c)[k] in subs && InCategory(subs, c)[k].provider.category == c
    ensures forall k :: 0 <= k < |subs| && subs[k].provider.category == c ==> subs[k] in InCategory(subs, c)
  {
    if subs != [] {
      var front := subs[..|subs| - 1];
      InCategoryExact(front, c);
      assert forall k :: 0 <= k < |front| ==> front[k] == subs[k];
      assert forall s :: s in front ==> s in subs;
    }
  }

  /** A category that does not occur has an empty group. */
  lemma {:induction false} InCategoryAbsent(subs: seq<Subscription>, c: string)
    requires c !in Categories(subs)
    ensures InCategory(subs, c) == []
  {
    if subs != [] {
      InCategoryAbsent(subs[..|subs| - 1], c);
    }
  }

  /** One more subscription adds its category and joins that category's group only. */
  lemma CategoryStep(subs: seq<Subscription>, i: nat)
    requires i < |subs|
    ensures Categories(subs[..i + 1]) == Categories(subs[..i]) + {subs[i].provider.category}
    ensures InCategory(subs[..i + 1], subs[i].provider.category) ==
      InCategory(subs[..i], subs[i].provider.category) + [subs[i]]
    ensures forall c :: c != subs[i].provider.category ==> InCategory(subs[..i + 1], c) == InCategory(subs[..i], c)
  {
    assert subs[..i + 1][..i] == subs[..i];
  }

  /** `groups` holds exactly the groups of `subs`. */
  predicate GroupsOf(groups: map<string, seq<Subscription>>, subs: seq<Subscription>)
    reads subs
  {
    groups.Keys == Categories(subs) && forall c :: c in groups ==> groups[c] == InCategory(subs, c)
  }

  /** The grouping loop's step: appending `subs[i]` to its category's group groups one more subscription. */
  lemma GroupStep(groups: map<string, seq<Subscription>>, subs: seq<Subscription>, i: nat)
    requires i < |subs| && GroupsOf(groups, subs[..i])
    ensures var category := subs[i].provider.category;
      GroupsOf(groups[category := (if category in groups then groups[category] else []) + [subs[i]]], subs[..i + 1])
  {
    var category := subs[i].provider.category;
    CategoryStep(subs, i);
    if category !in groups {
      InCategoryAbsent(subs[..i], category);
    }
  }

  /** get_subscriptions_by_category: one list per category that occurs, holding its subscriptions in order. */
  method GetSubscriptionsByCategory(subs: seq<Subscription>) returns (groups: map<string, seq<Subscription>>)
    ensures groups.Keys == Categories(subs)
    ensures forall c :: c in groups ==> groups[c] == InCategory(subs, c)
  {
    groups := map[];
    var i := 0;
    while i < |subs|
      invariant 0 <= i <= |subs|
      invariant GroupsOf(groups, subs[..i])
    {
      var category := subs[i].provider.category;
      var group := if category in groups then groups[category] else [];
      GroupStep(groups, subs, i);
      groups := groups[category := group + [subs[i]]];
      i := i + 1;
    }
    assert subs[..i] == subs;
  }

  /** The monthly total over one group of subscriptions. */
  function GroupTotal(group: seq<Subscription>): Result<Money, Error>
    reads group
  {
    TotalCostSpec(Snapshots(group), Month)
  }

  /** The monthly total over the subscriptions of category `c`. */
  function CategoryTotal(subs: seq<Subscription>, c: string): (r: Result<Money, Error>)
    reads subs
    ensures r.Err? ==> r.error == IncompatibleCurrency
  {
    InCategoryExact(subs, c);
    GroupTotal(InCategory(subs, c))
  }

  /** The total over one active subscription is its own period cost. */
  lemma SingleTotal(st: SubscriptionState, p: Period)
    requires st.status == Active
    ensures TotalCostSpec([st], p) == Ok(MoneyValue(PeriodCost(st, p).value.amount, st.cost.currency))
  {
    var ss := [st];
    assert ss[..0] == [] && ss[0] == st && |ss| - 1 == 0;
    assert ActiveTotal(ss, p) == ActiveTotal(ss[..0], p) + PeriodCost(st, p).value.amount;
    assert ActiveTotal(ss, p) == PeriodCost(st, p).value.amount;
    assert ActiveIn(ss, st.cost.currency);
  }

  /** Two subscriptions of two distinct categories form one group each. */
  lemma TwoCategories(first: Subscription, second: Subscription)
    requires first.provider.category != second.provider.category
    ensures Categories([first, second]) == {first.provider.category, second.provider.category}
    ensures InCategory([first, second], first.provider.category) == [first]
    ensures InCategory([first, second], second.provider.category) == [second]
  {
    var subs := [first, second];
    assert subs[..1] == [first] && [first][..0] == [];
    assert Categories([first]) == {first.provider.category};
    assert InCategory([first], first.provider.category) == [first];
    assert InCategory([first], second.provider.category) == [];
  }

  /**
   * The same two subscriptions under the categories Streaming and Software:
   * each category's monthly total is its own subscription's monthly cost.
   */
  lemma BreakdownExample(streaming: Subscription, software: Subscription)
    requires streaming.provider.category == "Streaming" && software.provider.category == "Software"
    requires streaming.status == Active && streaming.cost == MoneyValue(15.0, "USD")
    requires streaming.billingCycle == CycleValue(1, Months)
    requires software.status == Active && software.cost == MoneyValue(120.0, "USD")
    requires software.billingCycle == CycleValue(1, Years)
    ensures Categories([streaming, software]) == {"Streaming", "Software"}
    ensures CategoryTotal([streaming, software], "Streaming") == Ok(MoneyValue(15.0, "USD"))
    ensures CategoryTotal([streaming, software], "Software") == Ok(MoneyValue(10.0, "USD"))
  {
    assert "Streaming" != "Software" by {
      assert "Streaming"[1] != "Software"[1];
    }
    TwoCategories(streaming, software);
    assert Snapshots([streaming]) == [streaming.Snapshot()];
    assert Snapshots([software]) == [software.Snapshot()];
    SingleTotal(streaming.Snapshot(), Month);
    SingleTotal(software.Snapshot(), Month);
    assert MonthlyMultiplier(software.billingCycle) == 1.0 / 12.0;
  }

  /** Every category's monthly total is defined (no category mixes currencies). */
  predicate AllCategoriesPriced(subs: seq<Subscription>)
    reads subs
  {
    forall c :: c in Categories(subs) ==> CategoryTotal(subs, c).Ok?
  }

  /** The monthly total of every group, refused as soon as one group's total is refused. */
  method PriceGroups(groups: map<string, seq<Subscription>>) returns (r: Result<map<string, Money>, Error>)
    ensures r.Ok? ==> r.value.Keys == groups.Keys
    ensures r.Ok? ==> forall c :: c in r.value ==> Ok(r.value[c]) == GroupTotal(groups[c])
    ensures r.Err? ==> exists c :: c in groups && GroupTotal(groups[c]).Err?
    ensures r.Err? ==> r.error == IncompatibleCurrency
  {
    var breakdown: map<string, Money> := map[];
    var remaining := groups.Keys;
    while remaining != {}
      invariant remaining <= groups.Keys
      invariant breakdown.Keys == groups.Keys - remaining
      invariant forall c :: c in breakdown ==> Ok(breakdown[c]) == GroupTotal(groups[c])
      decreases remaining
    {
      var c :| c in remaining;
      var total := TotalCost(groups[c], Month);
      if total.Err? {
        return Err(total.error);
      }
      breakdown := breakdown[c := total.value];
      remaining := remaining - {c};
    }
    r := Ok(breakdown);
  }

  /**
   * get_cost_breakdown_by_category: the monthly total of each category's own
   * subscriptions; refused when any category's total is refused.
   */
  method GetCostBreakdownByCategory(subs: seq<Subscription>) returns (r: Result<map<string, Money>, Error>)
    ensures r.Ok? <==> AllCategoriesPriced(subs)
    ensures r.Ok? ==> r.value.Keys == Categories(subs)
    ensures r.Ok? ==> forall c :: c in r.value ==> Ok(r.value[c]) == CategoryTotal(subs, c)
    ensures r.Err? ==> r.error == IncompatibleCurrency
  {
    var groups := GetSubscriptionsByCategory(subs);
    r := PriceGroups(groups);
    if r.Err? {
      var c :| c in groups && GroupTotal(groups[c]).Err?;
      assert c in Categories(subs) && CategoryTotal(subs, c).Err?;
    }
  }
}
