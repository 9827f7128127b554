/** The dashboard's state machine: the state the root component keeps, the
    purchase and role-switch handlers, tab navigation, and the two derived
    views (the plans offered for purchase and the recent-activity window).
    Each state update is read as a plain replacement of the state record. */
module App {
  import opened Types
  import Constants
  import Decimal
  import DateFormat

  const DashboardTab := "dashboard"
  const PlansTab := "plans"
  const AdminOverviewTab := "admin-overview"

  /** Number of transactions the dashboard's activity table shows. */
  const RecentLimit := 5

  datatype AppState = AppState(
    role: UserRole,
    activeTab: string,
    plans: seq<InvestmentPlan>,
    profile: UserProfile,
    transactions: seq<Transaction>)

  /** What the alert after a purchase attempt reports. */
  datatype Notice = InsufficientBalance | Purchased(planName: string)

  datatype Step = Step(state: AppState, notice: Notice)

  /** The page the content area renders for a tab. */
  datatype Page = DashboardPage | PlansPage | AdminOverviewPage | ComingSoonPage

  /** The state the page starts in: the user role on the dashboard, with the
      whole catalogue on offer and the demonstration history shown. */
  function Init(): (r: AppState)
    ensures r.role == USER && r.profile.role == r.role
    ensures r.profile.balance == 125050 && r.profile.lockedBalance == 60000
    ensures ContentFor(r.activeTab) == DashboardPage
    ensures ActivePlans(r.plans) == r.plans && |r.plans| == 3
    ensures RecentActivity(r.transactions) == r.transactions
  {
    Constants.CatalogueWellFormed();
    ActivePlansAllActive(Constants.InitialPlans);
    AppState(USER, DashboardTab, Constants.InitialPlans, Constants.MockUser, Constants.MockTransactions)
  }

  function ContentFor(tab: string): (pg: Page)
    ensures pg == DashboardPage <==> tab == DashboardTab
    ensures pg == PlansPage <==> tab == PlansTab
    ensures pg == AdminOverviewPage <==> tab == AdminOverviewTab
    ensures pg == ComingSoonPage <==> tab !in {DashboardTab, PlansTab, AdminOverviewTab}
  {
    if tab == DashboardTab then DashboardPage
    else if tab == PlansTab then PlansPage
    else if tab == AdminOverviewTab then AdminOverviewPage
    else ComingSoonPage
  }

  /** The tab opened when the role switch lands on `role`. */
  function HomeTab(role: UserRole): string {
    if role == ADMIN then AdminOverviewTab else DashboardTab
  }

  /** Identifier of a purchase made when the millisecond clock reads `now`. */
  function PurchaseTxId(now: nat): (id: string)
    ensures |id| > 3 && id[..3] == "tx-"
    ensures Decimal.Canonical(id[3..]) && Decimal.Value(id[3..]) == now
  {
    var digits := Decimal.ToDecimal(now);
    Decimal.ValueOfToDecimal(now);
    assert ("tx-" + digits)[3..] == digits;
    "tx-" + digits
  }

  /** Purchases recorded at different clock readings get different identifiers. */
  lemma PurchaseTxIdInjective(m: nat, n: nat)
    requires m != n
    ensures PurchaseTxId(m) != PurchaseTxId(n)
  {
  }

  /** The history entry written by a successful purchase. */
  function PurchaseRecord(p: UserProfile, plan: InvestmentPlan, now: nat, iso: string): (tx: Transaction)
    ensures tx.userId == p.id && tx.kind == PLAN_PURCHASE && tx.status == COMPLETED
    ensures tx.amount == plan.price
    ensures tx.id == PurchaseTxId(now) && tx.date == DateFormat.FormatDate(iso)
    ensures tx.network.None? && tx.txid.None? && tx.address.None? && tx.fee.None? && tx.notes.None?
  {
    Transaction(PurchaseTxId(now), p.id, DateFormat.FormatDate(iso), PLAN_PURCHASE, plan.price,
                None, COMPLETED, None, None, None, None)
  }

  /** The purchase handler: refuse when the balance does not cover the price;
      otherwise move the price from the balance to the locked balance and put
      a completed purchase record at the head of the history. The clock
      reading `now` and its ISO rendering `iso` are inputs. */
  function Purchase(s: AppState, plan: InvestmentPlan, now: nat, iso: string): (r: Step)
    ensures r.notice.InsufficientBalance? <==> s.profile.balance < plan.price
    ensures r.notice.Purchased? ==> r.notice.planName == plan.name
    // a refusal changes nothing
    ensures r.notice.InsufficientBalance? ==> r.state == s
    // a purchase moves exactly the price and keeps the total
    ensures r.notice.Purchased? ==>
      && r.state.profile.balance == s.profile.balance - plan.price
      && r.state.profile.lockedBalance == s.profile.lockedBalance + plan.price
    ensures Holdings(r.state.profile) == Holdings(s.profile)
    ensures s.profile.balance >= 0 ==> r.state.profile.balance >= 0
    // one record in front of the unchanged history
    ensures r.notice.Purchased? ==>
      && |r.state.transactions| == |s.transactions| + 1
      && r.state.transactions[1..] == s.transactions
      && r.state.transactions[0] == PurchaseRecord(s.profile, plan, now, iso)
    // nothing else moves
    ensures SameIdentity(r.state.profile, s.profile)
    ensures r.state.role == s.role && r.state.activeTab == s.activeTab && r.state.plans == s.plans
  {
    if s.profile.balance < plan.price then
      Step(s, InsufficientBalance)
    else
      var tx := PurchaseRecord(s.profile, plan, now, iso);
      var p := s.profile.(balance := s.profile.balance - plan.price,
                          lockedBalance := s.profile.lockedBalance + plan.price);
      Step(s.(profile := p, transactions := [tx] + s.transactions), Purchased(plan.name))
  }

  /** The role switch: the other role, that role's fixed demonstration
      profile, and that role's home tab. */
  function ToggleRole(s: AppState): (r: AppState)
    ensures r.role != s.role
    ensures r.role == ADMIN ==> r.profile == Constants.MockAdmin && r.activeTab == AdminOverviewTab
    ensures r.role == USER ==> r.profile == Constants.MockUser && r.activeTab == DashboardTab
    ensures ContentFor(r.activeTab) == (if s.role == USER then AdminOverviewPage else DashboardPage)
    ensures r.transactions == s.transactions && r.plans == s.plans
  {
    var role := Other(s.role);
    AppState(role, HomeTab(role), s.plans, Constants.MockProfile(role), s.transactions)
  }

  /** Choosing a tab in the navigation. */
  function Navigate(s: AppState, tab: string): (r: AppState)
    ensures r.activeTab == tab
    ensures r.role == s.role && r.profile == s.profile && r.plans == s.plans && r.transactions == s.transactions
  {
    s.(activeTab := tab)
  }

  /** The plans offered for purchase: the active ones, in catalogue order. */
  function ActivePlans(plans: seq<InvestmentPlan>): (r: seq<InvestmentPlan>)
    ensures |r| <= |plans|
    ensures forall p :: p in r <==> p in plans && p.active
  {
    if |plans| == 0 then []
    else (if plans[0].active then [plans[0]] else []) + ActivePlans(plans[1..])
  }

  /** The filter keeps relative order: offering a concatenated catalogue is
      offering each part in turn. */
  lemma {:induction false} ActivePlansAppend(a: seq<InvestmentPlan>, b: seq<InvestmentPlan>)
    ensures ActivePlans(a + b) == ActivePlans(a) + ActivePlans(b)
    decreases |a|
  {
    if |a| == 0 {
      assert a + b == b;
    } else {
      assert (a + b)[0] == a[0];
      assert (a + b)[1..] == a[1..] + b;
      ActivePlansAppend(a[1..], b);
    }
  }

  /** A catalogue of active plans is offered whole, in its own order. */
  lemma {:induction false} ActivePlansAllActive(plans: seq<InvestmentPlan>)
    requires forall p :: p in plans ==> p.active
    ensures ActivePlans(plans) == plans
    decreases |plans|
  {
    if |plans| > 0 {
      assert plans[0] in plans;
      assert forall p :: p in plans[1..] ==> p in plans;
      ActivePlansAllActive(plans[1..]);
    }
  }

  /** Applying the filter to its own result changes nothing. */
  lemma ActivePlansIdempotent(plans: seq<InvestmentPlan>)
    ensures ActivePlans(ActivePlans(plans)) == ActivePlans(plans)
  {
    ActivePlansAllActive(ActivePlans(plans));
  }

  /** The recent-activity window: the first five transactions, or all of them. */
  function RecentActivity(txs: seq<Transaction>): (r: seq<Transaction>)
    ensures |r| == if |txs| < RecentLimit then |txs| else RecentLimit
    ensures forall i :: 0 <= i < |r| ==> r[i] == txs[i]
  {
    if |txs| < RecentLimit then txs else txs[..RecentLimit]
  }

  /** After a purchase the new record heads the activity window, followed by
      the first four entries that were shown before. */
  lemma RecentActivityAfterPurchase(s: AppState, plan: InvestmentPlan, now: nat, iso: string)
    requires Purchase(s, plan, now, iso).notice.Purchased?
    ensures var shown := RecentActivity(Purchase(s, plan, now, iso).state.transactions);
      && shown[0] == PurchaseRecord(s.profile, plan, now, iso)
      && shown[1..] == RecentActivity(s.transactions)[..|shown| - 1]
  {
    var t := Purchase(s, plan, now, iso).state.transactions;
    var shown := RecentActivity(t);
    var before := RecentActivity(s.transactions);
    assert |shown| - 1 <= |before|;
    forall i | 0 <= i < |shown| - 1
      ensures shown[1..][i] == before[..|shown| - 1][i]
    {
      assert shown[i + 1] == t[i + 1] == s.transactions[i];
    }
  }

  /** Switching twice restores the role and the history but not the profile:
      the profile becomes the fixed one for that role. */
  lemma ToggleTwice(s: AppState)
    ensures var r := ToggleRole(ToggleRole(s));
      && r.role == s.role
      && r.profile == Constants.MockProfile(s.role)
      && r.activeTab == HomeTab(s.role)
      && r.transactions == s.transactions && r.plans == s.plans
  {
  }

  /** From the initial state, buying the starter plan and switching twice
      brings the balances back to the demonstration values while the
      purchase stays in the history. */
  lemma PurchaseThenToggleTwiceDiscardsBalance(now: nat, iso: string)
    ensures var bought := Purchase(Init(), Constants.InitialPlans[0], now, iso);
      var r := ToggleRole(ToggleRole(bought.state));
      && bought.notice.Purchased?
      && bought.state.profile.balance == 115050
      && r.profile == Constants.MockUser
      && r.profile.balance == 125050
      && |r.transactions| == 4
      && r.transactions[0].kind == PLAN_PURCHASE && r.transactions[0].amount == 10000
  {
  }

  /** The user-interface events. */
  datatype Event =
    | Buy(plan: InvestmentPlan, now: nat, iso: string)
    | SwitchRole
    | OpenTab(tab: string)

  /** An event can happen: a purchase button exists only on the plans page,
      and only for offered plans. */
  function Enabled(s: AppState, e: Event): (b: bool)
    ensures !e.Buy? ==> b
    ensures e.Buy? && b ==> e.plan in s.plans && e.plan.active && s.activeTab == PlansTab
    ensures e.Buy? && e.plan in s.plans && e.plan.active && s.activeTab == PlansTab ==> b
  {
    match e
    case Buy(plan, _, _) => ContentFor(s.activeTab) == PlansPage && plan in ActivePlans(s.plans)
    case SwitchRole => true
    case OpenTab(_) => true
  }

  /** One event; an event that cannot happen leaves the state as it is. */
  function Apply(s: AppState, e: Event): (r: AppState)
    ensures r.plans == s.plans
    ensures |r.transactions| <= |s.transactions| + 1
    ensures (r.role != s.role) == e.SwitchRole?
    ensures e.Buy? && !Enabled(s, e) ==> r == s
  {
    if !Enabled(s, e) then s
    else
      match e
      case Buy(plan, now, iso) => Purchase(s, plan, now, iso).state
      case SwitchRole => ToggleRole(s)
      case OpenTab(tab) => Navigate(s, tab)
  }

  /** The state after a sequence of events, applied in order. */
  function Run(s: AppState, events: seq<Event>): (r: AppState)
    ensures |r.transactions| <= |s.transactions| + |events|
    decreases |events|
  {
    if |events| == 0 then s else Run(Apply(s, events[0]), events[1..])
  }

  /** Consistency of a state: balances are non-negative, the profile belongs
      to the current role, and no plan has a negative price. */
  predicate Valid(s: AppState) {
    && s.profile.balance >= 0
    && s.profile.lockedBalance >= 0
    && s.profile.role == s.role
    && forall p :: p in s.plans ==> p.price >= 0
  }

  lemma InitValid()
    ensures Valid(Init())
  {
    Constants.CatalogueWellFormed();
  }

  /** Every event keeps a valid state valid. */
  lemma ApplyValid(s: AppState, e: Event)
    requires Valid(s)
    ensures Valid(Apply(s, e))
  {
  }

  lemma {:induction false} RunValid(s: AppState, events: seq<Event>)
    requires Valid(s)
    ensures Valid(Run(s, events))
    decreases |events|
  {
    if |events| > 0 {
      ApplyValid(s, events[0]);
      RunValid(Apply(s, events[0]), events[1..]);
    }
  }

  /** Every state the dashboard can reach is valid. */
  lemma ReachableValid(events: seq<Event>)
    ensures Valid(Run(Init(), events))
  {
    InitValid();
    RunValid(Init(), events);
  }

  /** The catalogue never changes. */
  lemma {:induction false} RunKeepsPlans(s: AppState, events: seq<Event>)
    ensures Run(s, events).plans == s.plans
    decreases |events|
  {
    if |events| > 0 {
      RunKeepsPlans(Apply(s, events[0]), events[1..]);
    }
  }

  /** `h` is what remains of `t` after dropping entries from its head. */
  predicate EndsWith(t: seq<Transaction>, h: seq<Transaction>) {
    |h| <= |t| && t[|t| - |h|..] == h
  }

  lemma EndsWithTransitive(a: seq<Transaction>, b: seq<Transaction>, c: seq<Transaction>)
    requires EndsWith(b, a) && EndsWith(c, b)
    ensures EndsWith(c, a)
  {
    assert c[|c| - |b|..][|b| - |a|..] == c[|c| - |a|..];
  }

  /** One event adds at most one entry to the history, at its head. */
  lemma ApplyKeepsHistory(s: AppState, e: Event)
    ensures EndsWith(Apply(s, e).transactions, s.transactions)
    ensures |Apply(s, e).transactions| <= |s.transactions| + 1
  {
    var t := Apply(s, e).transactions;
    assert t[|t| - |s.transactions|..] == s.transactions;
  }

  /** The history only grows at its head: the old history is always a suffix. */
  lemma {:induction false} RunKeepsHistory(s: AppState, events: seq<Event>)
    ensures EndsWith(Run(s, events).transactions, s.transactions)
    decreases |events|
  {
    if |events| > 0 {
      var s' := Apply(s, events[0]);
      ApplyKeepsHistory(s, events[0]);
      RunKeepsHistory(s', events[1..]);
      EndsWithTransitive(s.transactions, s'.transactions, Run(s, events).transactions);
    }
  }

  predicate NoRoleSwitch(events: seq<Event>) {
    forall i :: 0 <= i < |events| ==> !events[i].SwitchRole?
  }

  /** Without a role switch no funds appear or vanish. */
  lemma {:induction false} RunConservesHoldings(s: AppState, events: seq<Event>)
    requires NoRoleSwitch(events)
    ensures Holdings(Run(s, events).profile) == Holdings(s.profile)
    decreases |events|
  {
    if |events| > 0 {
      assert !events[0].SwitchRole?;
      assert NoRoleSwitch(events[1..]) by {
        forall i | 0 <= i < |events| - 1 ensures !events[1..][i].SwitchRole? {
          assert events[1..][i] == events[i + 1];
        }
      }
      RunConservesHoldings(Apply(s, events[0]), events[1..]);
    }
  }

  /** The initial offer is the whole catalogue. */
  lemma InitialOffer()
    ensures ActivePlans(Init().plans) == Constants.InitialPlans
  {
    Constants.CatalogueWellFormed();
    ActivePlansAllActive(Constants.InitialPlans);
  }
}
