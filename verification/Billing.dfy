/**
 One subscription with its payment attempts and invoices, and what each billing operation does to it.
 Time is in seconds; the payment gateway's answers are inputs.
 */
module Billing {
  import opened Numbers
  import opened Wrappers

  const DAY: nat := 86400

  datatype Status = Trialing | Active | PastDue | Cancelled

  datatype Subscription = Subscription(
    tenantId: string, planId: string, status: Status,
    trialEndsAt: Option<int>, periodStart: Option<int>, periodEnd: Option<int>, cancelAtPeriodEnd: bool,
    gatewayRef: Option<string>, customerRef: Option<string>, cardToken: Option<string>, updatedAt: int)

  datatype Attempt = Attempt(number: nat, amount: int, success: bool, paymentId: Option<string>)

  /** An invoice names the attempt that paid it. */
  datatype Invoice = Invoice(number: string, attempt: nat, net: int, vat: int, total: int)

  datatype Account = Account(sub: Subscription, attempts: seq<Attempt>, invoices: seq<Invoice>)

  datatype Plan = Plan(price: nat, isActive: bool, gatewayRef: Option<string>)

  type Plans = map<string, Plan>

  /** What a charge at the gateway comes to: an exception, or an answer with or without a payment id. */
  datatype Gateway = Threw | Answered(ok: bool, paymentId: Option<string>)

  /** The calendar in use: the same day a month later, and the year and month of a time. */
  datatype Calendar = Calendar(nextMonth: int -> int, year: int -> nat, month: int -> nat)

  ghost predicate Forward(cal: Calendar) { forall t :: t < cal.nextMonth(t) }

  /** A string that is neither missing nor empty. */
  predicate Truthy(s: Option<string>) { s.Some? && s.value != "" }

  predicate Live(s: Status) { s.Active? || s.Trialing? }

  function OrElse(t: Option<int>, d: int): int { if t.Some? then t.value else d }

  /** A column compared with a time in SQL: never true when the column is NULL. */
  predicate Due(t: Option<int>, now: int) { t.Some? && t.value <= now }

  // ------------------------------------------------------------------ charging

  function PeriodTag(cal: Calendar, t: int): string { YearMonth(cal.year(t), cal.month(t)) }

  function Prefix(tenantId: string): string { if |tenantId| <= 8 then tenantId else tenantId[..8] }

  function InvoiceNumber(tenantId: string, tag: string, attempt: nat): string {
    "INV-" + Prefix(tenantId) + "-" + tag + "-" + Decimal(attempt)
  }

  /** A total that includes 20 percent VAT. */
  function MakeInvoice(number: string, attempt: nat, total: int): Invoice {
    var vat := RoundHalfUp(total * 20, 120);
    Invoice(number, attempt, total - vat, vat, total)
  }

  predicate HasCard(s: Subscription) { Truthy(s.cardToken) && Truthy(s.customerRef) }

  function MakeAttempt(a: Account, amount: int, g: Gateway): Attempt {
    Attempt(|a.attempts| + 1, amount, g.Answered? && g.ok, if g.Answered? then g.paymentId else None)
  }

  /** Without a card nothing is charged and the charge counts as paid. */
  predicate Paid(a: Account, g: Gateway) { !HasCard(a.sub) || (g.Answered? && g.ok) }

  predicate Invoiced(t: Attempt) { t.success && Truthy(t.paymentId) }

  function Charge(a: Account, amount: int, cal: Calendar, now: int, g: Gateway): Account {
    if !HasCard(a.sub) then a
    else
      var t := MakeAttempt(a, amount, g);
      var number := InvoiceNumber(a.sub.tenantId, PeriodTag(cal, OrElse(a.sub.periodEnd, now)), t.number);
      a.(attempts := a.attempts + [t],
         invoices := a.invoices + if Invoiced(t) then [MakeInvoice(number, t.number, amount)] else [])
  }

  // ------------------------------------------------------------------ operations on one subscription

  /** The update time moves only when a column changes. */
  function Save(a: Account, s: Subscription, now: int): Account {
    if s == a.sub then a else a.(sub := s.(updatedAt := now))
  }

  predicate Free(s: Subscription, plans: Plans) { s.planId !in plans || plans[s.planId].price == 0 }

  function Advanced(s: Subscription, cal: Calendar, now: int): Subscription {
    s.(periodStart := Some(now), periodEnd := Some(cal.nextMonth(now)))
  }

  function ChargeForRenewal(a: Account, plans: Plans, cal: Calendar, now: int, g: Gateway): Account {
    if Free(a.sub, plans) then Save(a, Advanced(a.sub, cal, now), now)
    else
      var b := Charge(a, plans[a.sub.planId].price, cal, now, g);
      Save(b, if Paid(a, g) then Advanced(a.sub.(status := Active), cal, now) else a.sub.(status := PastDue), now)
  }

  predicate TrialOver(a: Account, now: int) { a.sub.status.Trialing? && Due(a.sub.trialEndsAt, now) }

  predicate PeriodOver(a: Account, now: int) { a.sub.status.Active? && Due(a.sub.periodEnd, now) }

  function RenewTrial(a: Account, plans: Plans, cal: Calendar, now: int, g: Gateway): Account {
    if TrialOver(a, now) then ChargeForRenewal(a, plans, cal, now, g) else a
  }

  function RenewPeriod(a: Account, plans: Plans, cal: Calendar, now: int, g: Gateway): Account {
    if PeriodOver(a, now) && !a.sub.cancelAtPeriodEnd then ChargeForRenewal(a, plans, cal, now, g) else a
  }

  function EndPeriod(a: Account, now: int): Account {
    if PeriodOver(a, now) && a.sub.cancelAtPeriodEnd then Save(a, a.sub.(status := Cancelled), now) else a
  }

  /** What one run of the renewals does to a subscription: three passes, each with its own query. */
  function Renew(a: Account, plans: Plans, cal: Calendar, now: int, atTrial: Gateway, atPeriod: Gateway): Account {
    EndPeriod(RenewPeriod(RenewTrial(a, plans, cal, now, atTrial), plans, cal, now, atPeriod), now)
  }

  function Failed(ts: seq<Attempt>): nat {
    if ts == [] then 0 else Failed(ts[..|ts| - 1]) + if ts[|ts| - 1].success then 0 else 1
  }

  lemma FailedAppend(ts: seq<Attempt>, t: Attempt)
    ensures Failed(ts + [t]) == Failed(ts) + if t.success then 0 else 1
  {
    assert (ts + [t])[..|ts|] == ts;
  }

  /** Enough failures were recorded: the next run cancels. */
  predicate Exhausted(a: Account, delays: seq<nat>) { Failed(a.attempts) >= |delays| }

  predicate RetryDue(a: Account, delays: seq<nat>, now: int)
    requires !Exhausted(a, delays)
  {
    a.sub.updatedAt + delays[Failed(a.attempts)] * DAY <= now
  }

  /** What one run of the dunning does to a subscription; a failed retry leaves the row as it was. */
  function Dun(a: Account, delays: seq<nat>, plans: Plans, cal: Calendar, now: int, g: Gateway): Account {
    if !a.sub.status.PastDue? then a
    else if Exhausted(a, delays) then Save(a, a.sub.(status := Cancelled), now)
    else if !RetryDue(a, delays, now) then a
    else if Free(a.sub, plans) then Save(a, a.sub.(status := Active), now)
    else
      var b := Charge(a, plans[a.sub.planId].price, cal, now, g);
      if Paid(a, g) then
        var periodEnd := cal.nextMonth(OrElse(a.sub.periodEnd, now));
        Save(b, a.sub.(status := Active, periodStart := Some(now), periodEnd := Some(periodEnd)), now)
      else b
  }

  predicate Offered(planId: string, plans: Plans) { planId in plans && plans[planId].isActive }

  function ChangePlan(a: Account, planId: string, plans: Plans, now: int): Account {
    if Offered(planId, plans) then Save(a, a.sub.(planId := planId), now) else a
  }

  /** An immediate cancellation is lost when the gateway refuses to cancel. */
  function Cancel(a: Account, immediate: bool, gatewayCancels: bool, now: int): Account {
    if !immediate then Save(a, a.sub.(cancelAtPeriodEnd := true), now)
    else if Truthy(a.sub.gatewayRef) && !gatewayCancels then a
    else Save(a, a.sub.(status := Cancelled), now)
  }

  datatype Card = Card(gatewayRef: Option<string>, customerRef: Option<string>, cardToken: Option<string>)

  /** A card is stored when the plan is offered through the gateway and the gateway takes it. */
  function AddCard(a: Account, plans: Plans, card: Option<Card>, now: int): Account {
    if Offered(a.sub.planId, plans) && Truthy(plans[a.sub.planId].gatewayRef) && card.Some? then
      var c := card.value;
      Save(a, a.sub.(gatewayRef := c.gatewayRef, customerRef := c.customerRef, cardToken := c.cardToken), now)
    else a
  }

  function Started(tenantId: string, planId: string, trialSeconds: nat, card: Card, now: int): Account {
    Account(
      Subscription(tenantId, planId, Trialing, Some(now + trialSeconds), Some(now), Some(now + trialSeconds), false,
        card.gatewayRef, card.customerRef, card.cardToken, now),
      [], [])
  }

  /** A tenant has one subscription at most. */
  predicate UniqueTenants(rows: seq<Account>) {
    forall i, j | 0 <= i < j < |rows| :: rows[i].sub.tenantId != rows[j].sub.tenantId
  }

  // ------------------------------------------------------------------ a life

  /** Prices and offers may differ from one operation to the next. */
  datatype Event =
    | Renewal(now: int, plans: Plans, atTrial: Gateway, atPeriod: Gateway)
    | Dunning(now: int, plans: Plans, answer: Gateway)
    | PlanChange(now: int, plans: Plans, planId: string)
    | Cancellation(now: int, immediate: bool, gatewayCancels: bool)
    | NewCard(now: int, plans: Plans, card: Option<Card>)

  function Step(a: Account, e: Event, delays: seq<nat>, cal: Calendar): Account {
    match e
    case Renewal(now, plans, t, p) => Renew(a, plans, cal, now, t, p)
    case Dunning(now, plans, g) => Dun(a, delays, plans, cal, now, g)
    case PlanChange(now, plans, planId) => ChangePlan(a, planId, plans, now)
    case Cancellation(now, immediate, gatewayCancels) => Cancel(a, immediate, gatewayCancels, now)
    case NewCard(now, plans, card) => AddCard(a, plans, card, now)
  }

  function Life(a: Account, es: seq<Event>, delays: seq<nat>, cal: Calendar): Account
    decreases |es|
  {
    if es == [] then a else Life(Step(a, es[0], delays, cal), es[1..], delays, cal)
  }

  // ------------------------------------------------------------------ what the rules ask for

  lemma OneDay()
    ensures DAY == 24 * 60 * 60
  {
  }

  /** Both references of a card are there, and neither is empty. */
  predicate CardStored(s: Subscription) {
    s.cardToken != None && s.cardToken != Some("") && s.customerRef != None && s.customerRef != Some("")
  }

  predicate Priced(s: Subscription, plans: Plans) { s.planId in plans && plans[s.planId].price > 0 }

  /** A trial is over, or a period that is not to end. */
  predicate RenewalDue(s: Subscription, now: int) {
    || (s.status.Trialing? && s.trialEndsAt.Some? && s.trialEndsAt.value <= now)
    || (s.status.Active? && !s.cancelAtPeriodEnd && s.periodEnd.Some? && s.periodEnd.value <= now)
  }

  /** Past due, with a delay left that has passed since the row was last changed. */
  predicate RetryOpen(a: Account, delays: seq<nat>, now: int) {
    && a.sub.status.PastDue? && Failed(a.attempts) < |delays|
    && a.sub.updatedAt + delays[Failed(a.attempts)] * DAY <= now
  }

  /** An operation charges: a renewal that is due, or a dunning retry that is due, with a price and a card. */
  predicate Charges(a: Account, e: Event, delays: seq<nat>) {
    && CardStored(a.sub)
    && match e
       case Renewal(now, plans, _, _) => RenewalDue(a.sub, now) && Priced(a.sub, plans)
       case Dunning(now, plans, _) => RetryOpen(a, delays, now) && Priced(a.sub, plans)
       case _ => false
  }

  /** What the gateway answers to the charge of an event. */
  function AnswerTo(a: Account, e: Event): Gateway
    requires e.Renewal? || e.Dunning?
  {
    if e.Dunning? then e.answer else if a.sub.status.Trialing? then e.atTrial else e.atPeriod
  }

  /** The attempt of a charge: the next number, the price of the plan of that moment, and the gateway's answer. */
  function AttemptOf(a: Account, e: Event): Attempt
    requires (e.Renewal? || e.Dunning?) && Priced(a.sub, e.plans)
  {
    match AnswerTo(a, e)
    case Threw => Attempt(|a.attempts| + 1, e.plans[a.sub.planId].price, false, None)
    case Answered(ok, paymentId) => Attempt(|a.attempts| + 1, e.plans[a.sub.planId].price, ok, paymentId)
  }

  function NewAttempts(a: Account, e: Event, delays: seq<nat>): seq<Attempt> {
    if Charges(a, e, delays) then [AttemptOf(a, e)] else []
  }
}
