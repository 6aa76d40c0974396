/** The subscription table and the loops over it: renewals, dunning, and the operations of one tenant. */
module BillingService {
  import opened Counting
  import opened Numbers
  import opened Wrappers
  import opened Billing
  import opened BillingLaws

  predicate HasTenant(rows: seq<Account>, tenantId: string) {
    exists i :: 0 <= i < |rows| && rows[i].sub.tenantId == tenantId
  }

  /** The first row of the tenant. */
  function RowOf(rows: seq<Account>, tenantId: string): Account
    requires HasTenant(rows, tenantId)
  {
    if rows[0].sub.tenantId == tenantId then rows[0]
    else
      assert exists i :: 0 <= i < |rows[1..]| && rows[1..][i].sub.tenantId == tenantId by {
        var i :| 0 <= i < |rows| && rows[i].sub.tenantId == tenantId;
        assert rows[1..][i - 1] == rows[i];
      }
      RowOf(rows[1..], tenantId)
  }

  lemma {:induction false} RowIsFirst(rows: seq<Account>, tenantId: string, i: nat)
    requires i < |rows| && rows[i].sub.tenantId == tenantId && forall j | 0 <= j < i :: rows[j].sub.tenantId != tenantId
    ensures HasTenant(rows, tenantId) && RowOf(rows, tenantId) == rows[i]
    decreases |rows|
  {
    if i > 0 { RowIsFirst(rows[1..], tenantId, i - 1); }
  }

  /** The plan is offered and has a counterpart at the gateway. */
  predicate ThroughGateway(planId: string, plans: Plans) { Offered(planId, plans) && Truthy(plans[planId].gatewayRef) }

  datatype Counters = Counters(retried: nat, recovered: nat, cancelled: nat)

  /** What dunning one subscription adds to the counters. */
  function Counted(c: Counters, a: Account, delays: seq<nat>, plans: Plans, now: int, g: Gateway): Counters {
    if !a.sub.status.PastDue? then c
    else if Exhausted(a, delays) then c.(cancelled := c.cancelled + 1)
    else if !RetryDue(a, delays, now) || Free(a.sub, plans) then c
    else c.(retried := c.retried + 1, recovered := c.recovered + if Paid(a, g) then 1 else 0)
  }

  function CountedAll(rows: seq<Account>, delays: seq<nat>, plans: Plans, now: int, answers: seq<Gateway>): Counters
    requires |answers| == |rows|
  {
    if rows == [] then Counters(0, 0, 0)
    else
      var n := |rows| - 1;
      Counted(CountedAll(rows[..n], delays, plans, now, answers[..n]), rows[n], delays, plans, now, answers[n])
  }

  /** The row is past due with no delay left. */
  predicate ToCancel(a: Account, delays: seq<nat>) { a.sub.status.PastDue? && Failed(a.attempts) >= |delays| }

  predicate ToRetry(a: Account, delays: seq<nat>, plans: Plans, now: int) {
    RetryOpen(a, delays, now) && Priced(a.sub, plans)
  }

  predicate Recovers(a: Account, delays: seq<nat>, plans: Plans, now: int, g: Gateway) {
    ToRetry(a, delays, plans, now) && (!CardStored(a.sub) || (g.Answered? && g.ok))
  }

  lemma CountedIs(c: Counters, a: Account, delays: seq<nat>, plans: Plans, now: int, g: Gateway)
    ensures Counted(c, a, delays, plans, now, g) == Counters(
      c.retried + if ToRetry(a, delays, plans, now) then 1 else 0,
      c.recovered + if Recovers(a, delays, plans, now, g) then 1 else 0,
      c.cancelled + if ToCancel(a, delays) then 1 else 0)
  {
    CodeConditions(a.sub, a, plans, delays, now);
  }

  /** The counters of a run count its rows. */
  lemma {:induction false} CountersAre(rows: seq<Account>, delays: seq<nat>, plans: Plans, now: int,
      answers: seq<Gateway>, n: nat)
    requires |answers| == |rows| && n <= |rows|
    ensures CountedAll(rows[..n], delays, plans, now, answers[..n]) == Counters(
      |Indices(n, i => 0 <= i < |rows| && ToRetry(rows[i], delays, plans, now))|,
      |Indices(n, i => 0 <= i < |rows| && Recovers(rows[i], delays, plans, now, answers[i]))|,
      |Indices(n, i => 0 <= i < |rows| && ToCancel(rows[i], delays))|)
  {
    var t := i => 0 <= i < |rows| && ToRetry(rows[i], delays, plans, now);
    var r := i => 0 <= i < |rows| && Recovers(rows[i], delays, plans, now, answers[i]);
    var c := i => 0 <= i < |rows| && ToCancel(rows[i], delays);
    hide Counted, ToRetry, Recovers, ToCancel;
    if n == 0 {
      OneIndexMore(0, t);
      OneIndexMore(0, r);
      OneIndexMore(0, c);
    } else {
      var m := n - 1;
      CountersAre(rows, delays, plans, now, answers, m);
      assert rows[..n][..m] == rows[..m] && answers[..n][..m] == answers[..m];
      CountedIs(CountedAll(rows[..m], delays, plans, now, answers[..m]), rows[m], delays, plans, now, answers[m]);
      OneIndexMore(m, t);
      OneIndexMore(m, r);
      OneIndexMore(m, c);
    }
  }

  lemma CardIsStored(s: Subscription)
    ensures HasCard(s) <==> CardStored(s)
  {
  }

  /** The invoice of a charge: named after tenant, period and attempt, with the VAT inside the amount. */
  function InvoiceOf(a: Account, amount: int, cal: Calendar, now: int): Invoice {
    var period := if a.sub.periodEnd.Some? then a.sub.periodEnd.value else now;
    var tenant := if |a.sub.tenantId| <= 8 then a.sub.tenantId else a.sub.tenantId[..8];
    MakeInvoice(
      "INV-" + tenant + "-" + YearMonth(cal.year(period), cal.month(period)) + "-" + Decimal(|a.attempts| + 1),
      |a.attempts| + 1, amount)
  }

  lemma InvoiceOfNumber(a: Account, amount: int, cal: Calendar, now: int)
    ensures InvoiceOf(a, amount, cal, now) ==
      MakeInvoice(InvoiceNumber(a.sub.tenantId, PeriodTag(cal, OrElse(a.sub.periodEnd, now)), |a.attempts| + 1),
        |a.attempts| + 1, amount)
  {
  }

  lemma NothingDue(a: Account, delays: seq<nat>, plans: Plans, cal: Calendar, now: int, g: Gateway, c: Counters)
    requires !a.sub.status.PastDue?
    ensures Dun(a, delays, plans, cal, now, g) == a && Counted(c, a, delays, plans, now, g) == c
  {
  }

  datatype Refusal = NotFound | AlreadySubscribed | NoGatewayPlan | CardRejected | GatewayError

  class SubscriptionTable {
    var rows: seq<Account>
    const delays: seq<nat>
    const cal: Calendar

    constructor (delays: seq<nat>, cal: Calendar)
      ensures rows == [] && this.delays == delays && this.cal == cal
    {
      rows := [];
      this.delays, this.cal := delays, cal;
    }

    /** The row of a tenant; tenants are unique. */
    method Find(tenantId: string) returns (r: Option<nat>)
      ensures r.Some? <==> HasTenant(rows, tenantId)
      ensures r.Some? ==> r.value < |rows| && rows[r.value].sub.tenantId == tenantId
      ensures r.Some? ==> rows[r.value] == RowOf(rows, tenantId)
    {
      for i := 0 to |rows|
        invariant forall j | 0 <= j < i :: rows[j].sub.tenantId != tenantId
      {
        if rows[i].sub.tenantId == tenantId {
          RowIsFirst(rows, tenantId, i);
          return Some(i);
        }
      }
      return None;
    }

    /** Stores a card for the tenant when its plan is offered through the gateway and the gateway takes the card. */
    method AddTenantCard(tenantId: string, plans: Plans, card: Option<Card>, now: int) returns (r: Result<(), Refusal>)
      modifies this`rows
      ensures r == Failure(NotFound) <==> !HasTenant(old(rows), tenantId)
      ensures r == Failure(NoGatewayPlan) <==>
        HasTenant(old(rows), tenantId) && !ThroughGateway(RowOf(old(rows), tenantId).sub.planId, plans)
      ensures r == Failure(CardRejected) <==>
        HasTenant(old(rows), tenantId) && ThroughGateway(RowOf(old(rows), tenantId).sub.planId, plans) && card.None?
      ensures r.Success? <==>
        HasTenant(old(rows), tenantId) && ThroughGateway(RowOf(old(rows), tenantId).sub.planId, plans) && card.Some?
      ensures r.Failure? ==> rows == old(rows)
      ensures r.Success? ==> exists i :: (
        && 0 <= i < |old(rows)| && old(rows)[i].sub.tenantId == tenantId && card.Some?
        && rows == old(rows)[i := AddCard(old(rows)[i], plans, card, now)]
        && rows[i].sub.cardToken == card.value.cardToken && rows[i].sub.customerRef == card.value.customerRef
        && rows[i].sub.gatewayRef == card.value.gatewayRef
        && rows[i].sub.status == old(rows)[i].sub.status)
    {
      var found := Find(tenantId);
      if found.None? { return Failure(NotFound); }
      var a := rows[found.value];
      if !(Offered(a.sub.planId, plans) && Truthy(plans[a.sub.planId].gatewayRef)) { return Failure(NoGatewayPlan); }
      if card.None? { return Failure(CardRejected); }
      var s := a.sub.(gatewayRef := card.value.gatewayRef, customerRef := card.value.customerRef,
        cardToken := card.value.cardToken);
      rows := rows[found.value := Save(a, s, now)];
      return Success(());
    }

    /** A tenant has at most one subscription, and a new one starts in its trial. */
    method StartSubscription(tenantId: string, planId: string, plans: Plans, trialSeconds: nat,
        card: Option<Option<Card>>, now: int) returns (r: Result<Account, Refusal>)
      requires UniqueTenants(rows)
      modifies this`rows
      ensures UniqueTenants(rows)
      ensures r == Failure(NotFound) <==> !Offered(planId, plans)
      ensures r == Failure(AlreadySubscribed) <==> Offered(planId, plans) && HasTenant(old(rows), tenantId)
      ensures r == Failure(CardRejected) <==>
        ThroughGateway(planId, plans) && !HasTenant(old(rows), tenantId) && card == Some(None)
      ensures r.Success? <==>
        Offered(planId, plans) && !HasTenant(old(rows), tenantId) &&
          !(ThroughGateway(planId, plans) && card == Some(None))
      ensures r.Failure? ==> rows == old(rows)
      ensures r.Success? ==>
        && rows == old(rows) + [r.value]
        && var c :=
             if ThroughGateway(planId, plans) && card.Some? && card.value.Some? then card.value.value
             else Card(None, None, None);
        r.value == Account(
          Subscription(tenantId, planId, Trialing, Some(now + trialSeconds), Some(now), Some(now + trialSeconds), false,
            c.gatewayRef, c.customerRef, c.cardToken, now),
          [], [])
    {
      if !Offered(planId, plans) { return Failure(NotFound); }
      var found := Find(tenantId);
      if found.Some? { return Failure(AlreadySubscribed); }
      var stored := Card(None, None, None);
      if card.Some? && Truthy(plans[planId].gatewayRef) {
        if card.value.None? { return Failure(CardRejected); }
        stored := card.value.value;
      }
      var a := Started(tenantId, planId, trialSeconds, stored, now);
      rows := rows + [a];
      return Success(a);
    }

    method ChangeTenantPlan(tenantId: string, planId: string, plans: Plans, now: int) returns (ok: bool)
      modifies this`rows
      ensures ok <==> planId in plans && plans[planId].isActive && HasTenant(old(rows), tenantId)
      ensures !ok ==> rows == old(rows)
      ensures ok ==> exists i :: (
        && 0 <= i < |old(rows)| && old(rows)[i].sub.tenantId == tenantId
        && rows == old(rows)[i := ChangePlan(old(rows)[i], planId, plans, now)]
        && rows[i].sub.planId == planId && rows[i].sub.status == old(rows)[i].sub.status)
    {
      var found := Find(tenantId);
      if found.None? || !Offered(planId, plans) { return false; }
      rows := rows[found.value := Save(rows[found.value], rows[found.value].sub.(planId := planId), now)];
      return true;
    }

    method CancelTenant(tenantId: string, immediate: bool, gatewayCancels: bool,
        now: int) returns (r: Result<(), Refusal>)
      modifies this`rows
      ensures r == Failure(NotFound) <==> !HasTenant(old(rows), tenantId)
      ensures r == Failure(GatewayError) <==>
        HasTenant(old(rows), tenantId) && immediate && !gatewayCancels &&
          Truthy(RowOf(old(rows), tenantId).sub.gatewayRef)
      ensures r.Success? <==>
        HasTenant(old(rows), tenantId) &&
          (immediate && !gatewayCancels ==> !Truthy(RowOf(old(rows), tenantId).sub.gatewayRef))
      ensures r.Failure? ==> rows == old(rows)
      ensures r.Success? ==> exists i :: (
        && 0 <= i < |old(rows)| && old(rows)[i].sub.tenantId == tenantId
        && rows == old(rows)[i := Cancel(old(rows)[i], immediate, gatewayCancels, now)]
        && (if immediate then rows[i].sub.status.Cancelled? else rows[i].sub.cancelAtPeriodEnd))
    {
      var found := Find(tenantId);
      if found.None? { return Failure(NotFound); }
      var i := found.value;
      var s := rows[i].sub;
      if immediate {
        if Truthy(s.gatewayRef) && !gatewayCancels { return Failure(GatewayError); }
        s := s.(status := Cancelled);
      } else {
        s := s.(cancelAtPeriodEnd := true);
      }
      rows := rows[i := Save(rows[i], s, now)];
      return Success(());
    }

    /**
     One charge, flag by flag: nothing without a card; otherwise one attempt, and an invoice only for
     a success that carries a payment id.
     */
    method ChargeCard(a: Account, amount: int, now: int, g: Gateway) returns (b: Account, success: bool)
      ensures b == Charge(a, amount, cal, now, g) && success == Paid(a, g)
      ensures !CardStored(a.sub) ==> b == a && success
      ensures CardStored(a.sub) ==> (success <==> g.Answered? && g.ok)
      ensures CardStored(a.sub) ==>
        && b.attempts == a.attempts +
             [Attempt(|a.attempts| + 1, amount, success, if g.Answered? then g.paymentId else None)]
        && b.invoices == a.invoices +
             if success && g.paymentId != None && g.paymentId != Some("")
             then [InvoiceOf(a, amount, cal, now)] else []
    {
      CardIsStored(a.sub);
      InvoiceOfNumber(a, amount, cal, now);
      hide InvoiceOf, InvoiceNumber, PeriodTag, MakeInvoice;
      if !HasCard(a.sub) { return a, true; }
      var attemptNumber := |a.attempts| + 1;
      var invoiceNumber := InvoiceNumber(a.sub.tenantId, PeriodTag(cal, OrElse(a.sub.periodEnd, now)), attemptNumber);
      var paymentId: Option<string> := None;
      success := false;
      match g {
        case Threw =>
          success := false;
        case Answered(ok, id) =>
          success := ok;
          paymentId := id;
      }
      b := a.(attempts := a.attempts + [Attempt(attemptNumber, amount, success, paymentId)]);
      if success && Truthy(paymentId) {
        b := b.(invoices := b.invoices + [MakeInvoice(invoiceNumber, attemptNumber, amount)]);
      }
    }

    method RenewOne(a: Account, plans: Plans, now: int, g: Gateway) returns (b: Account)
      ensures b == ChargeForRenewal(a, plans, cal, now, g)
      ensures Paid(a, g) || Free(a.sub, plans) ==>
        b.sub.periodStart == Some(now) && b.sub.periodEnd == Some(cal.nextMonth(now))
      ensures Priced(a.sub, plans) ==>
        b.sub.status == if !CardStored(a.sub) || (g.Answered? && g.ok) then Active else PastDue
      ensures !Priced(a.sub, plans) ==> b.sub.status == a.sub.status && b.attempts == a.attempts
      ensures Priced(a.sub, plans) && CardStored(a.sub) ==>
        b.attempts == a.attempts +
          [Attempt(|a.attempts| + 1, plans[a.sub.planId].price, g.Answered? && g.ok,
             if g.Answered? then g.paymentId else None)]
    {
      CardIsStored(a.sub);
      if Free(a.sub, plans) { return Save(a, Advanced(a.sub, cal, now), now); }
      var success;
      b, success := ChargeCard(a, plans[a.sub.planId].price, now, g);
      assert b.sub == a.sub;
      hide Charge;
      if success {
        b := Save(b, Advanced(a.sub.(status := Active), cal, now), now);
      } else {
        b := Save(b, a.sub.(status := PastDue), now);
      }
    }

    /** Three queries, each followed by a loop over what it found: every row ends as `Renew` says. */
    method ProcessPeriodRenewals(plans: Plans, now: int, atTrial: seq<Gateway>, atPeriod: seq<Gateway>)
      requires |atTrial| == |atPeriod| == |rows|
      modifies this`rows
      ensures |rows| == |old(rows)|
      ensures forall i | 0 <= i < |rows| :: rows[i] == Renew(old(rows)[i], plans, cal, now, atTrial[i], atPeriod[i])
    {
      hide ChargeForRenewal;
      var expiredTrials := rows;
      for i := 0 to |expiredTrials|
        invariant |rows| == |expiredTrials|
        invariant forall j | 0 <= j < i :: rows[j] == RenewTrial(expiredTrials[j], plans, cal, now, atTrial[j])
        invariant forall j | i <= j < |rows| :: rows[j] == expiredTrials[j]
      {
        if TrialOver(expiredTrials[i], now) {
          var a := RenewOne(expiredTrials[i], plans, now, atTrial[i]);
          rows := rows[i := a];
        }
      }
      var expiredPeriods := rows;
      for i := 0 to |expiredPeriods|
        invariant |rows| == |expiredPeriods|
        invariant forall j | 0 <= j < i :: rows[j] == RenewPeriod(expiredPeriods[j], plans, cal, now, atPeriod[j])
        invariant forall j | i <= j < |rows| :: rows[j] == expiredPeriods[j]
      {
        if PeriodOver(expiredPeriods[i], now) && !expiredPeriods[i].sub.cancelAtPeriodEnd {
          var a := RenewOne(expiredPeriods[i], plans, now, atPeriod[i]);
          rows := rows[i := a];
        }
      }
      var toCancel := rows;
      for i := 0 to |toCancel|
        invariant |rows| == |toCancel|
        invariant forall j | 0 <= j < i :: rows[j] == EndPeriod(toCancel[j], now)
        invariant forall j | i <= j < |rows| :: rows[j] == toCancel[j]
      {
        if PeriodOver(toCancel[i], now) && toCancel[i].sub.cancelAtPeriodEnd {
          rows := rows[i := Save(toCancel[i], toCancel[i].sub.(status := Cancelled), now)];
        }
      }
    }

    /** Every past-due row ends as `Dun` says, every other stays, and the counters are those of the rows. */
    method ProcessDunning(plans: Plans, now: int, answers: seq<Gateway>) returns (counters: Counters)
      requires |answers| == |rows|
      modifies this`rows
      ensures |rows| == |old(rows)|
      ensures forall i | 0 <= i < |rows| :: rows[i] == Dun(old(rows)[i], delays, plans, cal, now, answers[i])
      ensures counters == CountedAll(old(rows), delays, plans, now, answers)
      ensures Forward(cal) ==> forall i | 0 <= i < |rows| ::
        rows[i].attempts == old(rows)[i].attempts + NewAttempts(old(rows)[i], Dunning(now, plans, answers[i]), delays)
    {
      hide Dun, Counted;
      var pastDue := rows;
      counters := Counters(0, 0, 0);
      for i := 0 to |pastDue|
        invariant |rows| == |pastDue|
        invariant forall j | 0 <= j < i :: rows[j] == Dun(pastDue[j], delays, plans, cal, now, answers[j])
        invariant forall j | i <= j < |rows| :: rows[j] == pastDue[j]
        invariant counters == CountedAll(pastDue[..i], delays, plans, now, answers[..i])
      {
        assert pastDue[..i + 1][..i] == pastDue[..i] && answers[..i + 1][..i] == answers[..i];
        if pastDue[i].sub.status.PastDue? {
          var a, c := ProcessSingle(pastDue[i], plans, now, answers[i], counters);
          rows := rows[i := a];
          counters := c;
        } else {
          NothingDue(pastDue[i], delays, plans, cal, now, answers[i], counters);
        }
      }
      assert pastDue[..|pastDue|] == pastDue && answers[..|pastDue|] == answers;
      if Forward(cal) {
        forall i | 0 <= i < |rows| ensures rows[i].attempts ==
          old(rows)[i].attempts + NewAttempts(old(rows)[i], Dunning(now, plans, answers[i]), delays)
        {
          StepCharges(old(rows)[i], Dunning(now, plans, answers[i]), delays, cal);
        }
      }
    }

    method ProcessSingle(a: Account, plans: Plans, now: int, answer: Gateway, counters: Counters)
      returns (b: Account, c: Counters)
      requires a.sub.status.PastDue?
      ensures b == Dun(a, delays, plans, cal, now, answer)
      ensures c == Counted(counters, a, delays, plans, now, answer)
      ensures RetryOpen(a, delays, now) && Priced(a.sub, plans) && CardStored(a.sub) ==>
        b.attempts == a.attempts +
          [Attempt(|a.attempts| + 1, plans[a.sub.planId].price, answer.Answered? && answer.ok,
             if answer.Answered? then answer.paymentId else None)]
      ensures !(RetryOpen(a, delays, now) && Priced(a.sub, plans) && CardStored(a.sub)) ==> b.attempts == a.attempts
      ensures c.cancelled == counters.cancelled + if Failed(a.attempts) >= |delays| then 1 else 0
      ensures c.retried == counters.retried + if RetryOpen(a, delays, now) && Priced(a.sub, plans) then 1 else 0
      ensures c.recovered == counters.recovered +
        if RetryOpen(a, delays, now) && Priced(a.sub, plans)
          && (!CardStored(a.sub) || (answer.Answered? && answer.ok)) then 1 else 0
    {
      CardIsStored(a.sub);
      hide Failed, Charge;
      b, c := a, counters;
      var attemptCount := Failed(a.attempts);
      if attemptCount >= |delays| {
        return Save(a, a.sub.(status := Cancelled), now), c.(cancelled := c.cancelled + 1);
      }
      if a.sub.updatedAt + delays[attemptCount] * DAY > now { return; }
      if Free(a.sub, plans) {
        return Save(a, a.sub.(status := Active), now), c;
      }
      c := c.(retried := c.retried + 1);
      var success;
      b, success := ChargeCard(a, plans[a.sub.planId].price, now, answer);
      if success {
        var periodEnd := cal.nextMonth(OrElse(a.sub.periodEnd, now));
        b := Save(b, a.sub.(status := Active, periodStart := Some(now), periodEnd := Some(periodEnd)), now);
        c := c.(recovered := c.recovered + 1);
      }
    }
  }
}
