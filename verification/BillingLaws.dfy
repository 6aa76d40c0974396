/** What holds of a subscription over its whole life: failures, retries, endings and invoices. */
module BillingLaws {
  import opened Numbers
  import opened Wrappers
  import opened Billing

  // ------------------------------------------------------------------ failures

  function FailureCap(delays: seq<nat>): nat { if delays == [] then 1 else |delays| }

  /** Never more failures than the cap; strictly fewer while the subscription runs; one at least when past due. */
  predicate FailuresBounded(a: Account, delays: seq<nat>) {
    var f := Failed(a.attempts);
    && f <= FailureCap(delays)
    && (Live(a.sub.status) ==> f < FailureCap(delays))
    && (a.sub.status.PastDue? ==> f >= 1)
  }

  lemma ChargeFails(a: Account, amount: int, cal: Calendar, now: int, g: Gateway)
    ensures Failed(Charge(a, amount, cal, now, g).attempts) == Failed(a.attempts) + if Paid(a, g) then 0 else 1
    ensures Charge(a, amount, cal, now, g).sub == a.sub
  {
    hide Failed;
    FailedAppend(a.attempts, MakeAttempt(a, amount, g));
  }

  lemma RenewalKeepsBound(a: Account, plans: Plans, cal: Calendar, now: int, g: Gateway, delays: seq<nat>)
    requires FailuresBounded(a, delays) && Live(a.sub.status)
    ensures FailuresBounded(ChargeForRenewal(a, plans, cal, now, g), delays)
  {
    hide Failed, Charge, Paid;
    if !Free(a.sub, plans) { ChargeFails(a, plans[a.sub.planId].price, cal, now, g); }
  }

  lemma StepKeepsBound(a: Account, e: Event, delays: seq<nat>, cal: Calendar)
    requires FailuresBounded(a, delays)
    ensures FailuresBounded(Step(a, e, delays, cal), delays)
  {
    hide Failed, Charge, Paid, ChargeForRenewal;
    match e
    case Renewal(now, plans, t, p) =>
      if TrialOver(a, now) { RenewalKeepsBound(a, plans, cal, now, t, delays); }
      var b := RenewTrial(a, plans, cal, now, t);
      if PeriodOver(b, now) { RenewalKeepsBound(b, plans, cal, now, p, delays); }
    case Dunning(now, plans, g) =>
      if !Free(a.sub, plans) { ChargeFails(a, plans[a.sub.planId].price, cal, now, g); }
    case _ =>
  }

  /** Over any life at most as many charges fail as there are delays, and fewer while the subscription runs. */
  lemma {:induction false} FailuresStayBounded(a: Account, es: seq<Event>, delays: seq<nat>, cal: Calendar)
    requires FailuresBounded(a, delays)
    ensures FailuresBounded(Life(a, es, delays, cal), delays)
    decreases |es|
  {
    if es != [] {
      StepKeepsBound(a, es[0], delays, cal);
      FailuresStayBounded(Step(a, es[0], delays, cal), es[1..], delays, cal);
    }
  }

  lemma FailuresOfALife(tenantId: string, planId: string, trial: nat, card: Card, start: int, es: seq<Event>,
      delays: seq<nat>, cal: Calendar)
    requires delays != []
    ensures var a := Life(Started(tenantId, planId, trial, card, start), es, delays, cal);
      && Failed(a.attempts) <= |delays|
      && (Live(a.sub.status) ==> Failed(a.attempts) < |delays|)
  {
    FailuresStayBounded(Started(tenantId, planId, trial, card, start), es, delays, cal);
  }

  // ------------------------------------------------------------------ dunning comes to an end

  function LongestDelay(delays: seq<nat>): nat {
    if delays == [] then 0 else Max(delays[0], LongestDelay(delays[1..]))
  }

  lemma {:induction false} DelayBelowLongest(delays: seq<nat>, i: nat)
    requires i < |delays|
    ensures delays[i] <= LongestDelay(delays)
  {
    if i > 0 { DelayBelowLongest(delays[1..], i - 1); }
  }

  /** Runs of the dunning, none more than a day after the one before. */
  predicate DailyFrom(es: seq<Event>, since: int) {
    es == [] || (es[0].Dunning? && since <= es[0].now <= since + DAY && DailyFrom(es[1..], es[0].now))
  }

  function LastRun(es: seq<Event>, since: int): int { if es == [] then since else es[|es| - 1].now }

  /** When dunning must be over, seen from the last run: one day for each failure still allowed, and one to cancel. */
  function Deadline(a: Account, delays: seq<nat>, since: int): int {
    Max(since, a.sub.updatedAt + LongestDelay(delays) * DAY) + (|delays| + 1 - Failed(a.attempts)) * DAY
  }

  lemma DunNearsDeadline(a: Account, delays: seq<nat>, cal: Calendar, e: Event, since: int)
    requires a.sub.status.PastDue? && Failed(a.attempts) <= |delays| && e.Dunning? && since <= e.now <= since + DAY
    ensures var b := Step(a, e, delays, cal);
      b.sub.status.PastDue? ==>
        Failed(b.attempts) <= |delays| && b.sub.updatedAt == a.sub.updatedAt &&
          Deadline(b, delays, e.now) <= Deadline(a, delays, since)
  {
    hide Failed, Charge, Paid, LongestDelay;
    if !Exhausted(a, delays) {
      DelayBelowLongest(delays, Failed(a.attempts));
      MulMonotone(DAY, delays[Failed(a.attempts)], LongestDelay(delays));
      if !Free(a.sub, e.plans) { ChargeFails(a, e.plans[a.sub.planId].price, cal, e.now, e.answer); }
    }
  }

  lemma {:induction false} DunningEnds(a: Account, es: seq<Event>, delays: seq<nat>, cal: Calendar, since: int)
    requires Failed(a.attempts) <= |delays| && DailyFrom(es, since)
    requires a.sub.status.PastDue? ==> Deadline(a, delays, since) <= LastRun(es, since)
    ensures !Life(a, es, delays, cal).sub.status.PastDue?
    decreases |es|
  {
    hide Dun, Failed, LongestDelay;
    if es != [] {
      var b := Step(a, es[0], delays, cal);
      assert LastRun(es[1..], es[0].now) == LastRun(es, since);
      if a.sub.status.PastDue? {
        DunNearsDeadline(a, delays, cal, es[0], since);
        if b.sub.status.PastDue? {
          DunningEnds(b, es[1..], delays, cal, es[0].now);
        } else {
          NoDunningUnlessPastDue(b, es[1..], delays, cal, es[0].now);
        }
      } else {
        NoDunningUnlessPastDue(a, es, delays, cal, since);
      }
    }
  }

  lemma {:induction false} NoDunningUnlessPastDue(a: Account, es: seq<Event>, delays: seq<nat>, cal: Calendar,
      since: int)
    requires !a.sub.status.PastDue? && DailyFrom(es, since)
    ensures Life(a, es, delays, cal) == a
    decreases |es|
  {
    if es != [] { NoDunningUnlessPastDue(a, es[1..], delays, cal, es[0].now); }
  }

  /**
   With daily runs and no other change, a subscription that is past due has recovered or is
   cancelled by the longest delay plus as many days as there are delays after its last save.
   */
  lemma PastDueIsResolved(a: Account, es: seq<Event>, delays: seq<nat>, cal: Calendar)
    requires FailuresBounded(a, delays) && delays != [] && a.sub.status.PastDue? && DailyFrom(es, a.sub.updatedAt)
    requires a.sub.updatedAt + (LongestDelay(delays) + |delays|) * DAY <= LastRun(es, a.sub.updatedAt)
    ensures Settled(Life(a, es, delays, cal).sub.status)
  {
    hide Failed, LongestDelay, Life;
    assert (|delays| + 1 - Failed(a.attempts)) * DAY <= |delays| * DAY;
    DunningEnds(a, es, delays, cal, a.sub.updatedAt);
    NeverTrialingAgain(a, es, delays, cal);
  }

  lemma {:induction false} NeverTrialingAgain(a: Account, es: seq<Event>, delays: seq<nat>, cal: Calendar)
    requires !a.sub.status.Trialing?
    ensures !Life(a, es, delays, cal).sub.status.Trialing?
    decreases |es|
  {
    if es != [] {
      hide Failed, PeriodTag, InvoiceNumber, MakeInvoice, MakeAttempt, Paid, Life;
      assert !Step(a, es[0], delays, cal).sub.status.Trialing?;
      NeverTrialingAgain(Step(a, es[0], delays, cal), es[1..], delays, cal);
      UnfoldLife(a, es, delays, cal);
    }
  }

  lemma UnfoldLife(a: Account, es: seq<Event>, delays: seq<nat>, cal: Calendar)
    requires es != []
    ensures Life(a, es, delays, cal) == Life(Step(a, es[0], delays, cal), es[1..], delays, cal)
  {
  }

  /** Dunning runs no more than a day apart, with any renewal runs among them. */
  predicate Routine(es: seq<Event>, since: int)
    decreases |es|
  {
    || es == []
    || (es[0].Dunning? && since <= es[0].now <= since + DAY && Routine(es[1..], es[0].now))
    || (es[0].Renewal? && Routine(es[1..], since))
  }

  function LastDunning(es: seq<Event>, since: int): int
    decreases |es|
  {
    if es == [] then since else LastDunning(es[1..], if es[0].Dunning? then es[0].now else since)
  }

  /** Renewal runs pass a past-due subscription by. */
  lemma RenewalSkipsPastDue(a: Account, e: Event, delays: seq<nat>, cal: Calendar)
    requires a.sub.status.PastDue? && e.Renewal?
    ensures Step(a, e, delays, cal) == a
  {
  }

  lemma {:induction false} RoutineEnds(a: Account, es: seq<Event>, delays: seq<nat>, cal: Calendar, since: int)
    requires Failed(a.attempts) <= |delays| && Routine(es, since)
    requires a.sub.status.PastDue? ==> Deadline(a, delays, since) <= LastDunning(es, since)
    ensures exists k :: 0 <= k <= |es| && !Life(a, es[..k], delays, cal).sub.status.PastDue?
    decreases |es|
  {
    hide Step, Failed, LongestDelay;
    if !a.sub.status.PastDue? {
      assert es[..0] == [] && Life(a, es[..0], delays, cal) == a;
    } else if es != [] {
      var b := Step(a, es[0], delays, cal);
      if es[0].Dunning? {
        DunNearsDeadline(a, delays, cal, es[0], since);
        if !b.sub.status.PastDue? {
          assert es[..1][1..] == [] && Life(a, es[..1], delays, cal) == Life(b, [], delays, cal);
          assert 0 <= 1 <= |es|;
          return;
        }
        RoutineEnds(b, es[1..], delays, cal, es[0].now);
      } else {
        RenewalSkipsPastDue(a, es[0], delays, cal);
        RoutineEnds(b, es[1..], delays, cal, since);
      }
      var k :| 0 <= k <= |es| - 1 && !Life(b, es[1..][..k], delays, cal).sub.status.PastDue?;
      assert es[..k + 1][1..] == es[1..][..k] && es[..k + 1][0] == es[0];
      assert Life(a, es[..k + 1], delays, cal) == Life(b, es[1..][..k], delays, cal);
    }
  }

  predicate Settled(s: Status) { s.Active? || s.Cancelled? }

  /**
   The same with renewal runs among the dunning runs: at some point by then the subscription is active
   or cancelled.
   */
  lemma PastDueIsResolvedAmongRenewals(a: Account, es: seq<Event>, delays: seq<nat>, cal: Calendar)
    requires FailuresBounded(a, delays) && delays != [] && a.sub.status.PastDue? && Routine(es, a.sub.updatedAt)
    requires a.sub.updatedAt + (LongestDelay(delays) + |delays|) * DAY <= LastDunning(es, a.sub.updatedAt)
    ensures exists k :: 0 <= k <= |es| && Settled(Life(a, es[..k], delays, cal).sub.status)
  {
    hide Failed, LongestDelay, Life;
    assert (|delays| + 1 - Failed(a.attempts)) * DAY <= |delays| * DAY;
    RoutineEnds(a, es, delays, cal, a.sub.updatedAt);
    var k :| 0 <= k <= |es| && !Life(a, es[..k], delays, cal).sub.status.PastDue?;
    NeverTrialingAgain(a, es[..k], delays, cal);
  }

  /** The first retry waits for the second delay: the failed renewal has already been counted. */
  lemma FirstRetryWaitsForSecondDelay(a: Account, delays: seq<nat>, plans: Plans, cal: Calendar, now: int, g: Gateway)
    requires a.sub.status.PastDue? && Failed(a.attempts) == 1 && |delays| > 1 && !Free(a.sub, plans) && HasCard(a.sub)
    ensures Dun(a, delays, plans, cal, now, g).attempts != a.attempts <==> a.sub.updatedAt + delays[1] * DAY <= now
  {
    hide Failed;
    var b := Charge(a, plans[a.sub.planId].price, cal, now, g);
    assert |b.attempts| == |a.attempts| + 1;
  }

  /**
   A recovery counts the new period from the end of the old one, so the renewals of the same moment
   charge again exactly when a month from that end has passed already.
   */
  lemma RecoveryMayBeRenewedAtOnce(a: Account, delays: seq<nat>, plans: Plans, cal: Calendar, now: int,
      g: Gateway, t: Gateway, p: Gateway)
    requires Forward(cal) && a.sub.status.PastDue? && !Exhausted(a, delays) && RetryDue(a, delays, now)
    requires !Free(a.sub, plans) && HasCard(a.sub) && Paid(a, g) && a.sub.periodEnd.Some? && !a.sub.cancelAtPeriodEnd
    ensures var b := Dun(a, delays, plans, cal, now, g);
      && b.sub.status.Active?
      && Renew(b, plans, cal, now, t, p).attempts == b.attempts +
           if cal.nextMonth(a.sub.periodEnd.value) <= now then [MakeAttempt(b, plans[b.sub.planId].price, p)] else []
  {
    var b := Dun(a, delays, plans, cal, now, g);
    ChargeFails(a, plans[a.sub.planId].price, cal, now, g);
    hide Charge, Failed, MakeAttempt;
    RenewalChargesOnce(b, plans, cal, now, t, p);
  }

  // ------------------------------------------------------------------ endings

  /** Cancelled, or running to the end of a period that will not be renewed. */
  predicate Ending(a: Account) { a.sub.status.Cancelled? || (a.sub.status.Active? && a.sub.cancelAtPeriodEnd) }

  lemma StepKeepsEnding(a: Account, e: Event, delays: seq<nat>, cal: Calendar)
    requires Ending(a)
    ensures var b := Step(a, e, delays, cal);
      && Ending(b) && b.attempts == a.attempts && b.invoices == a.invoices
      && (a.sub.status.Cancelled? ==> b.sub.status.Cancelled?)
  {
  }

  /** No operation charges a subscription that is ending, and none brings a cancelled one back. */
  lemma {:induction false} EndingIsNeverCharged(a: Account, es: seq<Event>, delays: seq<nat>, cal: Calendar)
    requires Ending(a)
    ensures var b := Life(a, es, delays, cal);
      && Ending(b) && b.attempts == a.attempts && b.invoices == a.invoices
      && (a.sub.status.Cancelled? ==> b.sub.status.Cancelled?)
    decreases |es|
  {
    hide Step, Ending;
    if es != [] {
      StepKeepsEnding(a, es[0], delays, cal);
      EndingIsNeverCharged(Step(a, es[0], delays, cal), es[1..], delays, cal);
    }
  }

  /** The renewals attempt a charge in a run exactly when a trial is over, or a period that is to be renewed. */
  predicate Renewable(a: Account, now: int) {
    TrialOver(a, now) || (PeriodOver(a, now) && !a.sub.cancelAtPeriodEnd)
  }

  lemma ChargedAttempts(a: Account, plans: Plans, cal: Calendar, now: int, g: Gateway)
    ensures var b := ChargeForRenewal(a, plans, cal, now, g);
      b.attempts == a.attempts +
        if !Free(a.sub, plans) && HasCard(a.sub) then [MakeAttempt(a, plans[a.sub.planId].price, g)] else []
  {
  }

  /** At most one attempt a run, and one exactly when there is something to renew, a price and a card. */
  lemma RenewalChargesOnce(a: Account, plans: Plans, cal: Calendar, now: int, t: Gateway, p: Gateway)
    requires Forward(cal)
    ensures Renew(a, plans, cal, now, t, p).attempts == a.attempts +
      if Renewable(a, now) && !Free(a.sub, plans) && HasCard(a.sub)
      then [MakeAttempt(a, plans[a.sub.planId].price, if a.sub.status.Trialing? then t else p)] else []
  {
    ChargedAttempts(a, plans, cal, now, t);
    ChargedAttempts(a, plans, cal, now, p);
    var b := RenewTrial(a, plans, cal, now, t);
    assert TrialOver(a, now) ==> !PeriodOver(b, now);
    hide Charge, MakeAttempt, Failed, Free, HasCard;
  }

  /** A trial is charged at its end even when the subscription was cancelled during it. */
  lemma CancelledTrialIsCharged(a: Account, plans: Plans, cal: Calendar, now: int, t: Gateway, p: Gateway)
    requires Forward(cal) && TrialOver(a, now) && !Free(a.sub, plans) && HasCard(a.sub)
    ensures Renew(Cancel(a, false, true, now), plans, cal, now, t, p).attempts
      == a.attempts + [MakeAttempt(a, plans[a.sub.planId].price, t)]
  {
    hide Charge, MakeInvoice, InvoiceNumber, PeriodTag;
    RenewalChargesOnce(Cancel(a, false, true, now), plans, cal, now, t, p);
  }

  lemma CodeConditions(s: Subscription, a: Account, plans: Plans, delays: seq<nat>, now: int)
    ensures HasCard(s) <==> CardStored(s)
    ensures forall t :: Truthy(t) <==> t != None && t != Some("")
    ensures Free(s, plans) <==> !Priced(s, plans)
    ensures Renewable(a, now) <==> RenewalDue(a.sub, now)
    ensures a.sub.status.PastDue? && !Exhausted(a, delays) && RetryDue(a, delays, now) <==> RetryOpen(a, delays, now)
  {
  }

  /**
   Exactly these operations attempt a charge, and the attempt has the next number, the price of the
   plan of that moment, and the gateway's answer.
   */
  lemma StepCharges(a: Account, e: Event, delays: seq<nat>, cal: Calendar)
    requires Forward(cal)
    ensures Step(a, e, delays, cal).attempts == a.attempts + NewAttempts(a, e, delays)
    ensures Step(a, e, delays, cal).attempts != a.attempts <==> Charges(a, e, delays)
  {
    hide Failed, MakeInvoice, InvoiceNumber, PeriodTag, Renew, Renewable, Forward, HasCard, Free, CardStored, Priced,
      RenewalDue, RetryDue, RetryOpen;
    match e
    case Renewal(now, plans, t, p) =>
      CodeConditions(a.sub, a, plans, delays, now);
      RenewalChargesOnce(a, plans, cal, now, t, p);
    case Dunning(now, plans, _) =>
      CodeConditions(a.sub, a, plans, delays, now);
    case _ =>
      assert a.attempts + [] == a.attempts;
  }

  /** The state before event i of a life. */
  function Before(a: Account, es: seq<Event>, i: nat, delays: seq<nat>, cal: Calendar): Account
    requires i <= |es|
  {
    Life(a, es[..i], delays, cal)
  }

  lemma BeforeLater(a: Account, es: seq<Event>, i: nat, delays: seq<nat>, cal: Calendar)
    requires 0 < i <= |es|
    ensures Before(a, es, i, delays, cal) == Before(Step(a, es[0], delays, cal), es[1..], i - 1, delays, cal)
  {
    hide Step;
    assert es[..i][1..] == es[1..][..i - 1] && es[..i][0] == es[0];
  }

  /**
   Over any life, every attempt that was added is the attempt of one of its events: it was charged then,
   at the price that event's plans had for the plan of that moment.
   */
  lemma {:induction false} AttemptsOfALife(a: Account, es: seq<Event>, delays: seq<nat>, cal: Calendar, k: nat)
    requires Forward(cal)
    ensures a.attempts <= Life(a, es, delays, cal).attempts
    ensures |a.attempts| <= k < |Life(a, es, delays, cal).attempts| ==>
      exists i :: 0 <= i < |es| &&
        NewAttempts(Before(a, es, i, delays, cal), es[i], delays) == [Life(a, es, delays, cal).attempts[k]]
    decreases |es|
  {
    hide Step, NewAttempts, Forward, Before;
    if es != [] {
      var b := Step(a, es[0], delays, cal);
      StepCharges(a, es[0], delays, cal);
      AttemptsOfALife(b, es[1..], delays, cal, k);
      var end := Life(a, es, delays, cal).attempts;
      if |a.attempts| <= k < |b.attempts| {
        BeforeFirst(a, es, delays, cal);
        OneAtMost(a, es[0], delays);
        assert NewAttempts(a, es[0], delays) == [b.attempts[k]] && end[k] == b.attempts[k];
      } else if |b.attempts| <= k < |end| {
        var i :| 0 <= i < |es[1..]| && NewAttempts(Before(b, es[1..], i, delays, cal), es[1..][i], delays) == [end[k]];
        BeforeLater(a, es, i + 1, delays, cal);
        assert es[1..][i] == es[i + 1];
      }
    }
  }

  lemma OneAtMost(a: Account, e: Event, delays: seq<nat>)
    ensures |NewAttempts(a, e, delays)| <= 1
  {
  }

  lemma BeforeFirst(a: Account, es: seq<Event>, delays: seq<nat>, cal: Calendar)
    ensures Before(a, es, 0, delays, cal) == a
  {
    assert es[..0] == [];
  }

  // ------------------------------------------------------------------ what a run makes of the row

  /** The row after a run that changed it at a time. */
  predicate Became(a: Account, b: Account, status: Status, periodStart: Option<int>, periodEnd: Option<int>) {
    b.sub == a.sub.(status := status, periodStart := periodStart, periodEnd := periodEnd, updatedAt := b.sub.updatedAt)
  }

  /**
   The three passes of the renewals together: a due trial or period is paid for, free of charge, or past
   due, with a month from now when it goes on; a flagged period ends; every other row is as it was.
   */
  lemma RenewalOutcome(a: Account, plans: Plans, cal: Calendar, now: int, t: Gateway, p: Gateway)
    requires Forward(cal)
    ensures var b := Renew(a, plans, cal, now, t, p);
      var s, next := a.sub, Some(cal.nextMonth(now));
      var g := if s.status.Trialing? then t else p;
      if RenewalDue(s, now) then
        if !Priced(s, plans) then Became(a, b, s.status, Some(now), next)
        else if !CardStored(s) || (g.Answered? && g.ok) then Became(a, b, Active, Some(now), next)
        else Became(a, b, PastDue, s.periodStart, s.periodEnd)
      else if s.status.Active? && s.periodEnd.Some? && s.periodEnd.value <= now then
        Became(a, b, Cancelled, s.periodStart, s.periodEnd)
      else b == a
  {
    CodeConditions(a.sub, a, plans, [], now);
    ChargeKeepsRow(a, plans, cal, now, t);
    ChargeKeepsRow(a, plans, cal, now, p);
    hide Charge, HasCard, Free;
  }

  lemma ChargeKeepsRow(a: Account, plans: Plans, cal: Calendar, now: int, g: Gateway)
    ensures a.sub.planId in plans ==> Charge(a, plans[a.sub.planId].price, cal, now, g).sub == a.sub
  {
  }

  /**
   A run of the dunning: no delay left cancels; before the delay has passed nothing happens; without a
   price the row is active; a paid retry makes it active for a month from the end of its period; an
   unpaid one leaves it.
   */
  lemma DunningOutcome(a: Account, delays: seq<nat>, plans: Plans, cal: Calendar, now: int, g: Gateway)
    requires a.sub.status.PastDue?
    ensures var b, s := Dun(a, delays, plans, cal, now, g), a.sub;
      var next := if s.periodEnd.Some? then Some(cal.nextMonth(s.periodEnd.value)) else Some(cal.nextMonth(now));
      if Failed(a.attempts) >= |delays| then Became(a, b, Cancelled, s.periodStart, s.periodEnd)
      else if !RetryOpen(a, delays, now) then b == a
      else if !Priced(s, plans) then Became(a, b, Active, s.periodStart, s.periodEnd)
      else if !CardStored(s) || (g.Answered? && g.ok) then Became(a, b, Active, Some(now), next)
      else b.sub == s
  {
    CodeConditions(a.sub, a, plans, delays, now);
    ChargeKeepsRow(a, plans, cal, now, g);
    hide Charge, HasCard, Free, Failed;
  }

  /** A plan change, a cancellation and a new card change exactly their columns, and nothing when refused. */
  lemma OtherOutcome(a: Account, e: Event, delays: seq<nat>, cal: Calendar)
    requires !e.Renewal? && !e.Dunning?
    ensures var b, s := Step(a, e, delays, cal), a.sub;
      && b.attempts == a.attempts && b.invoices == a.invoices
      && match e
         case PlanChange(_, plans, planId) =>
           b.sub == if planId in plans && plans[planId].isActive
             then s.(planId := planId, updatedAt := b.sub.updatedAt) else s
         case Cancellation(_, immediate, gatewayCancels) =>
           b.sub ==
             if !immediate then s.(cancelAtPeriodEnd := true, updatedAt := b.sub.updatedAt)
             else if s.gatewayRef != None && s.gatewayRef != Some("") && !gatewayCancels then s
             else s.(status := Cancelled, updatedAt := b.sub.updatedAt)
         case NewCard(_, plans, card) =>
           b.sub ==
             if s.planId in plans && plans[s.planId].isActive && card.Some?
               && plans[s.planId].gatewayRef != None && plans[s.planId].gatewayRef != Some("")
             then s.(gatewayRef := card.value.gatewayRef, customerRef := card.value.customerRef,
                     cardToken := card.value.cardToken, updatedAt := b.sub.updatedAt)
             else s
         case _ => true
  {
    CodeConditions(a.sub, a, map[], [], 0);
    hide Renew, Dun;
    assert e.PlanChange? || e.Cancellation? || e.NewCard?;
  }

  /** The time of the last change moves exactly when a column changes. */
  lemma SaveMovesTime(a: Account, s: Subscription, now: int)
    ensures var b := Save(a, s, now);
      && (s == a.sub ==> b == a)
      && (s != a.sub ==> b.sub == s.(updatedAt := now) && b.attempts == a.attempts && b.invoices == a.invoices)
  {
  }

  /**
   With the flag to end set, a subscription is charged all the same exactly at the end of a trial, and
   by the retries of the dunning while it is past due.
   */
  lemma FlaggedIsCharged(a: Account, e: Event, delays: seq<nat>, cal: Calendar)
    requires Forward(cal) && a.sub.cancelAtPeriodEnd
    ensures Step(a, e, delays, cal).attempts != a.attempts <==>
      && CardStored(a.sub)
      && ((e.Renewal? && a.sub.status.Trialing? && RenewalDue(a.sub, e.now) && Priced(a.sub, e.plans))
          || (e.Dunning? && RetryOpen(a, delays, e.now) && Priced(a.sub, e.plans)))
  {
    hide Step, Failed, CardStored, Priced, Forward;
    StepCharges(a, e, delays, cal);
  }

  /** A trial or a period with an end that is to be renewed, or a past-due state with a retry left. */
  predicate Chargeable(a: Account, delays: seq<nat>) {
    match a.sub.status
    case Trialing => a.sub.trialEndsAt.Some?
    case Active => a.sub.periodEnd.Some? && !a.sub.cancelAtPeriodEnd
    case PastDue => !Exhausted(a, delays)
    case Cancelled => false
  }

  lemma StepStaysUnchargeable(a: Account, e: Event, delays: seq<nat>, cal: Calendar)
    requires !Chargeable(a, delays)
    ensures !Chargeable(Step(a, e, delays, cal), delays) && !Charges(a, e, delays)
  {
  }

  lemma {:induction false} UnchargeableForever(a: Account, es: seq<Event>, delays: seq<nat>, cal: Calendar)
    requires Forward(cal) && !Chargeable(a, delays)
    ensures Life(a, es, delays, cal).attempts == a.attempts
    decreases |es|
  {
    hide Step, Chargeable, Charges, Forward;
    if es != [] {
      StepStaysUnchargeable(a, es[0], delays, cal);
      StepCharges(a, es[0], delays, cal);
      UnchargeableForever(Step(a, es[0], delays, cal), es[1..], delays, cal);
    }
  }

  /** The operations that get a chargeable subscription charged: a card is stored, and then the due run comes. */
  function ChargingLife(a: Account, delays: seq<nat>): seq<Event>
    requires Chargeable(a, delays)
  {
    var plans := map[a.sub.planId := Plan(1, true, Some("plan"))];
    var now := match a.sub.status
      case Trialing => a.sub.trialEndsAt.value
      case Active => a.sub.periodEnd.value
      case PastDue => a.sub.updatedAt + delays[Failed(a.attempts)] * DAY;
    [NewCard(a.sub.updatedAt, plans, Some(Card(Some("plan"), Some("customer"), Some("card")))),
     if a.sub.status.PastDue? then Dunning(now, plans, Threw) else Renewal(now, plans, Threw, Threw)]
  }

  lemma ChargingLifeCharges(a: Account, delays: seq<nat>, cal: Calendar)
    requires Forward(cal) && Chargeable(a, delays)
    ensures Life(a, ChargingLife(a, delays), delays, cal).attempts != a.attempts
  {
    var es := ChargingLife(a, delays);
    var b := Step(a, es[0], delays, cal);
    assert Charges(b, es[1], delays) && b.attempts == a.attempts by { hide Failed, Forward; }
    StepCharges(b, es[1], delays, cal);
    hide Step, Charges, Chargeable, Forward;
    assert es[1..] == [es[1]] && [es[1]][1..] == [];
    assert Life(b, [es[1]], delays, cal) == Step(b, es[1], delays, cal);
  }

  /** Some life charges a subscription, at the right prices, card and times, exactly when it is chargeable. */
  lemma ChargedInSomeLife(a: Account, delays: seq<nat>, cal: Calendar)
    requires Forward(cal)
    ensures (exists es :: Life(a, es, delays, cal).attempts != a.attempts) <==> Chargeable(a, delays)
  {
    hide Life, Forward;
    if Chargeable(a, delays) {
      ChargingLifeCharges(a, delays, cal);
    } else {
      hide Chargeable;
      forall es ensures Life(a, es, delays, cal).attempts == a.attempts { UnchargeableForever(a, es, delays, cal); }
    }
  }

  // ------------------------------------------------------------------ invoices

  /** What the successful attempts with a payment id come to. */
  function Collected(ts: seq<Attempt>): int {
    if ts == [] then 0 else Collected(ts[..|ts| - 1]) + if Invoiced(ts[|ts| - 1]) then ts[|ts| - 1].amount else 0
  }

  function Totals(vs: seq<Invoice>): int {
    if vs == [] then 0 else Totals(vs[..|vs| - 1]) + vs[|vs| - 1].total
  }

  predicate RightVat(v: Invoice) { v.net + v.vat == v.total && Abs(6 * v.vat - v.total) <= 3 }

  /** The invoice of one attempt: its amount, its number, and the VAT inside. */
  ghost predicate InvoiceFor(v: Invoice, t: Attempt, tenantId: string) {
    && v.attempt == t.number && v.total == t.amount && RightVat(v)
    && exists tag :: v.number == InvoiceNumber(tenantId, tag, t.number)
  }

  /** The attempts are numbered from one, and the invoices are those of the paid attempts, in order. */
  ghost predicate Booked(ts: seq<Attempt>, vs: seq<Invoice>, tenantId: string) {
    if ts == [] then vs == []
    else
      var t := ts[|ts| - 1];
      && t.number == |ts|
      && if Invoiced(t) then
           && vs != [] && InvoiceFor(vs[|vs| - 1], t, tenantId)
           && Booked(ts[..|ts| - 1], vs[..|vs| - 1], tenantId)
         else Booked(ts[..|ts| - 1], vs, tenantId)
  }

  lemma VatIsRight(number: string, attempt: nat, total: int)
    ensures RightVat(MakeInvoice(number, attempt, total))
  {
    var vat := RoundHalfUp(total * 20, 120);
    assert 240 * vat - 120 <= 40 * total < 240 * vat + 120;
  }

  lemma ChargeKeepsBooked(a: Account, amount: int, cal: Calendar, now: int, g: Gateway)
    requires Booked(a.attempts, a.invoices, a.sub.tenantId)
    ensures var b := Charge(a, amount, cal, now, g);
      Booked(b.attempts, b.invoices, b.sub.tenantId) && b.sub == a.sub
  {
    hide MakeInvoice, InvoiceNumber, PeriodTag;
    var b := Charge(a, amount, cal, now, g);
    if HasCard(a.sub) {
      var t := MakeAttempt(a, amount, g);
      var tag := PeriodTag(cal, OrElse(a.sub.periodEnd, now));
      assert b.attempts == a.attempts + [t] && b.attempts[..|a.attempts|] == a.attempts;
      if Invoiced(t) {
        var v := MakeInvoice(InvoiceNumber(a.sub.tenantId, tag, t.number), t.number, amount);
        VatIsRight(InvoiceNumber(a.sub.tenantId, tag, t.number), t.number, amount);
        assert v.number == InvoiceNumber(a.sub.tenantId, tag, t.number) && v.total == amount && v.attempt == t.number
          by { MadeOf(InvoiceNumber(a.sub.tenantId, tag, t.number), t.number, amount); }
        assert InvoiceFor(v, t, a.sub.tenantId);
        assert b.invoices == a.invoices + [v] && b.invoices[..|a.invoices|] == a.invoices;
      } else {
        assert b.invoices == a.invoices;
      }
    }
  }

  lemma MadeOf(number: string, attempt: nat, total: int)
    ensures var v := MakeInvoice(number, attempt, total); v.number == number && v.attempt == attempt && v.total == total
  {
  }

  lemma StepKeepsBooked(a: Account, e: Event, delays: seq<nat>, cal: Calendar)
    requires Booked(a.attempts, a.invoices, a.sub.tenantId)
    ensures var b := Step(a, e, delays, cal);
      Booked(b.attempts, b.invoices, b.sub.tenantId) && b.sub.tenantId == a.sub.tenantId
  {
    hide Booked, Charge, Paid, Failed;
    match e
    case Renewal(now, plans, t, p) =>
      if !Free(a.sub, plans) { ChargeKeepsBooked(a, plans[a.sub.planId].price, cal, now, t); }
      var b := RenewTrial(a, plans, cal, now, t);
      if !Free(b.sub, plans) { ChargeKeepsBooked(b, plans[b.sub.planId].price, cal, now, p); }
    case Dunning(now, plans, g) =>
      if !Free(a.sub, plans) { ChargeKeepsBooked(a, plans[a.sub.planId].price, cal, now, g); }
    case _ =>
  }

  lemma {:induction false} LifeKeepsBooked(a: Account, es: seq<Event>, delays: seq<nat>, cal: Calendar)
    requires Booked(a.attempts, a.invoices, a.sub.tenantId)
    ensures var b := Life(a, es, delays, cal);
      Booked(b.attempts, b.invoices, b.sub.tenantId) && b.sub.tenantId == a.sub.tenantId
    decreases |es|
  {
    hide Booked, Step;
    if es != [] {
      StepKeepsBooked(a, es[0], delays, cal);
      LifeKeepsBooked(Step(a, es[0], delays, cal), es[1..], delays, cal);
    }
  }

  lemma {:induction false} BookedTotals(ts: seq<Attempt>, vs: seq<Invoice>, tenantId: string)
    requires Booked(ts, vs, tenantId)
    ensures Totals(vs) == Collected(ts)
  {
    if ts != [] {
      var rest := ts[..|ts| - 1];
      BookedTotals(rest, if Invoiced(ts[|ts| - 1]) then vs[..|vs| - 1] else vs, tenantId);
    }
  }

  /** Invoice k is that of a paid attempt, and a later invoice is that of a later attempt. */
  lemma {:induction false} BookedInOrder(ts: seq<Attempt>, vs: seq<Invoice>, tenantId: string)
    requires Booked(ts, vs, tenantId)
    ensures forall k | 0 <= k < |vs| ::
      1 <= vs[k].attempt <= |ts| && Invoiced(ts[vs[k].attempt - 1]) &&
        InvoiceFor(vs[k], ts[vs[k].attempt - 1], tenantId)
    ensures forall j, k | 0 <= j < k < |vs| :: vs[j].attempt < vs[k].attempt
  {
    if ts != [] {
      BookedInOrder(ts[..|ts| - 1], if Invoiced(ts[|ts| - 1]) then vs[..|vs| - 1] else vs, tenantId);
    }
  }

  lemma DecimalHasNoDash(n: nat)
    ensures '-' !in Decimal(n)
  {
    assert forall k | 0 <= k < |Decimal(n)| :: IsDigit(Decimal(n)[k]);
  }

  /** Different attempts never share an invoice number, whatever their periods. */
  lemma NumberNamesAttempt(tenantId: string, tag: string, other: string, m: nat, n: nat)
    requires InvoiceNumber(tenantId, tag, m) == InvoiceNumber(tenantId, other, n)
    ensures m == n
  {
    DecimalHasNoDash(m);
    DecimalHasNoDash(n);
    SplitAtLast('-', "INV-" + Prefix(tenantId) + "-" + tag, Decimal(m), "INV-" + Prefix(tenantId) + "-" + other,
      Decimal(n));
    DecimalInjective(m, n);
  }

  lemma DifferentNumbers(v: Invoice, w: Invoice, s: Attempt, t: Attempt, tenantId: string)
    requires InvoiceFor(v, s, tenantId) && InvoiceFor(w, t, tenantId) && v.attempt != w.attempt
    ensures v.number != w.number
  {
    hide InvoiceNumber, RightVat;
    var one :| v.number == InvoiceNumber(tenantId, one, s.number);
    var two :| w.number == InvoiceNumber(tenantId, two, t.number);
    if v.number == w.number { NumberNamesAttempt(tenantId, one, two, s.number, t.number); }
  }

  lemma BookedNumbersDiffer(ts: seq<Attempt>, vs: seq<Invoice>, tenantId: string)
    requires Booked(ts, vs, tenantId)
    ensures forall j, k | 0 <= j < k < |vs| :: vs[j].number != vs[k].number
  {
    BookedInOrder(ts, vs, tenantId);
    hide Booked, InvoiceFor;
    forall j, k | 0 <= j < k < |vs| ensures vs[j].number != vs[k].number {
      DifferentNumbers(vs[j], vs[k], ts[vs[j].attempt - 1], ts[vs[k].attempt - 1], tenantId);
    }
  }

  /**
   Over a whole life: invoices carry pairwise different numbers, each is that of one paid attempt
   with net and VAT adding up and the VAT the nearest kurus to a sixth, and together they come to
   what the paid attempts came to.
   */
  lemma InvoicesOfALife(tenantId: string, planId: string, trial: nat, card: Card, start: int, es: seq<Event>,
      delays: seq<nat>, cal: Calendar)
    ensures var a := Life(Started(tenantId, planId, trial, card, start), es, delays, cal);
      && (forall j, k | 0 <= j < k < |a.invoices| :: a.invoices[j].number != a.invoices[k].number)
      && (forall k | 0 <= k < |a.invoices| :: RightVat(a.invoices[k]))
      && (forall k | 0 <= k < |a.invoices| ::
        1 <= a.invoices[k].attempt <= |a.attempts| && Invoiced(a.attempts[a.invoices[k].attempt - 1]))
      && Totals(a.invoices) == Collected(a.attempts)
  {
    var a := Life(Started(tenantId, planId, trial, card, start), es, delays, cal);
    LifeKeepsBooked(Started(tenantId, planId, trial, card, start), es, delays, cal);
    BookedTotals(a.attempts, a.invoices, tenantId);
    BookedInOrder(a.attempts, a.invoices, tenantId);
    BookedNumbersDiffer(a.attempts, a.invoices, tenantId);
    hide Life, Booked, RightVat, InvoiceNumber;
  }

  /** Two invoice numbers are the same exactly when the tenant prefixes, the periods and the attempts are. */
  lemma SameInvoiceNumber(t: string, u: string, tag: string, other: string, m: nat, n: nat)
    requires |t| >= 8 && |u| >= 8
    ensures InvoiceNumber(t, tag, m) == InvoiceNumber(u, other, n) <==> t[..8] == u[..8] && tag == other && m == n
  {
    if InvoiceNumber(t, tag, m) == InvoiceNumber(u, other, n) {
      DecimalHasNoDash(m);
      DecimalHasNoDash(n);
      var a, b := "INV-" + Prefix(t) + "-" + tag, "INV-" + Prefix(u) + "-" + other;
      SplitAtLast('-', a, Decimal(m), b, Decimal(n));
      DecimalInjective(m, n);
      assert a[4..12] == Prefix(t) && b[4..12] == Prefix(u);
      assert a[13..] == tag && b[13..] == other;
    }
  }
}
