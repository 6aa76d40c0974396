# Verification of the Enkap services

This project models the parts of the Enkap back end that hold state over whole runs, rewrite text, or
do arithmetic with real bounds, and proves what they keep. Run `dafny verify dfyconfig.toml`
(Dafny 4.11).

| files | what they model |
|---|---|
| `RefreshTokens`, `RotationProtocol`, `SessionIndex`, `SessionLogout` | refresh tokens over Redis (refresh token rotation, section 10.4 of RFC 6749): the store and service methods, then login, refresh and logout as interleaved Redis commands with a clock and failing requests |
| `ReportQueries`, `TemplateCorners`, `LimitClause`, `ReportExecution` | report templates: named parameters to numbered ones, the row limit, and the chain of both |
| `Billing`, `BillingLaws`, `BillingService`, `TierCache` | subscriptions, charges, invoices, renewals and dunning as steps of one account; the loops over the table; the rate-limit tier cache with its refresh |
| `FixedAssets`, `DepreciationBounds` | fixed assets under articles 313 to 321 of the tax procedure law (VUK): the yearly run, the preview, and how both methods behave over any number of years |
| `Journal`, `ExchangeDifferences`, `Ledger`, `TrialBalance` | revaluation at exchange rates, payroll and payment postings with redeliveries, and the trial balance |
| `Installments`, `Reminders`, `ArchiveReports` | once-only protocols: closing installments under `FOR UPDATE SKIP LOCKED`, reminder logs, daily e-archive batches |
| `BaForm` | the Ba form as XML (predefined entities, section 4.6 of XML 1.0), with an independent reader |
| `Numbers`, `Counting`, `Wrappers` | rounding, truncating division, numerals as text; optional values and results |

Money is in whole kurus and rates are exact fractions. `Math.round` is the nearest integer with halves
going up; BigInt division is cut off toward zero. Operations that change state are methods proved
against functions on values; the lemmas about whole runs are about those functions. The network, the
gateway, the signer, the clock and the database's other writers are inputs.

## Where the code and its documentation part

The model follows the code. These are proved, with the exact condition where there is one:

- Logging out is documented as deleting all tokens of a session atomically
  (`refresh-token.store.ts:28`), but the read and the delete are two commands; a refresh between them
  leaves a token that no logout finds (`SessionLogout.RacingLogoutLeavesAToken`); no other token whose
  save went through is left out (`SessionLogout.IndexCoversTokens`). A logout without a refresh inside it does what it says
  (`SessionLogout.QuietLogoutEndsSession`).
- A name that is not a parameter is meant to be refused (`bi.service.ts:278-283`), but `in` also finds
  the names every plain object has, such as `:toString` (`TemplateCorners.InheritedNameIsBound`); and a
  template's own `$1` is read as a parameter (`TemplateCorners.OwnNumberIsRead`, `ReportQueries.ReadRendered`).
- The tenant parameter is injected so that callers need not send it (`bi.service.ts:182`); a caller's own
  `tenantId` replaces it (`ReportExecution.TenantValueOfQuery`).
- Dunning is documented as retrying after 3, 7 and 14 days (`dunning.service.ts:14`); the first retry
  waits for the second delay (`BillingLaws.FirstRetryWaitsForSecondDelay`).
- A subscription recovered by dunning can be charged again by the renewals of the same day
  (`BillingLaws.RecoveryMayBeRenewedAtOnce`).
- A subscription with the flag to end is charged all the same at the end of a trial and by the dunning
  (`BillingLaws.FlaggedIsCharged`, `BillingLaws.CancelledTrialIsCharged`).
- A plan change inside the refresh of the tier cache leaves the old tier
  (`TierCache.PlanChangeInsideRefresh`), and nothing else makes a key wrong
  (`TierCache.KeyIsWrongIffRaced`). An immediate cancellation inside one brings the key back
  (`TierCache.CancellationInsideRefresh`).
- Invoice numbers are unique for one subscription but can collide between tenants
  (`BillingLaws.SameInvoiceNumber`), and their column is unique.
- The depreciation rate is documented as one over the useful life (`fixed-asset.entity.ts:72`), but a
  stated useful life does not change it (`FixedAssets.RateIsOfStatedLife`); a declining asset other than
  a computer never reaches a salvage value of 0 (`DepreciationBounds.DecliningEndsAtFloor`), and a small
  cost on the straight line can take longer than its life (`DepreciationBounds.StraightLineWithinLife`,
  `DepreciationBounds.SmallCostTakesLonger`).
- A payable's revaluation moves account 320 the wrong way (`ExchangeDifferences.PayableMovesAway`).
- Payroll postings are meant to be balanced and repeatable (`hr-events.consumer.ts:115-138`), but a line
  without an amount breaks the posting off half-way, and no redelivery completes it
  (`Ledger.HandleAllKeepsOk`, `Ledger.UntaxedPayrollExample`, `Ledger.BrokenPayrollStays`).
- A payment event that is delivered again is posted again (`Ledger.PaymentPostedAgain`).
- The trial balance is documented as one of a period; it is, exactly when nothing on the tenant's chart
  was posted outside it (`TrialBalance.LedgerReportIsOfPeriod`).
- Installments stay a prefix only when the aborted payment held the highest one
  (`Installments.AbortKeepsPrefix`).
- All reminders before the due date share one level, so of these only the first is sent
  (`Reminders.OffsetIsMailed`, `Reminders.SecondUpcomingIsNotSent`); a mail that fails is never sent again
  (`Reminders.LostMailIsNeverSent`).
- An invoice without a GIB identifier is sent with every batch of its date and never noted
  (`ArchiveReports.SuccessfulRunLeaves`); a daily run takes a rejected status code for success
  (`ArchiveReports.DailyAndRetryDiffer`); a retry, and only a retry, reports cancelled invoices
  (`ArchiveReports.CancelledIsReportedByRetry`).

## Model

| member | source | states |
|---|---|---|
| RefreshTokens.KeyNamesDistinct | apps/auth-service/src/auth/refresh-token.store.ts:170-176 | Two different token keys, or two different session keys, never share a Redis key name, and a token key is never a session key, whatever the tenant id holds (digests and session ids hold no colon). |
| RefreshTokens.KeyNamesText | apps/auth-service/src/auth/refresh-token.store.ts:170-176 | The names of the two kinds of keys, on an example. |
| RefreshTokens.SevenDays | apps/auth-service/src/auth/refresh-token.store.ts:5-6 | A refresh token lives for seven days. |
| RefreshTokens.RefreshTokenStore.Save | apps/auth-service/src/auth/refresh-token.store.ts:49-69 | Saving stores the token for exactly seven days, lists it in the session index next to what was there, makes the index last at least as long, and touches no other key. |
| RefreshTokens.RefreshTokenStore.ConsumeAndValidate | apps/auth-service/src/auth/refresh-token.store.ts:77-122 | A token is accepted if and only if it is stored for the tenant that presents it; it is gone afterwards in every case; on acceptance it also leaves the index, and an emptied index disappears. |
| RefreshTokens.RefreshTokenStore.RevokeAllForSession | apps/auth-service/src/auth/refresh-token.store.ts:149-162 | Exactly the tokens of the tenant that the index lists are deleted, with the index; every other entry stays as it was. |
| RefreshTokens.AuthService.Login | apps/auth-service/src/auth/auth.service.ts:48-80 | A login adds one token of the user, the tenant and the new session, listed by its index; for a session id nothing was stored under it is the session's only token and the only one listed; other sessions keep their indexes. |
| RefreshTokens.AuthService.Refresh | apps/auth-service/src/auth/auth.service.ts:90-140 | Rotation, undisturbed: refused exactly when the token is not stored for the tenant, or when it was and the user is not active; otherwise a token of the same user, tenant and session takes its place and is covered by the index for seven days; the presented token is spent in all accepted cases, and the indexes of all other sessions stay. |
| RefreshTokens.AuthService.Logout | apps/auth-service/src/auth/auth.service.ts:147-160 | Exactly the tokens the session's index lists are deleted, with the index; every other token and index stays. If the index covers all tokens of the session none is left, and if it lists only its own, no other session loses one. |
| RotationProtocol.UndisturbedSave | apps/auth-service/src/auth/refresh-token.store.ts:49-69 | The three commands of a save, run in a row by the interleaved model, are the method `Save`, and only after the third is the token handed out. |
| RotationProtocol.UndisturbedRefresh | apps/auth-service/src/auth/auth.service.ts:90-140 | A refresh alone in the interleaved model deletes the token, takes it out of the index, and goes on to a save for an active user and to nothing for another. |
| RotationProtocol.UndisturbedLogout | apps/auth-service/src/auth/refresh-token.store.ts:149-162 | A logout alone in the interleaved model does nothing for an empty index, and otherwise deletes what it lists in one DEL. |
| RotationProtocol.NextKeepsRotating | apps/auth-service/src/auth/refresh-token.store.ts:49-122 | Every single command of login, refresh and logout, every expiry and every failed request keeps the rotation invariant: a stored token or a request carrying the session is the one holder of the session, and no accepted token is stored or about to be. |
| RotationProtocol.RotatingHasOneHolder | apps/auth-service/src/auth/refresh-token.store.ts:85-96 | In a state with the invariant, stored tokens plus refreshes in flight of one session number at most one. |
| RotationProtocol.OneUsePerToken | apps/auth-service/src/auth/refresh-token.store.ts:77-122 | For every interleaving, with failures, arbitrary clients and the clock: at most one right per session, no token accepted twice, and only issued tokens accepted. |
| RotationProtocol.NoCrossTenantBranch | apps/auth-service/src/auth/refresh-token.store.ts:103-110 | In every reachable state a stored token names the tenant of its key, so the branch that refuses another tenant after deleting the token is never taken. |
| RotationProtocol.AcceptedOfNext | apps/auth-service/src/auth/auth.service.ts:90-98 | The only step that accepts a token of a session is a refresh that finds one stored for it. |
| RotationProtocol.NoCarrierAfter | apps/auth-service/src/auth/auth.service.ts:90-140 | As long as no refresh of a session is accepted, a session that nobody carries gets no carrier and no new token, whatever else runs. |
| RotationProtocol.DeadForever | apps/auth-service/src/auth/auth.service.ts:147-160 | From a state in which a session has neither a stored token nor a request carrying it, no later run accepts a token of it. |
| SessionIndex.NextKeepsIndexing | apps/auth-service/src/auth/refresh-token.store.ts:53-68 | Every command of every request of honest clients keeps the index invariant. |
| SessionLogout.IndexCoversTokens | apps/auth-service/src/auth/refresh-token.store.ts:53-68 | In every run of honest clients a stored token whose save is past SADD is listed by an index that lasts at least as long, if and only if no logout of its session read the index before the token's SADD and deleted it after. |
| SessionLogout.OrphanedNext | apps/auth-service/src/auth/refresh-token.store.ts:149-156 | A token loses its index only by the DEL of a logout of its own session that had not read it. |
| SessionLogout.CoveredUnlessLoggedOut | apps/auth-service/src/auth/refresh-token.store.ts:53-68 | A token of a session that was never logged out is always covered once its save is past SADD. |
| SessionLogout.DeleteEndsSession | apps/auth-service/src/auth/refresh-token.store.ts:153-156 | The DEL of a logout ends the session if and only if no request carries it and the logout read every stored token. |
| SessionLogout.DeleteSparesOthers | apps/auth-service/src/auth/refresh-token.store.ts:149-156 | In a run of honest clients the DEL of a logout takes no token and no index of another session with it. |
| SessionLogout.StepSparesOthers | apps/auth-service/src/auth/refresh-token.store.ts:49-162 | No step but the clock adds, changes or deletes a token or an index of a session it does not work on. |
| SessionLogout.TickExpires | apps/auth-service/src/auth/refresh-token.store.ts:49-69 | Tokens and indexes live exactly until their expiry. |
| SessionLogout.QuietLogoutEndsSession | apps/auth-service/src/auth/auth.service.ts:147-160 | A logout that starts with no save or refresh of the session in flight, and during which none is accepted, leaves no token, and no later run accepts one, whatever runs between its two commands. |
| SessionLogout.RacingLogoutLeavesAToken | apps/auth-service/src/auth/refresh-token.store.ts:149-156 | A concrete honest run: a whole refresh between a logout's SMEMBERS and DEL leaves a stored token that no index lists, that a second logout cannot find, and that is accepted. |
| ReportQueries.ReadRendered | apps/analytics-service/src/bi/bi.service.ts:262-292 | For every template and every binding: reading the numbered query with its values array gives what expanding the named template gives, if and only if the template has no dollar sign of its own before a digit. |
| TemplateCorners.OwnNumberIsRead | apps/analytics-service/src/bi/bi.service.ts:270-289 | A template's own `$1` before a parameter: the numbered query reads it as the parameter's value, where the template means two characters. |
| TemplateCorners.InheritedNameIsBound | apps/analytics-service/src/bi/bi.service.ts:278-283 | A name of every plain object, such as `toString`, counts as bound though nobody gave it, and stands for the object's own member. |
| TemplateCorners.ToStringIsInherited | apps/analytics-service/src/bi/bi.service.ts:278-283 | `toString` is such a name, written as a parameter may be. |
| TemplateCorners.NameCharacters | apps/analytics-service/src/bi/bi.service.ts:270 | A parameter name begins with a letter without accent or an underscore and goes on with these and digits. |
| TemplateCorners.PlainObjectNames | apps/analytics-service/src/bi/bi.service.ts:278 | The twelve names that the `in` operator finds on every plain object. |
| ReportQueries.NumberingInOrder | apps/analytics-service/src/bi/bi.service.ts:272-289 | Numbers follow the first occurrences of the names, run from one without gaps, and are shared by equal names only. |
| ReportQueries.BuildParameterizedQuery | apps/analytics-service/src/bi/bi.service.ts:262-292 | The scanning loop with its values array and index map succeeds exactly when every name is bound (own parameter, or a name every plain object answers to, as the `in` operator does), otherwise reports the first unbound name, and its query has the numbering, the values and the meaning stated above. |
| LimitClause.FindLimitIsMatch | apps/analytics-service/src/bi/bi.service.ts:302 | The trailing LIMIT pattern matches a text in one way at most, and the search finds exactly that match. |
| LimitClause.LimitIsMinimum | apps/analytics-service/src/bi/bi.service.ts:298-311 | After limiting, the query is capped at the smaller of the limit and its own trailing LIMIT, and everything before that clause is unchanged. |
| LimitClause.AppendLimitText | apps/analytics-service/src/bi/bi.service.ts:298-311 | The text that is sent, for every query: white space around it and one semicolon after it are gone; a trailing LIMIT that is low enough stays, a larger one is replaced, and without one a clause is added. |
| LimitClause.EveryTextIsSurrounded | apps/analytics-service/src/bi/bi.service.ts:300 | Every text has that form: a text, perhaps a semicolon, and white space around. |
| LimitClause.SemicolonAfterLimit | apps/analytics-service/src/bi/bi.service.ts:300-310 | A query ending in a LIMIT clause and a semicolon gets the lower of the two limits and loses the semicolon. |
| LimitClause.LimitWordInAnyCase | apps/analytics-service/src/bi/bi.service.ts:302 | The clause is found in any mixture of upper and lower case. |
| LimitClause.SpaceCodes | apps/analytics-service/src/bi/bi.service.ts:300-302 | White space by its code points. |
| LimitClause.LimitsCompose | apps/analytics-service/src/bi/bi.service.ts:298-311 | Limiting with a and then b caps at the least of a, b and the trailing LIMIT. |
| LimitClause.LimitKeepsValues | apps/analytics-service/src/bi/bi.service.ts:298-311 | Limiting never drops, adds or reorders a numbered parameter. |
| ReportExecution.EffectiveLookup | apps/analytics-service/src/bi/bi.service.ts:174-181 | After the defaults a name has its given value, or else the first required default declared for it; and a name is there exactly when it was given or has such a default. |
| ReportExecution.EffectiveParams | apps/analytics-service/src/bi/bi.service.ts:174-181 | Refused exactly when some required declaration has neither value nor default, and naming such a one; otherwise given values stay, every required name has a value, and nothing else is added. |
| ReportExecution.TenantValueOfQuery | apps/analytics-service/src/bi/bi.service.ts:182-186 | The caller's own `tenantId`, or a declared default of that name, hides the tenant's: the query has the tenant of the request if and only if neither is another value. |
| ReportExecution.PrepareQuery | apps/analytics-service/src/bi/bi.service.ts:164-203 | The whole chain: it succeeds if and only if no required parameter stops it and every placeholder is the tenant's, the caller's or a required one; a refusal names the first that fails. The values are those of tenant, caller and defaults in order of first occurrence, the text is the numbered query limited as above (1000 rows when no limit is asked), and for templates without a dollar sign before a digit it reads as the template with these values. |
| BillingLaws.ChargeFails | apps/billing-service/src/payment/payment.service.ts:63-158 | A charge adds a failed attempt exactly when there is a card and the gateway did not answer with success; it never touches the subscription row. |
| BillingLaws.FailuresStayBounded | apps/billing-service/src/payment/dunning.service.ts:66-150 | Over any sequence of renewals, dunning runs, plan changes, cancellations and card changes, at every price: at most as many charges fail as there are delays (one, with no delays), strictly fewer while the subscription is active or trialing, and at least one while past due. |
| BillingLaws.FailuresOfALife | apps/billing-service/src/payment/dunning.service.ts:66-81 | The same from the start of a subscription, with a non-empty delay list. |
| BillingLaws.DunNearsDeadline | apps/billing-service/src/payment/dunning.service.ts:87-130 | A dunning run either ends the past-due state or keeps the update time and brings the deadline no later: it waits, or uses up one of the failures left. |
| BillingLaws.PastDueIsResolved | apps/billing-service/src/payment/dunning.service.ts:66-150 | With runs at most a day apart and no other save, a past-due subscription is active or cancelled by its last save plus the longest delay plus as many days as there are delays. |
| BillingLaws.PastDueIsResolvedAmongRenewals | apps/billing-service/src/payment/dunning.service.ts:66-150 | The same with any renewal runs among the dunning runs: at some point by that deadline the subscription is active or cancelled. |
| BillingLaws.FirstRetryWaitsForSecondDelay | apps/billing-service/src/payment/dunning.service.ts:144-150 | The first retry comes after the second delay of the list, because the failed renewal already counts. |
| Billing.OneDay | apps/billing-service/src/payment/dunning.service.ts:144-150 | A delay of one is a day. |
| BillingLaws.RecoveryMayBeRenewedAtOnce | apps/billing-service/src/payment/dunning.service.ts:109-117 | A recovery counts the new period from the end of the old one, so a renewal run of the same moment charges again if and only if a month from that end has passed. |
| BillingLaws.EndingIsNeverCharged | apps/billing-service/src/subscription/subscription.service.ts:193-305 | Once a subscription is active with the flag to end, or cancelled, no sequence of operations ever records another attempt or invoice, and cancelled stays cancelled. |
| BillingLaws.RenewalChargesOnce | apps/billing-service/src/subscription/subscription.service.ts:266-329 | A renewal run attempts a charge exactly when a trial is over, or a period that is to be renewed, with a price and a card; and once at most. |
| BillingLaws.StepCharges | apps/billing-service/src/subscription/subscription.service.ts:266-329 | Over all operations a charge is attempted exactly by a renewal that is due, or a dunning run whose retry is due, with a price and a card; and the attempt has the next number, the price of the plan of that moment, and the gateway's answer. |
| BillingLaws.AttemptsOfALife | apps/billing-service/src/payment/payment.service.ts:63-158 | Over any life every attempt is that of one of its events, charged at the price this event's plans had for the plan of that moment. |
| BillingLaws.RenewalOutcome | apps/billing-service/src/subscription/subscription.service.ts:266-337 | The three queries of a renewal run come to this: a due trial or period goes on for a month from now when it is paid, free or without a card, else it is past due; a flagged period ends; every other row is as it was. |
| BillingLaws.DunningOutcome | apps/billing-service/src/payment/dunning.service.ts:66-130 | A dunning run cancels when no delay is left, waits until the delay has passed, and then makes the row active: at once without a price, with a month from the end of its period when paid; an unpaid retry leaves it. |
| BillingLaws.OtherOutcome | apps/billing-service/src/subscription/subscription.service.ts:149-260 | A plan change, a cancellation and a new card change exactly their columns, under exactly the stated conditions, and record nothing. |
| BillingLaws.SaveMovesTime | apps/billing-service/src/payment/dunning.service.ts:76-81 | The time of the last change moves exactly when a column changes. |
| BillingLaws.CancelledTrialIsCharged | apps/billing-service/src/subscription/subscription.service.ts:269-278 | A subscription cancelled during its trial is charged at the end of the trial all the same. |
| BillingLaws.FlaggedIsCharged | apps/billing-service/src/subscription/subscription.service.ts:269-278 | With the flag to end set, a subscription is charged exactly at the end of a trial and by the retries of the dunning while past due. |
| BillingLaws.ChargedInSomeLife | apps/billing-service/src/subscription/subscription.service.ts:193-305 | Some sequence of operations charges a subscription if and only if it is in a trial with an end, active with a period to be renewed, or past due with a retry left. |
| BillingLaws.VatIsRight | apps/billing-service/src/payment/payment.service.ts:196-198 | Net and VAT add up to the total, and six times the VAT differs from the total by at most three. |
| BillingLaws.InvoicesOfALife | apps/billing-service/src/payment/payment.service.ts:75-149 | Over a whole life invoice numbers are pairwise different, each invoice is that of one successful attempt with a payment id and splits its VAT rightly, and the invoices come to exactly what those attempts came to. |
| BillingLaws.SameInvoiceNumber | apps/billing-service/src/payment/payment.service.ts:80-82 | Two invoice numbers, of any tenants, are equal exactly when the first eight characters of the tenant ids, the period tags and the attempt numbers are; so two tenants with a common prefix can collide in the unique column. |
| BillingService.SubscriptionTable.StartSubscription | apps/billing-service/src/subscription/subscription.service.ts:66-143 | Each refusal has its exact condition: a plan that is not offered, an existing subscription, or a card the gateway rejects for a plan that goes through it; otherwise one trialing row with its trial end and card is added and tenants stay unique. |
| BillingService.SubscriptionTable.AddTenantCard | apps/billing-service/src/subscription/subscription.service.ts:149-186 | Each refusal and the success have their exact condition: the tenant exists, its plan is offered through the gateway, the gateway takes the card. On success the card of that row is stored, nothing else. |
| BillingService.SubscriptionTable.ChargeCard | apps/billing-service/src/payment/payment.service.ts:63-158 | A charge with its local flags: free without a card; otherwise exactly one attempt, of the amount and as the gateway answered, and an invoice only for a success with a payment id, numbered by tenant, period and attempt. |
| BillingService.SubscriptionTable.RenewOne | apps/billing-service/src/subscription/subscription.service.ts:307-337 | A renewal charges the plan's price once, moves the period one month from now when it is free or paid, and sets active or past due by the outcome of a charge that was due. |
| BillingService.SubscriptionTable.ChangeTenantPlan | apps/billing-service/src/subscription/subscription.service.ts:193-221 | Changes the plan of the tenant's row and nothing else, exactly when the plan is offered and the row exists. |
| BillingService.SubscriptionTable.CancelTenant | apps/billing-service/src/subscription/subscription.service.ts:228-260 | Not found exactly without a row; a gateway error exactly for an immediate cancellation of a row with a gateway reference that the gateway refuses, which leaves the table as it was; otherwise the row is cancelled at once, or flagged for the period's end. |
| BillingService.SubscriptionTable.ProcessPeriodRenewals | apps/billing-service/src/subscription/subscription.service.ts:266-305 | The three queries with their loops leave every row as the one-row renewal says. |
| BillingService.SubscriptionTable.ProcessDunning | apps/billing-service/src/payment/dunning.service.ts:36-64 | The loop leaves every past-due row as the one-row dunning says, with the attempts of its price, every other row alone, and its counters are the sums over the rows. |
| BillingService.SubscriptionTable.ProcessSingle | apps/billing-service/src/payment/dunning.service.ts:66-130 | One subscription's dunning with early returns equals its specification; a due retry charges the plan's price once, nothing else charges, and each counter moves exactly in its case. |
| BillingService.CountersAre | apps/billing-service/src/payment/dunning.service.ts:36-64 | The counters of a run are the numbers of rows that were retried, recovered and cancelled. |
| TierCache.NextKeepsCached | apps/billing-service/src/subscription/rate-limit-sync.service.ts:57-104 | Every billing operation, refresh read, refresh write and wait keeps the cache invariant. |
| TierCache.KeyIsWrongIffRaced | apps/billing-service/src/subscription/rate-limit-sync.service.ts:57-95 | Over any run, a key that exists names the wrong tier if and only if the last write was that of a refresh, the plan was changed between its read and its write, and the plan read and the plan now have different tiers. |
| TierCache.KeyWhileLive | apps/billing-service/src/subscription/rate-limit-sync.service.ts:68-95 | With refreshes at most four hours apart, each shorter than two hours, a subscription that stays active or trialing always has its key, and the key is wrong exactly as above. |
| TierCache.KeyIsThereIffShort | apps/billing-service/src/subscription/rate-limit-sync.service.ts:16 | A running subscription has its key in every run if and only if a refresh may take less than the two hours between refresh interval and key life. |
| TierCache.KeyAfterRecovery | apps/billing-service/src/subscription/rate-limit-sync.service.ts:84-95 | However it became active again, a subscription has its key once it has been running for more than four hours and the longest duration of a refresh, if that is under two hours. |
| TierCache.KeyGoneAfterEnd | apps/billing-service/src/subscription/rate-limit-sync.service.ts:16 | However it ended, six hours and the longest duration of a refresh after leaving active or trialing and after the last plan change the key is gone. |
| TierCache.CancellationInsideRefresh | apps/billing-service/src/subscription/rate-limit-sync.service.ts:68-104 | An immediate cancellation between a refresh's read and its write: the key comes back and lasts until exactly six hours and the rest of the refresh after the cancellation. |
| TierCache.KeyIsRightUnraced | apps/billing-service/src/subscription/rate-limit-sync.service.ts:57-95 | If no plan change falls between a refresh's read and its write, a key that exists names the plan's tier. |
| TierCache.PlanChangeInsideRefresh | apps/billing-service/src/subscription/rate-limit-sync.service.ts:68-95 | A plan change between a refresh's read and its write leaves the old plan's tier for six more hours, outdated exactly when the two tiers differ. |
| TierCache.TierOfPlan | apps/billing-service/src/subscription/rate-limit-sync.service.ts:107-116 | The tier is enterprise exactly for plans whose name holds that word, business for those that hold that word only, starter for all others. |
| TierCache.SixAndFourHours | apps/billing-service/src/subscription/rate-limit-sync.service.ts:16-28 | A key lasts six hours, and a refresh comes every four. |
| TierCache.RateLimitSync.SyncTenant | apps/billing-service/src/subscription/rate-limit-sync.service.ts:57-62 | The tenant's key becomes what a plan change writes in the one-tenant state machine, the tier the plan's name says, for six hours; no other tenant's key changes. |
| TierCache.RateLimitSync.ReadRunning | apps/billing-service/src/subscription/rate-limit-sync.service.ts:71-74 | Reads exactly the active and trialing rows. |
| TierCache.RateLimitSync.WriteAll | apps/billing-service/src/subscription/rate-limit-sync.service.ts:81-90 | One pipeline: every tenant read has the tier its plan's name says for six hours, every other key stays. |
| TierCache.RateLimitSync.RemoveTenant | apps/billing-service/src/subscription/rate-limit-sync.service.ts:101-104 | The tenant has no key, as after an immediate cancellation in the one-tenant state machine; no other tenant's key changes. |
| TierCache.RateLimitSync.SyncAll | apps/billing-service/src/subscription/rate-limit-sync.service.ts:68-95 | An uninterrupted refresh of all tenants: the key of every row ends as that of its own one-tenant state machine after the read and the write, with the tier the plan's name says for running rows and unchanged for the others, and tenants without a row keep theirs. |
| TierCache.StepsOfOneTenant | apps/billing-service/src/subscription/subscription.service.ts:193-260 | In the one-tenant state machine an accepted plan change writes the new plan's tier, an accepted immediate cancellation deletes the key, every other billing operation leaves it, and an uninterrupted refresh writes what it read. |
| FixedAssets.AssetRegister.Create | apps/financial-service/src/asset/asset.service.ts:27-56 | A new asset starts active, with book value equal to cost, nothing accumulated or recorded, the stated life or the table's, the rate of the table in either case, and books in order. |
| FixedAssets.RateIsOfStatedLife | apps/financial-service/src/asset/asset.service.ts:32-34 | On the straight line the rate is one over the asset's useful life if and only if no life was stated or the table's was, and not for land. |
| FixedAssets.AssetRegister.Dispose | apps/financial-service/src/asset/asset.service.ts:105-123 | Disposal is refused exactly for a disposed asset and changes nothing but the status. |
| FixedAssets.AssetRegister.RunOne | apps/financial-service/src/asset/asset.service.ts:208-229 | One asset of a run: land is passed over, another is depreciated as specified, and it is counted as processed exactly when a row was written, the only case in which rows or book value change. |
| FixedAssets.AssetRegister.RunDepreciationForYear | apps/financial-service/src/asset/asset.service.ts:208-229 | Every asset ends as the one-asset run says, and every active asset is counted once, as processed exactly when a row was written, as skipped otherwise. |
| FixedAssets.AssetRegister.PreviewNextYear | apps/financial-service/src/asset/asset.service.ts:232-253 | Lists exactly the active, depreciable assets above their salvage value, in order, with the planned amount, and changes nothing. |
| FixedAssets.RunYearKeepsSound | apps/financial-service/src/asset/asset.service.ts:152-205 | A yearly run keeps the books of an asset. |
| FixedAssets.OnlyActiveDepreciate | apps/financial-service/src/asset/asset.service.ts:208-215 | A run leaves land and every asset that is not active as it is. |
| FixedAssets.DisposedStays | apps/financial-service/src/asset/asset.service.ts:105-123 | A disposal is for good: over any later runs a disposed asset does not change. |
| FixedAssets.CountIsCardinality | apps/financial-service/src/asset/asset.service.ts:208-229 | The counters of a run count assets. |
| FixedAssets.BooksStayBalanced | apps/financial-service/src/asset/asset.service.ts:152-205 | After any runs and disposals: cost is accumulated plus book value, the rows add up to the accumulated part with one row a year, and the book value never falls below the smaller of salvage and cost. |
| FixedAssets.RerunIsIdle | apps/financial-service/src/asset/asset.service.ts:220-225 | A second run for the same year changes nothing and processes nothing. |
| FixedAssets.RecordedYearIsFinal | apps/financial-service/src/asset/asset.service.ts:131-132 | Once a year has a row, no later run for that year, whatever came between, adds a row or moves the book value. |
| FixedAssets.PreviewIsWhatRunRecords | apps/financial-service/src/asset/asset.service.ts:232-253 | For a listed asset the next run records exactly the previewed amount if it is positive and the year has no row, and otherwise changes nothing. |
| DepreciationBounds.StraightLineAfter | apps/financial-service/src/asset/asset.service.ts:168-175 | After n runs of the straight-line method the book value is n yearly amounts lower, or the salvage value. |
| DepreciationBounds.StraightLineFinishes | apps/financial-service/src/asset/asset.service.ts:168-195 | A straight-line asset is fully depreciated after exactly the rounded-up quotient of cost less salvage by the yearly amount, and never when that amount is 0. |
| DepreciationBounds.StraightLineWithinLife | apps/financial-service/src/asset/asset.service.ts:168-169 | One year more than the table's life is enough if and only if that many yearly amounts cover cost less salvage, and always when twice the yearly amount is at least the life. |
| DepreciationBounds.SmallCostTakesLonger | apps/financial-service/src/asset/asset.service.ts:168-169 | Runs of a building: at a cost of 74 kurus it is fully depreciated after 74 runs and not before, at 24 kurus never. |
| DepreciationBounds.DecliningYear | apps/financial-service/src/asset/asset.service.ts:170-175 | One declining-balance run lowers the book value strictly while it is above the larger of salvage and the rounding limit, never below it, and not at all at or under it. |
| DepreciationBounds.DecliningEndsAtFloor | apps/financial-service/src/asset/asset.service.ts:170-177 | After two runs and as many halvings as the cost has binary digits (17 runs each for buildings, 4, 2 or 1 for the others), or as many runs as it has kurus, the book value is exactly the larger of salvage and the rounding limit, or the cost if that is lower; so the asset is fully depreciated if and only if the salvage value is at least that limit. |
| DepreciationBounds.StuckTable | apps/financial-service/src/asset/vuk-useful-life.ts:12-39 | The rounding limits of the table: 12 kurus for buildings, 2, 1, and 0 for computers only. |
| DepreciationBounds.LivesOfTable | apps/financial-service/src/asset/vuk-useful-life.ts:12-39 | The lives of the table, by the number of runs that write off a cost: 50 for buildings, 10 for machinery and others, 5 for vehicles and fixtures, 4 for computers. |
| DepreciationBounds.DecliningFollowsCurve | apps/financial-service/src/asset/asset.service.ts:170-175 | At rate r, after n runs the book value is at least (1-r)^n of the cost less 1/(2r) kurus, and at most that plus 1/(2r) unless it is the salvage value. |
| DepreciationBounds.EndsAfterCurve | apps/financial-service/src/asset/asset.service.ts:170-177 | Two runs after (1-r)^n of the cost is down to one kurus, the book value is where it stays. |
| ExchangeDifferences.DifferenceIsChange | apps/financial-service/src/currency/currency.service.ts:218-239 | The signed difference is exactly the change of the value at the two rates, is 0 exactly when the value does not change, and is always 0 for the lira. |
| ExchangeDifferences.ValueCutsTowardZero | apps/financial-service/src/currency/currency.service.ts:210-212 | Conversion loses less than one unit, toward zero, and treats both signs alike. |
| ExchangeDifferences.ValueAtRate | apps/financial-service/src/currency/currency.service.ts:210-212 | The lira value against the rate itself: the exact product cut off toward zero when the rate has at most six decimals, and otherwise within half a millionth of the amount and one unit. |
| ExchangeDifferences.LinesOfDifference | apps/financial-service/src/currency/currency.service.ts:351-381 | The two lines of a revaluation balance and move 120 or 320 by exactly the change of value, 646 by a gain, 656 by a loss. |
| ExchangeDifferences.ReceivableFollowsValue | apps/financial-service/src/currency/currency.service.ts:336-381 | After any chain of revaluations account 120 stands at the value at the last rate, less what failed writes lost; without failures it is that value by the rate itself; 646 less 656 is the same change; total debits equal total credits. |
| ExchangeDifferences.PayableMovesAway | apps/financial-service/src/currency/currency.service.ts:357-360 | For a payable the entries balance too, but 320 moves against the value: the liability is right at the end exactly when its value has not changed. |
| ExchangeDifferences.CurrencyService.Upsert | apps/financial-service/src/currency/currency.service.ts:158-181 | One rate per currency and day: a later one replaces the earlier, all other rows stay. |
| ExchangeDifferences.CurrencyService.ConvertToTry | apps/financial-service/src/currency/currency.service.ts:186-213 | Lira are returned unchanged; otherwise the amount is valued by the latest rate not after the date, the only such rate when there is one a day, and the call fails exactly when there is none. |
| ExchangeDifferences.CurrencyService.RefreshFromTcmb | apps/financial-service/src/currency/currency.service.ts:284-323 | Every currency that could be fetched has today's rate, all other rows stay, one rate per day is kept, and the count is that of the fetches. |
| ExchangeDifferences.CountFetchedIsCardinality | apps/financial-service/src/currency/currency.service.ts:284-323 | The count of a refresh counts the currencies that could be fetched. |
| ExchangeDifferences.CurrencyService.CreateExchangeDiffJournalEntry | apps/financial-service/src/currency/currency.service.ts:328-392 | Moves 120 or 320, and 646 or 656, by the change of value, or nothing for the lira, a zero difference or a failed write, and never changes debits less credits. |
| Ledger.JournalWriter.Insert | apps/financial-service/src/events/hr-events.consumer.ts:170-228 | A taken entry number drops the entry silently; a line against the table's constraint breaks it off, and the header stays with the lines before; otherwise the entry is added with all its lines. |
| Ledger.JournalWriter.OnPayrollFinalized | apps/financial-service/src/events/hr-events.consumer.ts:120-228 | Posted, refused and broken off each have their exact condition: no payroll entry for the period, amounts that agree to ten kurus, a free number, and an amount on each of the four lines; number, date, kind and reference of the entry are given. |
| Ledger.JournalWriter.OnPayment | apps/financial-service/src/events/treasury-events.consumer.ts:203-250 | Posted exactly for a known invoice of the tenant, a positive amount and a free number, as the given entry. |
| Ledger.ReferenceNamesPeriod | apps/financial-service/src/events/hr-events.consumer.ts:122-123 | Two payrolls of a tenant share a reference exactly when year and month are the same. |
| Ledger.PayrollNumberNamesPeriod | apps/financial-service/src/events/hr-events.consumer.ts:158-160 | Two payroll entries have the same number exactly when period and moment are the same. |
| Ledger.NextPayrollIsPosted | apps/financial-service/src/events/hr-events.consumer.ts:125-138 | The payroll of another period is not taken for a repetition. |
| Ledger.TenantsApart | apps/financial-service/src/events/hr-events.consumer.ts:125-129 | Entries of other tenants never decide what becomes of an event. |
| Ledger.PayrollMovesAccounts | apps/financial-service/src/events/hr-events.consumer.ts:190-219 | The four lines move 770, 360, 361 and 335 by cost, taxes, social security and net pay, and are out of balance by exactly the gap. |
| Ledger.PaymentMovesAccounts | apps/financial-service/src/events/treasury-events.consumer.ts:231-241 | The two lines balance; a purchase lowers bank and supplier debt, a sale raises the bank and lowers customer debt, by the amount. |
| Ledger.PayrollOnce | apps/financial-service/src/events/hr-events.consumer.ts:125-138 | After a payroll is posted every redelivery, whatever came between, is ignored. |
| Ledger.BrokenPayrollStays | apps/financial-service/src/events/hr-events.consumer.ts:125-138 | A payroll that broke off is ignored on every redelivery, whatever came between, so its missing lines are never written. |
| Ledger.PaymentPostedAgain | apps/financial-service/src/events/treasury-events.consumer.ts:203-229 | A payment delivered twice is posted twice unless both deliveries get the same clock value. |
| Ledger.HandleKeepsOk | apps/financial-service/src/events/hr-events.consumer.ts:120-228 | A delivery keeps the ledger invariant (valid lines, balanced payments, payrolls within ten kurus and one per tenant and period) if and only if it is not a payroll that breaks off with more than ten kurus unbalanced. |
| Ledger.HandleAllKeepsOk | apps/financial-service/src/events/hr-events.consumer.ts:120-228 | Over any sequence of payroll and payment deliveries the ledger ends with the invariant if and only if none of them spoilt it so. |
| Ledger.UntaxedPayrollSpoils | apps/financial-service/src/events/hr-events.consumer.ts:141-228 | A new payroll without taxes whose amounts agree spoils the ledger if and only if its cost is more than ten kurus. |
| Ledger.UntaxedPayrollExample | apps/financial-service/src/events/hr-events.consumer.ts:186-228 | Gross 100, net 85, no taxes, social security 15 and 20: the amounts agree, and 120 stay unbalanced in the ledger. |
| Ledger.DeliveriesStayBounded | apps/financial-service/src/events/hr-events.consumer.ts:125-163 | Over any deliveries: one payroll entry per tenant and period at most; and unless one spoilt the ledger, a tenant's debits and credits differ by at most ten kurus per payroll entry. |
| Ledger.HarmlessNeverSpoil | apps/financial-service/src/events/hr-events.consumer.ts:141-228 | No deliveries spoil a ledger when each payroll among them has an amount on all four lines, or is refused for its amounts, or leaves at most ten kurus at the line it breaks off at. |
| TrialBalance.PeriodDoesNotFilter | apps/financial-service/src/account/account.service.ts:94-97 | The report does not depend on the period asked for: the date test is in the outer join's condition. |
| TrialBalance.ReportIsOfPeriod | apps/financial-service/src/account/account.service.ts:83-138 | The report equals the report over the period's own entries if and only if no line the period leaves out is on a postable account of the tenant. |
| TrialBalance.LedgerReportIsOfPeriod | apps/financial-service/src/account/account.service.ts:83-138 | The same over the entries: it is the period's report if and only if no entry of the tenant outside the period has a line on a postable account. |
| TrialBalance.LastYearsSaleIsReported | apps/financial-service/src/account/account.service.ts:94-97 | A sale outside the period is reported where the period's own report has no rows. |
| TrialBalance.MizanSumsTheChart | apps/financial-service/src/account/account.service.ts:83-138 | The totals are the debits and credits of the lines on the tenant's postable accounts, the dropped empty rows notwithstanding. |
| TrialBalance.MizanRows | apps/financial-service/src/account/account.service.ts:83-122 | The rows are exactly those of the tenant's postable accounts with an amount, each with the sums of its lines and its balance on the account's normal side. |
| TrialBalance.MizanOfDeliveries | apps/financial-service/src/account/account.service.ts:83-138 | After any deliveries, if all posted accounts are postable, the totals are the tenant's debits and credits, `isBalanced` holds exactly when these are equal, and unless a delivery spoilt the ledger they differ by at most ten kurus per payroll entry. |
| Installments.Lowest | apps/financial-service/src/events/treasury-events.consumer.ts:174-180 | The row a payment gets is the lowest that is neither paid nor locked. |
| Installments.TakenIsPrefix | apps/financial-service/src/events/treasury-events.consumer.ts:171-183 | With no abort, paid and locked installments are always a prefix whose length is the number of payments begun, up to the whole plan. |
| Installments.AbortKeepsPrefix | apps/financial-service/src/events/treasury-events.consumer.ts:171-183 | An abort keeps the prefix if and only if it gives back nothing or the highest taken installment. |
| Installments.PaidForGood | apps/financial-service/src/events/treasury-events.consumer.ts:171-183 | A paid installment keeps its payment, whatever payments follow, aborting or not. |
| Installments.OnePerPayment | apps/financial-service/src/events/treasury-events.consumer.ts:171-183 | No payment ever holds or closes two installments. |
| Installments.PaymentsCloseLowest | apps/financial-service/src/events/treasury-events.consumer.ts:171-183 | m payments that finish without aborting, in any interleaving, close exactly the m lowest of n installments, or all n. |
| Installments.PaymentsPayLowestAmounts | apps/financial-service/src/events/treasury-events.consumer.ts:171-183 | m payments that finish without aborting, in any interleaving, pay exactly the amounts of the first m installments; the other amounts stay open, and both together are the plan's total. |
| Installments.StepMovesAmount | apps/financial-service/src/events/treasury-events.consumer.ts:171-183 | The paid amount changes only when a payment that holds an installment commits, and then by that installment's amount. |
| Installments.PaymentPlans.Create | apps/financial-service/src/ar-ap/payment-plan.service.ts:79-127 | Refused exactly for an existing plan or no parts; otherwise the parts are numbered from one and add up to the total. |
| Installments.PaymentPlans.MarkPaid | apps/financial-service/src/ar-ap/payment-plan.service.ts:130-153 | Refused exactly for an unknown or a paid installment; otherwise only that installment changes. |
| Installments.PaymentPlans.MarkInstallmentPaid | apps/financial-service/src/events/treasury-events.consumer.ts:155-191 | Undisturbed, a payment closes the lowest unpaid installment, exactly when there is one, which is what taking and committing does. |
| Reminders.ReminderService.ProcessForTenant | apps/financial-service/src/ar-ap/reminder.service.ts:101-132 | The nested loops handle exactly the tasks of the day in order; a tenant without offsets of its own has -3, 1, 7 and 30 days. |
| Reminders.ReminderService.SendOne | apps/financial-service/src/ar-ap/reminder.service.ts:134-211 | A task whose row exists changes nothing; otherwise its row is logged whether or not there is an address, and one mail of the day is sent exactly when there is one. |
| Reminders.Levels | apps/financial-service/src/ar-ap/reminder.service.ts:31-34 | All offsets before the due date are one level, every other its own. |
| Reminders.TasksAre | apps/financial-service/src/ar-ap/reminder.service.ts:113-126 | A run's tasks are exactly the unpaid installments whose due date plus an offset is today, at that offset's level. |
| Reminders.AtMostOnePerLevel | apps/financial-service/src/ar-ap/reminder.service.ts:142-152 | Over any runs, complete, broken off, or broken off by a failing mail, at any offsets: at most one mail per installment and level. |
| Reminders.NoneAfterPaid | apps/financial-service/src/ar-ap/reminder.service.ts:123-126 | Once an installment is paid no run mails about it again. |
| Reminders.LoggedExactly | apps/financial-service/src/ar-ap/reminder.service.ts:101-152 | After complete runs on any days, at any offsets and addresses, and with payments of other installments among them, the log holds a level of an unpaid installment if and only if it did before or one of the runs fell on the day of one of its offsets of that level. |
| Reminders.EveryLevelIsLogged | apps/financial-service/src/ar-ap/reminder.service.ts:101-132 | With a complete run on every day from the smallest offset to the largest, whatever other runs and payments there are, every configured level of an unpaid installment is logged. |
| Reminders.LoggedIsNotMailedAgain | apps/financial-service/src/ar-ap/reminder.service.ts:142-152 | A level that is in the log is never mailed again, in any later runs, complete or broken off. |
| Reminders.MailedExactly | apps/financial-service/src/ar-ap/reminder.service.ts:101-211 | The exact mails about a level of an unpaid installment over complete runs at any days, offsets and addresses: one if the level was not logged and the first run that falls on it finds an address, otherwise none. |
| Reminders.OffsetIsMailed | apps/financial-service/src/ar-ap/reminder.service.ts:31-34 | With one list of offsets, a run every day and an address: the run on an offset's own day sends a mail of its level if and only if the offset is not before the due date, or is the smallest of all. |
| Reminders.SecondUpcomingIsNotSent | apps/financial-service/src/ar-ap/reminder.service.ts:31-34 | Two offsets before the due date share one level: after a complete run on the day of the earlier one, no later run of any kind mails about the later one. |
| Reminders.LostMailIsNeverSent | apps/financial-service/src/ar-ap/reminder.service.ts:142-205 | A mail that fails is lost: its row is written, so no later run sends it. |
| ArchiveReports.BatchedIsIntegratorSealed | apps/financial-service/src/gib/document-behavior.ts:24-53 | Every invoice a batch selects has a reporting profile and is one the integrator seals. |
| ArchiveReports.ToReportIsSelected | apps/financial-service/src/gib/archive-reporting.service.ts:91-113 | A run selects exactly the open invoices of the date with one of the six reporting profiles that no successful report of the date lists. |
| ArchiveReports.ArchiveReporting.ProcessOneTenant | apps/financial-service/src/gib/archive-reporting.service.ts:73-232 | The branches of the daily run, spelled out: what is sent, noted, marked, overwritten and counted, with which outcome, and that nothing else changes. |
| ArchiveReports.ArchiveReporting.RetryReport | apps/financial-service/src/gib/archive-reporting.service.ts:296-411 | The branches of a retry, spelled out: it succeeds exactly when something is left to send and the gateway gives a package and an accepted code, and what it then writes. |
| ArchiveReports.NotedIsSent | apps/financial-service/src/gib/archive-reporting.service.ts:187-192 | Looking the ids up again by identifier finds exactly the sent invoices that have one. |
| ArchiveReports.NextKeepsSound | apps/financial-service/src/gib/archive-reporting.service.ts:91-232 | Every run, retry of a failed report, new invoice and cancellation keeps the batch invariant. |
| ArchiveReports.SentAtMostOnce | apps/financial-service/src/gib/archive-reporting.service.ts:91-113 | Over any days of runs and retries of failed reports: an invoice with an identifier is in at most one successful batch, and from then on is reported or cancelled. |
| ArchiveReports.SuccessfulRunLeaves | apps/financial-service/src/gib/archive-reporting.service.ts:186-232 | After a successful run every selected invoice with an identifier is marked reported, and what the date would select again is exactly the selected invoices without one. |
| ArchiveReports.OverwritingIsSafe | apps/financial-service/src/gib/archive-reporting.service.ts:195-211 | A second run for a date replaces the id list of its successful report, and every dropped invoice is closed and never selected again. |
| ArchiveReports.ReportedStays | apps/financial-service/src/gib/archive-reporting.service.ts:225-232 | A reported invoice stays reported until it is cancelled. |
| ArchiveReports.CancelledIsRetried | apps/financial-service/src/gib/archive-reporting.service.ts:311-322 | A successful retry sends and marks as reported even a listed invoice that was cancelled in between. |
| ArchiveReports.CancelledIsReportedByRetry | apps/financial-service/src/gib/archive-reporting.service.ts:311-322 | A step turns a cancelled invoice into a reported one if and only if it is a successful retry of a report that lists it; no daily run ever does. |
| ArchiveReports.CancelledStaysUnlessRetried | apps/financial-service/src/gib/archive-reporting.service.ts:311-322 | Over any run in which it is not cancelled again, a cancelled invoice ends reported if and only if such a retry came, and otherwise stays cancelled. |
| ArchiveReports.DailyAndRetryDiffer | apps/financial-service/src/gib/archive-reporting.service.ts:162-176 | A daily run counts as sent what a retry would, and also a send without a package or with a code that is not accepted. |
| ArchiveReports.DailyRunsCapRetries | apps/financial-service/src/gib/archive-reporting.service.ts:194-222 | However often daily runs take a report over, they count at most five retries. |
| BaForm.EscapeXmlIsPerCharacter | apps/financial-service/src/babs/ba-form.builder.ts:62-69 | The five chained replacements equal one replacement per character. |
| BaForm.UnescapeEscaped | apps/financial-service/src/babs/ba-form.builder.ts:62-69 | Undoing the predefined entities of an escaped text gives the text, for every text. |
| BaForm.PeriodRoundTrip | apps/financial-service/src/babs/ba-form.builder.ts:32 | Year and month are read back from the printed period. |
| BaForm.Fixed2RoundTrip | apps/financial-service/src/babs/ba-form.builder.ts:39 | Amounts are read back from their two-decimal text, signs included. |
| BaForm.ReadRows | apps/financial-service/src/babs/ba-form.builder.ts:34-43 | The printed purchases are read back in order, whatever follows the list. |
| BaForm.RoundTrip | apps/financial-service/src/babs/ba-form.builder.ts:31-60 | Reading a printed form gives the form: period, tax number, title, all purchases and the totals, for arbitrary strings. |
| BaForm.PreambleText | apps/financial-service/src/babs/ba-form.builder.ts:45-46 | The declaration and the root element's text. |

## Left out

- RotationProtocol.OneUsePerToken: a token stands for its SHA-256 digest, taken as injective, and new tokens and session ids are taken as new; the digest function, the random source and the stored JSON text are not modelled.
- RefreshTokens.AuthService.Logout: the access-token revocation list, and the two keys it writes, are not part of this model; neither is the creation time and previous digest stored with a token, which no code reads.
- SessionLogout.QuietLogoutEndsSession: claimed for logouts without an accepted refresh inside them; with one, the claim is false, as the race shows.
- ReportExecution.PrepareQuery: the check of the template against forbidden words, the cache of dashboards, and what the database answers are not modelled; template text is read as the scanner reads it, without SQL strings, casts or comments.
- BillingLaws.FailuresStayBounded: the delay list is the same over a life; the catalogue of plans may change from one operation to the next.
- BillingLaws.PastDueIsResolvedAmongRenewals: claimed for dunning runs at most a day apart with no save of the row but theirs and the renewals'; a calendar day is 86400 seconds.
- BillingLaws.InvoicesOfALife: an insert refused because another tenant has the same invoice number is not modelled; the charge has then been made and the row is not saved.
- Billing: the month arithmetic and the time zone of the calendar are an abstract function; the next-attempt time stored with an attempt, which no code reads, is left out, and so are e-mails, PDFs and the tenant events that start subscriptions; one run has one clock value; `bigint` columns are numbers, while the driver hands them out as text.
- TierCache.KeyWhileLive: writes to Redis succeed; the write of a plan change comes together with its save, and one refresh runs at a time.
- FixedAssets: exact fractions stand for the stored six-digit rates; amounts are numbers, while the driver hands `bigint` columns out as text, so that `+=` on a loaded asset would join digits instead of adding; the transaction around a row and its asset is atomic; names, codes, locations and lists are left out.
- ExchangeDifferences.CurrencyService.ConvertToTry: dates are whole days and the shift of `toISOString` is left out; live fetching of the current rate is an input.
- ExchangeDifferences.CurrencyService.CreateExchangeDiffJournalEntry: whether the write goes through is an input; its column names are not those of the tenant schema, where it would always fail.
- Ledger.JournalWriter.Insert: a line fails only by the table's constraint on amounts, not by a lost connection. The UUID type of the reference column, which payroll references do not fit, the length of numbers and the retry counters are left out.
- Ledger.JournalWriter.OnPayrollFinalized: the tolerance is compared exactly, not in floating point.
- TrialBalance: the order of rows and the account names are left out; the balance sheet, which takes absolute values, is not part of this model.
- Installments.PaymentPlans.MarkPaid: marking by hand reads and saves in two steps; a payment between them is not modelled. One plan per invoice is checked before the insert, without a race. The update of a payment sets `updated_at`, a column the tenant schema does not give `payment_installments`, so there it would fail.
- Reminders.LoggedExactly: claimed for complete runs; after a run that breaks off only the bounds on mails are claimed. Installments are read once per run. The mail's data are looked up under the names `invoice_no`, `installment_number` and `installment_count`; the tenant schema has `invoice_number`, `installment_no` and `installment_cnt`, so there the lookup would fail after the log row.
- ArchiveReports: an invoice without a status counts as open; in SQL `NULL NOT IN (...)` selects nothing, and the tenant schema has no `gib_status` column on `invoices` at all, so there the queries would fail.
- ArchiveReports.SentAtMostOnce: invoices keep their date and profile, identifiers are unique, and only failed reports are retried; a retry of a succeeded report sends it again. The report XML, signatures, audit log and error texts are left out.
- BaForm.RoundTrip: amounts have at most two decimals, so `toFixed` does not round; years and months are natural numbers.
- GIB envelopes and application responses, the VAT engine, e-ledger files, treasury accounts, the balance sheet, CRM, HR, stock and user management are not part of this model; wiring, controllers, listings and presentation would only add easy members.
