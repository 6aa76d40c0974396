/**
 The rate-limit tier cache against the subscription it mirrors.  A key lasts six hours; plan changes
 write it, an immediate cancellation deletes it, and a refresh every four hours reads the table
 first and writes the keys after.
 */
module TierCache {
  import opened Wrappers
  import opened Billing

  const TIER_TTL: nat := 21600
  const SYNC_GAP: nat := 14400

  datatype Tier = Starter | Business | Enterprise

  predicate OccursAt(s: string, word: string, i: int) { 0 <= i <= |s| - |word| && s[i..i + |word|] == word }

  predicate Contains(s: string, word: string) { exists i | 0 <= i <= |s| :: OccursAt(s, word, i) }

  function ResolveTier(planId: string): Tier {
    if Contains(planId, "enterprise") then Enterprise
    else if Contains(planId, "business") then Business
    else Starter
  }

  /** The word stands somewhere in the text. */
  ghost predicate HasWord(s: string, word: string) { exists u: string, v: string :: s == u + word + v }

  lemma ContainsIsHasWord(s: string, word: string)
    ensures Contains(s, word) <==> HasWord(s, word)
  {
    if Contains(s, word) {
      var i :| 0 <= i <= |s| && OccursAt(s, word, i);
      assert s == s[..i] + word + s[i + |word|..];
    }
    if HasWord(s, word) {
      var u: string, v: string :| s == u + word + v;
      assert s[|u|..|u| + |word|] == word;
      assert OccursAt(s, word, |u|);
    }
  }

  /** The tier is by the words of the plan's name, the larger one first. */
  ghost predicate NamesTier(planId: string, tier: Tier) {
    && (tier == Enterprise <==> HasWord(planId, "enterprise"))
    && (tier == Business <==> HasWord(planId, "business") && !HasWord(planId, "enterprise"))
    && (tier == Starter <==> !HasWord(planId, "business") && !HasWord(planId, "enterprise"))
  }

  lemma TierOfPlan(planId: string)
    ensures NamesTier(planId, ResolveTier(planId))
  {
    ContainsIsHasWord(planId, "enterprise");
    ContainsIsHasWord(planId, "business");
    hide Contains, HasWord;
  }

  /** A key lasts six hours, and a refresh comes every four. */
  lemma SixAndFourHours()
    ensures TIER_TTL == 6 * 60 * 60 && SYNC_GAP == 4 * 60 * 60
  {
  }

  datatype Key = Key(tier: Tier, expires: int)

  /**
   A subscription, its key, and a refresh under way: what it read of the row when it has read and not
   written.  `readAt` is the time of the last refresh's read, and `duration` the longest it takes from
   there to its write.  The last three fields are history: whether the subscription has come back
   without a write, since when it has been live, and when it last left or changed its plan.
   */
  datatype State = State(
    account: Account, now: int, key: Option<Key>, syncing: bool, snapshot: Option<string>, readAt: int,
    duration: nat, unsynced: bool, liveSince: int, touched: int)

  datatype Action = Bill(event: Event) | Wait(seconds: nat) | SyncRead | SyncWrite

  function Written(s: State, planId: string): State {
    s.(key := Some(Key(ResolveTier(planId), s.now + TIER_TTL)), unsynced := false)
  }

  /** A refresh reads at least every four hours, and writes within its duration. */
  predicate Enabled(s: State, a: Action) {
    match a
    case Bill(e) => e.now == s.now
    case Wait(n) => s.now + n <= s.readAt + if s.syncing then s.duration else SYNC_GAP
    case SyncRead => !s.syncing
    case SyncWrite => s.syncing
  }

  /** History after a billing operation: leaving or entering a running status, without a write. */
  function Moved(s: State, b: Account): State {
    var t := s.(account := b);
    if Live(s.account.sub.status) && !Live(b.sub.status) then t.(touched := s.now)
    else if !Live(s.account.sub.status) && Live(b.sub.status) then t.(unsynced := true, liveSince := s.now)
    else t
  }

  /** The billing operation is a plan change that goes through. */
  predicate PlanChanges(e: Event) { e.PlanChange? && Offered(e.planId, e.plans) }

  /** The billing operation is an immediate cancellation that goes through. */
  predicate Ends(a: Account, e: Event) {
    e.Cancellation? && e.immediate && (e.gatewayCancels || !Truthy(a.sub.gatewayRef))
  }

  /** A refresh reads the row: its plan, if it is running. */
  function ReadRow(s: State): State {
    s.(syncing := true, readAt := s.now,
       snapshot := if Live(s.account.sub.status) then Some(s.account.sub.planId) else None)
  }

  /** A refresh writes what it has read. */
  function WriteKey(s: State): State {
    var t := s.(syncing := false);
    if s.snapshot.None? then t else Written(t, s.snapshot.value)
  }

  function Next(s: State, a: Action, delays: seq<nat>, cal: Calendar): State
  {
    match a
    case Bill(e) =>
      var t := Moved(s, Billing.Step(s.account, e, delays, cal));
      if PlanChanges(e) then Written(t, e.planId).(touched := s.now)
      else if Ends(s.account, e) then t.(key := None)
      else t
    case Wait(n) =>
      var now := s.now + n;
      s.(now := now, key := if s.key.Some? && s.key.value.expires <= now then None else s.key)
    case SyncRead => ReadRow(s)
    case SyncWrite => WriteKey(s)
  }

  predicate Possible(s: State, run: seq<Action>, delays: seq<nat>, cal: Calendar)
    decreases |run|
  {
    run == [] || (Enabled(s, run[0]) && Possible(Next(s, run[0], delays, cal), run[1..], delays, cal))
  }

  function After(s: State, run: seq<Action>, delays: seq<nat>, cal: Calendar): State
    decreases |run|
  {
    if run == [] then s else After(Next(s, run[0], delays, cal), run[1..], delays, cal)
  }

  /** The last refresh is not overdue, and a refresh is done before the next is due. */
  predicate OnTime(s: State) {
    && s.readAt <= s.now <= s.readAt + (if s.syncing then s.duration else SYNC_GAP) && s.duration <= SYNC_GAP
  }

  /** A subscription that has just been started: its key is written, and no refresh has read it. */
  predicate Opened(s: State) {
    && s.account.sub.status.Trialing? && !s.unsynced && s.snapshot.None?
    && s.key == Some(Key(ResolveTier(s.account.sub.planId), s.now + TIER_TTL))
    && OnTime(s) && s.liveSince == s.touched == s.now
  }

  // ------------------------------------------------------------------ the invariant

  predicate Timed(s: State) {
    && OnTime(s) && s.liveSince <= s.now && s.touched <= s.now
    && (s.key.Some? ==> s.now < s.key.value.expires <= s.now + TIER_TTL)
  }

  /** A refresh under way has read the subscription running. */
  predicate Pending(s: State) { s.syncing && s.snapshot.Some? }

  /** While running: what the key has left, or how long ago the subscription came back. */
  predicate Fed(s: State) {
    var lag := if Pending(s) then SYNC_GAP else 0;
    Live(s.account.sub.status) ==>
      if s.unsynced then s.readAt <= s.liveSince + lag
      else s.duration < TIER_TTL - SYNC_GAP ==> s.key.Some? && s.readAt + TIER_TTL <= s.key.value.expires + lag
  }

  predicate Starved(s: State) {
    !Live(s.account.sub.status) ==>
      && (s.key.Some? ==> s.key.value.expires <= s.touched + s.duration + TIER_TTL)
      && (Pending(s) ==> s.readAt <= s.touched)
  }

  predicate Cached(s: State) { Timed(s) && Fed(s) && Starved(s) }

  lemma RenewalKeepsPlan(a: Account, plans: Plans, cal: Calendar, now: int, g: Gateway)
    ensures ChargeForRenewal(a, plans, cal, now, g).sub.planId == a.sub.planId
    ensures ChargeForRenewal(a, plans, cal, now, g).sub.gatewayRef == a.sub.gatewayRef
  {
  }

  /**
   Only an accepted plan change changes the plan, and it leaves the status; an accepted immediate cancellation
   ends.
   */
  lemma PlanOfStep(a: Account, e: Event, delays: seq<nat>, cal: Calendar)
    ensures var b := Billing.Step(a, e, delays, cal);
      && b.sub.planId == (if PlanChanges(e) then e.planId else a.sub.planId)
      && (e.PlanChange? ==> b.sub.status == a.sub.status)
      && (Ends(a, e) ==> b.sub.status.Cancelled?)
  {
    if e.Renewal? {
      RenewalKeepsPlan(a, e.plans, cal, e.now, e.atTrial);
      RenewalKeepsPlan(RenewTrial(a, e.plans, cal, e.now, e.atTrial), e.plans, cal, e.now, e.atPeriod);
    }
    hide ChargeForRenewal, TrialOver, PeriodOver, Failed, PeriodTag, InvoiceNumber, MakeInvoice, MakeAttempt, Paid,
      RetryDue;
  }

  lemma NextKeepsCached(s: State, a: Action, delays: seq<nat>, cal: Calendar)
    requires Cached(s) && Enabled(s, a)
    ensures Cached(Next(s, a, delays, cal))
  {
    hide Billing.Step, ResolveTier, Truthy;
    if a.Bill? { PlanOfStep(s.account, a.event, delays, cal); }
  }

  lemma {:induction false} AfterKeepsCached(s: State, run: seq<Action>, delays: seq<nat>, cal: Calendar)
    requires Cached(s) && Possible(s, run, delays, cal)
    ensures Cached(After(s, run, delays, cal))
    decreases |run|
  {
    hide Cached, Next, Enabled;
    if run != [] {
      NextKeepsCached(s, run[0], delays, cal);
      AfterKeepsCached(Next(s, run[0], delays, cal), run[1..], delays, cal);
    }
  }

  // ------------------------------------------------------------------ what a reader of the cache sees

  /** Running in every state of the run. */
  predicate StaysLive(s: State, run: seq<Action>, delays: seq<nat>, cal: Calendar)
    requires Possible(s, run, delays, cal)
    decreases |run|
  {
    Live(s.account.sub.status) && (run == [] || StaysLive(Next(s, run[0], delays, cal), run[1..], delays, cal))
  }

  lemma {:induction false} StaysSynced(s: State, run: seq<Action>, delays: seq<nat>, cal: Calendar)
    requires Possible(s, run, delays, cal) && StaysLive(s, run, delays, cal) && !s.unsynced
    ensures !After(s, run, delays, cal).unsynced && Live(After(s, run, delays, cal).account.sub.status)
    decreases |run|
  {
    hide Billing.Step, ResolveTier;
    if run != [] { StaysSynced(Next(s, run[0], delays, cal), run[1..], delays, cal); }
  }

  lemma {:induction false} SameDuration(s: State, run: seq<Action>, delays: seq<nat>, cal: Calendar)
    ensures After(s, run, delays, cal).duration == s.duration
    decreases |run|
  {
    hide Billing.Step, ResolveTier;
    if run != [] { SameDuration(Next(s, run[0], delays, cal), run[1..], delays, cal); }
  }

  /**
   However it came back, a subscription that has been running for more than four hours and a refresh
   has its key.
   */
  lemma KeyAfterRecovery(s: State, run: seq<Action>, delays: seq<nat>, cal: Calendar)
    requires Opened(s) && Possible(s, run, delays, cal) && s.duration < TIER_TTL - SYNC_GAP
    ensures var t := After(s, run, delays, cal);
      Live(t.account.sub.status) && t.liveSince + SYNC_GAP + s.duration < t.now ==> t.key.Some?
  {
    hide ResolveTier;
    AfterKeepsCached(s, run, delays, cal);
    SameDuration(s, run, delays, cal);
  }

  /** However it ended, six hours and a refresh after leaving and after the last plan change the key is gone. */
  lemma KeyGoneAfterEnd(s: State, run: seq<Action>, delays: seq<nat>, cal: Calendar)
    requires Opened(s) && Possible(s, run, delays, cal)
    ensures var t := After(s, run, delays, cal);
      !Live(t.account.sub.status) && t.touched + s.duration + TIER_TTL <= t.now ==> t.key.None?
  {
    hide ResolveTier;
    AfterKeepsCached(s, run, delays, cal);
    SameDuration(s, run, delays, cal);
  }

  /**
   An immediate cancellation inside a refresh: the key comes back, and stays until exactly six hours and
   the rest of the refresh after the cancellation.
   */
  lemma CancellationInsideRefresh(s: State, e: Event, rest: nat, delays: seq<nat>, cal: Calendar)
    requires Cached(s) && !s.syncing && Live(s.account.sub.status) && Ends(s.account, e) && e.now == s.now
    requires rest <= s.duration
    ensures var run := [SyncRead, Bill(e), Wait(rest), SyncWrite];
      && Possible(s, run, delays, cal)
      && var t := After(s, run, delays, cal);
      && t.account.sub.status.Cancelled? && t.touched == s.now
      && t.key == Some(Key(ResolveTier(s.account.sub.planId), t.touched + rest + TIER_TTL))
  {
    PlanOfStep(s.account, e, delays, cal);
    hide Billing.Step, ResolveTier, Truthy, Cached, Offered;
    var run := [SyncRead, Bill(e), Wait(rest), SyncWrite];
    var r1 := Next(s, SyncRead, delays, cal);
    var r2 := Next(r1, Bill(e), delays, cal);
    var r3 := Next(r2, Wait(rest), delays, cal);
    var r4 := Next(r3, SyncWrite, delays, cal);
    assert Possible(r4, [], delays, cal) && After(r4, [], delays, cal) == r4;
    assert run[1..] == [Bill(e), Wait(rest), SyncWrite] && run[1..][1..] == [Wait(rest), SyncWrite];
    assert [Wait(rest), SyncWrite][1..] == [SyncWrite] && [SyncWrite][1..] == [];
    assert Possible(r3, [SyncWrite], delays, cal) && After(r3, [SyncWrite], delays, cal) == r4;
    assert Possible(r2, [Wait(rest), SyncWrite], delays, cal) && After(r2, [Wait(rest), SyncWrite], delays, cal) == r4;
    assert Possible(r1, run[1..], delays, cal) && After(r1, run[1..], delays, cal) == r4;
  }

  // ------------------------------------------------------------------ when the key is wrong

  /** The state after the first n actions, and the plan then. */
  function At(s: State, run: seq<Action>, n: nat, delays: seq<nat>, cal: Calendar): State
    requires n <= |run|
  {
    After(s, run[..n], delays, cal)
  }

  function PlanAt(s: State, run: seq<Action>, n: nat, delays: seq<nat>, cal: Calendar): string
    requires n <= |run|
  {
    At(s, run, n, delays, cal).account.sub.planId
  }

  lemma {:induction false} AfterOneMore(s: State, run: seq<Action>, a: Action, delays: seq<nat>, cal: Calendar)
    ensures After(s, run + [a], delays, cal) == Next(After(s, run, delays, cal), a, delays, cal)
    ensures Possible(s, run + [a], delays, cal) <==>
      Possible(s, run, delays, cal) && Enabled(After(s, run, delays, cal), a)
    decreases |run|
  {
    hide Next, Enabled;
    if run == [] {
      assert [a][1..] == [];
    } else {
      assert (run + [a])[1..] == run[1..] + [a];
      AfterOneMore(Next(s, run[0], delays, cal), run[1..], a, delays, cal);
    }
  }

  lemma {:induction false} AtNext(s: State, run: seq<Action>, n: nat, delays: seq<nat>, cal: Calendar)
    requires Possible(s, run, delays, cal) && n < |run|
    ensures Enabled(At(s, run, n, delays, cal), run[n])
    ensures At(s, run, n + 1, delays, cal) == Next(At(s, run, n, delays, cal), run[n], delays, cal)
    decreases |run|
  {
    hide Next, Enabled, Possible, After;
    var m := |run| - 1;
    assert run == run[..m] + [run[m]];
    AfterOneMore(s, run[..m], run[m], delays, cal);
    if n < m {
      AtNext(s, run[..m], n, delays, cal);
      assert run[..m][..n] == run[..n] && run[..m][..n + 1] == run[..n + 1];
    } else {
      assert run[..n + 1] == run;
    }
  }

  predicate ChangesPlan(a: Action) { a.Bill? && PlanChanges(a.event) }

  predicate Refreshes(a: Action) { a.SyncRead? || a.SyncWrite? }

  /** The action writes the key: a plan change, or a refresh that has read a running subscription. */
  predicate Writes(s: State, a: Action) { ChangesPlan(a) || (a.SyncWrite? && s.snapshot.Some?) }

  predicate ChangedBetween(run: seq<Action>, r: nat, w: nat)
    requires w <= |run|
  {
    exists c :: r < c < w && ChangesPlan(run[c])
  }

  /** A refresh that has read at r is still under way after n actions. */
  predicate ReadAt(run: seq<Action>, n: nat, r: nat)
    requires n <= |run|
  {
    r < n && run[r].SyncRead? && forall k | r < k < n :: !Refreshes(run[k])
  }

  /**
   The last write of the first n actions is that of a refresh, at w; it read the running subscription
   at r, and its plan was changed in between.
   */
  predicate Raced(s: State, run: seq<Action>, n: nat, r: nat, w: nat, delays: seq<nat>, cal: Calendar)
    requires n <= |run|
  {
    && w < n && run[w].SyncWrite? && ReadAt(run, w, r) && Live(At(s, run, r, delays, cal).account.sub.status)
    && ChangedBetween(run, r, w)
    && forall k | w < k < n :: !Writes(At(s, run, k, delays, cal), run[k])
  }

  lemma NextKeepsPlan(s: State, a: Action, delays: seq<nat>, cal: Calendar)
    requires Enabled(s, a)
    ensures Next(s, a, delays, cal).account.sub.planId == if ChangesPlan(a) then
      a.event.planId else s.account.sub.planId
    ensures !Refreshes(a) ==>
      Next(s, a, delays, cal).snapshot == s.snapshot && Next(s, a, delays, cal).syncing == s.syncing
    ensures var k := Next(s, a, delays, cal).key;
      k.Some? && !Writes(s, a) ==> k == s.key
  {
    if a.Bill? { PlanOfStep(s.account, a.event, delays, cal); }
    hide Billing.Step, ResolveTier, Offered;
  }

  /** While a refresh is under way it holds what it read. */
  lemma {:induction false} ReadStays(s: State, run: seq<Action>, n: nat, r: nat, delays: seq<nat>, cal: Calendar)
    requires Possible(s, run, delays, cal) && n <= |run| && ReadAt(run, n, r)
    ensures var t, read := At(s, run, n, delays, cal), At(s, run, r, delays, cal);
      t.syncing && t.snapshot == if Live(read.account.sub.status) then Some(read.account.sub.planId) else None
    decreases n
  {
    hide Next, Enabled, Possible, After;
    AtNext(s, run, n - 1, delays, cal);
    if n - 1 > r {
      ReadStays(s, run, n - 1, r, delays, cal);
      NextKeepsPlan(At(s, run, n - 1, delays, cal), run[n - 1], delays, cal);
    } else {
      ReadUnfolds(At(s, run, r, delays, cal), delays, cal);
    }
  }

  lemma ReadUnfolds(s: State, delays: seq<nat>, cal: Calendar)
    ensures Next(s, SyncRead, delays, cal) == ReadRow(s)
  {
  }

  /** After a raced write the key, if it is there, names the tier of the plan that was read. */
  lemma {:induction false} RacedKey(s: State, run: seq<Action>, n: nat, r: nat, w: nat, delays: seq<nat>, cal: Calendar)
    requires Possible(s, run, delays, cal) && n <= |run| && Raced(s, run, n, r, w, delays, cal)
    ensures var t := At(s, run, n, delays, cal);
      t.key.Some? ==> t.key.value.tier == ResolveTier(PlanAt(s, run, r, delays, cal))
    decreases n
  {
    hide Next, Enabled, Possible, After, ResolveTier, ChangedBetween;
    AtNext(s, run, n - 1, delays, cal);
    if n - 1 > w {
      RacedKey(s, run, n - 1, r, w, delays, cal);
      NextKeepsPlan(At(s, run, n - 1, delays, cal), run[n - 1], delays, cal);
    } else {
      ReadStays(s, run, w, r, delays, cal);
      WriteUnfolds(At(s, run, w, delays, cal), delays, cal);
    }
  }

  lemma WriteUnfolds(s: State, delays: seq<nat>, cal: Calendar)
    requires s.syncing && s.snapshot.Some?
    ensures var t := Next(s, SyncWrite, delays, cal);
      t.key == Some(Key(ResolveTier(s.snapshot.value), s.now + TIER_TTL)) && t.account == s.account && !t.syncing
  {
  }

  /** A refresh under way, and what was read since the plan last changed. */
  ghost predicate ReadTraced(s: State, run: seq<Action>, n: nat, delays: seq<nat>, cal: Calendar)
    requires n <= |run|
  {
    At(s, run, n, delays, cal).syncing && At(s, run, n, delays, cal).snapshot.Some? ==>
      exists r :: ReadAt(run, n, r)
        && (PlanAt(s, run, n, delays, cal) == PlanAt(s, run, r, delays, cal) || ChangedBetween(run, r, n))
  }

  /** A key that is there names the plan's tier, or was raced. */
  ghost predicate KeyTraced(s: State, run: seq<Action>, n: nat, delays: seq<nat>, cal: Calendar)
    requires n <= |run|
  {
    At(s, run, n, delays, cal).key.Some? ==>
      || At(s, run, n, delays, cal).key.value.tier == ResolveTier(PlanAt(s, run, n, delays, cal))
      || exists r, w :: Raced(s, run, n, r, w, delays, cal)
  }

  lemma TraceRead(s: State, run: seq<Action>, n: nat, delays: seq<nat>, cal: Calendar)
    requires Possible(s, run, delays, cal) && n < |run| && ReadTraced(s, run, n, delays, cal)
    ensures ReadTraced(s, run, n + 1, delays, cal)
  {
    hide Next, Enabled, Possible, After, ResolveTier;
    var t, a := At(s, run, n, delays, cal), run[n];
    AtNext(s, run, n, delays, cal);
    NextKeepsPlan(t, a, delays, cal);
    if a.SyncRead? {
      assert ReadAt(run, n + 1, n);
    } else if a.SyncWrite? {
      WriteEnds(t, delays, cal);
    } else if t.syncing && t.snapshot.Some? {
      var r: nat :| ReadAt(run, n, r)
        && (PlanAt(s, run, n, delays, cal) == PlanAt(s, run, r, delays, cal) || ChangedBetween(run, r, n));
      assert ReadAt(run, n + 1, r);
      if ChangesPlan(a) {
        assert ChangedBetween(run, r, n + 1);
      } else if ChangedBetween(run, r, n) {
        var c :| r < c < n && ChangesPlan(run[c]);
        assert ChangedBetween(run, r, n + 1);
      }
    }
  }

  lemma WriteEnds(s: State, delays: seq<nat>, cal: Calendar)
    ensures !Next(s, SyncWrite, delays, cal).syncing
  {
  }

  lemma TraceKey(s: State, run: seq<Action>, n: nat, delays: seq<nat>, cal: Calendar)
    requires Possible(s, run, delays, cal) && n < |run|
    requires ReadTraced(s, run, n, delays, cal) && KeyTraced(s, run, n, delays, cal)
    ensures KeyTraced(s, run, n + 1, delays, cal)
  {
    hide Next, Enabled, Possible, After, ResolveTier, ChangedBetween;
    var t, a := At(s, run, n, delays, cal), run[n];
    AtNext(s, run, n, delays, cal);
    NextKeepsPlan(t, a, delays, cal);
    if ChangesPlan(a) {
      ChangeUnfolds(t, a, delays, cal);
    } else if a.SyncWrite? && t.snapshot.Some? {
      EnabledWrite(t);
      var r: nat :| ReadAt(run, n, r)
        && (PlanAt(s, run, n, delays, cal) == PlanAt(s, run, r, delays, cal) || ChangedBetween(run, r, n));
      ReadStays(s, run, n, r, delays, cal);
      WriteUnfolds(t, delays, cal);
      if ChangedBetween(run, r, n) { assert Raced(s, run, n + 1, r, n, delays, cal); }
    } else if t.key.Some? && t.key.value.tier != ResolveTier(PlanAt(s, run, n, delays, cal)) {
      var r: nat, w: nat :| Raced(s, run, n, r, w, delays, cal);
      assert Raced(s, run, n + 1, r, w, delays, cal);
    }
  }

  lemma EnabledWrite(s: State)
    requires Enabled(s, SyncWrite)
    ensures s.syncing
  {
  }

  lemma ChangeUnfolds(s: State, a: Action, delays: seq<nat>, cal: Calendar)
    requires Enabled(s, a) && ChangesPlan(a)
    ensures Next(s, a, delays, cal).key == Some(Key(ResolveTier(a.event.planId), s.now + TIER_TTL))
  {
  }

  lemma {:induction false} Traced(s: State, run: seq<Action>, n: nat, delays: seq<nat>, cal: Calendar)
    requires Opened(s) && Possible(s, run, delays, cal) && n <= |run|
    ensures ReadTraced(s, run, n, delays, cal) && KeyTraced(s, run, n, delays, cal)
    decreases n
  {
    hide Next, Enabled, Possible, ResolveTier, ReadTraced, KeyTraced;
    if n == 0 {
      assert run[..0] == [];
      TracedAtStart(s, run, delays, cal);
    } else {
      Traced(s, run, n - 1, delays, cal);
      TraceRead(s, run, n - 1, delays, cal);
      TraceKey(s, run, n - 1, delays, cal);
    }
  }

  lemma TracedAtStart(s: State, run: seq<Action>, delays: seq<nat>, cal: Calendar)
    requires Opened(s)
    ensures ReadTraced(s, run, 0, delays, cal) && KeyTraced(s, run, 0, delays, cal)
  {
    hide ResolveTier;
    assert run[..0] == [];
  }

  /**
   The exact condition for a wrong key, over any run: the last write is that of a refresh, the plan was
   changed between that refresh's read and its write, and the plan read and the plan now have
   different tiers.
   */
  lemma KeyIsWrongIffRaced(s: State, run: seq<Action>, delays: seq<nat>, cal: Calendar)
    requires Opened(s) && Possible(s, run, delays, cal)
    ensures var n, t := |run|, After(s, run, delays, cal);
      t.key.Some? ==>
        (t.key.value.tier != ResolveTier(t.account.sub.planId) <==>
          exists r, w :: Raced(s, run, n, r, w, delays, cal)
            && ResolveTier(PlanAt(s, run, r, delays, cal)) != ResolveTier(t.account.sub.planId))
  {
    hide Next, Enabled, Possible, ResolveTier, After;
    var n := |run|;
    assert run[..n] == run;
    Traced(s, run, n, delays, cal);
    forall r: nat, w: nat | Raced(s, run, n, r, w, delays, cal) && At(s, run, n, delays, cal).key.Some?
      ensures At(s, run, n, delays, cal).key.value.tier == ResolveTier(PlanAt(s, run, r, delays, cal))
    {
      RacedKey(s, run, n, r, w, delays, cal);
    }
  }

  /**
   While a subscription stays active or trialing its key is always there, if a refresh takes less than
   two hours, and it is wrong exactly after a raced refresh.
   */
  lemma KeyWhileLive(s: State, run: seq<Action>, delays: seq<nat>, cal: Calendar)
    requires Opened(s) && Possible(s, run, delays, cal) && StaysLive(s, run, delays, cal)
    requires s.duration < TIER_TTL - SYNC_GAP
    ensures var n, t := |run|, After(s, run, delays, cal);
      && t.key.Some?
      && (t.key.value.tier != ResolveTier(t.account.sub.planId) <==>
          exists r, w :: Raced(s, run, n, r, w, delays, cal)
            && ResolveTier(PlanAt(s, run, r, delays, cal)) != ResolveTier(t.account.sub.planId))
  {
    hide ResolveTier, Raced;
    AfterKeepsCached(s, run, delays, cal);
    SameDuration(s, run, delays, cal);
    StaysSynced(s, run, delays, cal);
    KeyIsWrongIffRaced(s, run, delays, cal);
  }

  /** A refresh in no time, and two hours before the end of a key the read of the next, which takes them all. */
  const LONG_REFRESH: seq<Action> :=
    [SyncRead, SyncWrite, Wait(SYNC_GAP), SyncRead, Wait(TIER_TTL - SYNC_GAP)]

  lemma LongRefreshLosesKey(s: State, delays: seq<nat>, cal: Calendar)
    requires OnTime(s) && Live(s.account.sub.status) && !s.syncing && TIER_TTL - SYNC_GAP <= s.duration
    ensures Possible(s, LONG_REFRESH, delays, cal) && StaysLive(s, LONG_REFRESH, delays, cal)
    ensures After(s, LONG_REFRESH, delays, cal).key.None?
  {
    hide ResolveTier;
    var gap, last := Wait(SYNC_GAP), Wait(TIER_TTL - SYNC_GAP);
    var t := WriteKey(ReadRow(s));
    var u := Next(t, gap, delays, cal);
    var v := ReadRow(u);
    var w := Next(v, last, delays, cal);
    assert w.key.None?;
    StepsThen(w, [], v, last, delays, cal);
    StepsThen(v, [last], u, SyncRead, delays, cal);
    StepsThen(u, [SyncRead, last], t, gap, delays, cal);
    StepsThen(t, [gap, SyncRead, last], ReadRow(s), SyncWrite, delays, cal);
    StepsThen(ReadRow(s), [SyncWrite, gap, SyncRead, last], s, SyncRead, delays, cal);
    hide Next, After, Possible, StaysLive, Enabled;
    assert LONG_REFRESH == [SyncRead] + [SyncWrite, gap, SyncRead, last];
    assert [SyncWrite, gap, SyncRead, last] == [SyncWrite] + [gap, SyncRead, last];
    assert [gap, SyncRead, last] == [gap] + [SyncRead, last];
    assert [SyncRead, last] == [SyncRead] + [last] && [last] == [last] + [];
  }

  /** One action before a run. */
  lemma StepsThen(t: State, run: seq<Action>, s: State, a: Action, delays: seq<nat>, cal: Calendar)
    requires t == Next(s, a, delays, cal) && Enabled(s, a) && Live(s.account.sub.status)
    ensures After(s, [a] + run, delays, cal) == After(t, run, delays, cal)
    ensures Possible(t, run, delays, cal) ==> Possible(s, [a] + run, delays, cal)
    ensures Possible(t, run, delays, cal) && StaysLive(t, run, delays, cal) ==> StaysLive(s, [a] + run, delays, cal)
    ensures run == [] ==> Possible(t, run, delays, cal) && After(t, run, delays, cal) == t
    ensures run == [] ==> (StaysLive(t, run, delays, cal) <==> Live(t.account.sub.status))
  {
    assert ([a] + run)[1..] == run;
    hide Next, Enabled;
  }

  /** The key of a running subscription is always there exactly when a refresh takes less than two hours. */
  lemma KeyIsThereIffShort(s: State, delays: seq<nat>, cal: Calendar)
    requires Opened(s) && !s.syncing
    ensures s.duration < TIER_TTL - SYNC_GAP <==> forall run: seq<Action> ::
      Possible(s, run, delays, cal) && StaysLive(s, run, delays, cal) ==> After(s, run, delays, cal).key.Some?
  {
    hide After, Possible, StaysLive;
    if s.duration < TIER_TTL - SYNC_GAP {
      forall run: seq<Action> | Possible(s, run, delays, cal) && StaysLive(s, run, delays, cal)
        ensures After(s, run, delays, cal).key.Some?
      {
        KeyWhileLive(s, run, delays, cal);
      }
    } else {
      LongRefreshLosesKey(s, delays, cal);
    }
  }

  /** No accepted plan change falls between a refresh's read and its write. */
  predicate Unraced(run: seq<Action>) {
    forall r, w | 0 <= r < w < |run| && ReadAt(run, w, r) && run[w].SyncWrite? :: !ChangedBetween(run, r, w)
  }

  /** Without a plan change inside a refresh, a key that is there always names the plan's tier. */
  lemma KeyIsRightUnraced(s: State, run: seq<Action>, delays: seq<nat>, cal: Calendar)
    requires Opened(s) && Possible(s, run, delays, cal) && Unraced(run)
    ensures var t := After(s, run, delays, cal); t.key.Some? ==> t.key.value.tier == ResolveTier(t.account.sub.planId)
  {
    hide ResolveTier, After, Possible, ChangedBetween;
    KeyIsWrongIffRaced(s, run, delays, cal);
    assert forall r: nat, w: nat :: !Raced(s, run, |run|, r, w, delays, cal);
  }

  /**
   A plan change inside a refresh leaves the old plan's tier for six more hours, wrong exactly when the two tiers
   differ.
   */
  lemma PlanChangeInsideRefresh(s: State, e: Event, delays: seq<nat>, cal: Calendar)
    requires Cached(s) && !s.syncing && Live(s.account.sub.status) && PlanChanges(e) && e.now == s.now
    ensures var run := [SyncRead, Bill(e), SyncWrite];
      && Possible(s, run, delays, cal)
      && var t := After(s, run, delays, cal);
      && t.account.sub.planId == e.planId
      && t.key == Some(Key(ResolveTier(s.account.sub.planId), s.now + TIER_TTL))
  {
    PlanOfStep(s.account, e, delays, cal);
    hide Billing.Step, ResolveTier, Cached, Offered;
    var r1 := Next(s, SyncRead, delays, cal);
    var r2 := Next(r1, Bill(e), delays, cal);
    var r3 := Next(r2, SyncWrite, delays, cal);
    assert Possible(r3, [], delays, cal) && After(r3, [], delays, cal) == r3;
    assert [SyncWrite][1..] == [] && [Bill(e), SyncWrite][1..] == [SyncWrite];
    assert [SyncRead, Bill(e), SyncWrite][1..] == [Bill(e), SyncWrite];
    assert Possible(r2, [SyncWrite], delays, cal) && After(r2, [SyncWrite], delays, cal) == r3;
    assert Possible(r1, [Bill(e), SyncWrite], delays, cal) && After(r1, [Bill(e), SyncWrite], delays, cal) == r3;
  }

  // ------------------------------------------------------------------ the service over all tenants

  /** What a refresh has read of a row: the tenant and the plan. */
  datatype Reading = Reading(tenantId: string, planId: string)

  function KeyOf(keys: map<string, Key>, tenantId: string): Option<Key> {
    if tenantId in keys then Some(keys[tenantId]) else None
  }

  predicate SameForOthers(before: map<string, Key>, after: map<string, Key>, tenantId: string) {
    forall t | t in before.Keys + after.Keys && t != tenantId :: KeyOf(before, t) == KeyOf(after, t)
  }

  /** The state is that of one of the tenants: its row, its key, and the time. */
  predicate IsTenant(s: State, a: Account, keys: map<string, Key>, now: int) {
    s.account == a && s.key == KeyOf(keys, a.sub.tenantId) && s.now == now
  }

  class RateLimitSync {
    var keys: map<string, Key>

    constructor ()
      ensures keys == map[]
    {
      keys := map[];
    }

    /** The tenant's key becomes what a plan change writes in the state machine of one tenant; other keys stay. */
    method SyncTenant(tenantId: string, planId: string, now: int)
      modifies this
      ensures forall s: State | s.account.sub.tenantId == tenantId && IsTenant(s, s.account, old(keys), now) ::
        KeyOf(keys, tenantId) == Written(s, planId).key
      ensures KeyOf(keys, tenantId).Some? && KeyOf(keys, tenantId).value.expires == now + TIER_TTL
      ensures NamesTier(planId, KeyOf(keys, tenantId).value.tier)
      ensures SameForOthers(old(keys), keys, tenantId)
    {
      TierOfPlan(planId);
      var tier := ResolveTier(planId);
      keys := keys[tenantId := Key(tier, now + TIER_TTL)];
    }

    /** The tenant has no key, as after an immediate cancellation in the state machine; other keys stay. */
    method RemoveTenant(tenantId: string)
      modifies this
      ensures KeyOf(keys, tenantId) == None
      ensures SameForOthers(old(keys), keys, tenantId)
    {
      keys := keys - {tenantId};
    }

    /** The rows that are active or trialing, in order. */
    method ReadRunning(rows: seq<Account>) returns (found: seq<Reading>)
      ensures forall r | r in found :: exists i :: 0 <= i < |rows| && RunningAs(rows[i], r)
      ensures forall i | 0 <= i < |rows| && Live(rows[i].sub.status) :: ReadingOf(rows[i]) in found
      ensures UniqueTenants(rows) ==> forall i, j | 0 <= i < j < |found| :: found[i].tenantId != found[j].tenantId
    {
      found := [];
      for i := 0 to |rows|
        invariant forall r | r in found :: exists j :: 0 <= j < i && RunningAs(rows[j], r)
        invariant forall j | 0 <= j < i && Live(rows[j].sub.status) :: ReadingOf(rows[j]) in found
        invariant UniqueTenants(rows) ==> forall j, k | 0 <= j < k < |found| :: found[j].tenantId != found[k].tenantId
      {
        if Live(rows[i].sub.status) {
          assert forall k | 0 <= k < |found| :: found[k] in found;
          found := found + [ReadingOf(rows[i])];
        }
      }
    }

    /** One pipeline over what was read: each tenant read has its plan's tier for six hours, every other key stays. */
    method WriteAll(found: seq<Reading>, now: int)
      requires forall i, j | 0 <= i < j < |found| :: found[i].tenantId != found[j].tenantId
      modifies this
      ensures forall r | r in found ::
        && KeyOf(keys, r.tenantId) == Some(Key(ResolveTier(r.planId), now + TIER_TTL))
        && NamesTier(r.planId, KeyOf(keys, r.tenantId).value.tier)
      ensures forall t | (forall r | r in found :: r.tenantId != t) :: KeyOf(keys, t) == KeyOf(old(keys), t)
    {
      hide ResolveTier;
      for i := 0 to |found|
        invariant forall j | 0 <= j < i ::
          KeyOf(keys, found[j].tenantId) == Some(Key(ResolveTier(found[j].planId), now + TIER_TTL))
        invariant forall t | (forall r | r in found :: r.tenantId != t) :: KeyOf(keys, t) == KeyOf(old(keys), t)
      {
        assert found[i] in found;
        keys := keys[found[i].tenantId := Key(ResolveTier(found[i].planId), now + TIER_TTL)];
      }
      forall r | r in found ensures NamesTier(r.planId, ResolveTier(r.planId)) { TierOfPlan(r.planId); }
    }

    /**
     A refresh of all tenants that nothing interrupts: the key of every row ends as that of its own
     state machine after the read and the write, and no tenant without a row gets or loses one.
     */
    method SyncAll(rows: seq<Account>, now: int)
      requires UniqueTenants(rows)
      modifies this
      ensures forall i, s: State | 0 <= i < |rows| && IsTenant(s, rows[i], old(keys), now) ::
        KeyOf(keys, rows[i].sub.tenantId) == WriteKey(ReadRow(s)).key
      ensures forall i | 0 <= i < |rows| && (rows[i].sub.status.Active? || rows[i].sub.status.Trialing?) ::
        && KeyOf(keys, rows[i].sub.tenantId).Some?
        && KeyOf(keys, rows[i].sub.tenantId).value.expires == now + TIER_TTL
        && NamesTier(rows[i].sub.planId, KeyOf(keys, rows[i].sub.tenantId).value.tier)
      ensures forall i | 0 <= i < |rows| && (rows[i].sub.status.PastDue? || rows[i].sub.status.Cancelled?) ::
        KeyOf(keys, rows[i].sub.tenantId) == KeyOf(old(keys), rows[i].sub.tenantId)
      ensures forall t | (forall i | 0 <= i < |rows| :: rows[i].sub.tenantId != t) ::
        KeyOf(keys, t) == KeyOf(old(keys), t)
    {
      hide ResolveTier;
      var found := ReadRunning(rows);
      WriteAll(found, now);
      forall i, s: State | 0 <= i < |rows| && IsTenant(s, rows[i], old(keys), now)
        ensures KeyOf(keys, rows[i].sub.tenantId) == WriteKey(ReadRow(s)).key
      {
        if Live(rows[i].sub.status) {
          assert ReadingOf(rows[i]) in found;
        } else {
          forall r | r in found ensures r.tenantId != rows[i].sub.tenantId {
            var j :| 0 <= j < |rows| && RunningAs(rows[j], r);
            assert j != i;
          }
        }
      }
    }
  }

  function ReadingOf(a: Account): Reading { Reading(a.sub.tenantId, a.sub.planId) }

  predicate RunningAs(a: Account, r: Reading) { Live(a.sub.status) && r == ReadingOf(a) }

  /**
   The steps of one tenant: a plan change writes, an immediate cancellation deletes, and a refresh reads and
   writes.
   */
  lemma StepsOfOneTenant(s: State, e: Event, delays: seq<nat>, cal: Calendar)
    requires e.now == s.now
    ensures PlanChanges(e) ==> Next(s, Bill(e), delays, cal).key == Written(s, e.planId).key
    ensures Ends(s.account, e) ==> Next(s, Bill(e), delays, cal).key == None
    ensures !PlanChanges(e) && !Ends(s.account, e) ==> Next(s, Bill(e), delays, cal).key == s.key
    ensures Next(Next(s, SyncRead, delays, cal), SyncWrite, delays, cal) == WriteKey(ReadRow(s))
  {
  }
}
