/**
 The daily e-archive batches of one tenant: which invoices a run sends and which it records, the report
 row per date that each run overwrites, and retries of failed reports.
 */
module ArchiveReports {
  import opened Numbers
  import opened Wrappers

  // ------------------------------------------------------------------ documents

  datatype Behavior = Envelope | Reporting

  const REPORTING_PROFILES: set<string> := {"EARSIVFATURA", "ESMM", "EMM", "EBILET", "EADISYON", "EDOVIZ"}

  /** A profile that is not listed is sent at once. */
  function GetDocumentBehavior(profile: string): Behavior {
    if profile in REPORTING_PROFILES then Reporting else Envelope
  }

  datatype Signer = TenantSeal | IntegratorSeal

  function GetSignerType(profile: string): Signer {
    if GetDocumentBehavior(profile).Reporting? then IntegratorSeal else TenantSeal
  }

  datatype GibStatus = Open | Reported | Cancelled

  datatype Invoice = Invoice(uuid: Option<string>, profile: string, date: int, status: GibStatus)

  type Id = nat

  /** One row per date; `error` says that an error text is stored. */
  datatype Report = Report(ids: set<Id>, success: bool, retries: nat, error: bool)

  /** A batch that counted as sent: the invoices in the document, and those the system noted. */
  datatype Batch = Batch(sent: set<Id>, noted: set<Id>)

  datatype State = State(invoices: map<Id, Invoice>, reports: map<int, Report>, batches: seq<Batch>)

  // ------------------------------------------------------------------ the gateway

  datatype StatusAnswer = StatusThrew | StatusCode(code: int)

  /**
   Signing may fail; sending may throw, or answer with a success flag and perhaps a package id whose status is then
   asked.
   */
  datatype Answer = SigningFailed | SendThrew | Sent(success: bool, packageId: bool, status: StatusAnswer)

  predicate Accepted(code: int) { code == 0 || code == 200 }

  /** A daily run trusts the send flag, whatever the status code says; only an exception takes it back. */
  predicate DailySuccess(a: Answer) { a.Sent? && a.success && !(a.packageId && a.status.StatusThrew?) }

  /** A retry needs a package and an accepted code. */
  predicate RetrySuccess(a: Answer) {
    a.Sent? && a.success && a.packageId && a.status.StatusCode? && Accepted(a.status.code)
  }

  /** An error text is stored unless all went well; a send that claims success with a bad code stores both. */
  predicate DailyError(a: Answer) {
    || a.SendThrew?
    || (a.Sent? && !a.success)
    || (a.Sent? && a.packageId && (a.status.StatusThrew? || !Accepted(a.status.code)))
  }

  // ------------------------------------------------------------------ one run

  /**
   The query and the filter after it: of the date, not reported or cancelled, not in the date's successful report,
   a reporting profile.
   */
  predicate Selected(s: State, date: int, i: Id) {
    && i in s.invoices
    && s.invoices[i].date == date && s.invoices[i].status.Open?
    && !(date in s.reports && s.reports[date].success && i in s.reports[date].ids)
    && GetDocumentBehavior(s.invoices[i].profile).Reporting?
  }

  /** An open invoice of the date, of a profile that is reported, and not in a report that went through. */
  predicate ToReport(s: State, date: int, i: Id) {
    && i in s.invoices && s.invoices[i].status == Open && s.invoices[i].date == date
    && s.invoices[i].profile in ["EARSIVFATURA", "ESMM", "EMM", "EBILET", "EADISYON", "EDOVIZ"]
    && (date in s.reports && s.reports[date].success ==> i !in s.reports[date].ids)
  }

  /** A run selects exactly the invoices that are to be reported. */
  lemma ToReportIsSelected(s: State, date: int)
    ensures forall i :: i in Selection(s, date) <==> ToReport(s, date, i)
    ensures Selection(s, date) == set i | i in s.invoices && ToReport(s, date, i)
  {
  }

  /** A retry has something to send. */
  predicate Resendable(s: State, date: int) {
    date in s.reports && exists i :: i in s.reports[date].ids && i in s.invoices
  }

  function Selection(s: State, date: int): set<Id> { set i | i in s.invoices && Selected(s, date, i) }

  /** The ids looked up again by the identifiers that were sent; a missing identifier matches nothing. */
  function Noted(s: State, sent: set<Id>): set<Id> {
    set i, j | i in s.invoices && j in sent && j in s.invoices && s.invoices[i].uuid.Some? &&
      s.invoices[i].uuid == s.invoices[j].uuid :: i
  }

  function Mark(invoices: map<Id, Invoice>, ids: set<Id>): map<Id, Invoice> {
    map i | i in invoices :: if i in ids then invoices[i].(status := Reported) else invoices[i]
  }

  /** A second run for a date takes the row over: its ids, its outcome, and one retry more up to five. */
  function Upserted(reports: map<int, Report>, date: int, ids: set<Id>, success: bool, error: bool): map<int, Report> {
    var retries :=
      if date !in reports then 0
      else if reports[date].retries < 5 then reports[date].retries + 1
      else reports[date].retries;
    reports[date := Report(ids, success, retries, error)]
  }

  function Daily(s: State, date: int, a: Answer): State {
    var sent := Selection(s, date);
    if sent == {} || a.SigningFailed? then s
    else
      var noted, success := Noted(s, sent), DailySuccess(a);
      State(
        if success then Mark(s.invoices, noted) else s.invoices,
        Upserted(s.reports, date, noted, success, DailyError(a)),
        if success then s.batches + [Batch(sent, noted)] else s.batches)
  }

  /** A retry sends what the report lists, whatever has become of it; nothing to send is an error. */
  function Retry(s: State, date: int, a: Answer): State {
    if date !in s.reports || s.reports[date].ids * s.invoices.Keys == {} || a.SigningFailed? then s
    else
      var r, success := s.reports[date], RetrySuccess(a);
      State(
        if success then Mark(s.invoices, r.ids) else s.invoices,
        s.reports[date := Report(r.ids, success, r.retries + 1, !success)],
        if success then s.batches + [Batch(r.ids * s.invoices.Keys, r.ids)] else s.batches)
  }

  lemma ResendableRows(s: State, date: int)
    requires date in s.reports
    ensures Resendable(s, date) <==> s.reports[date].ids * s.invoices.Keys != {}
  {
    var rows := s.reports[date].ids * s.invoices.Keys;
    if Resendable(s, date) {
      var i :| i in s.reports[date].ids && i in s.invoices;
      assert i in rows;
    }
    if rows != {} {
      var i :| i in rows;
      assert i in s.reports[date].ids && i in s.invoices;
    }
  }

  class ArchiveReporting {
    var state: State

    constructor ()
      ensures state == State(map[], map[], [])
    {
      state := State(map[], map[], []);
    }

    /** The daily run of one date, branch by branch. */
    method ProcessOneTenant(date: int, a: Answer)
      modifies this
      ensures state == Daily(old(state), date, a)
      ensures a.SigningFailed? || (forall i :: !ToReport(old(state), date, i)) ==> state == old(state)
      ensures !a.SigningFailed? && (exists i :: ToReport(old(state), date, i)) ==>
        var sent := set i | i in old(state).invoices && ToReport(old(state), date, i);
        var before := if date in old(state).reports then Some(old(state).reports[date]) else None;
        var success := a.Sent? && a.success && !(a.packageId && a.status.StatusThrew?);
        && state.reports.Keys == old(state).reports.Keys + {date}
        && (forall d | d in old(state).reports && d != date :: state.reports[d] == old(state).reports[d])
        && state.reports[date].success == success
        && (forall i :: i in state.reports[date].ids <==>
              && i in old(state).invoices && old(state).invoices[i].uuid.Some?
              && exists j :: j in sent && old(state).invoices[j].uuid == old(state).invoices[i].uuid)
        && (state.reports[date].error <==>
              || a.SendThrew? || !a.success
              || (a.packageId && (a.status.StatusThrew? || a.status.code !in {0, 200})))
        && state.reports[date].retries ==
             (if before.None? then 0 else if before.value.retries < 5 then before.value.retries + 1
              else before.value.retries)
        && state.invoices.Keys == old(state).invoices.Keys
        && (!success ==> state.invoices == old(state).invoices && state.batches == old(state).batches)
        && (success ==> state.batches == old(state).batches + [Batch(sent, state.reports[date].ids)])
        && (success ==> forall i | i in state.invoices ::
              state.invoices[i] == if i in state.reports[date].ids then old(state).invoices[i].(status := Reported)
                else old(state).invoices[i])
    {
      ToReportIsSelected(state, date);
      var rows := Selection(state, date);
      assert rows != {} <==> exists i :: i in rows;
      if rows == {} { return; }
      if a.SigningFailed? { return; }
      var isSuccess, lastError := false, false;
      if a.SendThrew? {
        lastError := true;
      } else if a.success && a.packageId {
        if a.status.StatusThrew? {
          lastError := true;
        } else {
          lastError := a.status.code != 0 && a.status.code != 200;
          isSuccess := true;
        }
      } else if !a.success {
        lastError := true;
      } else {
        isSuccess := true;
      }
      var ids := Noted(state, rows);
      var reports := Upserted(state.reports, date, ids, isSuccess, lastError);
      assert lastError == DailyError(a) && isSuccess == DailySuccess(a);
      if isSuccess {
        state := State(Mark(state.invoices, ids), reports, state.batches + [Batch(rows, ids)]);
      } else {
        state := state.(reports := reports);
      }
    }

    /** A retry of one report; it is refused when the report or its invoices are not there. */
    method RetryReport(date: int, a: Answer) returns (success: bool)
      modifies this
      ensures state == Retry(old(state), date, a)
      ensures success <==> state.batches != old(state).batches
      ensures success <==>
        && Resendable(old(state), date)
        && a.Sent? && a.success && a.packageId && a.status.StatusCode? && a.status.code in {0, 200}
      ensures !Resendable(old(state), date) || a.SigningFailed? ==> state == old(state)
      ensures Resendable(old(state), date) && !a.SigningFailed? ==>
        && state.reports == old(state).reports[date :=
             Report(old(state).reports[date].ids, success, old(state).reports[date].retries + 1, !success)]
        && (!success ==> state.invoices == old(state).invoices)
        && state.invoices.Keys == old(state).invoices.Keys
        && (success ==> forall i | i in state.invoices ::
              state.invoices[i] == if i in old(state).reports[date].ids
                then old(state).invoices[i].(status := Reported) else old(state).invoices[i])
    {
      if date !in state.reports { return false; }
      var report := state.reports[date];
      var rows := report.ids * state.invoices.Keys;
      assert Resendable(state, date) <==> rows != {} by { ResendableRows(state, date); }
      if rows == {} || a.SigningFailed? { return false; }
      success := false;
      if a.Sent? && a.success && a.packageId && a.status.StatusCode? {
        success := a.status.code == 0 || a.status.code == 200;
      }
      var reports := state.reports[date := Report(report.ids, success, report.retries + 1, !success)];
      if success {
        state := State(Mark(state.invoices, report.ids), reports, state.batches + [Batch(rows, report.ids)]);
      } else {
        state := state.(reports := reports);
      }
    }
  }

  /**
   Reporting documents carry the integrator's seal, all others the tenant's; what is batched is what the integrator
   seals.
   */
  lemma BatchedIsIntegratorSealed(s: State, date: int, i: Id)
    requires i in Selection(s, date)
    ensures GetSignerType(s.invoices[i].profile) == IntegratorSeal
    ensures s.invoices[i].profile in REPORTING_PROFILES
  {
  }

  // ------------------------------------------------------------------ days of batches

  /** Between runs invoices are issued with identifiers of their own, or cancelled. */
  datatype Event = DailyRun(date: int, answer: Answer) | RetryRun(date: int, answer: Answer) | Issue(id: Id,
    invoice: Invoice) | Cancel(id: Id)

  predicate FreshUuid(s: State,
      v: Invoice) { v.uuid.Some? ==> forall i | i in s.invoices :: s.invoices[i].uuid != v.uuid }

  /** Only failed reports are retried. */
  predicate Enabled(s: State, e: Event) {
    match e
    case DailyRun(_, _) => true
    case RetryRun(date, _) => date in s.reports && !s.reports[date].success
    case Issue(id, v) => id !in s.invoices && v.status.Open? && FreshUuid(s, v)
    case Cancel(id) => id in s.invoices
  }

  function Next(s: State, e: Event): State {
    match e
    case DailyRun(date, a) => Daily(s, date, a)
    case RetryRun(date, a) => Retry(s, date, a)
    case Issue(id, v) => s.(invoices := s.invoices[id := v])
    case Cancel(id) =>
      if id in s.invoices then s.(invoices := s.invoices[id := s.invoices[id].(status := Cancelled)]) else s
  }

  predicate Possible(s: State, es: seq<Event>)
    decreases |es|
  {
    es == [] || (Enabled(s, es[0]) && Possible(Next(s, es[0]), es[1..]))
  }

  function After(s: State, es: seq<Event>): State
    decreases |es|
  {
    if es == [] then s else After(Next(s, es[0]), es[1..])
  }

  // ------------------------------------------------------------------ the invariant

  predicate UniqueUuids(s: State) {
    forall i, j | i in s.invoices && j in s.invoices && s.invoices[i].uuid.Some? &&
      s.invoices[i].uuid == s.invoices[j].uuid :: i == j
  }

  /** A report lists invoices of its date that have an identifier. */
  predicate ReportRight(s: State, date: int)
    requires date in s.reports
  {
    forall i | i in s.reports[date].ids :: i in s.invoices && s.invoices[i].date == date && s.invoices[i].uuid.Some?
  }

  /** Some successful batch has noted the invoice. */
  ghost predicate WasNoted(s: State, i: Id) { exists k :: 0 <= k < |s.batches| && i in s.batches[k].noted }

  /** What a batch noted is what it sent and could identify. */
  ghost predicate BatchRight(s: State, b: Batch) {
    && (forall i | i in b.sent :: i in s.invoices)
    && (forall i :: i in b.noted <==> i in b.sent && s.invoices[i].uuid.Some?)
  }

  predicate Apart(bs: seq<Batch>) { forall j, k, i | 0 <= j < k < |bs| && i in bs[j].noted :: i !in bs[k].noted }

  ghost predicate Sound(s: State) {
    && UniqueUuids(s)
    && (forall d | d in s.reports :: ReportRight(s, d))
    && (forall k | 0 <= k < |s.batches| :: BatchRight(s, s.batches[k]))
    && Apart(s.batches)
    && (forall i | WasNoted(s, i) :: i in s.invoices && !s.invoices[i].status.Open?)
    && (forall d, i | d in s.reports && !s.reports[d].success && i in s.reports[d].ids :: !WasNoted(s, i))
    && (forall d, i | d in s.reports && s.reports[d].success && i in s.reports[d].ids :: WasNoted(s, i))
  }

  /** Looking ids up again finds exactly the sent invoices that have an identifier. */
  lemma NotedIsSent(s: State, sent: set<Id>)
    requires UniqueUuids(s) && sent <= s.invoices.Keys
    ensures forall i :: i in Noted(s, sent) <==> i in sent && s.invoices[i].uuid.Some?
  {
    forall i | i in sent && s.invoices[i].uuid.Some? ensures i in Noted(s, sent) {
      assert i in s.invoices && i in sent;
    }
  }

  lemma NoteNothing(s: State, bs: seq<Batch>, b: Batch, i: Id)
    requires s.batches == bs + [b]
    ensures WasNoted(s, i) <==> (exists k :: 0 <= k < |bs| && i in bs[k].noted) || i in b.noted
  {
    if k :| 0 <= k < |bs| && i in bs[k].noted { assert i in s.batches[k].noted; }
    if i in b.noted { assert i in s.batches[|bs|].noted; }
  }

  /**
   Sending and noting more: a batch of open invoices, or of the invoices of a failed report, that none noted
   before.
   */
  lemma NotingKeepsApart(s: State, t: State, b: Batch)
    requires Sound(s) && t.batches == s.batches + [b] && BatchRight(t, b)
    requires forall i | i in b.noted :: !WasNoted(s, i)
    requires forall i | i in s.invoices :: i in t.invoices && t.invoices[i].uuid == s.invoices[i].uuid
    ensures Apart(t.batches) && forall k | 0 <= k < |t.batches| :: BatchRight(t, t.batches[k])
  {
    forall k | 0 <= k < |t.batches| ensures BatchRight(t, t.batches[k]) {
      if k < |s.batches| { assert BatchRight(s, s.batches[k]); }
    }
  }

  /** What a run notes is open, of its date and never noted before; it is what it sends and can identify. */
  lemma NotedAreOpen(s: State, date: int)
    requires Sound(s)
    ensures Selection(s, date) <= s.invoices.Keys
    ensures forall i :: i in Noted(s, Selection(s, date)) <==> i in Selection(s, date) && s.invoices[i].uuid.Some?
    ensures forall i | i in Noted(s, Selection(s, date)) :: s.invoices[i].date == date && !WasNoted(s, i)
  {
    NotedIsSent(s, Selection(s, date));
  }

  /** The ids were never noted; they are invoices of the date with an identifier. */
  ghost predicate Notable(s: State, date: int, ids: set<Id>) {
    forall i | i in ids :: i in s.invoices && s.invoices[i].date == date && s.invoices[i].uuid.Some? && !WasNoted(s, i)
  }

  /** A successful send: its invoices are marked, its report and its batch list them. */
  predicate Noting(s: State, t: State, date: int, ids: set<Id>, sent: set<Id>) {
    && t.invoices == Mark(s.invoices, ids) && t.batches == s.batches + [Batch(sent, ids)]
    && date in t.reports && t.reports == s.reports[date := t.reports[date]]
    && t.reports[date].success && t.reports[date].ids == ids
  }

  lemma NotingKeepsReports(s: State, t: State, date: int, ids: set<Id>, sent: set<Id>)
    requires Sound(s) && Notable(s, date, ids) && Noting(s, t, date, ids, sent)
    ensures UniqueUuids(t) && forall d | d in t.reports :: ReportRight(t, d)
    ensures forall d, i | d in t.reports && d != date && i in t.reports[d].ids :: i !in ids
  {
    hide WasNoted, Apart, BatchRight;
    forall d | d in t.reports ensures ReportRight(t, d) {
      if d != date { assert ReportRight(s, d); }
    }
    forall d, i | d in t.reports && d != date && i in t.reports[d].ids ensures i !in ids { assert ReportRight(s, d); }
  }

  lemma NotingKeepsSound(s: State, t: State, date: int, ids: set<Id>, sent: set<Id>)
    requires Sound(s) && Notable(s, date, ids) && Noting(s, t, date, ids, sent)
    requires sent <= s.invoices.Keys && forall i :: i in ids <==> i in sent && s.invoices[i].uuid.Some?
    ensures Sound(t)
  {
    NotingKeepsReports(s, t, date, ids, sent);
    NotingKeepsApart(s, t, Batch(sent, ids));
    forall i ensures WasNoted(t, i) <==> WasNoted(s, i) || i in ids { NoteNothing(t, s.batches, Batch(sent, ids), i); }
    hide WasNoted, Apart, BatchRight, ReportRight, UniqueUuids;
  }

  /** A failed send: only the date's report changes, and lists ids that were never noted. */
  lemma FailingKeepsSound(s: State, t: State, date: int, ids: set<Id>)
    requires Sound(s) && Notable(s, date, ids) && t.invoices == s.invoices && t.batches == s.batches
    requires date in t.reports && t.reports == s.reports[date := t.reports[date]]
    requires !t.reports[date].success && t.reports[date].ids == ids
    ensures Sound(t)
  {
    forall d | d in t.reports ensures ReportRight(t, d) {
      if d != date { assert ReportRight(s, d); }
    }
    forall k | 0 <= k < |t.batches| ensures BatchRight(t, t.batches[k]) { assert BatchRight(s, s.batches[k]); }
    assert forall i :: WasNoted(t, i) <==> WasNoted(s, i);
    hide WasNoted, Apart, BatchRight, ReportRight;
  }

  lemma DailyKeepsSound(s: State, date: int, a: Answer)
    requires Sound(s)
    ensures Sound(Daily(s, date, a))
  {
    NotedAreOpen(s, date);
    hide Sound, Selection, Noted, DailySuccess, DailyError, WasNoted, Mark;
    var sent := Selection(s, date);
    var noted := Noted(s, sent);
    if sent != {} && !a.SigningFailed? {
      if DailySuccess(a) {
        NotingKeepsSound(s, Daily(s, date, a), date, noted, sent);
      } else {
        FailingKeepsSound(s, Daily(s, date, a), date, noted);
      }
    }
  }

  lemma FailedIsNotable(s: State, date: int)
    requires Sound(s) && date in s.reports && !s.reports[date].success
    ensures Notable(s, date, s.reports[date].ids)
  {
    hide WasNoted, Apart, BatchRight, UniqueUuids;
    assert ReportRight(s, date);
  }

  lemma RetryKeepsSound(s: State, date: int, a: Answer)
    requires Sound(s) && date in s.reports && !s.reports[date].success
    ensures Sound(Retry(s, date, a))
  {
    FailedIsNotable(s, date);
    hide Sound, RetrySuccess, WasNoted, Mark;
    var ids := s.reports[date].ids;
    assert ids * s.invoices.Keys == ids;
    if ids != {} && !a.SigningFailed? {
      if RetrySuccess(a) {
        NotingKeepsSound(s, Retry(s, date, a), date, ids, ids);
      } else {
        FailingKeepsSound(s, Retry(s, date, a), date, ids);
      }
    }
  }

  lemma NextKeepsSound(s: State, e: Event)
    requires Sound(s) && Enabled(s, e)
    ensures Sound(Next(s, e))
  {
    hide Daily, Retry;
    match e
    case DailyRun(date, a) => DailyKeepsSound(s, date, a);
    case RetryRun(date, a) => RetryKeepsSound(s, date, a);
    case _ =>
      var t := Next(s, e);
      forall d | d in t.reports ensures ReportRight(t, d) { assert ReportRight(s, d); }
      forall k | 0 <= k < |t.batches| ensures BatchRight(t, t.batches[k]) { assert BatchRight(s, s.batches[k]); }
      assert forall i :: WasNoted(t, i) <==> WasNoted(s, i);
      hide WasNoted, Apart, BatchRight, ReportRight;
  }

  lemma {:induction false} AfterKeepsSound(s: State, es: seq<Event>)
    requires Sound(s) && Possible(s, es)
    ensures Sound(After(s, es))
    decreases |es|
  {
    hide Sound, Next, Enabled;
    if es != [] {
      NextKeepsSound(s, es[0]);
      AfterKeepsSound(Next(s, es[0]), es[1..]);
    }
  }

  // ------------------------------------------------------------------ once sent, and noted

  /**
   Over any days: an invoice with an identifier is in at most one successful batch, and once in one it is reported
   or cancelled.
   */
  lemma SentAtMostOnce(es: seq<Event>)
    requires Possible(State(map[], map[], []), es)
    ensures var s := After(State(map[], map[], []), es);
      && (forall j, k, i | 0 <= j < k < |s.batches| && i in s.batches[j].sent && i in s.batches[k].sent ::
            i in s.invoices && s.invoices[i].uuid.None?)
      && (forall k, i | 0 <= k < |s.batches| && i in s.batches[k].sent ::
            i in s.invoices && (s.invoices[i].uuid.Some? ==> !s.invoices[i].status.Open?))
  {
    var s := After(State(map[], map[], []), es);
    AfterKeepsSound(State(map[], map[], []), es);
    hide After, Possible;
    forall k, i | 0 <= k < |s.batches| && i in s.batches[k].sent
      ensures i in s.invoices && (s.invoices[i].uuid.Some? ==> i in s.batches[k].noted && !s.invoices[i].status.Open?)
    {
      assert BatchRight(s, s.batches[k]);
      if i in s.batches[k].noted { assert WasNoted(s, i); }
    }
    hide BatchRight, WasNoted, UniqueUuids, ReportRight;
  }

  /**
   A successful run leaves nothing of its date to select but the invoices without an identifier, and those it sends
   again every time.
   */
  lemma SuccessfulRunLeaves(s: State, date: int, a: Answer)
    requires Sound(s) && DailySuccess(a)
    ensures var t := Daily(s, date, a);
      && (forall i :: i in Selection(t, date) <==> i in Selection(s, date) && s.invoices[i].uuid.None?)
      && (forall i | i in Selection(s, date) && s.invoices[i].uuid.Some? :: t.invoices[i].status.Reported?)
      && (Selection(s, date) != {} ==>
        t.batches == s.batches + [Batch(Selection(s, date), Noted(s, Selection(s, date)))])
  {
    var sent := Selection(s, date);
    NotedIsSent(s, sent);
    hide WasNoted, Apart, BatchRight, UniqueUuids, DailySuccess, DailyError;
    var t := Daily(s, date, a);
    forall i | i in t.invoices ensures i in Selection(t, date) <==> i in sent && s.invoices[i].uuid.None? {
      if i in Selection(s, date) {
        assert Selected(s, date, i);
      } else if date in s.reports && s.reports[date].success && i in s.reports[date].ids {
        NotedIsClosed(s, date, i);
      }
    }
  }

  lemma NotedIsClosed(s: State, date: int, i: Id)
    requires Sound(s) && date in s.reports && s.reports[date].success && i in s.reports[date].ids
    ensures i in s.invoices && !s.invoices[i].status.Open?
  {
    assert WasNoted(s, i);
  }

  /** A reported invoice stays so until it is cancelled. */
  lemma {:induction false} ReportedStays(s: State, es: seq<Event>, i: Id)
    requires Possible(s, es) && i in s.invoices && s.invoices[i].status.Reported?
    requires forall e | e in es :: e != Cancel(i)
    ensures i in After(s, es).invoices && After(s, es).invoices[i].status.Reported?
    decreases |es|
  {
    hide Selection, Noted, Selected, Upserted;
    if es != [] {
      assert es[0] in es;
      assert forall e | e in es[1..] :: e in es;
      ReportedStays(Next(s, es[0]), es[1..], i);
    }
  }

  /** A second run for a date takes over its report, and the ids it drops are closed already. */
  lemma OverwritingIsSafe(s: State, date: int, a: Answer)
    requires Sound(s) && Selection(s, date) != {} && !a.SigningFailed? && date in s.reports && s.reports[date].success
    ensures var t := Daily(s, date, a);
      && t.reports[date].ids == Noted(s, Selection(s, date))
      && s.reports[date].ids * t.reports[date].ids == {}
      && forall i | i in s.reports[date].ids :: i in t.invoices && !t.invoices[i].status.Open? && !Selected(t, date, i)
  {
    NotedIsSent(s, Selection(s, date));
    hide WasNoted, Apart, BatchRight, UniqueUuids, DailySuccess, DailyError;
    forall i | i in s.reports[date].ids ensures i in s.invoices && !s.invoices[i].status.Open? {
      NotedIsClosed(s, date, i);
    }
    assert forall i | i in Noted(s, Selection(s, date)) :: Selected(s, date, i);
  }

  /** A retry reports what its report lists even when it was cancelled in between. */
  lemma CancelledIsRetried(s: State, date: int, a: Answer, i: Id)
    requires Sound(s) && date in s.reports && i in s.reports[date].ids && s.invoices[i].status.Cancelled? &&
      RetrySuccess(a)
    requires i in s.invoices
    ensures var t := Retry(s, date, a);
      && t.invoices[i].status.Reported?
      && |t.batches| == |s.batches| + 1 && i in t.batches[|s.batches|].sent
  {
    assert i in s.reports[date].ids * s.invoices.Keys;
    hide Sound, RetrySuccess;
  }

  /**
   A cancelled invoice is reported by a step exactly when that is a successful retry of a report that lists it;
   never by a daily run.
   */
  lemma CancelledIsReportedByRetry(s: State, e: Event, i: Id)
    requires Sound(s) && Enabled(s, e) && i in s.invoices && s.invoices[i].status.Cancelled?
    ensures i in Next(s, e).invoices
    ensures Next(s, e).invoices[i].status.Reported? <==> Revives(s, e, i)
    ensures !Next(s, e).invoices[i].status.Reported? ==> Next(s, e).invoices[i].status.Cancelled?
  {
    if e.DailyRun? {
      NotedIsSent(s, Selection(s, e.date));
      assert !Selected(s, e.date, i);
    } else if e.RetryRun? && i in s.reports[e.date].ids {
      assert i in s.reports[e.date].ids * s.invoices.Keys;
    }
    hide Sound, RetrySuccess, DailySuccess, DailyError, Noted;
  }

  predicate Revives(s: State, e: Event, i: Id) {
    e.RetryRun? && e.date in s.reports && i in s.reports[e.date].ids && RetrySuccess(e.answer)
  }

  /** Some step of the run is a successful retry of a report that lists the invoice then. */
  predicate RevivedIn(s: State, es: seq<Event>, i: Id)
    decreases |es|
  {
    es != [] && (Revives(s, es[0], i) || RevivedIn(Next(s, es[0]), es[1..], i))
  }

  /**
   Over any run in which it is not cancelled again: a cancelled invoice ends reported exactly when such a retry
   came, and else stays cancelled.
   */
  lemma {:induction false} CancelledStaysUnlessRetried(s: State, es: seq<Event>, i: Id)
    requires Sound(s) && Possible(s, es) && i in s.invoices && s.invoices[i].status.Cancelled?
    requires forall e | e in es :: e != Cancel(i)
    ensures i in After(s, es).invoices
    ensures After(s, es).invoices[i].status.Reported? <==> RevivedIn(s, es, i)
    ensures !After(s, es).invoices[i].status.Reported? ==> After(s, es).invoices[i].status.Cancelled?
    decreases |es|
  {
    hide Sound, Next, Enabled, Revives;
    if es != [] {
      assert es[0] in es;
      assert forall e | e in es[1..] :: e in es;
      NextKeepsSound(s, es[0]);
      CancelledIsReportedByRetry(s, es[0], i);
      if Revives(s, es[0], i) {
        ReportedStays(Next(s, es[0]), es[1..], i);
      } else {
        CancelledStaysUnlessRetried(Next(s, es[0]), es[1..], i);
      }
    }
  }

  /**
   What a daily run counts as sent is what a retry would, and two cases more: no package id, or a status code that
   is not accepted.
   */
  lemma DailyAndRetryDiffer(a: Answer)
    ensures DailySuccess(a) <==>
      RetrySuccess(a) || (a.Sent? && a.success && (!a.packageId || (a.status.StatusCode? && !Accepted(a.status.code))))
  {
  }

  predicate RetriesWithin(s: State, n: nat) { forall d | d in s.reports :: s.reports[d].retries <= n }

  /** However often the daily runs take a report over, they count at most five retries. */
  lemma {:induction false} DailyRunsCapRetries(s: State, es: seq<Event>)
    requires RetriesWithin(s, 5) && forall e | e in es :: !e.RetryRun?
    ensures RetriesWithin(After(s, es), 5)
    decreases |es|
  {
    hide Selection, Noted, DailySuccess, DailyError;
    if es != [] {
      assert es[0] in es;
      assert forall e | e in es[1..] :: e in es;
      DailyRunsCapRetries(Next(s, es[0]), es[1..]);
    }
  }
}
