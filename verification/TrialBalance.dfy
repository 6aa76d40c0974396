/**
 The trial balance (mizan): the query that joins accounts, lines and entries, and what its totals say
 about the ledger.
 */
module TrialBalance {
  import opened Journal
  import opened Ledger
  import opened Numbers

  datatype Account = Account(tenant: string, code: string, postable: bool, debitNormal: bool)

  datatype Row = Row(code: string, debit: int, credit: int, net: int)

  datatype Report = Report(rows: seq<Row>, debit: int, credit: int, isBalanced: bool)

  /**
   A line with the entry the second outer join finds for it.  The date and the posting flag are
   tested in that join's condition, so a line whose entry fails them stays, without an entry.
   */
  datatype Joined = Joined(line: Line, inPeriod: bool)

  function JoinLines(ls: seq<Line>, inPeriod: bool): seq<Joined> {
    if ls == [] then [] else JoinLines(ls[..|ls| - 1], inPeriod) + [Joined(ls[|ls| - 1], inPeriod)]
  }

  /**
   The lines the query sums.  It selects them by the line's tenant; the writers give every line the
   tenant of its entry, so going by the entry is the same.
   */
  function Join(j: seq<Entry>, tenant: string, inPeriod: Entry -> bool): seq<Joined> {
    if j == [] then []
    else
      Join(j[..|j| - 1], tenant, inPeriod)
      + if j[|j| - 1].tenant == tenant then JoinLines(j[|j| - 1].lines, inPeriod(j[|j| - 1])) else []
  }

  function DebitOn(js: seq<Joined>, code: string): int {
    if js == [] then 0
    else DebitOn(js[..|js| - 1], code) + if js[|js| - 1].line.account == code then js[|js| - 1].line.debit else 0
  }

  function CreditOn(js: seq<Joined>, code: string): int {
    if js == [] then 0
    else CreditOn(js[..|js| - 1], code) + if js[|js| - 1].line.account == code then js[|js| - 1].line.credit else 0
  }

  function RowOf(a: Account, js: seq<Joined>): Row {
    var d, c := DebitOn(js, a.code), CreditOn(js, a.code);
    Row(a.code, d, c, if a.debitNormal then d - c else c - d)
  }

  /** One row for each postable account of the tenant with an amount on either side. */
  function Rows(accounts: seq<Account>, tenant: string, js: seq<Joined>): seq<Row> {
    if accounts == [] then []
    else
      var a := accounts[|accounts| - 1];
      var r := RowOf(a, js);
      Rows(accounts[..|accounts| - 1], tenant, js)
      + if a.tenant == tenant && a.postable && (r.debit > 0 || r.credit > 0) then [r] else []
  }

  function SumDebit(rs: seq<Row>): int { if rs == [] then 0 else SumDebit(rs[..|rs| - 1]) + rs[|rs| - 1].debit }

  function SumCredit(rs: seq<Row>): int { if rs == [] then 0 else SumCredit(rs[..|rs| - 1]) + rs[|rs| - 1].credit }

  function GetMizan(accounts: seq<Account>, j: seq<Entry>, tenant: string, inPeriod: Entry -> bool): Report {
    var rows := Rows(accounts, tenant, Join(j, tenant, inPeriod));
    Report(rows, SumDebit(rows), SumCredit(rows), SumDebit(rows) == SumCredit(rows))
  }

  // ------------------------------------------------------------------ the join keeps every line

  lemma {:induction false} JoinLinesSums(ls: seq<Line>, inPeriod: bool, code: string)
    ensures |JoinLines(ls, inPeriod)| == |ls|
    ensures forall k | 0 <= k < |ls| :: JoinLines(ls, inPeriod)[k].line == ls[k]
  {
    if ls != [] { JoinLinesSums(ls[..|ls| - 1], inPeriod, code); }
  }

  lemma {:induction false} JoinKeepsLines(j: seq<Entry>, tenant: string, inPeriod: Entry -> bool)
    ensures |Join(j, tenant, inPeriod)| == |LinesOf(j, tenant)|
    ensures forall k | 0 <= k < |LinesOf(j, tenant)| :: Join(j, tenant, inPeriod)[k].line == LinesOf(j, tenant)[k]
  {
    if j != [] {
      JoinKeepsLines(j[..|j| - 1], tenant, inPeriod);
      JoinLinesSums(j[|j| - 1].lines, inPeriod(j[|j| - 1]), "");
    }
  }

  predicate SameLines(js: seq<Joined>, ks: seq<Joined>) {
    |js| == |ks| && forall k | 0 <= k < |js| :: js[k].line == ks[k].line
  }

  lemma {:induction false} SameLinesSameSums(js: seq<Joined>, ks: seq<Joined>, code: string)
    requires SameLines(js, ks)
    ensures DebitOn(js, code) == DebitOn(ks, code) && CreditOn(js, code) == CreditOn(ks, code)
  {
    if js != [] { SameLinesSameSums(js[..|js| - 1], ks[..|ks| - 1], code); }
  }

  lemma {:induction false} SameLinesSameRows(accounts: seq<Account>, tenant: string, js: seq<Joined>, ks: seq<Joined>)
    requires SameLines(js, ks)
    ensures Rows(accounts, tenant, js) == Rows(accounts, tenant, ks)
  {
    if accounts != [] {
      SameLinesSameRows(accounts[..|accounts| - 1], tenant, js, ks);
      SameLinesSameSums(js, ks, accounts[|accounts| - 1].code);
      hide SameLines, DebitOn, CreditOn;
    }
  }

  /** The period asked for does not change the report: every line of the tenant is summed. */
  lemma PeriodDoesNotFilter(accounts: seq<Account>, j: seq<Entry>, tenant: string, one: Entry -> bool,
    other: Entry -> bool)
    ensures GetMizan(accounts, j, tenant, one) == GetMizan(accounts, j, tenant, other)
  {
    JoinKeepsLines(j, tenant, one);
    JoinKeepsLines(j, tenant, other);
    SameLinesSameRows(accounts, tenant, Join(j, tenant, one), Join(j, tenant, other));
    hide Join, Rows;
  }

  // ------------------------------------------------------------------ totals

  predicate Charted(accounts: seq<Account>, tenant: string, code: string) {
    exists k :: 0 <= k < |accounts| && accounts[k].tenant == tenant && accounts[k].code == code && accounts[k].postable
  }

  /** A tenant's account codes are unique. */
  predicate UniqueCodes(accounts: seq<Account>) {
    forall a, b | 0 <= a < b < |accounts| ::
      !(accounts[a].tenant == accounts[b].tenant && accounts[a].code == accounts[b].code)
  }

  /** The part of the lines that is on the tenant's postable accounts. */
  function OnChart(js: seq<Joined>, accounts: seq<Account>, tenant: string): seq<Line> {
    if js == [] then []
    else
      OnChart(js[..|js| - 1], accounts, tenant)
      + if Charted(accounts, tenant, js[|js| - 1].line.account) then [js[|js| - 1].line] else []
  }

  predicate Amounts(js: seq<Joined>) { forall k | 0 <= k < |js| :: js[k].line.debit >= 0 && js[k].line.credit >= 0 }

  lemma {:induction false} SumsNonNegative(js: seq<Joined>, code: string)
    requires Amounts(js)
    ensures DebitOn(js, code) >= 0 && CreditOn(js, code) >= 0
  {
    if js != [] { SumsNonNegative(js[..|js| - 1], code); }
  }

  lemma SumsAppendRow(rs: seq<Row>, r: Row)
    ensures SumDebit(rs + [r]) == SumDebit(rs) + r.debit && SumCredit(rs + [r]) == SumCredit(rs) + r.credit
  {
    assert (rs + [r])[..|rs|] == rs;
  }

  /** Dropping empty rows changes no total: each postable account adds its own sums. */
  lemma RowsOfMore(accounts: seq<Account>, tenant: string, js: seq<Joined>)
    requires Amounts(js) && accounts != []
    ensures var n := |accounts| - 1;
      var a, rs, all := accounts[n], Rows(accounts[..n], tenant, js), Rows(accounts, tenant, js);
      && SumDebit(all) == SumDebit(rs) + (if a.tenant == tenant && a.postable then DebitOn(js, a.code) else 0)
      && SumCredit(all) == SumCredit(rs) + (if a.tenant == tenant && a.postable then CreditOn(js, a.code) else 0)
  {
    var a := accounts[|accounts| - 1];
    SumsNonNegative(js, a.code);
    SumsAppendRow(Rows(accounts[..|accounts| - 1], tenant, js), RowOf(a, js));
    hide DebitOn, CreditOn, SumDebit, SumCredit, Amounts;
    assert Rows(accounts[..|accounts| - 1], tenant, js) + [] == Rows(accounts[..|accounts| - 1], tenant, js);
  }

  /** One line more adds to the totals exactly when its account is on the chart. */
  lemma {:induction false} OneLineMore(accounts: seq<Account>, tenant: string, js: seq<Joined>)
    requires Amounts(js) && js != [] && UniqueCodes(accounts)
    ensures var l, rest := js[|js| - 1].line, js[..|js| - 1];
      && SumDebit(Rows(accounts, tenant, js)) == SumDebit(Rows(accounts, tenant, rest)) +
        (if Charted(accounts, tenant, l.account) then l.debit else 0)
      && SumCredit(Rows(accounts, tenant, js)) == SumCredit(Rows(accounts, tenant, rest)) +
        (if Charted(accounts, tenant, l.account) then l.credit else 0)
    decreases |accounts|
  {
    hide Rows, SumDebit, SumCredit;
    var rest := js[..|js| - 1];
    if accounts == [] {
      NoRows(tenant, js);
      NoRows(tenant, rest);
    } else {
      var n := |accounts| - 1;
      OneLineMore(accounts[..n], tenant, js);
      RowsOfMore(accounts, tenant, js);
      RowsOfMore(accounts, tenant, rest);
      ChartedMore(accounts, tenant, js[|js| - 1].line.account);
    }
  }

  lemma NoRows(tenant: string, js: seq<Joined>)
    ensures SumDebit(Rows([], tenant, js)) == 0 == SumCredit(Rows([], tenant, js))
  {
  }

  lemma ChartedMore(accounts: seq<Account>, tenant: string, code: string)
    requires accounts != [] && UniqueCodes(accounts)
    ensures var a, rest := accounts[|accounts| - 1], accounts[..|accounts| - 1];
      var here := a.tenant == tenant && a.code == code && a.postable;
      && (Charted(accounts, tenant, code) <==> here || Charted(rest, tenant, code))
      && !(here && Charted(rest, tenant, code))
  {
    var n := |accounts| - 1;
    if Charted(accounts[..n], tenant, code) {
      var k :| 0 <= k < n && accounts[..n][k].tenant == tenant && accounts[..n][k].code == code &&
        accounts[..n][k].postable;
      assert accounts[k] == accounts[..n][k];
    }
  }

  lemma {:induction false} TotalsAreOnChart(accounts: seq<Account>, tenant: string, js: seq<Joined>)
    requires Amounts(js) && UniqueCodes(accounts)
    ensures SumDebit(Rows(accounts, tenant, js)) == Debits(OnChart(js, accounts, tenant))
    ensures SumCredit(Rows(accounts, tenant, js)) == Credits(OnChart(js, accounts, tenant))
    decreases |js|
  {
    hide UniqueCodes, Charted;
    if js == [] {
      NothingSummed(accounts, tenant);
    } else {
      hide Rows, SumDebit, SumCredit, Debits, Credits;
      var rest := js[..|js| - 1];
      TotalsAreOnChart(accounts, tenant, rest);
      OneLineMore(accounts, tenant, js);
      LastLine(OnChart(rest, accounts, tenant), js[|js| - 1].line);
      assert OnChart(rest, accounts, tenant) + [] == OnChart(rest, accounts, tenant);
    }
  }

  lemma LastLine(ls: seq<Line>, l: Line)
    ensures Debits(ls + [l]) == Debits(ls) + l.debit && Credits(ls + [l]) == Credits(ls) + l.credit
  {
    assert (ls + [l])[..|ls|] == ls;
  }

  lemma {:induction false} NothingSummed(accounts: seq<Account>, tenant: string)
    ensures Rows(accounts, tenant, []) == []
  {
    if accounts != [] { NothingSummed(accounts[..|accounts| - 1], tenant); }
  }

  /** Every account the tenant's lines name is a postable account of the tenant. */
  predicate AllCharted(ls: seq<Line>, accounts: seq<Account>, tenant: string) {
    forall k | 0 <= k < |ls| :: Charted(accounts, tenant, ls[k].account)
  }

  lemma {:induction false} AllOnChart(js: seq<Joined>, ls: seq<Line>, accounts: seq<Account>, tenant: string)
    requires |js| == |ls| && (forall k | 0 <= k < |js| :: js[k].line == ls[k]) && AllCharted(ls, accounts, tenant)
    ensures OnChart(js, accounts, tenant) == ls
  {
    hide Charted;
    if js != [] {
      var n := |js| - 1;
      AllOnChart(js[..n], ls[..n], accounts, tenant);
      assert ls == ls[..n] + [ls[n]];
    }
  }

  /** In general the totals are those of the lines on postable accounts, whatever else was posted. */
  lemma MizanSumsTheChart(accounts: seq<Account>, j: seq<Entry>, tenant: string, inPeriod: Entry -> bool)
    requires ValidLines(j) && UniqueCodes(accounts)
    ensures var m := GetMizan(accounts, j, tenant, inPeriod);
      var charted := OnChart(Join(j, tenant, inPeriod), accounts, tenant);
      m.debit == Debits(charted) && m.credit == Credits(charted) &&
        (m.isBalanced <==> Debits(charted) == Credits(charted))
  {
    LinesOneSided(j, tenant);
    var js := Join(j, tenant, inPeriod);
    JoinKeepsLines(j, tenant, inPeriod);
    assert Amounts(js) by { hide Join, LinesOf; assert forall i | 0 <= i < |js| :: OneSided(LinesOf(j, tenant)[i]); }
    TotalsAreOnChart(accounts, tenant, js);
    hide Rows, Join, LinesOf, ValidLines, UniqueCodes;
  }

  lemma MizanOfCharted(accounts: seq<Account>, j: seq<Entry>, tenant: string, inPeriod: Entry -> bool)
    requires ValidLines(j) && UniqueCodes(accounts) && AllCharted(LinesOf(j, tenant), accounts, tenant)
    ensures var m := GetMizan(accounts, j, tenant, inPeriod);
      && m.debit == Debits(LinesOf(j, tenant)) && m.credit == Credits(LinesOf(j, tenant))
      && (m.isBalanced <==> Debits(LinesOf(j, tenant)) == Credits(LinesOf(j, tenant)))
  {
    MizanSumsTheChart(accounts, j, tenant, inPeriod);
    JoinKeepsLines(j, tenant, inPeriod);
    AllOnChart(Join(j, tenant, inPeriod), LinesOf(j, tenant), accounts, tenant);
    hide Rows, Join, LinesOf, ValidLines, AllCharted, UniqueCodes, Debits, Credits;
  }

  /**
   After any deliveries, if every posted account is postable, the report's totals are the tenant's
   debits and credits, and the report calls itself balanced exactly when they are equal; unless a
   delivery spoils the ledger they differ by at most ten kurus per payroll entry.
   */
  lemma MizanOfDeliveries(accounts: seq<Account>, j: seq<Entry>, invoices: Invoices, vs: seq<Event>,
      tenant: string, inPeriod: Entry -> bool)
    requires LedgerOk(j) && UniqueCodes(accounts)
    requires AllCharted(LinesOf(HandleAll(j, invoices, vs), tenant), accounts, tenant)
    ensures var k := HandleAll(j, invoices, vs);
      var m := GetMizan(accounts, k, tenant, inPeriod);
      && m.debit == Debits(LinesOf(k, tenant)) && m.credit == Credits(LinesOf(k, tenant))
      && (m.isBalanced <==> Debits(LinesOf(k, tenant)) == Credits(LinesOf(k, tenant)))
      && (!SpoiltIn(j, invoices, vs) ==> Abs(m.debit - m.credit) <= TOLERANCE * Payrolls(k, tenant))
  {
    hide *;
    OkIsValid(j);
    LinesStayValid(j, invoices, vs);
    DeliveriesStayBounded(j, invoices, vs, tenant);
    MizanOfCharted(accounts, HandleAll(j, invoices, vs), tenant, inPeriod);
  }

  // ------------------------------------------------------------------ when the report is that of the period

  /** The entries of a period, and nothing else. */
  function Within(j: seq<Entry>, inPeriod: Entry -> bool): seq<Entry> {
    if j == [] then []
    else Within(j[..|j| - 1], inPeriod) + if inPeriod(j[|j| - 1]) then [j[|j| - 1]] else []
  }

  /** The lines of the tenant's entries that the period leaves out. */
  function LeftOut(j: seq<Entry>, tenant: string, inPeriod: Entry -> bool): seq<Line> {
    if j == [] then []
    else
      var e := j[|j| - 1];
      LeftOut(j[..|j| - 1], tenant, inPeriod) + if e.tenant == tenant && !inPeriod(e) then e.lines else []
  }

  /** The report a reader of the period expects. */
  function PeriodReport(accounts: seq<Account>, j: seq<Entry>, tenant: string, inPeriod: Entry -> bool): Report {
    GetMizan(accounts, Within(j, inPeriod), tenant, inPeriod)
  }

  function LineDebit(ls: seq<Line>, code: string): int {
    if ls == [] then 0
    else LineDebit(ls[..|ls| - 1], code) + if ls[|ls| - 1].account == code then ls[|ls| - 1].debit else 0
  }

  function LineCredit(ls: seq<Line>, code: string): int {
    if ls == [] then 0
    else LineCredit(ls[..|ls| - 1], code) + if ls[|ls| - 1].account == code then ls[|ls| - 1].credit else 0
  }

  lemma {:induction false} LineSumsAppend(ls: seq<Line>, ms: seq<Line>, code: string)
    ensures LineDebit(ls + ms, code) == LineDebit(ls, code) + LineDebit(ms, code)
    ensures LineCredit(ls + ms, code) == LineCredit(ls, code) + LineCredit(ms, code)
    decreases |ms|
  {
    if ms == [] {
      assert ls + ms == ls;
    } else {
      var n := |ms| - 1;
      LineSumsAppend(ls, ms[..n], code);
      assert (ls + ms)[..|ls + ms| - 1] == ls + ms[..n];
    }
  }

  lemma {:induction false} JoinedSums(js: seq<Joined>, ls: seq<Line>, code: string)
    requires |js| == |ls| && forall k | 0 <= k < |js| :: js[k].line == ls[k]
    ensures DebitOn(js, code) == LineDebit(ls, code) && CreditOn(js, code) == LineCredit(ls, code)
  {
    if js != [] { JoinedSums(js[..|js| - 1], ls[..|ls| - 1], code); }
  }

  /** What an account has in the report is what it has in the period and what the period leaves out. */
  lemma {:induction false} SplitByPeriod(j: seq<Entry>, tenant: string, inPeriod: Entry -> bool, code: string)
    ensures LineDebit(LinesOf(j, tenant), code) ==
      LineDebit(LinesOf(Within(j, inPeriod), tenant), code) + LineDebit(LeftOut(j, tenant, inPeriod), code)
    ensures LineCredit(LinesOf(j, tenant), code) ==
      LineCredit(LinesOf(Within(j, inPeriod), tenant), code) + LineCredit(LeftOut(j, tenant, inPeriod), code)
  {
    hide LineDebit, LineCredit;
    if j == [] {
      LineSumsAppend([], [], code);
    } else {
      var n, e := |j| - 1, j[|j| - 1];
      SplitByPeriod(j[..n], tenant, inPeriod, code);
      var w := Within(j[..n], inPeriod);
      assert (w + [e])[..|w|] == w && w + [] == w;
      var mine := if e.tenant == tenant then e.lines else [];
      LineSumsAppend(LinesOf(j[..n], tenant), mine, code);
      LineSumsAppend(LinesOf(w, tenant), mine, code);
      LineSumsAppend(LeftOut(j[..n], tenant, inPeriod), if inPeriod(e) then [] else mine, code);
      LineSumsAppend(LinesOf(w, tenant), [], code);
      LineSumsAppend([], [], code);
      assert [] + [] == LinesOf([], tenant);
    }
  }

  lemma ReportSums(j: seq<Entry>, tenant: string, inPeriod: Entry -> bool, code: string)
    ensures DebitOn(Join(j, tenant, inPeriod), code) == LineDebit(LinesOf(j, tenant), code)
    ensures CreditOn(Join(j, tenant, inPeriod), code) == LineCredit(LinesOf(j, tenant), code)
  {
    JoinKeepsLines(j, tenant, inPeriod);
    JoinedSums(Join(j, tenant, inPeriod), LinesOf(j, tenant), code);
  }

  // ------------------------------------------------------------------ what the rows are

  /** The row of an account: its debits and credits among the lines, and its balance on its normal side. */
  predicate IsRowOf(r: Row, a: Account, ls: seq<Line>, tenant: string) {
    && a.tenant == tenant && a.postable && r.code == a.code
    && r.debit == LineDebit(ls, a.code) && r.credit == LineCredit(ls, a.code)
    && (r.debit > 0 || r.credit > 0)
    && (a.debitNormal ==> r.net == Balance(ls, a.code)) && (!a.debitNormal ==> r.net == -Balance(ls, a.code))
  }

  lemma {:induction false} SumsGiveBalance(ls: seq<Line>, code: string)
    ensures LineDebit(ls, code) - LineCredit(ls, code) == Balance(ls, code)
  {
    if ls != [] { SumsGiveBalance(ls[..|ls| - 1], code); }
  }

  lemma RowIsRowOf(a: Account, js: seq<Joined>, ls: seq<Line>, tenant: string, r: Row)
    requires DebitOn(js, a.code) == LineDebit(ls, a.code) && CreditOn(js, a.code) == LineCredit(ls, a.code)
    ensures IsRowOf(r, a, ls, tenant) <==>
      r == RowOf(a, js) && a.tenant == tenant && a.postable && (r.debit > 0 || r.credit > 0)
  {
    SumsGiveBalance(ls, a.code);
    hide DebitOn, CreditOn, LineDebit, LineCredit, Balance;
    assert RowOf(a, js).code == a.code;
  }

  lemma {:induction false} RowsAre(accounts: seq<Account>, tenant: string, js: seq<Joined>, ls: seq<Line>, r: Row)
    requires forall code :: DebitOn(js, code) == LineDebit(ls, code) && CreditOn(js, code) == LineCredit(ls, code)
    ensures r in Rows(accounts, tenant, js) <==>
      exists k :: 0 <= k < |accounts| && IsRowOf(r, accounts[k], ls, tenant)
  {
    if accounts != [] {
      var n := |accounts| - 1;
      RowsAre(accounts[..n], tenant, js, ls, r);
      RowIsRowOf(accounts[n], js, ls, tenant, r);
      hide IsRowOf, RowOf, DebitOn, CreditOn, LineDebit, LineCredit;
      assert forall k | 0 <= k < n :: accounts[..n][k] == accounts[k];
    }
  }

  /** The rows of the trial balance are exactly those of the tenant's postable accounts with an amount. */
  lemma MizanRows(accounts: seq<Account>, j: seq<Entry>, tenant: string, inPeriod: Entry -> bool, r: Row)
    ensures r in GetMizan(accounts, j, tenant, inPeriod).rows <==>
      exists k :: 0 <= k < |accounts| && IsRowOf(r, accounts[k], LinesOf(j, tenant), tenant)
  {
    forall code
      ensures DebitOn(Join(j, tenant, inPeriod), code) == LineDebit(LinesOf(j, tenant), code)
      ensures CreditOn(Join(j, tenant, inPeriod), code) == LineCredit(LinesOf(j, tenant), code)
    {
      ReportSums(j, tenant, inPeriod, code);
    }
    hide Join, Rows, DebitOn, CreditOn, LineDebit, LineCredit, IsRowOf, LinesOf, SumDebit, SumCredit;
    RowsAre(accounts, tenant, Join(j, tenant, inPeriod), LinesOf(j, tenant), r);
  }

  /** Rows are the same when every postable account of the tenant has the same sums. */
  lemma {:induction false} SameSumsSameRows(accounts: seq<Account>, tenant: string, js: seq<Joined>, ks: seq<Joined>)
    requires forall k | 0 <= k < |accounts| && accounts[k].tenant == tenant && accounts[k].postable ::
      DebitOn(js, accounts[k].code) == DebitOn(ks, accounts[k].code) &&
        CreditOn(js, accounts[k].code) == CreditOn(ks, accounts[k].code)
    ensures Rows(accounts, tenant, js) == Rows(accounts, tenant, ks)
  {
    hide DebitOn, CreditOn;
    if accounts != [] {
      var n := |accounts| - 1;
      assert forall k | 0 <= k < n :: accounts[..n][k] == accounts[k];
      SameSumsSameRows(accounts[..n], tenant, js, ks);
      assert accounts[n] == accounts[|accounts| - 1];
    }
  }

  predicate NoneCharted(ls: seq<Line>, accounts: seq<Account>, tenant: string) {
    forall k | 0 <= k < |ls| :: !Charted(accounts, tenant, ls[k].account)
  }

  lemma {:induction false} NotOnAccount(ls: seq<Line>, code: string)
    requires forall k | 0 <= k < |ls| :: ls[k].account != code
    ensures LineDebit(ls, code) == 0 == LineCredit(ls, code)
  {
    if ls != [] { NotOnAccount(ls[..|ls| - 1], code); }
  }

  /** Valid lines never cancel: an account one of them names has a positive sum. */
  lemma {:induction false} OnAccountShows(ls: seq<Line>, code: string)
    requires AllOneSided(ls)
    ensures LineDebit(ls, code) >= 0 && LineCredit(ls, code) >= 0
    ensures (exists k :: 0 <= k < |ls| && ls[k].account == code) ==> LineDebit(ls, code) + LineCredit(ls, code) > 0
  {
    if ls != [] { OnAccountShows(ls[..|ls| - 1], code); }
  }

  /** js has on every account what ks has and what the lines ls add. */
  ghost predicate Exceeds(js: seq<Joined>, ks: seq<Joined>, ls: seq<Line>) {
    forall code ::
      DebitOn(js, code) == DebitOn(ks, code) + LineDebit(ls, code) &&
        CreditOn(js, code) == CreditOn(ks, code) + LineCredit(ls, code)
  }

  /** More lines on the chart make larger totals. */
  lemma {:induction false} TotalsExceed(accounts: seq<Account>, tenant: string, js: seq<Joined>, ks: seq<Joined>,
    ls: seq<Line>)
    requires Amounts(js) && Amounts(ks) && AllOneSided(ls) && Exceeds(js, ks, ls)
    ensures var more := SumDebit(Rows(accounts, tenant, js)) + SumCredit(Rows(accounts, tenant, js));
      var less := SumDebit(Rows(accounts, tenant, ks)) + SumCredit(Rows(accounts, tenant, ks));
      less <= more && (!NoneCharted(ls, accounts, tenant) ==> less < more)
    decreases |accounts|
  {
    hide Rows, SumDebit, SumCredit, DebitOn, CreditOn, Amounts, OneSided;
    if accounts == [] {
      NoRows(tenant, js);
      NoRows(tenant, ks);
    } else {
      var n, a := |accounts| - 1, accounts[|accounts| - 1];
      TotalsExceed(accounts[..n], tenant, js, ks, ls);
      RowsOfMore(accounts, tenant, js);
      RowsOfMore(accounts, tenant, ks);
      OnAccountShows(ls, a.code);
      hide LineDebit, LineCredit, AllOneSided;
      if !NoneCharted(ls, accounts, tenant) && NoneCharted(ls, accounts[..n], tenant) {
        var k :| 0 <= k < |ls| && Charted(accounts, tenant, ls[k].account);
        ChartedByLast(accounts, tenant, ls[k].account);
      }
    }
  }

  lemma ChartedByLast(accounts: seq<Account>, tenant: string, code: string)
    requires accounts != [] && Charted(accounts, tenant, code) && !Charted(accounts[..|accounts| - 1], tenant, code)
    ensures var a := accounts[|accounts| - 1]; a.tenant == tenant && a.code == code && a.postable
  {
    assert forall k | 0 <= k < |accounts| - 1 :: accounts[..|accounts| - 1][k] == accounts[k];
  }

  lemma {:induction false} ValidLinesOf(j: seq<Entry>, tenant: string, inPeriod: Entry -> bool)
    requires ValidLines(j)
    ensures AllOneSided(LinesOf(Within(j, inPeriod), tenant)) && AllOneSided(LeftOut(j, tenant, inPeriod))
  {
    hide OneSided;
    if j != [] {
      var n, w := |j| - 1, Within(j[..|j| - 1], inPeriod);
      ValidLinesOf(j[..n], tenant, inPeriod);
      assert (w + [j[n]])[..|w|] == w && w + [] == w;
    }
  }

  lemma AmountsOfJoin(j: seq<Entry>, tenant: string, inPeriod: Entry -> bool)
    requires AllOneSided(LinesOf(j, tenant))
    ensures Amounts(Join(j, tenant, inPeriod))
  {
    JoinKeepsLines(j, tenant, inPeriod);
    hide Join, LinesOf;
    assert forall i | 0 <= i < |Join(j, tenant, inPeriod)| :: OneSided(LinesOf(j, tenant)[i]);
  }

  lemma ReportExceeds(j: seq<Entry>, tenant: string, inPeriod: Entry -> bool)
    ensures Exceeds(Join(j, tenant, inPeriod), Join(Within(j, inPeriod), tenant, inPeriod),
      LeftOut(j, tenant, inPeriod))
  {
    hide DebitOn, CreditOn, LineDebit, LineCredit, Join, LinesOf, Within, LeftOut;
    forall code
      ensures DebitOn(Join(j, tenant, inPeriod), code) ==
        DebitOn(Join(Within(j, inPeriod), tenant, inPeriod), code) + LineDebit(LeftOut(j, tenant, inPeriod), code)
      ensures CreditOn(Join(j, tenant, inPeriod), code) ==
        CreditOn(Join(Within(j, inPeriod), tenant, inPeriod), code) + LineCredit(LeftOut(j, tenant, inPeriod), code)
    {
      ReportSums(j, tenant, inPeriod, code);
      ReportSums(Within(j, inPeriod), tenant, inPeriod, code);
      SplitByPeriod(j, tenant, inPeriod, code);
    }
  }

  lemma NothingOnCharted(accounts: seq<Account>, tenant: string, ls: seq<Line>, k: nat)
    requires NoneCharted(ls, accounts, tenant) && k < |accounts| && accounts[k].tenant == tenant && accounts[k].postable
    ensures LineDebit(ls, accounts[k].code) == 0 == LineCredit(ls, accounts[k].code)
  {
    assert Charted(accounts, tenant, accounts[k].code);
    NotOnAccount(ls, accounts[k].code);
  }

  /**
   The report is that of the period exactly when no entry the period leaves out has a line on a
   postable account of the tenant.
   */
  lemma ReportIsOfPeriod(accounts: seq<Account>, j: seq<Entry>, tenant: string, inPeriod: Entry -> bool)
    requires ValidLines(j)
    ensures GetMizan(accounts, j, tenant, inPeriod) == PeriodReport(accounts, j, tenant, inPeriod) <==>
      NoneCharted(LeftOut(j, tenant, inPeriod), accounts, tenant)
  {
    hide Join, Within, LeftOut, LinesOf, Rows, SumDebit, SumCredit, NoneCharted, ValidLines, Amounts, AllOneSided,
      DebitOn, CreditOn;
    var js, ks := Join(j, tenant, inPeriod), Join(Within(j, inPeriod), tenant, inPeriod);
    var ls := LeftOut(j, tenant, inPeriod);
    ReportExceeds(j, tenant, inPeriod);
    LinesOneSided(j, tenant);
    ValidLinesOf(j, tenant, inPeriod);
    if NoneCharted(ls, accounts, tenant) {
      forall k | 0 <= k < |accounts| && accounts[k].tenant == tenant && accounts[k].postable
        ensures DebitOn(js, accounts[k].code) == DebitOn(ks, accounts[k].code)
        ensures CreditOn(js, accounts[k].code) == CreditOn(ks, accounts[k].code)
      {
        NothingOnCharted(accounts, tenant, ls, k);
      }
      SameSumsSameRows(accounts, tenant, js, ks);
    } else {
      AmountsOfJoin(j, tenant, inPeriod);
      AmountsOfJoin(Within(j, inPeriod), tenant, inPeriod);
      TotalsExceed(accounts, tenant, js, ks, ls);
    }
  }

  /**
   The same over the entries: one outside the period with a line on a postable account is enough to
   spoil the report of the period.
   */
  lemma LedgerReportIsOfPeriod(accounts: seq<Account>, j: seq<Entry>, tenant: string, inPeriod: Entry -> bool)
    requires ValidLines(j)
    ensures GetMizan(accounts, j, tenant, inPeriod) == PeriodReport(accounts, j, tenant, inPeriod) <==>
      forall i, k | 0 <= i < |j| && j[i].tenant == tenant && !inPeriod(j[i]) && 0 <= k < |j[i].lines| ::
        !Charted(accounts, tenant, j[i].lines[k].account)
  {
    ReportIsOfPeriod(accounts, j, tenant, inPeriod);
    LeftOutLines(accounts, j, tenant, inPeriod);
  }

  lemma {:induction false} LeftOutLines(accounts: seq<Account>, j: seq<Entry>, tenant: string, inPeriod: Entry -> bool)
    ensures NoneCharted(LeftOut(j, tenant, inPeriod), accounts, tenant) <==>
      forall i, k | 0 <= i < |j| && j[i].tenant == tenant && !inPeriod(j[i]) && 0 <= k < |j[i].lines| ::
        !Charted(accounts, tenant, j[i].lines[k].account)
  {
    hide Charted;
    if j != [] {
      var n, e := |j| - 1, j[|j| - 1];
      LeftOutLines(accounts, j[..n], tenant, inPeriod);
      assert forall i | 0 <= i < n :: j[..n][i] == j[i];
      var rest, mine := LeftOut(j[..n], tenant, inPeriod), if e.tenant == tenant && !inPeriod(e) then e.lines else [];
      assert NoneCharted(rest + mine, accounts, tenant) <==>
        NoneCharted(rest, accounts, tenant) &&
          NoneCharted(mine, accounts, tenant) by { NoneChartedAppend(rest, mine, accounts, tenant); }
    }
  }

  lemma NoneChartedAppend(ls: seq<Line>, ms: seq<Line>, accounts: seq<Account>, tenant: string)
    ensures NoneCharted(ls + ms, accounts, tenant) <==>
      NoneCharted(ls, accounts, tenant) && NoneCharted(ms, accounts, tenant)
  {
    hide Charted;
    assert forall k | 0 <= k < |ls| :: (ls + ms)[k] == ls[k];
    assert forall k | 0 <= k < |ms| :: (ls + ms)[|ls| + k] == ms[k];
  }

  function Sale(tenant: string, amount: int): Entry {
    Entry(tenant, "ODE-1-1", "2025-12-31", "PAYMENT", "1",
      [DebitLine(tenant, "102", amount), CreditLine(tenant, "120", amount)])
  }

  /** A sale of last year in the report of this one: the period has no rows, the report has some. */
  lemma LastYearsSaleIsReported(tenant: string, amount: int, inPeriod: Entry -> bool)
    requires amount > 0 && !inPeriod(Sale(tenant, amount))
    ensures var accounts := [Account(tenant, "102", true, true)];
      && PeriodReport(accounts, [Sale(tenant, amount)], tenant, inPeriod).rows == []
      && GetMizan(accounts, [Sale(tenant, amount)], tenant, inPeriod).rows != []
  {
    var j, accounts := [Sale(tenant, amount)], [Account(tenant, "102", true, true)];
    ReportIsOfPeriod(accounts, j, tenant, inPeriod);
    assert j[..0] == [] && Within(j, inPeriod) == [];
    assert LeftOut(j, tenant, inPeriod) == [] + Sale(tenant, amount).lines;
    assert Charted(accounts, tenant, "102") by { assert accounts[0].code == "102"; }
    assert LeftOut(j, tenant, inPeriod)[0].account == "102";
    NothingSummed(accounts, tenant);
    hide Rows, LeftOut, Charted;
  }
}
