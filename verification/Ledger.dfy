/**
 The general ledger: payroll and payment events posted as journal entries, with redeliveries, and the
 trial balance (mizan) over them.  Amounts are in kurus.  There is no transaction: an entry whose insertion
 breaks off at a line keeps its header and the lines before.
 */
module Ledger {
  import opened Journal
  import opened Numbers
  import opened Wrappers

  datatype Entry = Entry(tenant: string, number: string, date: string, kind: string, reference: string,
    lines: seq<Line>)

  /** The table's constraint on a line: one side positive, the other zero. */
  predicate OneSided(l: Line) { (l.debit > 0 && l.credit == 0) || (l.credit > 0 && l.debit == 0) }

  predicate NumberTaken(j: seq<Entry>, tenant: string, number: string) {
    exists k :: 0 <= k < |j| && j[k].tenant == tenant && j[k].number == number
  }

  /** Posted whole; ignored as a repetition; refused before anything is written; or broken off at a line. */
  datatype Outcome = Posted | Ignored | Refused | Broken

  predicate AllOneSided(ls: seq<Line>) { forall k | 0 <= k < |ls| :: OneSided(ls[k]) }

  /** A taken entry number drops the entry silently; a line against the constraint makes the handler fail. */
  function PostOutcome(j: seq<Entry>, e: Entry): Outcome {
    if NumberTaken(j, e.tenant, e.number) then Ignored
    else if !AllOneSided(e.lines) then Broken
    else Posted
  }

  /** The lines before the first that the constraint refuses. */
  function OneSidedPrefix(ls: seq<Line>): seq<Line> {
    if ls == [] || !OneSided(ls[0]) then [] else [ls[0]] + OneSidedPrefix(ls[1..])
  }

  /** The ledger after an entry was posted, or broke off. */
  function Written(j: seq<Entry>, e: Entry, o: Outcome): seq<Entry> {
    if o.Posted? then j + [e]
    else if o.Broken? then j + [e.(lines := OneSidedPrefix(e.lines))]
    else j
  }

  lemma {:induction false} PrefixUpTo(ls: seq<Line>, i: nat)
    requires i <= |ls| && (forall k | 0 <= k < i :: OneSided(ls[k])) && (i == |ls| || !OneSided(ls[i]))
    ensures OneSidedPrefix(ls) == ls[..i]
  {
    hide OneSided;
    if i > 0 {
      assert forall k | 0 < k < |ls| :: ls[k] == ls[1..][k - 1];
      PrefixUpTo(ls[1..], i - 1);
      assert ls[..i] == [ls[0]] + ls[1..][..i - 1];
    }
  }

  // ------------------------------------------------------------------ payroll

  datatype Payroll = Payroll(
    tenant: string, year: nat, month: nat,
    gross: int, net: int, incomeTax: int, stampTax: int, sgkWorker: int, sgkEmployer: int)

  const PAYROLL := "HR_PAYROLL"
  const TOLERANCE := 10

  function Period(p: Payroll): string { YearMonth(p.year, p.month) }

  function PayrollReference(p: Payroll): string { p.tenant + "_" + Period(p) }

  predicate AlreadyPosted(j: seq<Entry>, p: Payroll) {
    exists k :: 0 <= k < |j| && j[k].tenant == p.tenant && j[k].kind == PAYROLL && j[k].reference == PayrollReference(p)
  }

  /** Expense less withholdings less net pay: what the four lines are out of balance by. */
  function Gap(p: Payroll): int { p.gross - p.incomeTax - p.stampTax - p.sgkWorker - p.net }

  function PayrollLines(p: Payroll): seq<Line> {
    [DebitLine(p.tenant, "770", p.gross + p.sgkEmployer),
     CreditLine(p.tenant, "360", p.incomeTax + p.stampTax),
     CreditLine(p.tenant, "361", p.sgkWorker + p.sgkEmployer),
     CreditLine(p.tenant, "335", p.net)]
  }

  function PayrollEntry(p: Payroll, clock: nat): Entry {
    Entry(p.tenant, "BRD-" + Period(p) + "-" + Decimal(clock), Period(p) + "-28", PAYROLL, PayrollReference(p),
      PayrollLines(p))
  }

  function PayrollOutcome(j: seq<Entry>, p: Payroll, clock: nat): Outcome {
    if AlreadyPosted(j, p) then Ignored
    else if Abs(Gap(p)) > TOLERANCE then Refused
    else PostOutcome(j, PayrollEntry(p, clock))
  }

  // ------------------------------------------------------------------ payments

  datatype Direction = In | Out

  datatype Invoice = Invoice(tenant: string, direction: Direction, number: string)

  datatype Payment = Payment(tenant: string, invoiceId: string, transactionId: string, amount: int, date: string)

  type Invoices = map<string, Invoice>

  predicate Known(invoices: Invoices, e: Payment) {
    e.invoiceId in invoices && invoices[e.invoiceId].tenant == e.tenant
  }

  /** A purchase pays the supplier out of the bank; a sale brings the customer's debt into it. */
  function PaymentLines(e: Payment, d: Direction): seq<Line> {
    if d.In? then [DebitLine(e.tenant, "320", e.amount), CreditLine(e.tenant, "102", e.amount)]
    else [DebitLine(e.tenant, "102", e.amount), CreditLine(e.tenant, "120", e.amount)]
  }

  function PaymentEntry(e: Payment, invoice: Invoice, clock: nat): Entry {
    Entry(e.tenant, "ODE-" + invoice.number + "-" + Decimal(clock), e.date, "PAYMENT", e.transactionId,
      PaymentLines(e, invoice.direction))
  }

  function PaymentOutcome(j: seq<Entry>, invoices: Invoices, e: Payment, clock: nat): Outcome {
    if !Known(invoices, e) then Ignored else PostOutcome(j, PaymentEntry(e, invoices[e.invoiceId], clock))
  }

  // ------------------------------------------------------------------ the consumers

  class JournalWriter {
    var entries: seq<Entry>

    constructor ()
      ensures entries == []
    {
      entries := [];
    }

    /**
     Inserts a header and its lines one by one; a line the constraint refuses ends it, and what was inserted stays.
     */
    method Insert(e: Entry) returns (o: Outcome)
      modifies this
      ensures o == PostOutcome(old(entries), e)
      ensures entries == Written(old(entries), e, o)
    {
      if NumberTaken(entries, e.tenant, e.number) { return Ignored; }
      var before := entries;
      var inserted: seq<Line> := [];
      entries := before + [e.(lines := inserted)];
      for i := 0 to |e.lines|
        invariant entries == before + [e.(lines := inserted)]
        invariant inserted == e.lines[..i] && AllOneSided(inserted)
      {
        if !OneSided(e.lines[i]) {
          assert !AllOneSided(e.lines);
          PrefixUpTo(e.lines, i);
          return Broken;
        }
        inserted := inserted + [e.lines[i]];
        entries := before + [e.(lines := inserted)];
      }
      assert inserted == e.lines;
      return Posted;
    }

    /**
     Posts a payroll exactly when its period has none, the amounts agree to ten kurus, every line has
     an amount and the number is free; refuses it for the amounts; and breaks off at a line without one.
     */
    method OnPayrollFinalized(p: Payroll, clock: nat) returns (o: Outcome)
      modifies this
      ensures o == Posted <==> (
        && !AlreadyPosted(old(entries), p) && -10 <= Gap(p) <= 10
        && !NumberTaken(old(entries), p.tenant, PayrollEntry(p, clock).number) && AllAmounts(p))
      ensures o == Refused <==> !AlreadyPosted(old(entries), p) && !(-10 <= Gap(p) <= 10)
      ensures o == Broken <==> (
        && !AlreadyPosted(old(entries), p) && -10 <= Gap(p) <= 10
        && !NumberTaken(old(entries), p.tenant, PayrollEntry(p, clock).number) && !AllAmounts(p))
      ensures entries == Written(old(entries), PayrollEntry(p, clock), o) && o == PayrollOutcome(old(entries), p, clock)
      ensures o == Posted || o == Broken ==>
        && |entries| == |old(entries)| + 1
        && var e := entries[|old(entries)|];
        && entries == old(entries) + [e]
        && e.(lines := []) == Entry(p.tenant, "BRD-" + YearMonth(p.year, p.month) + "-" + Decimal(clock),
             YearMonth(p.year, p.month) + "-28", "HR_PAYROLL", p.tenant + "_" + YearMonth(p.year, p.month), [])
    {
      hide Decimal, PadTwo;
      FourLines(p);
      if AlreadyPosted(entries, p) { return Ignored; }
      var debit := p.gross + p.sgkEmployer;
      var credit := p.incomeTax + p.stampTax + p.sgkWorker + p.sgkEmployer + p.net;
      if Abs(debit - credit) > TOLERANCE { return Refused; }
      o := Insert(PayrollEntry(p, clock));
    }

    /**
     Posts a payment of a known invoice, every time it is delivered, when it has a positive amount and the number
     is free.
     */
    method OnPayment(invoices: Invoices, e: Payment, clock: nat) returns (o: Outcome)
      modifies this
      ensures o == PaymentOutcome(old(entries), invoices, e, clock)
      ensures o == Posted <==> (
        && Known(invoices, e) && e.amount > 0
        && !NumberTaken(old(entries), e.tenant, PaymentEntry(e, invoices[e.invoiceId], clock).number))
      ensures o == Posted ==>
        var invoice := invoices[e.invoiceId];
        && invoice.tenant == e.tenant
        && entries == old(entries) + [Entry(e.tenant, "ODE-" + invoice.number + "-" + Decimal(clock), e.date, "PAYMENT",
             e.transactionId, PaymentLines(e, invoice.direction))]
      ensures entries ==
        if o == Ignored then old(entries) else Written(old(entries), PaymentEntry(e, invoices[e.invoiceId], clock), o)
    {
      hide Decimal;
      if !Known(invoices, e) { return Ignored; }
      var d := invoices[e.invoiceId].direction;
      assert AllOneSided(PaymentLines(e, d)) <==> OneSided(PaymentLines(e, d)[0]) && OneSided(PaymentLines(e, d)[1]);
      o := Insert(PaymentEntry(e, invoices[e.invoiceId], clock));
    }
  }

  predicate AllAmounts(p: Payroll) {
    p.gross + p.sgkEmployer > 0 && p.incomeTax + p.stampTax > 0 && p.sgkWorker + p.sgkEmployer > 0 && p.net > 0
  }

  lemma FourLines(p: Payroll)
    ensures AllOneSided(PayrollLines(p)) <==> AllAmounts(p)
  {
    var ls := PayrollLines(p);
    assert AllOneSided(ls) <==> OneSided(ls[0]) && OneSided(ls[1]) && OneSided(ls[2]) && OneSided(ls[3]);
  }

  lemma FourSums(a: Line, b: Line, c: Line, d: Line)
    ensures Debits([a, b, c, d]) == a.debit + b.debit + c.debit + d.debit
    ensures Credits([a, b, c, d]) == a.credit + b.credit + c.credit + d.credit
    ensures forall account ::
      Balance([a, b, c, d], account) ==
        Effect(a, account) + Effect(b, account) + Effect(c, account) + Effect(d, account)
  {
    SumsOfTwo(a, b);
    SumsOfTwo(c, d);
    SumsAppend([a, b], [c, d]);
    assert [a, b] + [c, d] == [a, b, c, d];
    forall account ensures Balance([a, b, c, d], account) == Balance([a, b], account) + Balance([c, d], account) {
      BalanceAppend([a, b], [c, d], account);
    }
  }

  /**
   Cost to 770; taxes, social security and net pay owed on 360, 361 and 335; what does not add up stays as the gap.
   */
  lemma PayrollMovesAccounts(p: Payroll)
    ensures var ls := PayrollLines(p);
      && Balance(ls, "770") == p.gross + p.sgkEmployer
      && -Balance(ls, "360") == p.incomeTax + p.stampTax
      && -Balance(ls, "361") == p.sgkWorker + p.sgkEmployer
      && -Balance(ls, "335") == p.net
      && Debits(ls) - Credits(ls) == Gap(p)
  {
    var ls := PayrollLines(p);
    FourSums(ls[0], ls[1], ls[2], ls[3]);
    hide Debits, Credits, Balance;
  }

  /** A purchase lowers the debt to suppliers and the bank; a sale raises the bank and lowers what customers owe. */
  lemma PaymentMovesAccounts(e: Payment, d: Direction)
    ensures var ls := PaymentLines(e, d);
      && Debits(ls) == Credits(ls) == e.amount
      && Balance(ls, "102") == (if d.In? then -e.amount else e.amount)
      && Balance(ls, "320") == (if d.In? then e.amount else 0)
      && Balance(ls, "120") == (if d.In? then 0 else -e.amount)
  {
    var ls := PaymentLines(e, d);
    SumsOfTwo(ls[0], ls[1]);
    hide Debits, Credits, Balance;
  }

  // ------------------------------------------------------------------ any sequence of deliveries

  datatype Event = PayrollEvent(p: Payroll, clock: nat) | PaymentEvent(e: Payment, clock: nat)

  function OutcomeOf(j: seq<Entry>, invoices: Invoices, v: Event): Outcome {
    match v
    case PayrollEvent(p, clock) => PayrollOutcome(j, p, clock)
    case PaymentEvent(e, clock) => PaymentOutcome(j, invoices, e, clock)
  }

  function Handle(j: seq<Entry>, invoices: Invoices, v: Event): seq<Entry> {
    match v
    case PayrollEvent(p, clock) => Written(j, PayrollEntry(p, clock), PayrollOutcome(j, p, clock))
    case PaymentEvent(e, clock) =>
      if Known(invoices, e) then
        Written(j, PaymentEntry(e, invoices[e.invoiceId], clock), PaymentOutcome(j, invoices, e, clock))
      else j
  }

  /** Deliveries in any order; the same event may come again. */
  function HandleAll(j: seq<Entry>, invoices: Invoices, vs: seq<Event>): seq<Entry>
    decreases |vs|
  {
    if vs == [] then j else HandleAll(Handle(j, invoices, vs[0]), invoices, vs[1..])
  }

  /**
   Lines obey the constraint and belong to the entry's tenant; only payroll may be out of balance, and by ten kurus
   at most.
   */
  predicate EntryOk(e: Entry) {
    && AllOneSided(e.lines)
    && (forall k | 0 <= k < |e.lines| :: e.lines[k].tenant == e.tenant)
    && Abs(Debits(e.lines) - Credits(e.lines)) <= (if e.kind == PAYROLL then TOLERANCE else 0)
  }

  predicate OnePayrollPerPeriod(j: seq<Entry>) {
    forall a, b | 0 <= a < b < |j| ::
      !(j[a].kind == PAYROLL == j[b].kind && j[a].tenant == j[b].tenant && j[a].reference == j[b].reference)
  }

  predicate LedgerOk(j: seq<Entry>) {
    (forall k | 0 <= k < |j| :: EntryOk(j[k])) && OnePayrollPerPeriod(j)
  }

  lemma PayrollEntryOk(p: Payroll, clock: nat)
    requires Abs(Gap(p)) <= TOLERANCE && AllOneSided(PayrollLines(p))
    ensures EntryOk(PayrollEntry(p, clock))
  {
    var ls := PayrollLines(p);
    FourSums(ls[0], ls[1], ls[2], ls[3]);
    hide Debits, Credits, Decimal, PadTwo;
  }

  lemma PaymentEntryOk(e: Payment, invoice: Invoice, clock: nat)
    requires AllOneSided(PaymentLines(e, invoice.direction))
    ensures EntryOk(PaymentEntry(e, invoice, clock))
  {
    var ls := PaymentLines(e, invoice.direction);
    SumsOfTwo(ls[0], ls[1]);
    hide Debits, Credits, Decimal;
  }

  /** What the lines a payroll gets written are out of balance by. */
  function Residue(p: Payroll): int {
    var cost, tax, social := p.gross + p.sgkEmployer, p.incomeTax + p.stampTax, p.sgkWorker + p.sgkEmployer;
    if cost <= 0 then 0
    else if tax <= 0 then cost
    else if social <= 0 then cost - tax
    else if p.net <= 0 then cost - tax - social
    else Gap(p)
  }

  lemma ResidueOfPrefix(p: Payroll)
    ensures var ls := OneSidedPrefix(PayrollLines(p)); Debits(ls) - Credits(ls) == Residue(p)
  {
    var ls := PayrollLines(p);
    var n := if !OneSided(ls[0]) then 0
      else if !OneSided(ls[1]) then 1
      else if !OneSided(ls[2]) then 2
      else if !OneSided(ls[3]) then 3
      else 4;
    PrefixUpTo(ls, n);
    FourSums(ls[0], ls[1], ls[2], ls[3]);
    SumsOfTwo(ls[0], ls[1]);
    hide OneSidedPrefix;
    assert ls[..0] == [] && ls[..1] == [ls[0]] && ls[..2] == [ls[0], ls[1]] && ls[..4] == ls;
    assert ls[..3] == [ls[0], ls[1]] + [ls[2]];
    LastAdds([], ls[0]);
    assert [] + [ls[0]] == [ls[0]];
    LastAdds([ls[0], ls[1]], ls[2]);
  }

  lemma LastAdds(ls: seq<Line>, l: Line)
    ensures Debits(ls + [l]) - Credits(ls + [l]) == Debits(ls) - Credits(ls) + l.debit - l.credit
  {
    assert (ls + [l])[..|ls|] == ls;
  }

  lemma {:induction false} PrefixIsOneSided(ls: seq<Line>, tenant: string)
    requires forall k | 0 <= k < |ls| :: ls[k].tenant == tenant
    ensures AllOneSided(OneSidedPrefix(ls))
    ensures forall k | 0 <= k < |OneSidedPrefix(ls)| :: OneSidedPrefix(ls)[k].tenant == tenant
  {
    hide OneSided;
    if ls != [] { PrefixIsOneSided(ls[1..], tenant); }
  }

  /** A half-written payroll is within the tolerance exactly when its residue is. */
  lemma HalfPayrollOk(p: Payroll, clock: nat)
    ensures var e := PayrollEntry(p, clock);
      EntryOk(e.(lines := OneSidedPrefix(e.lines))) <==> Abs(Residue(p)) <= TOLERANCE
  {
    ResidueOfPrefix(p);
    PrefixIsOneSided(PayrollLines(p), p.tenant);
    hide OneSidedPrefix, Residue, Debits, Credits, AllOneSided, Decimal, PadTwo, PayrollReference;
  }

  /** A half-written payment has no lines. */
  lemma HalfPaymentOk(e: Payment, invoice: Invoice, clock: nat)
    requires !AllOneSided(PaymentLines(e, invoice.direction))
    ensures OneSidedPrefix(PaymentLines(e, invoice.direction)) == []
    ensures var x := PaymentEntry(e, invoice, clock); EntryOk(x.(lines := OneSidedPrefix(x.lines)))
  {
    var ls := PaymentLines(e, invoice.direction);
    assert !OneSided(ls[0]);
    NoSums();
    hide Debits, Credits, Decimal;
  }

  lemma AppendKeepsOk(j: seq<Entry>, e: Entry)
    requires LedgerOk(j)
    requires e.kind == PAYROLL ==> forall k | 0 <= k < |j| ::
      !(j[k].kind == PAYROLL && j[k].tenant == e.tenant && j[k].reference == e.reference)
    ensures LedgerOk(j + [e]) <==> EntryOk(e)
  {
    hide EntryOk;
    if LedgerOk(j + [e]) { assert EntryOk((j + [e])[|j|]); }
  }

  /** A payroll that passes the check of its amounts, breaks off, and leaves more than ten kurus unbalanced. */
  predicate Spoils(j: seq<Entry>, invoices: Invoices, v: Event) {
    v.PayrollEvent? && OutcomeOf(j, invoices, v).Broken? && Abs(Residue(v.p)) > TOLERANCE
  }

  /** A delivery keeps the ledger in order exactly when it does not spoil it. */
  lemma HandleKeepsOk(j: seq<Entry>, invoices: Invoices, v: Event)
    requires LedgerOk(j)
    ensures LedgerOk(Handle(j, invoices, v)) <==> !Spoils(j, invoices, v)
  {
    hide LedgerOk, EntryOk, PayrollLines, PaymentLines, PayrollReference, Decimal, PadTwo, OneSidedPrefix, Residue;
    match v
    case PayrollEvent(p, clock) =>
      if PayrollOutcome(j, p, clock).Posted? {
        PayrollEntryOk(p, clock);
        AppendKeepsOk(j, PayrollEntry(p, clock));
      } else if PayrollOutcome(j, p, clock).Broken? {
        HalfPayrollOk(p, clock);
        AppendKeepsOk(j, PayrollEntry(p, clock).(lines := OneSidedPrefix(PayrollLines(p))));
      }
    case PaymentEvent(e, clock) =>
      if Known(invoices, e) {
        var x := PaymentEntry(e, invoices[e.invoiceId], clock);
        if PaymentOutcome(j, invoices, e, clock).Posted? {
          PaymentEntryOk(e, invoices[e.invoiceId], clock);
          AppendKeepsOk(j, x);
        } else if PaymentOutcome(j, invoices, e, clock).Broken? {
          HalfPaymentOk(e, invoices[e.invoiceId], clock);
          AppendKeepsOk(j, x.(lines := OneSidedPrefix(x.lines)));
        }
      }
  }

  /** Every new payroll without taxes spoils the ledger, unless its whole cost is ten kurus or less. */
  lemma UntaxedPayrollSpoils(j: seq<Entry>, invoices: Invoices, p: Payroll, clock: nat)
    requires !AlreadyPosted(j, p) && !NumberTaken(j, p.tenant, PayrollEntry(p, clock).number)
    requires p.incomeTax + p.stampTax == 0 && Abs(Gap(p)) <= TOLERANCE && p.gross + p.sgkEmployer > 0
    ensures Spoils(j, invoices, PayrollEvent(p, clock)) <==> p.gross + p.sgkEmployer > TOLERANCE
  {
    FourLines(p);
    hide Decimal, PadTwo, AlreadyPosted, NumberTaken, PayrollLines;
  }

  /** Some delivery of the run spoils the ledger it finds. */
  predicate SpoiltIn(j: seq<Entry>, invoices: Invoices, vs: seq<Event>)
    decreases |vs|
  {
    vs != [] && (Spoils(j, invoices, vs[0]) || SpoiltIn(Handle(j, invoices, vs[0]), invoices, vs[1..]))
  }

  /** Nothing that was written is ever taken back. */
  lemma {:induction false} EntriesStay(j: seq<Entry>, invoices: Invoices, vs: seq<Event>)
    ensures j <= HandleAll(j, invoices, vs)
    decreases |vs|
  {
    hide PayrollEntry, PaymentEntry, PayrollOutcome, PaymentOutcome, OneSidedPrefix;
    if vs != [] { EntriesStay(Handle(j, invoices, vs[0]), invoices, vs[1..]); }
  }

  lemma PrefixIsOk(j: seq<Entry>, k: seq<Entry>)
    requires j <= k && LedgerOk(k)
    ensures LedgerOk(j)
  {
    hide EntryOk;
    assert forall i | 0 <= i < |j| :: j[i] == k[i];
  }

  /** Over any deliveries: the ledger ends in order exactly when none of them spoilt it. */
  lemma {:induction false} HandleAllKeepsOk(j: seq<Entry>, invoices: Invoices, vs: seq<Event>)
    requires LedgerOk(j)
    ensures LedgerOk(HandleAll(j, invoices, vs)) <==> !SpoiltIn(j, invoices, vs)
    decreases |vs|
  {
    hide LedgerOk, Handle, Spoils;
    if vs != [] {
      HandleKeepsOk(j, invoices, vs[0]);
      if Spoils(j, invoices, vs[0]) {
        EntriesStay(Handle(j, invoices, vs[0]), invoices, vs[1..]);
        if LedgerOk(HandleAll(j, invoices, vs)) {
          PrefixIsOk(Handle(j, invoices, vs[0]), HandleAll(j, invoices, vs));
        }
      } else {
        HandleAllKeepsOk(Handle(j, invoices, vs[0]), invoices, vs[1..]);
      }
    }
  }

  /** The amounts of a payroll below the tax threshold. */
  predicate Untaxed(p: Payroll) {
    && p.gross == 100 && p.net == 85 && p.incomeTax == 0 && p.stampTax == 0
    && p.sgkWorker == 15 && p.sgkEmployer == 20
  }

  lemma UntaxedAmounts(p: Payroll)
    requires Untaxed(p)
    ensures Gap(p) == 0 && Residue(p) == 120
    ensures p.incomeTax + p.stampTax == 0 && p.gross + p.sgkEmployer == 120
  {
  }

  lemma NothingPosted(p: Payroll, number: string)
    ensures !AlreadyPosted([], p) && !NumberTaken([], p.tenant, number) && LedgerOk([])
  {
  }

  /** Such a payroll: the amounts agree, it breaks off at the line without tax, and its cost stays unbalanced. */
  lemma UntaxedPayrollExample(p: Payroll, invoices: Invoices, clock: nat)
    requires Untaxed(p)
    ensures Gap(p) == 0 && Residue(p) == 120
    ensures !LedgerOk(HandleAll([], invoices, [PayrollEvent(p, clock)]))
  {
    hide *;
    UntaxedAmounts(p);
    ZeroIsTolerated();
    NothingPosted(p, PayrollEntry(p, clock).number);
    UntaxedPayrollSpoils([], invoices, p, clock);
    SpoiltAtOnce([], invoices, PayrollEvent(p, clock));
    HandleAllKeepsOk([], invoices, [PayrollEvent(p, clock)]);
  }

  lemma ZeroIsTolerated()
    ensures Abs(0) <= TOLERANCE < 120
  {
  }

  lemma SpoiltAtOnce(j: seq<Entry>, invoices: Invoices, v: Event)
    ensures Spoils(j, invoices, v) ==> SpoiltIn(j, invoices, [v])
  {
    hide Spoils, Handle;
    assert [v][0] == v;
  }

  /** Every line obeys the table's constraint. */
  predicate ValidLines(j: seq<Entry>) { forall k | 0 <= k < |j| :: AllOneSided(j[k].lines) }

  /** Spoilt or not: lines obey the constraint, and a period has one payroll entry at most. */
  lemma {:induction false} LinesStayValid(j: seq<Entry>, invoices: Invoices, vs: seq<Event>)
    requires ValidLines(j) && OnePayrollPerPeriod(j)
    ensures ValidLines(HandleAll(j, invoices, vs)) && OnePayrollPerPeriod(HandleAll(j, invoices, vs))
    decreases |vs|
  {
    hide Handle, ValidLines, OnePayrollPerPeriod;
    if vs != [] {
      HandleKeepsValid(j, invoices, vs[0]);
      LinesStayValid(Handle(j, invoices, vs[0]), invoices, vs[1..]);
    }
  }

  lemma HandleKeepsValid(j: seq<Entry>, invoices: Invoices, v: Event)
    requires ValidLines(j) && OnePayrollPerPeriod(j)
    ensures ValidLines(Handle(j, invoices, v)) && OnePayrollPerPeriod(Handle(j, invoices, v))
  {
    match v
    case PayrollEvent(p, clock) =>
      PrefixIsOneSided(PayrollLines(p), p.tenant);
    case PaymentEvent(e, clock) =>
      if Known(invoices, e) { PrefixIsOneSided(PaymentLines(e, invoices[e.invoiceId].direction), e.tenant); }
    hide OneSided, OneSidedPrefix, PayrollLines, PaymentLines, PayrollReference, Decimal, PadTwo;
  }

  /** The number of a payroll entry names its period and the moment it is posted. */
  lemma PayrollNumberNamesPeriod(p: Payroll, q: Payroll, first: nat, second: nat)
    ensures PayrollEntry(p, first).number == PayrollEntry(q, second).number <==>
      p.year == q.year && p.month == q.month && first == second
  {
    var a, b := PayrollEntry(p, first).number, PayrollEntry(q, second).number;
    if a == b {
      DecimalIsPlain(first);
      DecimalIsPlain(second);
      SplitAtLast('-', "BRD-" + Period(p), Decimal(first), "BRD-" + Period(q), Decimal(second));
      DecimalInjective(first, second);
      assert ("BRD-" + Period(p))[4..] == Period(p) && ("BRD-" + Period(q))[4..] == Period(q);
      PeriodNamesMonth(p, q);
    }
  }

  lemma DecimalIsPlain(n: nat)
    ensures '-' !in Decimal(n)
  {
    PadTwoHasNoDash(n);
  }

  lemma PeriodNamesMonth(p: Payroll, q: Payroll)
    requires Period(p) == Period(q)
    ensures p.year == q.year && p.month == q.month
  {
    PadTwoHasNoDash(p.month);
    PadTwoHasNoDash(q.month);
    SplitAtLast('-', Decimal(p.year), PadTwo(p.month), Decimal(q.year), PadTwo(q.month));
    DecimalInjective(p.year, q.year);
    PadTwoInjective(p.month, q.month);
  }

  /**
   Another period's payroll is never taken for a repetition: after one payroll is posted, that of another
   period with all its amounts is posted too, unless some other entry has its number.
   */
  lemma NextPayrollIsPosted(j: seq<Entry>, invoices: Invoices, p: Payroll, q: Payroll, first: nat, second: nat)
    requires p.tenant == q.tenant && (p.year, p.month) != (q.year, q.month)
    requires PayrollOutcome(j, p, first).Posted? && PayrollOutcome(j, q, second).Posted?
    ensures PayrollOutcome(Handle(j, invoices, PayrollEvent(p, first)), q, second).Posted?
  {
    ReferenceNamesPeriod(p, q);
    PayrollNumberNamesPeriod(p, q, first, second);
    hide PayrollReference, Period, PayrollLines;
  }

  /** Periods are written differently, and references of one tenant differ when its periods do. */
  lemma ReferenceNamesPeriod(p: Payroll, q: Payroll)
    requires p.tenant == q.tenant
    ensures PayrollReference(p) == PayrollReference(q) <==> p.year == q.year && p.month == q.month
  {
    if PayrollReference(p) == PayrollReference(q) {
      assert PayrollReference(p)[|p.tenant| + 1..] == Period(p) && PayrollReference(q)[|p.tenant| + 1..] == Period(q);
      PeriodNamesMonth(p, q);
    }
  }

  // ------------------------------------------------------------------ imbalance

  function LinesOf(j: seq<Entry>, tenant: string): seq<Line> {
    if j == [] then []
    else LinesOf(j[..|j| - 1], tenant) + if j[|j| - 1].tenant == tenant then j[|j| - 1].lines else []
  }

  function Payrolls(j: seq<Entry>, tenant: string): nat {
    if j == [] then 0
    else Payrolls(j[..|j| - 1], tenant) + if j[|j| - 1].tenant == tenant && j[|j| - 1].kind == PAYROLL then 1 else 0
  }

  lemma {:induction false} LinesOneSided(j: seq<Entry>, tenant: string)
    requires ValidLines(j)
    ensures AllOneSided(LinesOf(j, tenant))
  {
    hide OneSided;
    if j != [] { LinesOneSided(j[..|j| - 1], tenant); }
  }

  lemma NoSums()
    ensures Debits([]) == 0 == Credits([])
  {
  }

  lemma {:induction false} ImbalanceBound(j: seq<Entry>, tenant: string)
    requires LedgerOk(j)
    ensures Abs(Debits(LinesOf(j, tenant)) - Credits(LinesOf(j, tenant))) <= TOLERANCE * Payrolls(j, tenant)
  {
    hide AllOneSided, Debits, Credits;
    if j == [] {
      NoSums();
    } else {
      var n := |j| - 1;
      ImbalanceBound(j[..n], tenant);
      assert EntryOk(j[n]);
      SumsAppend(LinesOf(j[..n], tenant), if j[n].tenant == tenant then j[n].lines else []);
      NoSums();
    }
  }

  /**
   Whatever payroll and payment events arrive, however often: at most one payroll entry per tenant and period;
   and unless one spoils the ledger, a tenant's debits and credits differ by at most ten kurus per payroll entry.
   */
  lemma DeliveriesStayBounded(j: seq<Entry>, invoices: Invoices, vs: seq<Event>, tenant: string)
    requires LedgerOk(j)
    ensures var k := HandleAll(j, invoices, vs);
      && OnePayrollPerPeriod(k)
      && (!SpoiltIn(j, invoices, vs) ==>
            Abs(Debits(LinesOf(k, tenant)) - Credits(LinesOf(k, tenant))) <= TOLERANCE * Payrolls(k, tenant))
  {
    hide *;
    OkIsValid(j);
    LinesStayValid(j, invoices, vs);
    HandleAllKeepsOk(j, invoices, vs);
    if !SpoiltIn(j, invoices, vs) { ImbalanceBound(HandleAll(j, invoices, vs), tenant); }
  }

  lemma OkIsValid(j: seq<Entry>)
    requires LedgerOk(j)
    ensures ValidLines(j) && OnePayrollPerPeriod(j)
  {
    hide AllOneSided, OnePayrollPerPeriod;
    assert forall k | 0 <= k < |j| :: EntryOk(j[k]);
  }

  /** Refused for its amounts, or with nothing left hanging should a line be refused. */
  predicate Harmless(v: Event) { v.PayrollEvent? ==> Abs(Gap(v.p)) > TOLERANCE || Abs(Residue(v.p)) <= TOLERANCE }

  /** No sequence of harmless events spoils a ledger; a payroll with all four amounts is one. */
  lemma {:induction false} HarmlessNeverSpoil(j: seq<Entry>, invoices: Invoices, vs: seq<Event>)
    requires forall k | 0 <= k < |vs| :: Harmless(vs[k]) || (vs[k].PayrollEvent? && AllAmounts(vs[k].p))
    ensures !SpoiltIn(j, invoices, vs)
    decreases |vs|
  {
    hide Handle, AlreadyPosted, PostOutcome;
    if vs != [] {
      assert Harmless(vs[0]) || (vs[0].PayrollEvent? && AllAmounts(vs[0].p));
      HarmlessNeverSpoil(Handle(j, invoices, vs[0]), invoices, vs[1..]);
    }
  }

  /** A payroll that was posted once is ignored ever after, whatever comes between. */
  lemma {:induction false} PayrollOnce(j: seq<Entry>, invoices: Invoices, p: Payroll, vs: seq<Event>, clock: nat)
    requires AlreadyPosted(j, p)
    ensures AlreadyPosted(HandleAll(j, invoices, vs), p)
    ensures PayrollOutcome(HandleAll(j, invoices, vs), p, clock) == Ignored
    decreases |vs|
  {
    hide PayrollReference, PayrollEntry, PaymentEntry, PostOutcome;
    if vs != [] {
      var k :| 0 <= k < |j| && j[k].tenant == p.tenant && j[k].kind == PAYROLL && j[k].reference == PayrollReference(p);
      assert Handle(j, invoices, vs[0])[k] == j[k];
      PayrollOnce(Handle(j, invoices, vs[0]), invoices, p, vs[1..], clock);
    }
  }

  /** A payroll that broke off is taken for posted ever after: no later delivery completes it. */
  lemma BrokenPayrollStays(j: seq<Entry>, invoices: Invoices, p: Payroll, clock: nat, vs: seq<Event>, later: nat)
    requires PayrollOutcome(j, p, clock).Broken?
    ensures var k := HandleAll(Handle(j, invoices, PayrollEvent(p, clock)), invoices, vs);
      PayrollOutcome(k, p, later) == Ignored && Handle(k, invoices, PayrollEvent(p, later)) == k
  {
    var k := Handle(j, invoices, PayrollEvent(p, clock));
    hide PayrollReference, PayrollLines, Decimal, PadTwo, OneSidedPrefix, PostOutcome, HandleAll;
    assert k[|j|].reference == PayrollReference(p) && k[|j|].kind == PAYROLL && k[|j|].tenant == p.tenant;
    PayrollOnce(k, invoices, p, vs, later);
  }

  /** Entries of other tenants never decide what becomes of an event. */
  lemma TenantsApart(j: seq<Entry>, other: Entry, invoices: Invoices, v: Event)
    requires other.tenant != if v.PayrollEvent? then v.p.tenant else v.e.tenant
    ensures OutcomeOf(j + [other], invoices, v) == OutcomeOf(j, invoices, v)
  {
    hide PayrollReference, PayrollLines, PaymentLines, Decimal, PadTwo, AllOneSided;
    var k, n := j + [other], |j|;
    assert forall i | 0 <= i < n :: k[i] == j[i];
    match v
    case PayrollEvent(p, clock) =>
      assert AlreadyPosted(k, p) <==> AlreadyPosted(j, p);
      assert NumberTaken(k, p.tenant, PayrollEntry(p, clock).number) <==>
        NumberTaken(j, p.tenant, PayrollEntry(p, clock).number);
    case PaymentEvent(e, clock) =>
      if Known(invoices, e) {
        var number := PaymentEntry(e, invoices[e.invoiceId], clock).number;
        assert NumberTaken(k, e.tenant, number) <==> NumberTaken(j, e.tenant, number);
      }
  }

  /** A payment delivered again in another millisecond is posted again, unless its number was taken by another entry. */
  lemma PaymentPostedAgain(j: seq<Entry>, invoices: Invoices, e: Payment, first: nat, second: nat)
    requires Known(invoices, e) && e.amount > 0
    requires !NumberTaken(j, e.tenant, PaymentEntry(e, invoices[e.invoiceId], first).number)
    requires !NumberTaken(j, e.tenant, PaymentEntry(e, invoices[e.invoiceId], second).number)
    ensures |HandleAll(j, invoices, [PaymentEvent(e, first), PaymentEvent(e, second)])| == |j| +
      (if first == second then 1 else 2)
  {
    var invoice := invoices[e.invoiceId];
    var a, b := PaymentEntry(e, invoice, first), PaymentEntry(e, invoice, second);
    var one := Handle(j, invoices, PaymentEvent(e, first));
    assert AllOneSided(PaymentLines(e, invoice.direction));
    assert one == j + [a];
    if first != second {
      if a.number == b.number { NumberNamesClock(invoice.number, first, second); }
      assert !NumberTaken(one, e.tenant, b.number);
    } else {
      assert one[|j|] == b;
    }
    assert [PaymentEvent(e, first), PaymentEvent(e, second)][1..] == [PaymentEvent(e, second)];
    assert [PaymentEvent(e, second)][1..] == [];
    hide NumberTaken, PaymentEntry, Decimal;
    assert HandleAll(one, invoices, [PaymentEvent(e, second)]) == Handle(one, invoices, PaymentEvent(e, second));
  }

  lemma NumberNamesClock(number: string, first: nat, second: nat)
    requires "ODE-" + number + "-" + Decimal(first) == "ODE-" + number + "-" + Decimal(second)
    ensures first == second
  {
    var head := "ODE-" + number + "-";
    assert (head + Decimal(first))[|head|..] == Decimal(first) && (head + Decimal(second))[|head|..] == Decimal(second);
    DecimalInjective(first, second);
  }
}
