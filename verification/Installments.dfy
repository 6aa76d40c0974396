/**
 Payment plans: creation, manual marking, and payments that concurrently close the lowest unpaid and
 unlocked installment, as an update over `FOR UPDATE SKIP LOCKED` does.
 */
module Installments {
  import opened Numbers
  import opened Wrappers

  datatype Installment = Installment(no: nat, due: int, amount: int)

  datatype Plan = Plan(invoiceId: string, count: nat, total: int, installments: seq<Installment>)

  /** The installments of a plan by number: free, locked by a running payment, or paid by one. */
  datatype Slot = Free | Locked(tx: nat) | Paid(tx: nat)

  type Slots = seq<Slot>

  predicate FreeBelow(s: Slots, n: nat)
    requires n <= |s|
  {
    forall i | 0 <= i < n :: !s[i].Free?
  }

  /** The row a payment gets: the lowest free one. */
  function Lowest(s: Slots): (k: nat)
    ensures k <= |s| && FreeBelow(s, k) && (k < |s| ==> s[k].Free?)
  {
    if s == [] || s[0].Free? then 0
    else
      var k := Lowest(s[1..]) + 1;
      assert forall i | 0 < i < k :: s[i] == s[1..][i - 1];
      k
  }

  predicate Holds(s: Slots, tx: nat) { exists i :: 0 <= i < |s| && s[i] == Locked(tx) }

  /** A payment takes a row and later commits or aborts; with no free row it ends at once, closing nothing. */
  datatype Action = Take(tx: nat) | Commit(tx: nat) | Abort(tx: nat)

  function TakeLowest(s: Slots, tx: nat): Slots {
    var k := Lowest(s);
    if k < |s| then s[k := Locked(tx)] else s
  }

  /** What becomes of the row a payment holds. */
  function Settle(s: Slots, tx: nat, outcome: Slot): Slots {
    seq(|s|, i requires 0 <= i < |s| => if s[i] == Locked(tx) then outcome else s[i])
  }

  function Next(s: Slots, a: Action): Slots {
    match a
    case Take(tx) => TakeLowest(s, tx)
    case Commit(tx) => Settle(s, tx, Paid(tx))
    case Abort(tx) => Settle(s, tx, Free)
  }

  /** Payments are different transactions. */
  predicate Begun(begun: set<nat>, run: seq<Action>)
    decreases |run|
  {
    if run == [] then true
    else if run[0].Take? then run[0].tx !in begun && Begun(begun + {run[0].tx}, run[1..])
    else Begun(begun, run[1..])
  }

  function After(s: Slots, run: seq<Action>): Slots
    decreases |run|
  {
    if run == [] then s else After(Next(s, run[0]), run[1..])
  }

  function Fresh(n: nat): Slots { seq(n, i => Free) }

  // ------------------------------------------------------------------ a prefix is taken

  /** The first k installments are taken, and no other. */
  predicate Prefix(s: Slots, k: nat) {
    k <= |s| && forall i | 0 <= i < |s| :: (i < k <==> !s[i].Free?)
  }

  lemma LowestOfPrefix(s: Slots, k: nat)
    requires Prefix(s, k)
    ensures Lowest(s) == k
  {
    var l := Lowest(s);
    assert l >= k;
    assert k < |s| ==> s[k].Free?;
  }

  function Takes(run: seq<Action>): nat {
    if run == [] then 0 else (if run[0].Take? then 1 else 0) + Takes(run[1..])
  }

  predicate NoAborts(run: seq<Action>) { forall i | 0 <= i < |run| :: !run[i].Abort? }

  lemma NextKeepsPrefix(s: Slots, a: Action, k: nat)
    requires Prefix(s, k) && !a.Abort?
    ensures Prefix(Next(s, a), if a.Take? then Min(k + 1, |s|) else k) && |Next(s, a)| == |s|
  {
    LowestOfPrefix(s, k);
  }

  /**
   With no abort the taken installments are always a prefix, as long as the payments that began, up to the whole
   plan.
   */
  lemma {:induction false} TakenIsPrefix(s: Slots, run: seq<Action>, k: nat)
    requires Prefix(s, k) && NoAborts(run)
    ensures |After(s, run)| == |s| && Prefix(After(s, run), Min(k + Takes(run), |s|))
    decreases |run|
  {
    hide Next, Prefix;
    if run == [] {
      assert k <= |s| by { PrefixWithin(s, k); }
    } else {
      assert !run[0].Abort?;
      NextKeepsPrefix(s, run[0], k);
      assert k <= |s| by { PrefixWithin(s, k); }
      TakenIsPrefix(Next(s, run[0]), run[1..], if run[0].Take? then Min(k + 1, |s|) else k);
    }
  }

  lemma PrefixWithin(s: Slots, k: nat)
    requires Prefix(s, k)
    ensures k <= |s|
  {
  }

  /** An abort keeps the taken installments a prefix exactly when it gives back nothing or the highest one taken. */
  lemma AbortKeepsPrefix(s: Slots, tx: nat, k: nat)
    requires Prefix(s, k) && forall i, j | 0 <= i < j < |s| :: !(s[i] == Locked(tx) == s[j])
    ensures (exists m :: Prefix(Next(s, Abort(tx)), m)) <==> !Holds(s, tx) || (k > 0 && s[k - 1] == Locked(tx))
  {
    var t := Next(s, Abort(tx));
    if !Holds(s, tx) {
      assert Prefix(t, k);
    } else {
      var i :| 0 <= i < |s| && s[i] == Locked(tx);
      if i == k - 1 {
        assert Prefix(t, k - 1);
      } else {
        assert t[i].Free? && !t[k - 1].Free?;
        assert forall m: nat :: Prefix(t, m) ==> k - 1 < m;
        assert forall m: nat :: Prefix(t, m) ==> m <= i;
      }
    }
  }

  // ------------------------------------------------------------------ once paid, and by one payment

  lemma PaidStays(s: Slots, a: Action, i: nat)
    requires i < |s| && s[i].Paid?
    ensures |Next(s, a)| == |s| && Next(s, a)[i] == s[i]
  {
    assert Lowest(s) != i;
  }

  /** A paid installment keeps its payment, whatever payments follow. */
  lemma {:induction false} PaidForGood(s: Slots, run: seq<Action>, i: nat)
    requires i < |s| && s[i].Paid?
    ensures |After(s, run)| == |s| && After(s, run)[i] == s[i]
    decreases |run|
  {
    hide Next;
    if run != [] {
      PaidStays(s, run[0], i);
      PaidForGood(Next(s, run[0]), run[1..], i);
    }
  }

  predicate Uses(x: Slot, tx: nat) { x == Locked(tx) || x == Paid(tx) }

  /** No payment has two installments, and only payments that began have one. */
  ghost predicate OneEach(s: Slots, begun: set<nat>) {
    && (forall i, tx | 0 <= i < |s| && Uses(s[i], tx) :: tx in begun)
    && (forall i, j, tx | 0 <= i < |s| && 0 <= j < |s| && Uses(s[i], tx) && Uses(s[j], tx) :: i == j)
  }

  lemma NextKeepsOneEach(s: Slots, a: Action, begun: set<nat>)
    requires OneEach(s, begun) && (a.Take? ==> a.tx !in begun)
    ensures OneEach(Next(s, a), if a.Take? then begun + {a.tx} else begun)
  {
    var t := Next(s, a);
    forall i, tx | 0 <= i < |t| && Uses(t[i], tx) ensures Uses(s[i], tx) || (a.Take? && tx == a.tx && i == Lowest(s)) {
    }
  }

  /** With aborts or without: no payment ever closes two installments. */
  lemma {:induction false} OnePerPayment(s: Slots, run: seq<Action>, begun: set<nat>)
    requires OneEach(s, begun) && Begun(begun, run)
    ensures forall i, j, tx | 0 <= i < j < |After(s, run)| ::
      !(Uses(After(s, run)[i], tx) && Uses(After(s, run)[j], tx))
    decreases |run|
  {
    hide Next, OneEach, Uses;
    if run == [] {
      assert forall i, j, tx | 0 <= i < j < |s| :: !(Uses(s[i], tx) && Uses(s[j], tx)) by { OneEachApart(s, begun); }
    } else {
      NextKeepsOneEach(s, run[0], begun);
      OnePerPayment(Next(s, run[0]), run[1..], if run[0].Take? then begun + {run[0].tx} else begun);
    }
  }

  lemma OneEachApart(s: Slots, begun: set<nat>)
    requires OneEach(s, begun)
    ensures forall i, j, tx | 0 <= i < j < |s| :: !(Uses(s[i], tx) && Uses(s[j], tx))
  {
  }

  // ------------------------------------------------------------------ how many, and how much

  function PaidCount(s: Slots): nat {
    if s == [] then 0 else PaidCount(s[..|s| - 1]) + if s[|s| - 1].Paid? then 1 else 0
  }

  lemma {:induction false} PaidCountOfPrefix(s: Slots, k: nat)
    requires Prefix(s, k) && forall i | 0 <= i < |s| :: !s[i].Locked?
    ensures PaidCount(s) == k
  {
    if s != [] {
      var n := |s| - 1;
      PaidCountOfPrefix(s[..n], Min(k, n));
    }
  }

  /** m payments that all finish, none aborting, close exactly the m lowest installments of an n-part plan, or all n. */
  lemma PaymentsCloseLowest(n: nat, run: seq<Action>)
    requires NoAborts(run) && forall i | 0 <= i < |After(Fresh(n), run)| :: !After(Fresh(n), run)[i].Locked?
    ensures |After(Fresh(n), run)| == n && PaidCount(After(Fresh(n), run)) == Min(Takes(run), n)
    ensures forall i | 0 <= i < n :: After(Fresh(n), run)[i].Paid? <==> i < Takes(run)
  {
    TakenIsPrefix(Fresh(n), run, 0);
    PaidCountOfPrefix(After(Fresh(n), run), Min(Takes(run), n));
  }

  function PaidAmount(s: Slots, parts: seq<Installment>): int
    requires |s| == |parts|
  {
    if s == [] then 0
    else PaidAmount(s[..|s| - 1], parts[..|s| - 1]) + if s[|s| - 1].Paid? then parts[|s| - 1].amount else 0
  }

  function OpenAmount(s: Slots, parts: seq<Installment>): int
    requires |s| == |parts|
  {
    if s == [] then 0
    else OpenAmount(s[..|s| - 1], parts[..|s| - 1]) + if s[|s| - 1].Paid? then 0 else parts[|s| - 1].amount
  }

  function Sum(parts: seq<Installment>): int {
    if parts == [] then 0 else Sum(parts[..|parts| - 1]) + parts[|parts| - 1].amount
  }

  lemma {:induction false} AmountsAddUp(s: Slots, parts: seq<Installment>)
    requires |s| == |parts|
    ensures PaidAmount(s, parts) + OpenAmount(s, parts) == Sum(parts)
  {
    if s != [] { AmountsAddUp(s[..|s| - 1], parts[..|s| - 1]); }
  }

  predicate Numbered(p: Plan) {
    && p.count == |p.installments| && p.total == Sum(p.installments)
    && forall i | 0 <= i < |p.installments| :: p.installments[i].no == i + 1
  }

  lemma {:induction false} PaidAmountOfPrefix(s: Slots, parts: seq<Installment>, k: nat)
    requires |s| == |parts| && k <= |s|
    requires forall i | 0 <= i < |s| :: s[i].Paid? <==> i < k
    ensures PaidAmount(s, parts) == Sum(parts[..k])
  {
    if s != [] {
      var n := |s| - 1;
      PaidAmountOfPrefix(s[..n], parts[..n], if k > n then n else k);
      if k > n {
        assert parts[..k] == parts && parts[..k][..|parts[..k]| - 1] == parts[..n][..n];
      } else {
        assert parts[..n][..k] == parts[..k];
      }
    }
  }

  lemma {:induction false} SumSplit(parts: seq<Installment>, k: nat)
    requires k <= |parts|
    ensures Sum(parts) == Sum(parts[..k]) + Sum(parts[k..])
    decreases |parts|
  {
    if k == |parts| {
      assert parts[..k] == parts;
    } else {
      var n := |parts| - 1;
      SumSplit(parts[..n], k);
      assert parts[..n][..k] == parts[..k];
      assert parts[k..][..|parts[k..]| - 1] == parts[..n][k..];
    }
  }

  /**
   m payments that all finish, none aborting, pay exactly the amounts of the first m installments; the rest stays
   open.
   */
  lemma PaymentsPayLowestAmounts(p: Plan, run: seq<Action>)
    requires Numbered(p) && NoAborts(run)
    requires forall i | 0 <= i < |After(Fresh(p.count), run)| :: !After(Fresh(p.count), run)[i].Locked?
    ensures |After(Fresh(p.count), run)| == |p.installments|
    ensures var s, k := After(Fresh(p.count), run), Min(Takes(run), p.count);
      && PaidAmount(s, p.installments) == Sum(p.installments[..k])
      && OpenAmount(s, p.installments) == Sum(p.installments[k..])
      && Sum(p.installments[..k]) + Sum(p.installments[k..]) == p.total
  {
    var s, k := After(Fresh(p.count), run), Min(Takes(run), p.count);
    PaymentsCloseLowest(p.count, run);
    hide After, Takes, PaidAmount, OpenAmount, Sum;
    PaidAmountOfPrefix(s, p.installments, k);
    AmountsAddUp(s, p.installments);
    SumSplit(p.installments, k);
  }

  lemma {:induction false} PaidAmountUpdate(s: Slots, parts: seq<Installment>, i: nat, x: Slot)
    requires |s| == |parts| && i < |s|
    ensures PaidAmount(s[i := x], parts) == PaidAmount(s, parts)
      + (if x.Paid? then parts[i].amount else 0) - (if s[i].Paid? then parts[i].amount else 0)
    decreases |s|
  {
    var n := |s| - 1;
    if i < n {
      PaidAmountUpdate(s[..n], parts[..n], i, x);
      assert s[i := x][..n] == s[..n][i := x];
    } else {
      assert s[i := x][..n] == s[..n];
    }
  }

  /**
   Aborting or not, only a commit moves money: from open to paid, the amount of the one installment its payment
   holds.
   */
  lemma StepMovesAmount(s: Slots, parts: seq<Installment>, a: Action, begun: set<nat>)
    requires |s| == |parts| && OneEach(s, begun)
    ensures |Next(s, a)| == |parts|
    ensures !(a.Commit? && Holds(s, a.tx)) ==> PaidAmount(Next(s, a), parts) == PaidAmount(s, parts)
    ensures forall i | 0 <= i < |s| && s[i] == Locked(a.tx) && a.Commit? ::
      PaidAmount(Next(s, a), parts) == PaidAmount(s, parts) + parts[i].amount
  {
    if a.Take? {
      var k := Lowest(s);
      if k < |s| { PaidAmountUpdate(s, parts, k, Locked(a.tx)); }
    } else if Holds(s, a.tx) {
      var i :| 0 <= i < |s| && s[i] == Locked(a.tx);
      assert Uses(s[i], a.tx);
      var x := if a.Commit? then Paid(a.tx) else Free;
      assert forall j | 0 <= j < |s| && s[j] == Locked(a.tx) :: Uses(s[j], a.tx) && j == i;
      assert Next(s, a) == s[i := x];
      PaidAmountUpdate(s, parts, i, x);
    } else {
      assert Next(s, a) == s;
    }
  }

  // ------------------------------------------------------------------ the services, one request at a time

  datatype Part = Part(due: int, amount: int)

  datatype Refusal = AlreadyPlanned | NoInstallments | NotFound | AlreadyPaid

  datatype Row = Row(plan: Plan, slots: Slots)

  predicate RowOk(invoiceId: string, r: Row) {
    r.plan.invoiceId == invoiceId && Numbered(r.plan) && r.plan.count > 0 && |r.slots| == r.plan.count
  }

  predicate NothingLocked(s: Slots) { forall i | 0 <= i < |s| :: !s[i].Locked? }

  class PaymentPlans {
    var rows: map<string, Row>

    ghost predicate Valid()
      reads this
    {
      forall id | id in rows :: RowOk(id, rows[id])
    }

    constructor ()
      ensures Valid() && rows == map[]
    {
      rows := map[];
    }

    /** One plan per invoice, with at least one part; the parts are numbered from one and add up to the total. */
    method Create(invoiceId: string, parts: seq<Part>) returns (r: Result<Plan, Refusal>)
      requires Valid()
      modifies this
      ensures Valid()
      ensures r == Failure(AlreadyPlanned) <==> invoiceId in old(rows)
      ensures r == Failure(NoInstallments) <==> invoiceId !in old(rows) && parts == []
      ensures r.Failure? ==> rows == old(rows)
      ensures r.Success? ==>
        && rows == old(rows)[invoiceId := Row(r.value, Fresh(|parts|))]
        && |r.value.installments| == |parts|
        && forall i | 0 <= i < |parts| :: r.value.installments[i] == Installment(i + 1, parts[i].due, parts[i].amount)
    {
      if invoiceId in rows { return Failure(AlreadyPlanned); }
      if parts == [] { return Failure(NoInstallments); }
      var total := 0;
      var installments: seq<Installment> := [];
      for i := 0 to |parts|
        invariant |installments| == i && total == Sum(installments)
        invariant forall k | 0 <= k < i :: installments[k] == Installment(k + 1, parts[k].due, parts[k].amount)
      {
        total := total + parts[i].amount;
        var more := installments + [Installment(i + 1, parts[i].due, parts[i].amount)];
        assert more[..|more| - 1] == installments;
        installments := more;
      }
      var plan := Plan(invoiceId, |parts|, total, installments);
      rows := rows[invoiceId := Row(plan, Fresh(|parts|))];
      return Success(plan);
    }

    /** Marks one installment by hand; one that is paid stays with its payment. */
    method MarkPaid(invoiceId: string, no: nat, tx: nat) returns (r: Result<(), Refusal>)
      requires Valid()
      modifies this
      ensures Valid()
      ensures var known := invoiceId in old(rows) && 1 <= no <= |old(rows)[invoiceId].slots|;
        && (r == Failure(NotFound) <==> !known)
        && (r == Failure(AlreadyPaid) <==> known && old(rows)[invoiceId].slots[no - 1].Paid?)
        && (r.Failure? ==> rows == old(rows))
      ensures r.Success? ==>
        var row := old(rows)[invoiceId];
        rows == old(rows)[invoiceId := row.(slots := row.slots[no - 1 := Paid(tx)])]
    {
      if !(invoiceId in rows && 1 <= no <= |rows[invoiceId].slots|) { return Failure(NotFound); }
      var row := rows[invoiceId];
      if row.slots[no - 1].Paid? { return Failure(AlreadyPaid); }
      rows := rows[invoiceId := row.(slots := row.slots[no - 1 := Paid(tx)])];
      return Success(());
    }

    /**
     A payment event with no other running: it closes the lowest unpaid installment, if the invoice has
     a plan with one, which is what taking and committing does.
     */
    method MarkInstallmentPaid(invoiceId: string, tx: nat) returns (closed: Option<nat>)
      requires Valid() && (invoiceId in rows ==> NothingLocked(rows[invoiceId].slots))
      modifies this
      ensures Valid()
      ensures closed.None? ==> rows == old(rows)
      ensures closed.None? <==>
        invoiceId !in old(rows) || FreeBelow(old(rows)[invoiceId].slots, |old(rows)[invoiceId].slots|)
      ensures closed.Some? ==>
        var row := old(rows)[invoiceId];
        && 1 <= closed.value <= |row.slots| && row.slots[closed.value - 1].Free? &&
          FreeBelow(row.slots, closed.value - 1)
        && rows == old(rows)[invoiceId := row.(slots := After(row.slots, [Take(tx), Commit(tx)]))]
    {
      hide RowOk, NothingLocked, Lowest, After;
      if invoiceId !in rows { return None; }
      var row := rows[invoiceId];
      TakeThenCommit(row.slots, tx);
      for i := 0 to |row.slots|
        invariant rows == old(rows)
        invariant FreeBelow(row.slots, i)
      {
        if row.slots[i].Free? {
          SameShape(invoiceId, row, i, tx);
          rows := rows[invoiceId := row.(slots := row.slots[i := Paid(tx)])];
          return Some(i + 1);
        }
      }
      return None;
    }
  }

  lemma SameShape(invoiceId: string, row: Row, i: nat, tx: nat)
    requires RowOk(invoiceId, row) && i < |row.slots|
    ensures RowOk(invoiceId, row.(slots := row.slots[i := Paid(tx)]))
  {
  }

  lemma TwoSteps(s: Slots, a: Action, b: Action)
    ensures After(s, [a, b]) == Next(Next(s, a), b)
  {
    assert [a, b][1..] == [b] && [b][1..] == [];
    hide Next;
    assert After(Next(s, a), [b]) == Next(Next(s, a), b);
  }

  lemma TakenIsCommitted(s: Slots, tx: nat)
    requires NothingLocked(s)
    ensures Next(Next(s, Take(tx)), Commit(tx)) == if Lowest(s) < |s| then s[Lowest(s) := Paid(tx)] else s
  {
  }

  /** With nothing locked, taking and committing pays the lowest free installment. */
  lemma TakeThenCommit(s: Slots, tx: nat)
    requires NothingLocked(s)
    ensures After(s, [Take(tx), Commit(tx)]) == if Lowest(s) < |s| then s[Lowest(s) := Paid(tx)] else s
    ensures forall k | 0 <= k < |s| && s[k].Free? && FreeBelow(s, k) :: k == Lowest(s)
  {
    forall k | 0 <= k < |s| && s[k].Free? && FreeBelow(s, k) ensures k == Lowest(s) {
      assert k <= Lowest(s);
    }
    hide Next, After;
    TwoSteps(s, Take(tx), Commit(tx));
    TakenIsCommitted(s, tx);
  }
}
