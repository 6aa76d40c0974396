/** Double-entry lines and their sums.  Amounts are in kurus. */
module Journal {
  datatype Line = Line(tenant: string, account: string, debit: int, credit: int)

  function DebitLine(tenant: string, account: string, amount: int): Line { Line(tenant, account, amount, 0) }

  function CreditLine(tenant: string, account: string, amount: int): Line { Line(tenant, account, 0, amount) }

  function Debits(ls: seq<Line>): int { if ls == [] then 0 else Debits(ls[..|ls| - 1]) + ls[|ls| - 1].debit }

  function Credits(ls: seq<Line>): int { if ls == [] then 0 else Credits(ls[..|ls| - 1]) + ls[|ls| - 1].credit }

  /** Debits less credits of one account. */
  function Balance(ls: seq<Line>, account: string): int {
    if ls == [] then 0
    else Balance(ls[..|ls| - 1], account) + Effect(ls[|ls| - 1], account)
  }

  lemma {:induction false} SumsAppend(ls: seq<Line>, ms: seq<Line>)
    ensures Debits(ls + ms) == Debits(ls) + Debits(ms)
    ensures Credits(ls + ms) == Credits(ls) + Credits(ms)
    decreases |ms|
  {
    if ms == [] {
      assert ls + ms == ls;
    } else {
      var n := |ms| - 1;
      SumsAppend(ls, ms[..n]);
      assert (ls + ms)[..|ls + ms| - 1] == ls + ms[..n];
    }
  }

  lemma {:induction false} BalanceAppend(ls: seq<Line>, ms: seq<Line>, account: string)
    ensures Balance(ls + ms, account) == Balance(ls, account) + Balance(ms, account)
    decreases |ms|
  {
    if ms == [] {
      assert ls + ms == ls;
    } else {
      var n := |ms| - 1;
      BalanceAppend(ls, ms[..n], account);
      assert (ls + ms)[..|ls + ms| - 1] == ls + ms[..n];
    }
  }

  /** A line's effect on an account. */
  function Effect(l: Line, account: string): int { if l.account == account then l.debit - l.credit else 0 }

  lemma SumsOfTwo(l: Line, m: Line)
    ensures Debits([l, m]) == l.debit + m.debit && Credits([l, m]) == l.credit + m.credit
    ensures forall account :: Balance([l, m], account) == Effect(l, account) + Effect(m, account)
  {
    var one := [l];
    assert [l, m][..1] == one && one[..|one| - 1] == [];
    assert Debits(one) == Debits(one[..|one| - 1]) + l.debit;
    assert Credits(one) == Credits(one[..|one| - 1]) + l.credit;
    assert forall account :: Balance(one, account) == Balance(one[..|one| - 1], account) + Effect(l, account);
  }
}
