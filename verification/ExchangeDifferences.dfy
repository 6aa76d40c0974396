/**
 Exchange rates, conversion to lira, and the revaluation of foreign receivables and payables under
 article 280 of the VUK.  Rates are fractions; amounts are in the currency's smallest unit.
 */
module ExchangeDifferences {
  import opened Counting
  import opened Journal
  import opened Numbers
  import opened Wrappers

  const MILLION: nat := 1_000_000

  datatype Rate = Rate(num: int, den: Pos)

  /** `Math.round(rate * 1_000_000)` */
  function Micro(r: Rate): int { RoundHalfUp(r.num * MILLION, r.den) }

  /** The lira value of a foreign amount, cut off toward zero. */
  function Value(amount: int, r: Rate): int { TruncDiv(amount * Micro(r), MILLION) }

  /** Cutting off toward zero treats both signs alike and loses less than one unit. */
  lemma ValueCutsTowardZero(amount: int, r: Rate)
    ensures Value(-amount, r) == -Value(amount, r)
    ensures var exact := amount * Micro(r);
      && Abs(Value(amount, r)) * MILLION <= Abs(exact) < Abs(Value(amount, r)) * MILLION + MILLION
      && (exact >= 0 ==> Value(amount, r) >= 0) && (exact <= 0 ==> Value(amount, r) <= 0)
  {
    hide Micro;
    assert -amount * Micro(r) == -(amount * Micro(r));
  }

  // ------------------------------------------------------------------ the value and the rate

  /** v is the quotient of n by d, cut off toward zero. */
  predicate CutQuotient(v: int, n: int, d: Pos) {
    && Abs(v) * d <= Abs(n) < Abs(v) * d + d
    && (n >= 0 ==> v >= 0) && (n <= 0 ==> v <= 0)
  }

  /**
   The lira value of an amount at a rate: exact but for the cut when the rate has at most six decimals,
   and otherwise within a two-millionth of the amount and one unit.
   */
  predicate AtRate(amount: int, r: Rate, v: int) {
    && (r.num * 1_000_000 % r.den == 0 ==> CutQuotient(v, amount * r.num, r.den))
    && 2_000_000 * Abs(v * r.den - amount * r.num) <= r.den * (Abs(amount) + 2_000_000)
  }

  lemma AbsProduct(a: int, b: int)
    ensures Abs(a * b) == Abs(a) * Abs(b)
  {
  }

  /** The rate in millionths is the rate, to half a millionth; exactly, when it has at most six decimals. */
  lemma MicroIsRate(r: Rate)
    ensures Abs(2 * (Micro(r) * r.den) - 2 * (r.num * 1_000_000)) <= r.den
    ensures r.num * 1_000_000 % r.den == 0 ==> Micro(r) * r.den == r.num * 1_000_000
  {
    var m, n := Micro(r), r.num * 1_000_000;
    assert 2 * r.den * m == 2 * (m * r.den);
    if n % r.den == 0 {
      var q := n / r.den;
      assert n == r.den * q;
      assert 2 * r.den * q == 2 * n;
      RoundHalfUpUnique(n, r.den, q);
    }
  }

  lemma SameFraction(v: int, a: int, c: Pos, b: int, d: Pos)
    requires a * d == b * c && CutQuotient(v, a, c)
    ensures CutQuotient(v, b, d)
  {
    var w := Abs(v);
    AbsProduct(a, d);
    AbsProduct(b, c);
    assert Abs(b) * c == Abs(a) * d;
    MulMonotone(d, w * c, Abs(a));
    assert d * (w * c) == c * (w * d);
    assert c * (w * d) <= c * Abs(b);
    if w * d > Abs(b) { CancelFactor(c, Abs(b), w * d); }
    CancelFactor(d, Abs(a), w * c + c);
    assert d * (w * c + c) == c * (w * d + d);
    CancelFactor(c, Abs(b), w * d + d);
    if b > 0 { if a <= 0 { MulMonotone(d, a, 0); CancelFactor(c, 0, b); } }
    if b < 0 { if a >= 0 { MulMonotone(d, 0, a); CancelFactor(c, b, 0); } }
  }

  lemma ErrorIsSum(v: int, d: int, a: int, n: int, m: int)
    ensures 2_000_000 * (v * d - a * n) == 2 * (d * (v * 1_000_000 - a * m)) + a * (2 * (m * d) - 2 * (n * 1_000_000))
  {
    assert d * (v * 1_000_000 - a * m) == 1_000_000 * (v * d) - a * (m * d) by {
      assert d * (v * 1_000_000) == 1_000_000 * (v * d) && d * (a * m) == a * (m * d);
    }
    assert a * (2 * (m * d) - 2 * (n * 1_000_000)) == 2 * (a * (m * d)) - 2_000_000 * (a * n);
  }

  lemma SumWithin(d: Pos, x: int, a: int, y: int, e: int)
    requires Abs(x) <= 1_000_000 && Abs(y) <= d && e == 2 * (d * x) + a * y
    ensures Abs(e) <= d * (Abs(a) + 2_000_000)
  {
    AbsProduct(d, x);
    AbsProduct(a, y);
    MulMonotone(d, Abs(x), 1_000_000);
    MulMonotone(Abs(a), Abs(y), d);
    assert d * (Abs(a) + 2_000_000) == Abs(a) * d + 2 * (d * 1_000_000);
  }

  /** The errors of two approximations put together. */
  lemma TwoErrors(v: int, d: Pos, a: int, n: int, m: int)
    requires Abs(v * 1_000_000 - a * m) <= 1_000_000
    requires Abs(2 * (m * d) - 2 * (n * 1_000_000)) <= d
    ensures 2_000_000 * Abs(v * d - a * n) <= d * (Abs(a) + 2_000_000)
  {
    ErrorIsSum(v, d, a, n, m);
    SumWithin(d, v * 1_000_000 - a * m, a, 2 * (m * d) - 2 * (n * 1_000_000), 2_000_000 * (v * d - a * n));
  }

  lemma ValueIsCut(amount: int, r: Rate)
    ensures CutQuotient(Value(amount, r), amount * Micro(r), 1_000_000)
    ensures Abs(Value(amount, r) * 1_000_000 - amount * Micro(r)) <= 1_000_000
  {
    hide Micro;
    ValueCutsTowardZero(amount, r);
  }

  lemma SameProducts(a: int, m: int, d: int, n: int)
    requires m * d == n * 1_000_000
    ensures (a * m) * d == (a * n) * 1_000_000
  {
    assert (a * m) * d == a * (m * d) && (a * n) * 1_000_000 == a * (n * 1_000_000);
  }

  /** The value of an amount, measured by the rate itself. */
  lemma ValueAtRate(amount: int, r: Rate)
    ensures AtRate(amount, r, Value(amount, r))
  {
    hide Micro, Value, CutQuotient, Abs;
    MicroIsRate(r);
    ValueIsCut(amount, r);
    var m, v := Micro(r), Value(amount, r);
    TwoErrors(v, r.den, amount, r.num, m);
    if r.num * 1_000_000 % r.den == 0 {
      SameProducts(amount, m, r.den, r.num);
      SameFraction(v, amount * m, 1_000_000, amount * r.num, r.den);
    }
  }

  datatype Difference = Difference(amount: nat, isGain: bool)

  function CalculateExchangeDiff(amount: int, original: Rate, current: Rate, isTry: bool): Difference {
    if isTry then Difference(0, false)
    else
      var diff := Value(amount, current) - Value(amount, original);
      Difference(Abs(diff), diff > 0)
  }

  /** The postings of one revaluation: none when nothing changed or the currency is the lira. */
  function DifferenceLines(tenant: string, d: Difference, isReceivable: bool): seq<Line> {
    var side := if isReceivable then "120" else "320";
    if d.amount == 0 then []
    else if d.isGain then [DebitLine(tenant, side, d.amount), CreditLine(tenant, "646", d.amount)]
    else [DebitLine(tenant, "656", d.amount), CreditLine(tenant, side, d.amount)]
  }

  /** The gain less the loss is exactly the change in value. */
  lemma DifferenceIsChange(amount: int, original: Rate, current: Rate)
    ensures var d := CalculateExchangeDiff(amount, original, current, false);
      && (if d.isGain then d.amount else 0 - d.amount) == Value(amount, current) - Value(amount, original)
      && (d.amount == 0 <==> Value(amount, current) == Value(amount, original))
      && (d.isGain <==> Value(amount, current) > Value(amount, original))
      && CalculateExchangeDiff(amount, original, current, true) == Difference(0, false)
      && AtRate(amount, original, Value(amount, original)) && AtRate(amount, current, Value(amount, current))
  {
    ValueAtRate(amount, original);
    ValueAtRate(amount, current);
    hide Value, AtRate;
    assert CalculateExchangeDiff(amount, original, current, true) == Difference(0, false);
  }

  lemma LinesOfDifference(tenant: string, amount: int, original: Rate, current: Rate, isReceivable: bool)
    ensures var change := Value(amount, current) - Value(amount, original);
      var ls := DifferenceLines(tenant, CalculateExchangeDiff(amount, original, current, false), isReceivable);
      && Debits(ls) == Credits(ls) == Abs(change)
      && Balance(ls, if isReceivable then "120" else "320") == change
      && Balance(ls, "646") == (if change > 0 then -change else 0)
      && Balance(ls, "656") == (if change < 0 then -change else 0)
      && CalculateExchangeDiff(amount, original, current, true).amount == 0
  {
    hide Value;
    var d := CalculateExchangeDiff(amount, original, current, false);
    var side := if isReceivable then "120" else "320";
    SumsOfTwo(DebitLine(tenant, side, d.amount), CreditLine(tenant, "646", d.amount));
    SumsOfTwo(DebitLine(tenant, "656", d.amount), CreditLine(tenant, side, d.amount));
  }

  // ------------------------------------------------------------------ a chain of revaluations

  /** One revaluation to a new rate, and whether its write went through; a failed write is only logged. */
  datatype Revaluation = Revaluation(rate: Rate, written: bool)

  function ChainLines(tenant: string, amount: int, start: Rate, rs: seq<Revaluation>, isReceivable: bool): seq<Line>
    decreases |rs|
  {
    if rs == [] then []
    else
      var diff := CalculateExchangeDiff(amount, start, rs[0].rate, false);
      (if rs[0].written then DifferenceLines(tenant, diff, isReceivable) else [])
      + ChainLines(tenant, amount, rs[0].rate, rs[1..], isReceivable)
  }

  function LastRate(start: Rate, rs: seq<Revaluation>): Rate { if rs == [] then start else rs[|rs| - 1].rate }

  /** What failed writes would have posted. */
  function Lost(amount: int, start: Rate, rs: seq<Revaluation>): int
    decreases |rs|
  {
    if rs == [] then 0
    else
      var here := if rs[0].written then 0 else Value(amount, rs[0].rate) - Value(amount, start);
      here + Lost(amount, rs[0].rate, rs[1..])
  }

  lemma NoLines()
    ensures Debits([]) == 0 == Credits([]) && forall account :: Balance([], account) == 0
  {
  }

  lemma {:induction false} ChainPosts(tenant: string, amount: int, start: Rate, rs: seq<Revaluation>,
      isReceivable: bool)
    ensures var posted := Value(amount, LastRate(start, rs)) - Value(amount, start) - Lost(amount, start, rs);
      var ls := ChainLines(tenant, amount, start, rs, isReceivable);
      && Debits(ls) == Credits(ls)
      && Balance(ls, if isReceivable then "120" else "320") == posted
      && Balance(ls, "646") + Balance(ls, "656") == -posted
    decreases |rs|
  {
    hide Value, CalculateExchangeDiff, DifferenceLines, Debits, Credits, Balance;
    if rs == [] {
      NoLines();
    } else {
      var diff := CalculateExchangeDiff(amount, start, rs[0].rate, false);
      var first := if rs[0].written then DifferenceLines(tenant, diff, isReceivable) else [];
      LinesOfDifference(tenant, amount, start, rs[0].rate, isReceivable);
      ChainPosts(tenant, amount, rs[0].rate, rs[1..], isReceivable);
      var rest := ChainLines(tenant, amount, rs[0].rate, rs[1..], isReceivable);
      SumsAppend(first, rest);
      BalanceAppend(first, rest, if isReceivable then "120" else "320");
      BalanceAppend(first, rest, "646");
      BalanceAppend(first, rest, "656");
      NoLines();
      assert LastRate(rs[0].rate, rs[1..]) == LastRate(start, rs);
    }
  }

  lemma {:induction false} NothingLost(amount: int, start: Rate, rs: seq<Revaluation>)
    requires forall i | 0 <= i < |rs| :: rs[i].written
    ensures Lost(amount, start, rs) == 0
    decreases |rs|
  {
    hide Value;
    if rs != [] { NothingLost(amount, rs[0].rate, rs[1..]); }
  }

  /**
   A receivable booked at its value at the first rate stands in account 120 at exactly its value at
   the last rate, less what failed writes lost; gains less losses are the change in value, and
   debits equal credits.
   */
  lemma ReceivableFollowsValue(tenant: string, amount: int, start: Rate, rs: seq<Revaluation>)
    ensures var ls := ChainLines(tenant, amount, start, rs, true);
      && Debits(ls) == Credits(ls)
      && Value(amount, start) + Balance(ls, "120") == Value(amount, LastRate(start, rs)) - Lost(amount, start, rs)
      && -(Balance(ls, "646") + Balance(ls, "656")) ==
        Value(amount, LastRate(start, rs)) - Value(amount, start) - Lost(amount, start, rs)
    ensures (forall i | 0 <= i < |rs| :: rs[i].written) ==>
      var booked := Value(amount, start) + Balance(ChainLines(tenant, amount, start, rs, true), "120");
      Lost(amount, start, rs) == 0 && AtRate(amount, LastRate(start, rs), booked)
    ensures AtRate(amount, start, Value(amount, start))
  {
    hide Value, AtRate;
    ChainPosts(tenant, amount, start, rs, true);
    ValueAtRate(amount, LastRate(start, rs));
    ValueAtRate(amount, start);
    if forall i | 0 <= i < |rs| :: rs[i].written { NothingLost(amount, start, rs); }
  }

  /**
   A payable's entries balance too, but a rise in value is debited to 320 and called a gain: the
   liability (credits less debits) ends at its value at the last rate exactly when that value is the first one.
   */
  lemma PayableMovesAway(tenant: string, amount: int, start: Rate, rs: seq<Revaluation>)
    requires forall i | 0 <= i < |rs| :: rs[i].written
    ensures var ls := ChainLines(tenant, amount, start, rs, false);
      var first, last := Value(amount, start), Value(amount, LastRate(start, rs));
      && Debits(ls) == Credits(ls)
      && first - Balance(ls, "320") == last - 2 * (last - first)
      && (first - Balance(ls, "320") == last <==> last == first)
  {
    hide Value;
    ChainPosts(tenant, amount, start, rs, false);
    NothingLost(amount, start, rs);
  }

  // ------------------------------------------------------------------ rates and conversion

  datatype Row = Row(currency: string, date: int, rate: Rate, manual: bool)

  predicate OneRatePerDay(rows: seq<Row>) {
    forall i, j | 0 <= i < j < |rows| :: !(rows[i].currency == rows[j].currency && rows[i].date == rows[j].date)
  }

  /** The row a conversion uses: of the currency, not after the date, and none between. */
  predicate LatestAt(rows: seq<Row>, i: int, currency: string, date: int) {
    && 0 <= i < |rows| && rows[i].currency == currency && rows[i].date <= date
    && forall j | 0 <= j < |rows| && rows[j].currency == currency && rows[j].date <= date ::
      rows[j].date <= rows[i].date
  }

  lemma LatestIsUnique(rows: seq<Row>, i: int, j: int, currency: string, date: int)
    requires OneRatePerDay(rows) && LatestAt(rows, i, currency, date) && LatestAt(rows, j, currency, date)
    ensures i == j
  {
    assert rows[i].date <= rows[j].date && rows[j].date <= rows[i].date;
  }

  function CountFetched(currencies: seq<string>, fetched: map<string, Rate>): nat {
    if currencies == [] then 0
    else
      CountFetched(currencies[..|currencies| - 1], fetched)
      + if currencies[|currencies| - 1] in fetched then 1 else 0
  }

  lemma {:induction false} CountFetchedIsCardinality(currencies: seq<string>, fetched: map<string, Rate>, n: nat)
    requires n <= |currencies|
    ensures CountFetched(currencies[..n], fetched) ==
      |Indices(n, i => 0 <= i < |currencies| && currencies[i] in fetched)|
  {
    var q := i => 0 <= i < |currencies| && currencies[i] in fetched;
    if n == 0 {
      OneIndexMore(0, q);
    } else {
      CountFetchedIsCardinality(currencies, fetched, n - 1);
      assert currencies[..n][..n - 1] == currencies[..n - 1];
      OneIndexMore(n - 1, q);
    }
  }

  class CurrencyService {
    var rows: seq<Row>
    var lines: seq<Line>

    constructor ()
      ensures rows == [] && lines == []
    {
      rows, lines := [], [];
    }

    /** One rate per currency and day: a second one for the same day takes the place of the first. */
    method Upsert(currency: string, date: int, rate: Rate, manual: bool)
      requires OneRatePerDay(rows)
      modifies this`rows
      ensures OneRatePerDay(rows)
      ensures Row(currency, date, rate, manual) in rows
      ensures forall r :: r in rows && !(r.currency == currency && r.date == date) <==>
        r in old(rows) && !(r.currency == currency && r.date == date)
    {
      var row := Row(currency, date, rate, manual);
      for i := 0 to |rows|
        invariant rows == old(rows)
        invariant forall j | 0 <= j < i :: !(rows[j].currency == currency && rows[j].date == date)
      {
        if rows[i].currency == currency && rows[i].date == date {
          rows := rows[i := row];
          assert rows[i] == row;
          assert forall j | 0 <= j < |rows| && j != i :: rows[j] == old(rows)[j];
          return;
        }
      }
      rows := rows + [row];
      assert rows[|rows| - 1] == row;
    }

    /** The lira is never converted; any other currency at the latest rate not after the date, if there is one. */
    method ConvertToTry(amount: int, currency: string, date: int) returns (r: Option<int>)
      ensures currency == "TRY" ==> r == Some(amount)
      ensures currency != "TRY" ==>
        (r.None? <==> forall i | 0 <= i < |rows| :: !(rows[i].currency == currency && rows[i].date <= date))
      ensures currency != "TRY" && r.Some? ==>
        exists i :: LatestAt(rows, i, currency, date) && r.value == Value(amount, rows[i].rate)
          && AtRate(amount, rows[i].rate, r.value)
      ensures currency != "TRY" && OneRatePerDay(rows) ==>
        forall i | LatestAt(rows, i, currency, date) :: r == Some(Value(amount, rows[i].rate))
    {
      if currency == "TRY" { return Some(amount); }
      var best := -1;
      for i := 0 to |rows|
        invariant -1 <= best < i
        invariant best == -1 ==> forall j | 0 <= j < i :: !(rows[j].currency == currency && rows[j].date <= date)
        invariant best >= 0 ==> rows[best].currency == currency && rows[best].date <= date
        invariant best >= 0 ==>
          forall j | 0 <= j < i && rows[j].currency == currency && rows[j].date <= date ::
            rows[j].date <= rows[best].date
      {
        if rows[i].currency == currency && rows[i].date <= date && (best == -1 || rows[i].date > rows[best].date) {
          best := i;
        }
      }
      if best == -1 { return None; }
      assert LatestAt(rows, best, currency, date);
      ValueAtRate(amount, rows[best].rate);
      if OneRatePerDay(rows) {
        forall i | LatestAt(rows, i, currency, date) ensures i == best {
          LatestIsUnique(rows, i, best, currency, date);
        }
      }
      return Some(Value(amount, rows[best].rate));
    }

    /**
     Today's rates of the currencies that could be fetched; a failed fetch leaves the currency as it
     was, no other row changes, and the count is that of the fetches.
     */
    method RefreshFromTcmb(currencies: seq<string>, fetched: map<string, Rate>, today: int) returns (saved: nat)
      requires OneRatePerDay(rows)
      modifies this`rows
      ensures OneRatePerDay(rows)
      ensures forall c | c in currencies && c in fetched :: Row(c, today, fetched[c], false) in rows
      ensures forall r: Row | !(r.currency in currencies && r.currency in fetched && r.date == today) :: r in rows <==>
        r in old(rows)
      ensures saved == CountFetched(currencies, fetched)
    {
      saved := 0;
      for i := 0 to |currencies|
        invariant OneRatePerDay(rows)
        invariant saved == CountFetched(currencies[..i], fetched)
        invariant forall c | c in currencies[..i] && c in fetched :: Row(c, today, fetched[c], false) in rows
        invariant forall r: Row | !(r.currency in currencies[..i] && r.currency in fetched && r.date == today) ::
          r in rows <==> r in old(rows)
      {
        var currency := currencies[i];
        assert currencies[..i + 1] == currencies[..i] + [currency];
        assert currencies[..i + 1][..i] == currencies[..i];
        if currency in fetched {
          Upsert(currency, today, fetched[currency], false);
          saved := saved + 1;
        }
      }
      assert currencies[..|currencies|] == currencies;
    }

    /** Posts one revaluation, if there is a difference and the write goes through. */
    method CreateExchangeDiffJournalEntry(tenant: string, amount: int, original: Rate, current: Rate, isTry: bool,
        isReceivable: bool, written: bool)
      modifies this`lines
      ensures lines == old(lines) +
        if written then DifferenceLines(tenant, CalculateExchangeDiff(amount, original, current, isTry), isReceivable)
        else []
      ensures Debits(lines) - Credits(lines) == old(Debits(lines)) - old(Credits(lines))
      ensures isTry || !written ==> lines == old(lines)
      ensures !isTry && written ==>
        var change := Value(amount, current) - Value(amount, original);
        var side := if isReceivable then "120" else "320";
        && Balance(lines, side) == old(Balance(lines, side)) + change
        && Balance(lines, "646") == old(Balance(lines, "646")) - Max(change, 0)
        && Balance(lines, "656") == old(Balance(lines, "656")) + Max(-change, 0)
    {
      hide Value, Debits, Credits, Balance;
      LinesOfDifference(tenant, amount, original, current, isReceivable);
      var d := CalculateExchangeDiff(amount, original, current, isTry);
      ghost var added := if written then DifferenceLines(tenant, d, isReceivable) else [];
      SumsAppend(lines, added);
      NoLines();
      BalanceAppend(lines, added, if isReceivable then "120" else "320");
      BalanceAppend(lines, added, "646");
      BalanceAppend(lines, added, "656");
      var side := if isReceivable then "120" else "320";
      SumsOfTwo(DebitLine(tenant, side, d.amount), CreditLine(tenant, "646", d.amount));
      SumsOfTwo(DebitLine(tenant, "656", d.amount), CreditLine(tenant, side, d.amount));
      if d.amount == 0 {
        assert lines + added == lines;
        return;
      }
      var debitAccount := if d.isGain then side else "656";
      var creditAccount := if d.isGain then "646" else side;
      if written {
        lines := lines + [DebitLine(tenant, debitAccount, d.amount), CreditLine(tenant, creditAccount, d.amount)];
      }
    }
  }
}
