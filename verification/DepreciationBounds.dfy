/** How far and how fast the two methods depreciate an asset over any number of yearly runs. */
module DepreciationBounds {
  import opened Numbers
  import opened Wrappers
  import opened FixedAssets

  /** Yearly runs, each for a year without a row yet. */
  predicate NewYears(e: Entry, years: seq<int>)
    decreases |years|
  {
    years == [] || (!Recorded(e, years[0]) && NewYears(RunYear(e, years[0]), years[1..]))
  }

  function AfterYears(e: Entry, years: seq<int>): Entry
    decreases |years|
  {
    if years == [] then e else AfterYears(RunYear(e, years[0]), years[1..])
  }

  /** An asset the yearly run works on, with the table's rate. */
  predicate InUse(a: Asset) {
    && !a.category.Land? && !a.status.Disposed?
    && a.rate == DepreciationRate(a.category, a.basis)
    && a.salvage <= a.cost && a.salvage <= a.book <= a.cost
    && (a.status.Active? || a.book == a.salvage)
  }

  /** The year's amount before the clamp at the salvage value. */
  function Rounded(a: Asset): int {
    RoundHalfUp((if a.basis.Normal? then a.cost else a.book) * a.rate.num, a.rate.den)
  }

  /** The book value after a run for a new year. */
  lemma BookAfterYear(e: Entry, year: int)
    requires InUse(e.asset) && !Recorded(e, year)
    ensures var a, b := e.asset, RunYear(e, year).asset;
      && InUse(b) && b == a.(book := b.book, accumulated := b.accumulated, status := b.status)
      && b.book == (if Rounded(a) > 0 then Max(a.book - Rounded(a), a.salvage) else a.book)
      && (b.book == a.salvage && a.book > a.salvage ==> b.status.FullyDepreciated?)
      && (b.book > a.salvage ==> b.status.Active?)
  {
  }

  /** A status of fully depreciated is the same as a book value down at the salvage value, from the first run on. */
  lemma FinishedMeansSalvage(e: Entry, year: int)
    requires InUse(e.asset) && !Recorded(e, year)
    ensures RunYear(e, year).asset.status.FullyDepreciated? <==> RunYear(e, year).asset.book == e.asset.salvage
  {
  }

  // ------------------------------------------------------------------ straight line

  /** The yearly amount of the straight-line method. */
  function YearlyAmount(a: Asset): int
    requires !a.category.Land?
  {
    RoundHalfUp(a.cost, LifeYears(a.category))
  }

  lemma StraightLineRate(a: Asset)
    requires InUse(a) && a.basis.Normal?
    ensures Rounded(a) == YearlyAmount(a) && YearlyAmount(a) >= 0
  {
    var d, n := YearlyAmount(a), LifeYears(a.category);
    if d < 0 { MulMonotone(2 * n, d, -1); }
  }

  /** What n runs of d leave of a value, never below the floor. */
  function Left(book: int, floor: int, d: int, n: nat): int { Max(book - n * d, floor) }

  /** Taking d once and then m times is taking it m + 1 times. */
  lemma TakeOnceMore(book: int, floor: int, d: int, m: nat)
    requires floor <= book && d >= 0
    ensures Left(Max(book - d, floor), floor, d, m) == Left(book, floor, d, m + 1)
    ensures Left(book, floor, d, 0) == book
  {
    assert (m + 1) * d == m * d + d;
    MulMonotone(d, 0, m);
  }

  /** One straight-line run takes the yearly amount, or what is left above the salvage value. */
  lemma StraightLineYear(e: Entry, year: int)
    requires InUse(e.asset) && e.asset.basis.Normal? && !Recorded(e, year)
    ensures var a, b := e.asset, RunYear(e, year).asset;
      && InUse(b) && b.basis == a.basis && b.category == a.category && b.cost == a.cost && b.salvage == a.salvage
      && b.book == Max(a.book - YearlyAmount(a), a.salvage)
      && (b.status.FullyDepreciated? <==> b.book == a.salvage)
      && YearlyAmount(a) >= 0 && a.salvage <= a.book
  {
    BookAfterYear(e, year);
    FinishedMeansSalvage(e, year);
    StraightLineRate(e.asset);
    InUseSalvage(e.asset);
    hide RunYear, RoundHalfUp, InUse, Recorded, DepreciationRate;
  }

  /** After n runs the book value is n yearly amounts below where it was, or at the salvage value. */
  lemma {:induction false} StraightLineAfter(e: Entry, years: seq<int>)
    requires InUse(e.asset) && e.asset.basis.Normal? && NewYears(e, years)
    ensures InUse(AfterYears(e, years).asset)
    ensures AfterYears(e, years).asset.book == Left(e.asset.book, e.asset.salvage, YearlyAmount(e.asset), |years|)
    ensures |years| > 0 ==>
      (AfterYears(e, years).asset.status.FullyDepreciated? <==> AfterYears(e, years).asset.book == e.asset.salvage)
    decreases |years|
  {
    hide RunYear, RoundHalfUp, InUse, Recorded, Max, Left;
    InUseSalvage(e.asset);
    StraightLineRate(e.asset);
    if years == [] {
      TakeOnceMore(e.asset.book, e.asset.salvage, YearlyAmount(e.asset), 0);
    } else {
      StraightLineYear(e, years[0]);
      StraightLineAfter(RunYear(e, years[0]), years[1..]);
      TakeOnceMore(e.asset.book, e.asset.salvage, YearlyAmount(e.asset), |years| - 1);
    }
  }

  lemma InUseSalvage(a: Asset)
    requires InUse(a)
    ensures a.salvage <= a.book
  {
  }

  function CeilDiv(a: nat, d: Pos): nat { (a + d - 1) / d }

  lemma CeilDivIsLeast(a: nat, d: Pos, n: nat)
    ensures n >= CeilDiv(a, d) <==> n * d >= a
  {
    var q := CeilDiv(a, d);
    assert q * d <= a + d - 1 < q * d + d;
    if n >= q { MulMonotone(d, q, n); } else { MulMonotone(d, n, q - 1); }
  }

  /**
   A new straight-line asset is fully depreciated after exactly as many runs as the rounded-up
   quotient of cost less salvage by the yearly amount, and never when that amount is 0.
   */
  lemma StraightLineFinishes(c: Category, life: Option<nat>, cost: nat, salvage: nat, years: seq<int>)
    requires !c.Land? && salvage < cost && years != []
    requires NewYears(Created(c, Some(Normal), life, cost, Some(salvage)), years)
    ensures var d := RoundHalfUp(cost, LifeYears(c));
      var finished := AfterYears(Created(c, Some(Normal), life, cost, Some(salvage)),
        years).asset.status.FullyDepreciated?;
      d >= 0 && (finished <==> d > 0 && |years| >= CeilDiv(cost - salvage, d))
  {
    hide RoundHalfUp;
    var e := Created(c, Some(Normal), life, cost, Some(salvage));
    StraightLineRate(e.asset);
    StraightLineAfter(e, years);
    var d := YearlyAmount(e.asset);
    if d > 0 { CeilDivIsLeast(cost - salvage, d, |years|); }
  }

  lemma SharePerYear(n: Pos, k: nat) returns (d: Pos)
    requires n in {4, 5, 10, 50}
    ensures RoundHalfUp(6_000_000, n) == d && (k >= CeilDiv(6_000_000, d) <==> k >= n)
  {
    d := 6_000_000 / n;
    assert n * d == 6_000_000;
    RoundHalfUpUnique(6_000_000, n, d);
    CeilDivIsLeast(6_000_000, d, k);
    hide CeilDiv, RoundHalfUp;
    if k >= n { MulMonotone(d, n, k); } else { MulMonotone(d, k + 1, n); }
  }

  lemma TableOfLives()
    ensures LifeYears(Building) == 50 && LifeYears(Machinery) == 10 && LifeYears(Vehicle) == 5
    ensures LifeYears(Fixtures) == 5 && LifeYears(Computer) == 4 && LifeYears(Other) == 10 && LifeYears(Land) == 0
  {
  }

  /** The lives of the table: 60,000 lira are written off after exactly that many runs. */
  lemma LivesOfTable(c: Category, life: Option<nat>, years: seq<int>)
    requires !c.Land? && years != []
    requires NewYears(Created(c, Some(Normal), life, 6_000_000, Some(0)), years)
    ensures AfterYears(Created(c, Some(Normal), life, 6_000_000, Some(0)), years).asset.status.FullyDepreciated? <==>
      |years| >= match c
        case Building => 50
        case Machinery => 10
        case Vehicle => 5
        case Fixtures => 5
        case Computer => 4
        case Other => 10
        case Land => 0
  {
    hide *;
    TableOfLives();
    var d := SharePerYear(LifeYears(c), |years|);
    StraightLineFinishes(c, life, 6_000_000, 0, years);
  }

  /**
   A new straight-line asset is finished within one run more than the table's life exactly when that many
   yearly amounts cover what is to be written off, which twice the amount reaching the life is enough for.
   */
  lemma StraightLineWithinLife(c: Category, life: Option<nat>, cost: nat, salvage: nat, years: seq<int>)
    requires !c.Land? && salvage < cost
    requires NewYears(Created(c, Some(Normal), life, cost, Some(salvage)), years)
    ensures var d, n := RoundHalfUp(cost, LifeYears(c)), LifeYears(c);
      var finished := AfterYears(Created(c, Some(Normal), life, cost, Some(salvage)),
        years).asset.status.FullyDepreciated?;
      && (|years| == n + 1 ==> (finished <==> (n + 1) * d >= cost - salvage))
      && (2 * d >= n ==> (n + 1) * d >= cost - salvage)
  {
    hide RoundHalfUp, NewYears, AfterYears, CeilDiv, Created;
    var n := LifeYears(c);
    var d := RoundHalfUp(cost, n);
    HalfLifeCovers(cost, n);
    assert 2 * d >= n ==> (n + 1) * d >= cost - salvage;
    hide *;
    if |years| == n + 1 {
      StraightLineFinishes(c, life, cost, salvage, years);
      CoversInTime(cost - salvage, d, n + 1);
    }
  }

  lemma HalfLifeCovers(cost: nat, n: Pos)
    ensures 2 * RoundHalfUp(cost, n) >= n ==> (n + 1) * RoundHalfUp(cost, n) >= cost
  {
    var d := RoundHalfUp(cost, n);
    assert (n + 1) * d == n * d + d && 2 * n * d == 2 * (n * d);
  }

  lemma CoversInTime(a: nat, d: nat, n: nat)
    requires a > 0
    ensures n * d >= a <==> d > 0 && n >= CeilDiv(a, d)
  {
    if d > 0 { CeilDivIsLeast(a, d, n); } else { assert n * d == 0; }
  }

  /** A small cost takes longer: 74 kurus on a building take 74 runs, not 51, and 24 kurus are never written off. */
  lemma SmallCostTakesLonger(years: seq<int>, others: seq<int>)
    requires years != [] && NewYears(Created(Building, Some(Normal), None, 74, Some(0)), years)
    requires others != [] && NewYears(Created(Building, Some(Normal), None, 24, Some(0)), others)
    ensures AfterYears(Created(Building, Some(Normal), None, 74, Some(0)), years).asset.status.FullyDepreciated? <==>
      |years| >= 74
    ensures !AfterYears(Created(Building, Some(Normal), None, 24, Some(0)), others).asset.status.FullyDepreciated?
  {
    RoundHalfUpUnique(74, 50, 1);
    RoundHalfUpUnique(24, 50, 0);
    hide NewYears, AfterYears, RoundHalfUp;
    StraightLineFinishes(Building, None, 74, 0, years);
    StraightLineFinishes(Building, None, 24, 0, others);
  }

  // ------------------------------------------------------------------ declining balance: where it ends

  /** The largest book value whose yearly amount rounds to 0. */
  function Stuck(r: Rate): nat
    requires r.num > 0
  {
    QuotientBounds(r.den - 1, 2 * r.num);
    (r.den - 1) / (2 * r.num)
  }

  lemma StuckBounds(r: Rate, b: int)
    requires r.num > 0
    ensures b <= Stuck(r) <==> 2 * (b * r.num) < r.den
  {
    var k := Stuck(r);
    QuotientBounds(r.den - 1, 2 * r.num);
    if b <= k {
      MulMonotone(2 * r.num, b, k);
    } else {
      MulMonotone(2 * r.num, k + 1, b);
    }
    assert 2 * (b * r.num) == 2 * r.num * b;
  }

  lemma RoundsToZero(r: Rate, b: nat)
    requires 0 < r.num && b <= Stuck(r)
    ensures RoundHalfUp(b * r.num, r.den) == 0
  {
    StuckBounds(r, b);
    RoundHalfUpUnique(b * r.num, r.den, 0);
  }

  /** The nearest integer to the value of a fraction of at most a half, above what rounds to zero. */
  lemma NearestWithin(p: nat, q: int, k: nat, b: nat, m: int)
    requires q > 0 && 2 * p <= q && k < b
    requires q * (2 * m - 1) <= 2 * (b * p) < q * (2 * m + 1)
    requires 2 * (k * p) < q <= 2 * (b * p)
    ensures 0 < m <= b - k
  {
    CancelFactor(q, 0, 2 * m);
    assert q * (2 * m + 1) == q * (2 * m) + q;
    MulMonotone(b - k, 2 * p, q);
    assert 2 * (b * p) == 2 * (k * p) + (b - k) * (2 * p);
    assert q * (b - k + 1) == (b - k) * q + q;
    CancelFactor(q, 2 * m - 1, b - k + 1);
  }

  /** Above the stuck value an amount is taken, and it never leads below it. */
  lemma RoundsWithin(r: Rate, b: nat)
    requires 0 < r.num && 2 * r.num <= r.den && Stuck(r) < b
    ensures 0 < RoundHalfUp(b * r.num, r.den) <= b - Stuck(r)
  {
    hide *;
    StuckBounds(r, b);
    StuckBounds(r, Stuck(r));
    RoundHalfUpBounds(b * r.num, r.den);
    NearestWithin(r.num, r.den, Stuck(r), b, RoundHalfUp(b * r.num, r.den));
  }

  /** Where a declining asset ends: at the salvage value or where rounding takes nothing more, whichever is higher. */
  function Floor(a: Asset): int
    requires a.rate.num > 0
  {
    Max(a.salvage, Stuck(a.rate))
  }

  lemma DecliningRate(a: Asset)
    requires InUse(a) && a.basis.Declining?
    ensures 0 < a.rate.num && 2 * a.rate.num <= a.rate.den
  {
  }

  /** One run: strictly down while above the floor and never below it, and no move at or under it. */
  lemma DecliningYear(e: Entry, year: int)
    requires InUse(e.asset) && e.asset.basis.Declining? && !Recorded(e, year)
    ensures e.asset.rate.num > 0
    ensures var a, b := e.asset, RunYear(e, year).asset;
      && (a.book > Floor(a) ==> Floor(a) <= b.book < a.book)
      && (a.book <= Floor(a) ==> b.book == a.book)
      && InUse(b) && b.basis.Declining? && b.rate == a.rate && b.salvage == a.salvage
  {
    var a := e.asset;
    DecliningRate(a);
    BookAfterYear(e, year);
    hide RunYear, Recorded, RoundHalfUp, Stuck, DepreciationRate;
    if a.book <= Stuck(a.rate) { RoundsToZero(a.rate, a.book); } else { RoundsWithin(a.rate, a.book); }
  }

  /** After any number of runs: at the floor, or strictly lower by at least one for each run. */
  lemma {:induction false} DecliningAfter(e: Entry, years: seq<int>)
    requires InUse(e.asset) && e.asset.basis.Declining? && NewYears(e, years)
    ensures e.asset.rate.num > 0
    ensures var b := AfterYears(e, years).asset;
      && InUse(b) && b.salvage == e.asset.salvage && b.rate == e.asset.rate
      && (if e.asset.book <= Floor(e.asset) then b.book == e.asset.book
          else b.book == Floor(e.asset) || (Floor(e.asset) < b.book && b.book + |years| <= e.asset.book))
    decreases |years|
  {
    hide RunYear, InUse, Recorded, Stuck;
    DecliningRate(e.asset);
    if years != [] {
      DecliningYear(e, years[0]);
      DecliningAfter(RunYear(e, years[0]), years[1..]);
    }
  }

  /** The stuck values of the table: only computers can go down to nothing. */
  lemma StuckTable()
    ensures Stuck(DepreciationRate(Building, Declining)) == 12
    ensures Stuck(DepreciationRate(Machinery, Declining)) == 2 == Stuck(DepreciationRate(Other, Declining))
    ensures Stuck(DepreciationRate(Vehicle, Declining)) == 1 == Stuck(DepreciationRate(Fixtures, Declining))
    ensures Stuck(DepreciationRate(Computer, Declining)) == 0
  {
  }

  // ------------------------------------------------------------------ declining balance: how close to the exact curve

  function Power(x: real, n: nat): real { if n == 0 then 1.0 else x * Power(x, n - 1) }

  function AsReal(r: Rate): real { r.num as real / r.den as real }

  lemma CancelReal(q: real, a: real, b: real)
    requires q > 0.0
    ensures q * a <= q * b <==> a <= b
  {
    if a <= b { assert q * (b - a) >= 0.0; } else { assert q * (a - b) > 0.0; }
  }

  lemma ProductAsReal(a: int, b: int)
    ensures (a * b) as real == a as real * b as real
  {
  }

  /** Within half a step of size p, counted in steps: within a half. */
  lemma HalfStep(p: real, y: real, z: real, u: real, v: real)
    requires p > 0.0 && u == p * y && v == p * z && 2.0 * u - p <= 2.0 * v <= 2.0 * u + p
    ensures -0.5 <= y - z <= 0.5
  {
    var d := y - z;
    assert p * d == u - v;
    assert p * d <= p * 0.5;
    assert p * -0.5 <= p * d;
    CancelReal(p, d, 0.5);
    CancelReal(p, -0.5, d);
  }

  lemma NearestReal(n: int, q: int, m: int, z: real)
    requires q > 0 && 2 * (q * m) - q <= 2 * n <= 2 * (q * m) + q && q as real * z == n as real
    ensures -0.5 <= m as real - z <= 0.5
  {
    ProductAsReal(q, m);
    HalfStep(q as real, m as real, z, (q * m) as real, n as real);
  }

  lemma ExactAmount(r: Rate, b: int)
    ensures r.den as real * (b as real * AsReal(r)) == (b * r.num) as real
  {
    var x, p, q := b as real, r.num as real, r.den as real;
    ProductAsReal(b, r.num);
    assert q * (p / q) == p;
    assert q * (x * (p / q)) == x * (q * (p / q));
  }

  /** The nearest integer is within a half of the exact amount. */
  lemma RoundedIsClose(r: Rate, b: int)
    ensures var m := RoundHalfUp(b * r.num, r.den) as real; -0.5 <= m - b as real * AsReal(r) <= 0.5
  {
    var m := RoundHalfUp(b * r.num, r.den);
    ExactAmount(r, b);
    hide RoundHalfUp, AsReal;
    assert 2 * r.den * m == 2 * (r.den * m);
    NearestReal(b * r.num, r.den, m, b as real * AsReal(r));
  }

  /** Never below the exact value by more than h, and not above it either unless at the salvage value. */
  predicate Close(book: int, salvage: int, exact: real, h: real) {
    -h <= book as real - exact && (book as real - exact <= h || book == salvage)
  }

  /** What a year leaves of a value at rate y. */
  function Faded(y: real, value: real): real { (1.0 - y) * value }

  /** The exact declining balance after n years. */
  function Curve(y: real, n: nat, value: real): real { if n == 0 then value else Curve(y, n - 1, Faded(y, value)) }

  lemma {:induction false} CurveIsPower(y: real, n: nat, value: real)
    ensures Curve(y, n, value) == Power(1.0 - y, n) * value
  {
    if n > 0 {
      CurveIsPower(y, n - 1, Faded(y, value));
      var p := Power(1.0 - y, n - 1);
      assert p * ((1.0 - y) * value) == (1.0 - y) * p * value;
    }
  }

  /** h is half the inverse of the rate. */
  predicate HalfInverse(y: real, h: real) { 0.0 < y <= 1.0 && y * h == 0.5 }

  /** An error of at most half the inverse of the rate stays one: what is left of it, and a half. */
  lemma ErrorCarriesOver(y: real, h: real, b: real, m: real, exact: real)
    requires HalfInverse(y, h) && -0.5 <= m - b * y <= 0.5
    ensures -h <= b - exact ==> -h <= b - m - Faded(y, exact)
    ensures b - exact <= h ==> b - m - Faded(y, exact) <= h
  {
    var x, delta := 1.0 - y, b - exact;
    assert b - b * y - x * exact == x * delta;
    assert x * h + 0.5 == h;
    if -h <= delta { assert x * (delta + h) >= 0.0; }
    if delta <= h { assert x * (h - delta) >= 0.0; }
  }

  lemma ClampStaysClose(book: int, next: int, salvage: int, exact: real, exactNext: real, h: real)
    requires next <= book && salvage <= book && Close(book, salvage, exact, h)
    requires -h <= next as real - exactNext
    requires book as real - exact <= h ==> next as real - exactNext <= h
    ensures Close(Max(next, salvage), salvage, exactNext, h)
  {
  }

  lemma RoundsUpward(r: Rate, b: nat)
    ensures RoundHalfUp(b * r.num, r.den) >= 0
  {
    CancelFactor(r.den, 2 * RoundHalfUp(b * r.num, r.den), -1);
  }

  /** A run takes the rounded amount, or what is left above the salvage value. */
  lemma DecliningTakes(e: Entry, year: int)
    requires InUse(e.asset) && e.asset.basis.Declining? && !Recorded(e, year)
    ensures var a, b := e.asset, RunYear(e, year).asset;
      var next := a.book - RoundHalfUp(a.book * a.rate.num, a.rate.den);
      b.rate == a.rate && b.salvage == a.salvage && next <= a.book && b.book == Max(next, a.salvage)
  {
    BookAfterYear(e, year);
    RoundsUpward(e.asset.rate, e.asset.book);
    hide RunYear, Recorded, RoundHalfUp, DepreciationRate;
  }

  lemma RoundingStaysClose(r: Rate, book: int, salvage: int, exact: real, h: real)
    requires HalfInverse(AsReal(r), h) && salvage <= book && Close(book, salvage, exact, h)
    requires RoundHalfUp(book * r.num, r.den) >= 0
    ensures Close(Max(book - RoundHalfUp(book * r.num, r.den), salvage), salvage, Faded(AsReal(r), exact), h)
  {
    var m := RoundHalfUp(book * r.num, r.den);
    RoundedIsClose(r, book);
    ErrorCarriesOver(AsReal(r), h, book as real, m as real, exact);
    hide *;
    assert Close(Max(book - m, salvage), salvage, Faded(AsReal(r), exact), h) by {
      CloseParts(book, salvage, exact, h);
      ClampStaysClose(book, book - m, salvage, exact, Faded(AsReal(r), exact), h);
    }
  }

  lemma CloseParts(book: int, salvage: int, exact: real, h: real)
    requires Close(book, salvage, exact, h)
    ensures -h <= book as real - exact
  {
  }

  lemma DecliningYearStaysClose(e: Entry, year: int, exact: real, h: real)
    requires InUse(e.asset) && e.asset.basis.Declining? && !Recorded(e, year)
    requires HalfInverse(AsReal(e.asset.rate), h) && Close(e.asset.book, e.asset.salvage, exact, h)
    ensures Close(RunYear(e, year).asset.book, e.asset.salvage, Faded(AsReal(e.asset.rate), exact), h)
  {
    DecliningTakes(e, year);
    InUseSalvage(e.asset);
    hide *;
    RoundingStaysClose(e.asset.rate, e.asset.book, e.asset.salvage, exact, h);
  }

  lemma {:induction false} DecliningStaysClose(e: Entry, years: seq<int>, exact: real, h: real)
    requires InUse(e.asset) && e.asset.basis.Declining? && NewYears(e, years)
    requires HalfInverse(AsReal(e.asset.rate), h) && Close(e.asset.book, e.asset.salvage, exact, h)
    ensures Close(AfterYears(e, years).asset.book, e.asset.salvage, Curve(AsReal(e.asset.rate), |years|, exact), h)
    decreases |years|
  {
    hide RunYear, Recorded, AsReal, Close, InUse, Floor, Faded, HalfInverse;
    if years != [] {
      DecliningYear(e, years[0]);
      DecliningYearStaysClose(e, years[0], exact, h);
      DecliningStaysClose(RunYear(e, years[0]), years[1..], Faded(AsReal(e.asset.rate), exact), h);
    }
  }

  lemma DecliningRateAsReal(c: Category)
    requires !c.Land?
    ensures 0.0 < AsReal(DepreciationRate(c, Declining)) <= 0.5
  {
  }

  /** The declining rate of a category, the exact book value after n years, and half the inverse of the rate. */
  function YearlyRate(c: Category): real { AsReal(DepreciationRate(c, Declining)) }

  function ExactBook(c: Category, cost: nat, n: nat): real { Power(1.0 - YearlyRate(c), n) * cost as real }

  function Drift(c: Category): real
    requires !c.Land?
  {
    DecliningRateAsReal(c);
    1.0 / (2.0 * YearlyRate(c))
  }

  lemma DriftHalvesRate(c: Category)
    requires !c.Land?
    ensures HalfInverse(YearlyRate(c), Drift(c)) && Drift(c) > 0.0
  {
    DecliningRateAsReal(c);
    hide AsReal, DepreciationRate;
  }

  lemma ExactBookIsCurve(c: Category, cost: nat, n: nat)
    ensures ExactBook(c, cost, n) == Curve(YearlyRate(c), n, cost as real)
  {
    hide YearlyRate, Curve, Power, AsReal;
    CurveIsPower(YearlyRate(c), n, cost as real);
  }

  lemma CreatedInUse(c: Category, life: Option<nat>, cost: nat, salvage: nat)
    requires !c.Land? && salvage <= cost
    ensures var a := Created(c, Some(Declining), life, cost, Some(salvage)).asset;
      InUse(a) && a.basis.Declining? && a.book == a.cost == cost && a.salvage == salvage &&
        AsReal(a.rate) == YearlyRate(c)
  {
  }

  /**
   With rate r, after n runs the book value of a new declining asset is within 1/(2r) kurus of
   (1-r)^n times its cost: never further below, and further above only at the salvage value.
   */
  lemma DecliningFollowsCurve(c: Category, life: Option<nat>, cost: nat, salvage: nat, years: seq<int>)
    requires !c.Land? && salvage <= cost
    requires NewYears(Created(c, Some(Declining), life, cost, Some(salvage)), years)
    ensures Close(AfterYears(Created(c, Some(Declining), life, cost, Some(salvage)), years).asset.book, salvage,
      ExactBook(c, cost, |years|), Drift(c))
  {
    hide *;
    var e := Created(c, Some(Declining), life, cost, Some(salvage));
    CreatedInUse(c, life, cost, salvage);
    DriftHalvesRate(c);
    ExactBookIsCurve(c, cost, |years|);
    assert Close(e.asset.book, salvage, cost as real, Drift(c)) by { StartsClose(cost, salvage, Drift(c)); }
    DecliningStaysClose(e, years, cost as real, Drift(c));
  }

  lemma StartsClose(cost: nat, salvage: nat, h: real)
    requires h >= 0.0
    ensures Close(cost, salvage, cost as real, h)
  {
  }

  // ------------------------------------------------------------------ declining balance: how soon it ends

  lemma {:induction false} YearsSplit(e: Entry, years: seq<int>, n: nat)
    requires NewYears(e, years) && n <= |years|
    ensures NewYears(e, years[..n]) && NewYears(AfterYears(e, years[..n]), years[n..])
    ensures AfterYears(e, years) == AfterYears(AfterYears(e, years[..n]), years[n..])
    decreases n
  {
    hide RunYear, Recorded;
    if n == 0 {
      assert years[..0] == [] && years[0..] == years;
    } else {
      YearsSplit(RunYear(e, years[0]), years[1..], n - 1);
      assert years[..n][1..] == years[1..][..n - 1] && years[1..][n - 1..] == years[n..];
    }
  }

  /** At a rate y, an amount that rounds up to something is at least half the inverse of the rate. */
  lemma AtLeastHalfInverse(q: real, y: real, b: real, amount: real, h: real)
    requires q > 0.0 && HalfInverse(y, h) && q * (b * y) == amount && q <= 2.0 * amount
    ensures h <= b
  {
    assert 2.0 * (q * (b * y)) == q * (2.0 * (b * y)) && q == q * 1.0;
    CancelReal(q, 1.0, 2.0 * (b * y));
    assert y * h <= y * b;
    CancelReal(y, h, b);
  }

  /** The rounding limit is less than one kurus under half the inverse of the rate. */
  lemma StuckNearDrift(r: Rate, h: real)
    requires 0 < r.num && HalfInverse(AsReal(r), h)
    ensures h <= (Stuck(r) + 1) as real
  {
    var b := Stuck(r) + 1;
    StuckBounds(r, b);
    ExactAmount(r, b);
    hide *;
    assert r.den as real <= (2 * (b * r.num)) as real == 2.0 * (b * r.num) as real;
    AtLeastHalfInverse(r.den as real, AsReal(r), b as real, (b * r.num) as real, h);
  }

  /** Within a kurus of half the inverse of the rate, the book value is two at most above the rounding limit. */
  lemma TwoAboveStuck(r: Rate, book: int, salvage: int, exact: real, h: real)
    requires 0 < r.num && HalfInverse(AsReal(r), h) && Close(book, salvage, exact, h) && exact <= 1.0
    ensures book == salvage || book <= Stuck(r) + 2
  {
    StuckNearDrift(r, h);
    hide Stuck, AsReal, HalfInverse;
  }

  /** Two runs after the exact curve is down to a kurus, a new declining asset is at its floor. */
  lemma EndsAfterCurve(c: Category, life: Option<nat>, cost: nat, salvage: nat, years: seq<int>, n: nat)
    requires !c.Land? && salvage < cost && n + 2 <= |years| && ExactBook(c, cost, n) <= 1.0
    requires NewYears(Created(c, Some(Declining), life, cost, Some(salvage)), years)
    ensures var e := Created(c, Some(Declining), life, cost, Some(salvage));
      && e.asset.rate.num > 0
      && AfterYears(e, years).asset.book == Min(cost, Floor(e.asset))
  {
    var e := Created(c, Some(Declining), life, cost, Some(salvage));
    CreatedInUse(c, life, cost, salvage);
    DriftHalvesRate(c);
    YearsSplit(e, years, n);
    hide RunYear, AsReal, Power, Recorded, InUse, Stuck, HalfInverse, Close, DepreciationRate, Drift;
    DecliningAfter(e, years[..n]);
    var m := AfterYears(e, years[..n]);
    DecliningAfter(m, years[n..]);
    DecliningFollowsCurve(c, life, cost, salvage, years[..n]);
    TwoAboveStuck(e.asset.rate, m.asset.book, salvage, ExactBook(c, cost, n), Drift(c));
  }

  /** Runs after which at most half of the exact value is left. */
  function HalvingYears(c: Category): nat {
    match c
    case Building => 17
    case Machinery => 4
    case Other => 4
    case Vehicle => 2
    case Fixtures => 2
    case Computer => 1
    case Land => 0
  }

  /** h for each binary digit of n. */
  function EveryDigit(h: nat, n: nat): nat { if n == 0 then 0 else h + EveryDigit(h, n / 2) }

  lemma {:induction false} PowerAdd(x: real, m: nat, n: nat)
    ensures Power(x, m + n) == Power(x, m) * Power(x, n)
  {
    if m > 0 {
      PowerAdd(x, m - 1, n);
      var p, q := Power(x, m - 1), Power(x, n);
      assert x * (p * q) == x * p * q;
    }
  }

  lemma {:induction false} PowerBetween(x: real, n: nat)
    requires 0.0 <= x <= 1.0
    ensures 0.0 <= Power(x, n) <= 1.0
  {
    if n > 0 {
      PowerBetween(x, n - 1);
      ProductBelow(x, 1.0, Power(x, n - 1), 1.0);
    }
  }

  lemma ProductBelow(a: real, b: real, c: real, d: real)
    requires 0.0 <= a <= b && 0.0 <= c <= d
    ensures 0.0 <= a * c <= b * d
  {
    assert b * (d - c) >= 0.0 && (b - a) * c >= 0.0;
  }

  lemma SquareBelow(x: real, n: nat, b: real)
    requires 0.0 <= x <= 1.0 && Power(x, n) <= b
    ensures Power(x, 2 * n) <= b * b
  {
    PowerBetween(x, n);
    PowerAdd(x, n, n);
    ProductBelow(Power(x, n), b, Power(x, n), b);
  }

  lemma HalvedInTime(c: Category)
    requires !c.Land?
    ensures 0.0 <= 1.0 - YearlyRate(c) <= 1.0
    ensures Power(1.0 - YearlyRate(c), HalvingYears(c)) <= 0.5
  {
    var x := 1.0 - YearlyRate(c);
    assert Power(x, 1) == x * Power(x, 0);
    assert x == match c
      case Building => 0.96 case Machinery => 0.8 case Other => 0.8
      case Vehicle => 0.6 case Fixtures => 0.6 case _ => 0.5;
    hide YearlyRate;
    SquareBelow(x, 1, x);
    if c.Building? || c.Machinery? || c.Other? { SquareBelow(x, 2, x * x); }
    if c.Building? {
      SquareBelow(x, 4, 0.8494);
      SquareBelow(x, 8, 0.7215);
      assert Power(x, 17) == x * Power(x, 16);
    }
  }

  lemma HalveOnce(half: real, p: real, n: real, q: real)
    requires 0.0 <= half <= 0.5 && 0.0 <= p && 0.0 <= n <= 2.0 * q && p * q <= 1.0
    ensures half * p * n <= 1.0
  {
    ProductBelow(half, 0.5, p, p);
    ProductBelow(half * p, 0.5 * p, n, 2.0 * q);
    assert 0.5 * p * (2.0 * q) == p * q;
  }

  lemma FadesOnceMore(x: real, h: nat, rest: nat, n: nat)
    requires 0.0 <= x <= 1.0 && Power(x, h) <= 0.5 && Power(x, rest) * (n / 2 + 1) as real <= 1.0
    ensures Power(x, h + rest) * (n + 1) as real <= 1.0
  {
    hide Power;
    PowerAdd(x, h, rest);
    PowerBetween(x, rest);
    PowerBetween(x, h);
    var p, q := n + 1, n / 2 + 1;
    assert p <= 2 * q;
    HalveOnce(Power(x, h), Power(x, rest), p as real, q as real);
  }

  /** So many halvings of a value leave less than one. */
  lemma {:induction false} FadesWithDigits(x: real, h: nat, n: nat)
    requires 0.0 <= x <= 1.0 && Power(x, h) <= 0.5
    ensures Power(x, EveryDigit(h, n)) * (n + 1) as real <= 1.0
  {
    if n == 0 {
      assert EveryDigit(h, n) == 0;
    } else {
      var rest := EveryDigit(h, n / 2);
      assert EveryDigit(h, n) == h + rest;
      hide *;
      FadesWithDigits(x, h, n / 2);
      FadesOnceMore(x, h, rest, n);
    }
  }

  lemma CurveFades(c: Category, cost: nat)
    requires !c.Land?
    ensures ExactBook(c, cost, EveryDigit(HalvingYears(c), cost)) <= 1.0
  {
    var x, n := 1.0 - YearlyRate(c), EveryDigit(HalvingYears(c), cost);
    hide YearlyRate, HalvingYears, EveryDigit, Power;
    HalvedInTime(c);
    FadesWithDigits(x, HalvingYears(c), cost);
    FadedBelow(x, n, cost);
  }

  lemma FadedBelow(x: real, n: nat, cost: nat)
    requires 0.0 <= x <= 1.0 && Power(x, n) * (cost + 1) as real <= 1.0
    ensures Power(x, n) * cost as real <= 1.0
  {
    PowerBetween(x, n);
    hide Power;
    ProductBelow(Power(x, n), Power(x, n), cost as real, (cost + 1) as real);
  }

  /** Runs that are enough for a declining asset: logarithmic in its cost, and never more than the cost in kurus. */
  function EnoughYears(c: Category, cost: nat): nat { Min(cost, EveryDigit(HalvingYears(c), cost) + 2) }

  /**
   After enough runs a new declining asset's book value is exactly the floor (its cost, when that is
   lower), so it is fully depreciated exactly when the salvage value is not below the value at which
   rounding stops.
   */
  lemma DecliningEndsAtFloor(c: Category, life: Option<nat>, cost: nat, salvage: nat, years: seq<int>)
    requires !c.Land? && salvage < cost && |years| >= EnoughYears(c, cost)
    requires NewYears(Created(c, Some(Declining), life, cost, Some(salvage)), years)
    ensures DepreciationRate(c, Declining).num > 0
    ensures var b := AfterYears(Created(c, Some(Declining), life, cost, Some(salvage)), years).asset;
      var stuck := Stuck(DepreciationRate(c, Declining));
      b.book == Min(cost, Max(salvage, stuck)) && (b.book == salvage <==> stuck <= salvage)
  {
    var e := Created(c, Some(Declining), life, cost, Some(salvage));
    assert InUse(e.asset);
    hide RunYear, Recorded, Stuck, HalvingYears, EveryDigit;
    if |years| >= cost {
      DecliningAfter(e, years);
    } else {
      CurveFades(c, cost);
      EndsAfterCurve(c, life, cost, salvage, years, EveryDigit(HalvingYears(c), cost));
    }
  }
}
