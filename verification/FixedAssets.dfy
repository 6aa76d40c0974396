/**
 Fixed assets under articles 313 to 321 of the Turkish tax procedure law (VUK): the useful-life table, one
 asset's depreciation for one year, the yearly run over a register, its preview, and disposal.
 Amounts are in kurus; rates are fractions.
 */
module FixedAssets {
  import opened Counting
  import opened Numbers
  import opened Wrappers

  datatype Category = Land | Building | Machinery | Vehicle | Fixtures | Computer | Other

  datatype Method = Normal | Declining

  datatype Status = Active | FullyDepreciated | Disposed

  datatype Rate = Rate(num: nat, den: Pos)

  function LifeYears(c: Category): nat {
    match c
    case Land => 0
    case Building => 50
    case Machinery => 10
    case Vehicle => 5
    case Fixtures => 5
    case Computer => 4
    case Other => 10
  }

  /** One over the life; twice that, but at most a half, when declining.  Land has no rate. */
  function DepreciationRate(c: Category, m: Method): Rate {
    var years := LifeYears(c);
    if years == 0 then Rate(0, 1)
    else if m.Normal? then Rate(1, years)
    else if years <= 4 then Rate(1, 2)
    else Rate(2, years)
  }

  datatype Asset = Asset(
    category: Category, basis: Method, usefulLife: nat, rate: Rate,
    cost: nat, accumulated: int, book: int, salvage: nat, status: Status)

  datatype Record = Record(year: int, amount: int, opening: int, closing: int, basis: Method)

  /** An asset and the depreciation rows that name it. */
  datatype Entry = Entry(asset: Asset, records: seq<Record>)

  /** A stated useful life is stored, but the rate always comes from the table. */
  function Created(c: Category, m: Option<Method>, life: Option<nat>, cost: nat, salvage: Option<nat>): Entry {
    var basis := if m.Some? then m.value else Normal;
    Entry(
      Asset(c, basis, if life.Some? then life.value else LifeYears(c), DepreciationRate(c, basis),
        cost, 0, cost, if salvage.Some? then salvage.value else 0, Active),
      [])
  }

  /** The year's depreciation: on cost or on book value, rounded, and never below the salvage value. */
  function Planned(a: Asset): int {
    var base := if a.basis.Normal? then a.cost else a.book;
    Min(RoundHalfUp(base * a.rate.num, a.rate.den), a.book - a.salvage)
  }

  predicate Recorded(e: Entry, year: int) { exists k :: 0 <= k < |e.records| && e.records[k].year == year }

  /** What one asset's depreciation comes to; an existing row for the year makes the insert fail. */
  datatype Outcome = NothingToDo(asset: Asset) | Duplicate | Done(asset: Asset, record: Record)

  function DepreciateSingle(e: Entry, year: int): Outcome {
    var a := e.asset;
    if a.book <= a.salvage then NothingToDo(a.(status := FullyDepreciated))
    else
      var amount := Planned(a);
      if amount <= 0 then NothingToDo(a)
      else if Recorded(e, year) then Duplicate
      else
        var closing := a.book - amount;
        Done(
          a.(accumulated := a.accumulated + amount, book := closing,
             status := if closing <= a.salvage then FullyDepreciated else a.status),
          Record(year, amount, a.book, closing, a.basis))
  }

  function Applied(e: Entry, o: Outcome): Entry {
    match o
    case NothingToDo(a) => e.(asset := a)
    case Duplicate => e
    case Done(a, r) => Entry(a, e.records + [r])
  }

  /** What a run for a year does to one asset: only active ones are found, and land is passed over. */
  function RunYear(e: Entry, year: int): Entry {
    if !e.asset.status.Active? || e.asset.category.Land? then e else Applied(e, DepreciateSingle(e, year))
  }

  predicate Processed(e: Entry, year: int) {
    e.asset.status.Active? && !e.asset.category.Land? && DepreciateSingle(e, year).Done?
  }

  predicate Listed(a: Asset) { a.status.Active? && !a.category.Land? && a.book > a.salvage }

  function CountIf(es: seq<Entry>, p: Entry -> bool): nat {
    if es == [] then 0 else CountIf(es[..|es| - 1], p) + if p(es[|es| - 1]) then 1 else 0
  }

  lemma {:induction false} CountIsCardinality(es: seq<Entry>, p: Entry -> bool, n: nat)
    requires n <= |es|
    ensures CountIf(es[..n], p) == |Indices(n, i => 0 <= i < |es| && p(es[i]))|
  {
    var q := i => 0 <= i < |es| && p(es[i]);
    if n == 0 {
      OneIndexMore(0, q);
    } else {
      CountIsCardinality(es, p, n - 1);
      assert es[..n][..n - 1] == es[..n - 1];
      OneIndexMore(n - 1, q);
    }
  }

  class AssetRegister {
    var entries: seq<Entry>

    constructor ()
      ensures entries == []
    {
      entries := [];
    }

    /**
     A new asset: worth its cost, nothing written off, nothing recorded, and the table's rate whatever life is
     stated.
     */
    method Create(c: Category, m: Option<Method>, life: Option<nat>, cost: nat, salvage: Option<nat>) returns (e: Entry)
      modifies this
      ensures entries == old(entries) + [e] && e == Created(c, m, life, cost, salvage)
      ensures e.asset.cost == cost == e.asset.book && e.asset.accumulated == 0 && e.records == [] &&
        e.asset.status.Active?
      ensures e.asset.rate == DepreciationRate(c, e.asset.basis) && (m.None? ==> e.asset.basis.Normal?)
      ensures e.asset.usefulLife == (if life.Some? then life.value else LifeYears(c))
      ensures e.asset.category == c && (m.Some? ==> e.asset.basis == m.value)
      ensures e.asset.salvage == if salvage.Some? then salvage.value else 0
      ensures Sound(e)
    {
      var basis := if m.Some? then m.value else Normal;
      var usefulLife := if life.Some? then life.value else LifeYears(c);
      var asset := Asset(c, basis, usefulLife, DepreciationRate(c, basis), cost, 0, cost,
        if salvage.Some? then salvage.value else 0, Active);
      e := Entry(asset, []);
      entries := entries + [e];
    }

    /** A disposed asset keeps its figures; a second disposal is refused. */
    method Dispose(i: nat) returns (ok: bool)
      requires i < |entries|
      modifies this
      ensures ok <==> !old(entries)[i].asset.status.Disposed?
      ensures entries == old(entries)[i := old(entries)[i].(asset := old(entries)[i].asset.(status := Disposed))]
    {
      var a := entries[i].asset;
      if a.status.Disposed? {
        assert entries[i] == entries[i].(asset := a.(status := Disposed));
        return false;
      }
      entries := entries[i := entries[i].(asset := a.(status := Disposed))];
      return true;
    }

    /**
     One found asset: passed over when it is land, and otherwise depreciated; counted as processed when a row is
     written.
     */
    method RunOne(e: Entry, year: int) returns (n: Entry, processed: bool)
      requires e.asset.status.Active?
      ensures n == RunYear(e, year) && processed == Processed(e, year)
      ensures processed ==> |n.records| == |e.records| + 1
      ensures !processed ==> n.records == e.records && n.asset.book == e.asset.book
    {
      hide Planned, RoundHalfUp;
      if e.asset.category.Land? { return e, false; }
      var outcome := DepreciateSingle(e, year);
      return Applied(e, outcome), outcome.Done?;
    }

    /** Every asset ends as `RunYear` says, and every active one is counted once, as processed or as skipped. */
    method RunDepreciationForYear(year: int) returns (processed: nat, skipped: nat)
      modifies this
      ensures |entries| == |old(entries)|
      ensures forall i | 0 <= i < |entries| :: entries[i] == RunYear(old(entries)[i], year)
      ensures processed == CountIf(old(entries), e => Processed(e, year))
      ensures processed + skipped == CountIf(old(entries), (e: Entry) => e.asset.status.Active?)
    {
      hide DepreciateSingle, Applied;
      var found := entries;
      processed, skipped := 0, 0;
      ghost var done := (e: Entry) => Processed(e, year);
      ghost var active := (e: Entry) => e.asset.status.Active?;
      for i := 0 to |found|
        invariant |entries| == |found|
        invariant forall j | 0 <= j < i :: entries[j] == RunYear(found[j], year)
        invariant forall j | i <= j < |found| :: entries[j] == found[j]
        invariant processed == CountIf(found[..i], done)
        invariant processed + skipped == CountIf(found[..i], active)
      {
        assert found[..i + 1][..i] == found[..i];
        if found[i].asset.status.Active? {
          var n, one := RunOne(found[i], year);
          entries := entries[i := n];
          if one { processed := processed + 1; } else { skipped := skipped + 1; }
        }
      }
      assert found[..|found|] == found;
    }

    /** The listed assets, in order, each with its planned amount; nothing changes. */
    method PreviewNextYear() returns (r: seq<(nat, int)>)
      ensures forall k | 0 <= k < |r| ::
        r[k].0 < |entries| && Listed(entries[r[k].0].asset) && r[k].1 == Planned(entries[r[k].0].asset)
      ensures forall i | 0 <= i < |entries| && Listed(entries[i].asset) :: (i, Planned(entries[i].asset)) in r
      ensures forall i | 0 <= i < |entries| ::
        var a := entries[i].asset;
        (exists k :: 0 <= k < |r| && r[k].0 == i) <==> a.status.Active? && a.category != Land && a.book > a.salvage
      ensures forall j, k | 0 <= j < k < |r| :: r[j].0 < r[k].0
    {
      r := [];
      for i := 0 to |entries|
        invariant forall k | 0 <= k < |r| ::
          r[k].0 < i && Listed(entries[r[k].0].asset) && r[k].1 == Planned(entries[r[k].0].asset)
        invariant forall j | 0 <= j < i && Listed(entries[j].asset) :: (j, Planned(entries[j].asset)) in r
        invariant forall j, k | 0 <= j < k < |r| :: r[j].0 < r[k].0
      {
        if Listed(entries[i].asset) { r := r + [(i, Planned(entries[i].asset))]; }
      }
    }
  }

  /**
   Straight line: the rate is one over the asset's useful life exactly when the life was not stated or is the
   table's, and not for land.
   */
  lemma RateIsOfStatedLife(c: Category, life: Option<nat>, cost: nat, salvage: Option<nat>)
    ensures var a := Created(c, Some(Normal), life, cost, salvage).asset;
      a.rate.num * a.usefulLife == a.rate.den <==> !c.Land? && (life.None? || life.value == LifeYears(c))
  {
  }

  /** A run leaves land alone, and every asset that is not active. */
  lemma OnlyActiveDepreciate(e: Entry, year: int)
    requires e.asset.category == Land || e.asset.status != Active
    ensures RunYear(e, year) == e && !Processed(e, year)
  {
  }

  /**
   A disposal is for good, and a disposed asset stays as it is, whatever runs and disposals follow; land
   keeps its value and gets no rows.
   */
  lemma {:induction false} DisposedStays(e: Entry, vs: seq<Event>)
    ensures e.asset.status == Disposed ==> Life(e, vs) == e
    ensures Disposal in vs ==> Life(e, vs).asset.status == Disposed
    ensures e.asset.category == Land ==>
      Life(e, vs).records == e.records && Life(e, vs).asset.book == e.asset.book && Life(e, vs).asset.category == Land
    decreases |vs|
  {
    hide Planned, RoundHalfUp;
    if vs != [] {
      DisposedStays(Step(e, vs[0]), vs[1..]);
      assert Disposal in vs <==> vs[0] == Disposal || Disposal in vs[1..];
    }
  }

  // ------------------------------------------------------------------ a register's books

  /** The rows account for the whole accumulated depreciation and lead from cost to book value. */
  predicate Chained(rs: seq<Record>, cost: int, book: int) {
    if rs == [] then book == cost
    else
      var r := rs[|rs| - 1];
      r.closing == book && r.opening - r.amount == r.closing && r.amount > 0 && Chained(rs[..|rs| - 1], cost, r.opening)
  }

  function Total(rs: seq<Record>): int {
    if rs == [] then 0 else Total(rs[..|rs| - 1]) + rs[|rs| - 1].amount
  }

  predicate OneRowPerYear(rs: seq<Record>) {
    forall i, j | 0 <= i < j < |rs| :: rs[i].year != rs[j].year
  }

  ghost predicate Sound(e: Entry) {
    var a := e.asset;
    && a.cost == a.accumulated + a.book
    && Total(e.records) == a.accumulated
    && Chained(e.records, a.cost, a.book)
    && OneRowPerYear(e.records)
    && Min(a.salvage, a.cost) <= a.book <= a.cost
    && (a.status.FullyDepreciated? ==> a.book <= a.salvage)
    && (a.category.Land? ==> e.records == [] && a.book == a.cost)
  }

  lemma RunYearKeepsSound(e: Entry, year: int)
    requires Sound(e)
    ensures Sound(RunYear(e, year))
  {
    hide RoundHalfUp;
    var n := RunYear(e, year);
    if Processed(e, year) {
      assert n.records[..|e.records|] == e.records;
      assert forall k | 0 <= k < |e.records| :: e.records[k].year != year;
    }
  }

  datatype Event = Year(year: int) | Disposal

  function Step(e: Entry, v: Event): Entry {
    match v
    case Year(y) => RunYear(e, y)
    case Disposal => e.(asset := e.asset.(status := Disposed))
  }

  function Life(e: Entry, vs: seq<Event>): Entry
    decreases |vs|
  {
    if vs == [] then e else Life(Step(e, vs[0]), vs[1..])
  }

  lemma {:induction false} LifeKeepsSound(e: Entry, vs: seq<Event>)
    requires Sound(e)
    ensures Sound(Life(e, vs))
    decreases |vs|
  {
    hide RunYear, Sound;
    if vs != [] {
      assert Sound(Step(e, vs[0])) by {
        if vs[0].Year? { RunYearKeepsSound(e, vs[0].year); } else { DisposalKeepsSound(e); }
      }
      LifeKeepsSound(Step(e, vs[0]), vs[1..]);
    }
  }

  lemma DisposalKeepsSound(e: Entry)
    requires Sound(e)
    ensures Sound(Step(e, Disposal))
  {
  }

  /**
   Whatever runs and disposals follow: cost is accumulated plus book, the rows add up to the accumulated part, and
   salvage is kept.
   */
  lemma BooksStayBalanced(c: Category, m: Option<Method>, life: Option<nat>, cost: nat, salvage: Option<nat>,
      vs: seq<Event>)
    ensures var e := Life(Created(c, m, life, cost, salvage), vs);
      && e.asset.cost == e.asset.accumulated + e.asset.book
      && Total(e.records) == e.asset.accumulated
      && OneRowPerYear(e.records)
      && Min(e.asset.salvage, e.asset.cost) <= e.asset.book <= e.asset.cost
      && (e.asset.status.FullyDepreciated? ==> e.asset.book <= e.asset.salvage)
  {
    LifeKeepsSound(Created(c, m, life, cost, salvage), vs);
    hide Life;
  }

  // ------------------------------------------------------------------ reruns and the preview

  lemma RecordedStays(e: Entry, year: int, other: int)
    ensures Recorded(e, other) ==> Recorded(RunYear(e, year), other)
  {
    hide Planned;
    if Recorded(e, other) {
      var k :| 0 <= k < |e.records| && e.records[k].year == other;
      assert RunYear(e, year).records[k] == e.records[k];
    }
  }

  /** A second run for the same year changes nothing and processes nothing. */
  lemma RerunIsIdle(e: Entry, year: int)
    ensures RunYear(RunYear(e, year), year) == RunYear(e, year) && !Processed(RunYear(e, year), year)
  {
    hide Planned;
    var n := RunYear(e, year);
    if Processed(e, year) {
      assert n.records[|e.records|].year == year;
    }
  }

  lemma {:induction false} RecordedForLife(e: Entry, vs: seq<Event>, year: int)
    requires Recorded(e, year)
    ensures Recorded(Life(e, vs), year)
    decreases |vs|
  {
    hide RunYear, Recorded;
    if vs != [] {
      assert Recorded(Step(e, vs[0]), year) by {
        if vs[0].Year? { RecordedStays(e, vs[0].year, year); } else { SameRecords(e, Step(e, Disposal), year); }
      }
      RecordedForLife(Step(e, vs[0]), vs[1..], year);
    }
  }

  lemma SameRecords(e: Entry, f: Entry, year: int)
    requires e.records == f.records
    ensures Recorded(e, year) == Recorded(f, year)
  {
  }

  /** Once a year is recorded no later run for it, whatever came between, records it again or moves the book value. */
  lemma RecordedYearIsFinal(e: Entry, vs: seq<Event>, year: int)
    requires Recorded(e, year)
    ensures RunYear(Life(e, vs), year).records == Life(e, vs).records
    ensures RunYear(Life(e, vs), year).asset.book == Life(e, vs).asset.book
  {
    RecordedForLife(e, vs, year);
    hide Recorded, Life, Planned;
  }

  /**
   The preview of a listed asset is the amount a run records, and a skip when it is not positive,
   exactly when the year has no row yet; otherwise the run records nothing.
   */
  lemma PreviewIsWhatRunRecords(e: Entry, year: int)
    requires Listed(e.asset)
    ensures var a, n, amount := e.asset, RunYear(e, year), Planned(e.asset);
      if amount > 0 && !Recorded(e, year) then
        && Processed(e, year) && n.asset.book == a.book - amount
        && n.records == e.records + [Record(year, amount, a.book, a.book - amount, a.basis)]
      else n == e && !Processed(e, year)
  {
  }
}
