/** The sums shown on the dashboard, the monthly page and the yearly page: day,
    month and year totals, the five-key category table and the bar percentages. */
module Aggregate {
  import opened Seqs
  import opened Dates
  import opened Records
  import opened Filters

  /** The monthly and yearly pages report on this fixed year. */
  const ReportYear: int := 2025

  /** `getMonth() + 1 === m && getFullYear() === y`; false for an unparsable date. */
  predicate InMonth(d: Date, m: int, y: int) {
    d.Valid() && d.month == m && d.year == y
  }

  /** `getFullYear() === y`; false for an unparsable date. */
  predicate InYear(d: Date, y: int) {
    d.Valid() && d.year == y
  }

  function DayTest(day: Date): Expense -> bool {
    (e: Expense) => e.date == day
  }

  function MonthTest(m: int, y: int): Expense -> bool {
    (e: Expense) => InMonth(e.date, m, y)
  }

  function YearTest(y: int): Expense -> bool {
    (e: Expense) => InYear(e.date, y)
  }

  /** The records dated exactly `day` (the string comparison `exp.date === today`). */
  function DayRecords(s: seq<Expense>, day: Date): seq<Expense> {
    Filter(s, DayTest(day))
  }

  function MonthRecords(s: seq<Expense>, m: int, y: int): seq<Expense> {
    Filter(s, MonthTest(m, y))
  }

  function YearRecords(s: seq<Expense>, y: int): seq<Expense> {
    Filter(s, YearTest(y))
  }

  function SumByDate(s: seq<Expense>, day: Date): real {
    Sum(DayRecords(s, day))
  }

  function SumByMonth(s: seq<Expense>, m: int, y: int): real {
    Sum(MonthRecords(s, m, y))
  }

  function SumByYear(s: seq<Expense>, y: int): real {
    Sum(YearRecords(s, y))
  }

  predicate NoNegativeAmounts(s: seq<Expense>) {
    forall i :: 0 <= i < |s| ==> s[i].amount >= 0.0
  }

  // ---------------------------------------------------------------------------
  // Dashboard cards

  datatype DashboardTotals = DashboardTotals(today: real, month: real, year: real)

  /** With no negative amount, no filtered sum is negative. */
  lemma FilteredSumNonNegative(s: seq<Expense>, p: Expense -> bool)
    ensures NoNegativeAmounts(s) ==> Sum(Filter(s, p)) >= 0.0
  {
    if NoNegativeAmounts(s) {
      var f := Filter(s, p);
      assert forall i :: 0 <= i < |f| ==> f[i] in s;
      SumNonNegative(f);
    }
  }

  /** The three cards of `updateDashboard`, for the clock's date `today`. */
  function Dashboard(s: seq<Expense>, today: Date): (d: DashboardTotals)
    ensures NoNegativeAmounts(s) ==> d.today >= 0.0 && d.month >= 0.0 && d.year >= 0.0
  {
    FilteredSumNonNegative(s, DayTest(today));
    FilteredSumNonNegative(s, MonthTest(today.month, today.year));
    FilteredSumNonNegative(s, YearTest(today.year));
    DashboardTotals(SumByDate(s, today), SumByMonth(s, today.month, today.year), SumByYear(s, today.year))
  }

  /** The day's total is part of the month's, which is part of the year's. */
  lemma DashboardNested(s: seq<Expense>, today: Date)
    requires today.Valid() && NoNegativeAmounts(s)
    ensures 0.0 <= Dashboard(s, today).today <= Dashboard(s, today).month <= Dashboard(s, today).year
  {
    SumFilterMonotone(s, DayTest(today), MonthTest(today.month, today.year));
    SumFilterMonotone(s, MonthTest(today.month, today.year), YearTest(today.year));
    var d := DayRecords(s, today);
    assert forall i :: 0 <= i < |d| ==> d[i] in s;
    SumNonNegative(d);
  }

  /** A sum over a filter does not depend on the order of the records, so the
      in-place sort of the recent-entries table changes no total. */
  lemma FilteredSumPermutation(a: seq<Expense>, b: seq<Expense>, p: Expense -> bool)
    requires multiset(a) == multiset(b)
    ensures Sum(Filter(a, p)) == Sum(Filter(b, p))
  {
    FilterPermutation(a, b, p);
    SumPermutation(Filter(a, p), Filter(b, p));
  }

  lemma DashboardPermutation(a: seq<Expense>, b: seq<Expense>, today: Date)
    requires multiset(a) == multiset(b)
    ensures Dashboard(a, today) == Dashboard(b, today)
  {
    FilteredSumPermutation(a, b, DayTest(today));
    FilteredSumPermutation(a, b, MonthTest(today.month, today.year));
    FilteredSumPermutation(a, b, YearTest(today.year));
  }

  // ---------------------------------------------------------------------------
  // Category tables

  /** The object `{packaging: 0, storage: 0, labor: 0, transport: 0, other: 0}`
      after accumulation. */
  type CategoryTable = map<Category, real>

  predicate Complete(t: CategoryTable) {
    t.Keys == AllCategories
  }

  function CategoryTotal(s: seq<Expense>, c: Category): real {
    Sum(FilterByCategory(s, c))
  }

  /** `Object.values(categoryTotals).reduce((sum, val) => sum + val, 0)`. */
  function TableSum(t: CategoryTable): real
    requires Complete(t)
  {
    t[Packaging] + t[Storage] + t[Labor] + t[Transport] + t[Other]
  }

  /** One more record adds its amount to its own category and nothing elsewhere. */
  lemma CategoryTotalStep(s: seq<Expense>, i: nat, c: Category)
    requires i < |s|
    ensures CategoryTotal(s[..i + 1], c)
         == CategoryTotal(s[..i], c) + (if s[i].category == c then s[i].amount else 0.0)
  {
    assert s[..i + 1] == s[..i] + [s[i]];
    FilterAppend(s[..i], [s[i]], CategoryTest(c));
    SumAppend(FilterByCategory(s[..i], c), FilterByCategory([s[i]], c));
  }

  /** The `forEach` that fills a category table (`categoryTotals[exp.category] += exp.amount`).
      Every key is present, holding the sum of its category's amounts (0 if none). */
  method CategoryTotals(s: seq<Expense>) returns (t: CategoryTable)
    ensures Complete(t)
    ensures forall c :: c in t ==> t[c] == CategoryTotal(s, c)
  {
    t := map[Packaging := 0.0, Storage := 0.0, Labor := 0.0, Transport := 0.0, Other := 0.0];
    var i := 0;
    while i < |s|
      invariant 0 <= i <= |s|
      invariant Complete(t)
      invariant forall c :: c in t ==> t[c] == CategoryTotal(s[..i], c)
    {
      var k := s[i].category;
      var t' := t[k := t[k] + s[i].amount];
      assert t'.Keys == t.Keys;
      forall c | c in t'
        ensures t'[c] == CategoryTotal(s[..i + 1], c)
      {
        CategoryTotalStep(s, i, c);
      }
      t := t';
      i := i + 1;
    }
    assert s[..|s|] == s;
  }

  function TotalsOf(s: seq<Expense>): (t: CategoryTable)
    ensures Complete(t)
  {
    map c | c in AllCategories :: CategoryTotal(s, c)
  }

  /** Every record falls in exactly one category, so the five totals add up to
      the total of all records. */
  lemma {:induction false} CategoryPartition(s: seq<Expense>)
    ensures TableSum(TotalsOf(s)) == Sum(s)
  {
    if s != [] {
      CategoryPartition(s[1..]);
      assert s == [s[0]] + s[1..];
      forall c | c in AllCategories
        ensures CategoryTotal(s, c)
             == (if s[0].category == c then s[0].amount else 0.0) + CategoryTotal(s[1..], c)
      {
        FilterAppend([s[0]], s[1..], CategoryTest(c));
        SumAppend(FilterByCategory([s[0]], c), FilterByCategory(s[1..], c));
      }
    }
  }

  /** The table that `CategoryTotals` builds adds up to the total of its input. */
  lemma TableSumIsTotal(s: seq<Expense>, t: CategoryTable)
    requires Complete(t)
    requires forall c :: c in t ==> t[c] == CategoryTotal(s, c)
    ensures TableSum(t) == Sum(s)
  {
    assert t == TotalsOf(s);
    CategoryPartition(s);
  }

  /** `selectMonth(month)`: the month's records of the report year, their category
      table and the table's sum, which is the month total. */
  method SelectMonth(s: seq<Expense>, month: int) returns (records: seq<Expense>, totals: CategoryTable, total: real)
    ensures records == MonthRecords(s, month, ReportYear)
    ensures Complete(totals)
    ensures forall c :: c in totals ==> totals[c] == CategoryTotal(records, c)
    ensures total == SumByMonth(s, month, ReportYear)
  {
    records := MonthRecords(s, month, ReportYear);
    totals := CategoryTotals(records);
    total := TableSum(totals);
    TableSumIsTotal(records, totals);
  }

  /** Ice for 500 and workers for 300, both on 1 June 2025. */
  function ScenarioRecords(ids: seq<Id>): seq<Expense>
    requires |ids| == 2
  {
    [ Expense(ids[0], Date(2025, 6, 1), Storage, "বরফ", 500.0, None, None, None, None),
      Expense(ids[1], Date(2025, 6, 1), Labor, "শ্রমিক", 300.0, None, None, None, None) ]
  }

  lemma SumPair(x: Expense, y: Expense)
    ensures Sum([x, y]) == x.amount + y.amount
  {
    assert [x, y][1..] == [y];
    assert [y][1..] == [];
    assert Sum([y]) == y.amount + Sum([]);
  }

  lemma SumSingle(x: Expense)
    ensures Sum([x]) == x.amount
  {
    assert [x][1..] == [];
  }

  /** The entries of the example: the month total is 800 and the table is
      storage 500, labor 300 and 0 for the other three. */
  lemma CategoryScenario(ids: seq<Id>)
    requires |ids| == 2
    ensures SumByMonth(ScenarioRecords(ids), 6, 2025) == 800.0
    ensures TotalsOf(MonthRecords(ScenarioRecords(ids), 6, 2025))
         == map[Packaging := 0.0, Storage := 500.0, Labor := 300.0, Transport := 0.0, Other := 0.0]
  {
    var s := ScenarioRecords(ids);
    var x, y := s[0], s[1];
    assert s == [x, y];
    assert Date(2025, 6, 1).Valid();
    FilterPair(x, y, MonthTest(6, 2025));
    assert MonthRecords(s, 6, 2025) == s;
    SumPair(x, y);
    var expected := map[Packaging := 0.0, Storage := 500.0, Labor := 300.0, Transport := 0.0, Other := 0.0];
    forall c | c in AllCategories
      ensures CategoryTotal(s, c) == expected[c]
    {
      FilterPair(x, y, CategoryTest(c));
      SumSingle(x);
      SumSingle(y);
    }
    assert TotalsOf(s).Keys == expected.Keys;
  }

  // ---------------------------------------------------------------------------
  // Relative bars

  function Max(a: real, b: real): real {
    if a >= b then a else b
  }

  /** `Math.max(...Object.values(categoryTotals))`. */
  function MaxTotal(t: CategoryTable): (m: real)
    requires Complete(t)
    ensures forall c :: c in t ==> t[c] <= m
    ensures exists c :: c in t && t[c] == m
  {
    Max(Max(Max(Max(t[Packaging], t[Storage]), t[Labor]), t[Transport]), t[Other])
  }

  /** `maxValue > 0 ? (value / maxValue) * 100 : 0`. */
  function Percentage(value: real, maxValue: real): real {
    if maxValue > 0.0 then value / maxValue * 100.0 else 0.0
  }

  function BarPercentages(t: CategoryTable): (bars: CategoryTable)
    requires Complete(t)
    ensures Complete(bars)
  {
    map c | c in AllCategories :: Percentage(t[c], MaxTotal(t))
  }

  lemma PercentageBounds(value: real, maxValue: real)
    requires 0.0 <= value <= maxValue
    ensures 0.0 <= Percentage(value, maxValue) <= 100.0
    ensures value == maxValue && maxValue > 0.0 ==> Percentage(value, maxValue) == 100.0
  {
    if maxValue > 0.0 {
      var q := value / maxValue;
      assert q * maxValue == value;
      assert 0.0 <= q <= 1.0;
      if value == maxValue {
        assert q == 1.0;
      }
    }
  }

  /** With no negative totals every bar lies between 0 % and 100 %, the largest
      category fills its bar, and every bar is empty when everything is 0. */
  lemma BarBounds(t: CategoryTable, c: Category)
    requires Complete(t)
    requires forall k :: k in t ==> t[k] >= 0.0
    ensures 0.0 <= BarPercentages(t)[c] <= 100.0
    ensures t[c] == MaxTotal(t) && MaxTotal(t) > 0.0 ==> BarPercentages(t)[c] == 100.0
    ensures MaxTotal(t) == 0.0 ==> BarPercentages(t)[c] == 0.0
  {
    assert c in t;
    assert BarPercentages(t)[c] == Percentage(t[c], MaxTotal(t));
    PercentageBounds(t[c], MaxTotal(t));
  }

  // ---------------------------------------------------------------------------
  // Monthly overview

  /** `updateMonthlyOverview`: the twelve month totals of year `y`, January first. */
  function MonthlyOverview(s: seq<Expense>, y: int): (r: seq<real>)
    ensures |r| == 12
  {
    seq(12, i => SumByMonth(s, i + 1, y))
  }

  function SumReals(xs: seq<real>): real {
    if xs == [] then 0.0 else SumReals(xs[..|xs| - 1]) + xs[|xs| - 1]
  }

  /** The totals of months 1 to k. */
  function MonthsUpTo(s: seq<Expense>, y: int, k: nat): real {
    if k == 0 then 0.0 else MonthsUpTo(s, y, k - 1) + SumByMonth(s, k, y)
  }

  lemma {:induction false} OverviewPrefix(s: seq<Expense>, y: int, k: nat)
    requires k <= 12
    ensures SumReals(MonthlyOverview(s, y)[..k]) == MonthsUpTo(s, y, k)
  {
    if k > 0 {
      OverviewPrefix(s, y, k - 1);
      assert MonthlyOverview(s, y)[..k][..k - 1] == MonthlyOverview(s, y)[..k - 1];
    }
  }

  lemma SumByMonthCons(x: Expense, rest: seq<Expense>, m: int, y: int)
    ensures SumByMonth([x] + rest, m, y)
         == (if InMonth(x.date, m, y) then x.amount else 0.0) + SumByMonth(rest, m, y)
  {
    assert ([x] + rest)[1..] == rest;
  }

  lemma {:induction false} MonthsUpToCons(x: Expense, rest: seq<Expense>, y: int, k: nat)
    ensures MonthsUpTo([x] + rest, y, k)
         == MonthsUpTo(rest, y, k) + (if InYear(x.date, y) && x.date.month <= k then x.amount else 0.0)
  {
    if k > 0 {
      MonthsUpToCons(x, rest, y, k - 1);
      SumByMonthCons(x, rest, k, y);
    }
  }

  lemma {:induction false} MonthsPartitionYear(s: seq<Expense>, y: int)
    ensures MonthsUpTo(s, y, 12) == SumByYear(s, y)
  {
    if s == [] {
      assert MonthsUpTo(s, y, 12) == 0.0 by {
        forall k: nat | k <= 12 ensures MonthsUpTo(s, y, k) == 0.0 {
          MonthsUpToEmpty(s, y, k);
        }
      }
    } else {
      assert s == [s[0]] + s[1..];
      MonthsPartitionYear(s[1..], y);
      MonthsUpToCons(s[0], s[1..], y, 12);
    }
  }

  lemma {:induction false} MonthsUpToEmpty(s: seq<Expense>, y: int, k: nat)
    requires s == []
    ensures MonthsUpTo(s, y, k) == 0.0
  {
    if k > 0 {
      MonthsUpToEmpty(s, y, k - 1);
    }
  }

  /** Each parsable date falls in exactly one month, so the twelve month totals
      add up to the year total. */
  lemma MonthlyPartition(s: seq<Expense>, y: int)
    ensures SumReals(MonthlyOverview(s, y)) == SumByYear(s, y)
  {
    OverviewPrefix(s, y, 12);
    assert MonthlyOverview(s, y)[..12] == MonthlyOverview(s, y);
    MonthsPartitionYear(s, y);
  }

  /** `updateYearlyPage` with `updateMonthlyOverview`: the year total, its category
      table, the relative bars and the twelve month totals of the report year.
      The table and the months both add up to the year total. */
  method YearlyPage(s: seq<Expense>) returns (total: real, totals: CategoryTable, bars: CategoryTable, months: seq<real>)
    ensures total == SumByYear(s, ReportYear)
    ensures Complete(totals) && Complete(bars)
    ensures forall c :: c in totals ==> totals[c] == CategoryTotal(YearRecords(s, ReportYear), c)
    ensures bars == BarPercentages(totals)
    ensures TableSum(totals) == total
    ensures |months| == 12
    ensures forall i :: 0 <= i < 12 ==> months[i] == SumByMonth(s, i + 1, ReportYear)
    ensures SumReals(months) == total
  {
    var records := YearRecords(s, ReportYear);
    total := Sum(records);
    totals := CategoryTotals(records);
    TableSumIsTotal(records, totals);
    bars := BarPercentages(totals);
    months := MonthlyOverview(s, ReportYear);
    MonthlyPartition(s, ReportYear);
  }
}
