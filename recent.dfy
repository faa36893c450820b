/** The order of `updateRecentEntries`: `this.expenses.sort((a, b) => new Date(b.date) - new Date(a.date))`,
    a stable sort that puts the newest record first and keeps records of the
    same date in the order they were stored. */
module Recent {
  import opened Seqs
  import opened Dates
  import opened Records

  /** How many records the dashboard's recent-entries table shows (`slice(0, 10)`). */
  const RecentCount: nat := 10

  /** Record dated `a` may stand before record dated `b` in the newest-first order.
      An unparsable date is placed after every parsable one. */
  predicate NoOlder(a: Date, b: Date) {
    !b.Valid() || (a.Valid() && NotLater(b, a))
  }

  /** `NoOlder` is a total preorder, so sorting by it is well defined. */
  lemma NoOlderTotalPreorder(a: Date, b: Date, c: Date)
    ensures NoOlder(a, a)
    ensures NoOlder(a, b) || NoOlder(b, a)
    ensures NoOlder(a, b) && NoOlder(b, c) ==> NoOlder(a, c)
  {
    NotLaterIsTotalOrder(a, b, c);
    NotLaterIsTotalOrder(c, b, a);
    NotLaterIsTotalOrder(b, a, c);
  }

  predicate SortedNewestFirst(s: seq<Expense>) {
    forall i, j :: 0 <= i < j < |s| ==> NoOlder(s[i].date, s[j].date)
  }

  /** The records that the comparator puts level with date `d` (it returns 0 for them). */
  function LevelWith(d: Date): Expense -> bool {
    (e: Expense) => NoOlder(e.date, d) && NoOlder(d, e.date)
  }

  /** Places `x` after every record of `t` that is no older than it. */
  function Insert(t: seq<Expense>, x: Expense): (r: seq<Expense>)
    ensures |r| == |t| + 1
  {
    if t == [] || NoOlder(t[|t| - 1].date, x.date) then t + [x]
    else Insert(t[..|t| - 1], x) + [t[|t| - 1]]
  }

  /** The array after the comparator sort: insertion sort, one record at a time,
      in stored order. */
  function SortByDateDesc(s: seq<Expense>): (r: seq<Expense>)
    ensures |r| == |s|
  {
    if s == [] then [] else Insert(SortByDateDesc(s[..|s| - 1]), s[|s| - 1])
  }

  lemma {:induction false} InsertPermutes(t: seq<Expense>, x: Expense)
    ensures multiset(Insert(t, x)) == multiset(t) + multiset{x}
  {
    if t != [] && !NoOlder(t[|t| - 1].date, x.date) {
      InsertPermutes(t[..|t| - 1], x);
      assert t == t[..|t| - 1] + [t[|t| - 1]];
    }
  }

  lemma {:induction false} InsertSorted(t: seq<Expense>, x: Expense)
    requires SortedNewestFirst(t)
    ensures SortedNewestFirst(Insert(t, x))
  {
    if t == [] {
    } else if NoOlder(t[|t| - 1].date, x.date) {
      var r := t + [x];
      forall i | 0 <= i < |t| ensures NoOlder(r[i].date, x.date) {
        if i < |t| - 1 {
          NoOlderTotalPreorder(t[i].date, t[|t| - 1].date, x.date);
        }
      }
    } else {
      var init, last := t[..|t| - 1], t[|t| - 1];
      InsertSorted(init, x);
      InsertPermutes(init, x);
      var u := Insert(init, x);
      NoOlderTotalPreorder(x.date, last.date, x.date);
      forall i | 0 <= i < |u| ensures NoOlder(u[i].date, last.date) {
        assert u[i] in multiset(u);
        if u[i] != x {
          assert u[i] in multiset(init);
          var k :| 0 <= k < |init| && init[k] == u[i];
          assert t[k] == u[i];
        }
      }
    }
  }

  /** Of two records where the earlier is strictly older, at most one is level
      with any given date. */
  lemma NotBothLevel(older: Expense, newer: Expense, d: Date)
    requires !NoOlder(older.date, newer.date)
    ensures !(LevelWith(d)(older) && LevelWith(d)(newer))
  {
    if LevelWith(d)(older) && LevelWith(d)(newer) {
      NoOlderTotalPreorder(older.date, d, newer.date);
    }
  }

  /** Filtering a record and one of another rank: the order of the two does not matter. */
  lemma FilterSwapTwo(a: Expense, b: Expense, d: Date)
    requires !(LevelWith(d)(a) && LevelWith(d)(b))
    ensures Filter([a], LevelWith(d)) + Filter([b], LevelWith(d))
         == Filter([b], LevelWith(d)) + Filter([a], LevelWith(d))
  {
    assert [a][1..] == [] && [b][1..] == [];
  }

  /** Inserting keeps, among the records level with any date, their order, and
      puts the new record after them. */
  lemma {:induction false} InsertStable(t: seq<Expense>, x: Expense, d: Date)
    ensures Filter(Insert(t, x), LevelWith(d)) == Filter(t, LevelWith(d)) + Filter([x], LevelWith(d))
  {
    var p := LevelWith(d);
    if t == [] || NoOlder(t[|t| - 1].date, x.date) {
      FilterAppend(t, [x], p);
    } else {
      var init, last := t[..|t| - 1], t[|t| - 1];
      NotBothLevel(last, x, d);
      calc {
        Filter(Insert(t, x), p);
        Filter(Insert(init, x) + [last], p);
        { FilterAppend(Insert(init, x), [last], p); }
        Filter(Insert(init, x), p) + Filter([last], p);
        { InsertStable(init, x, d); }
        Filter(init, p) + Filter([x], p) + Filter([last], p);
        { FilterSwapTwo(x, last, d); }
        Filter(init, p) + (Filter([last], p) + Filter([x], p));
        { FilterAppend(init, [last], p); assert t == init + [last]; }
        Filter(t, p) + Filter([x], p);
      }
    }
  }

  /** The sort returns a newest-first permutation of its input. */
  lemma {:induction false} SortSpec(s: seq<Expense>)
    ensures SortedNewestFirst(SortByDateDesc(s))
    ensures multiset(SortByDateDesc(s)) == multiset(s)
  {
    if s != [] {
      var init := s[..|s| - 1];
      SortSpec(init);
      InsertSorted(SortByDateDesc(init), s[|s| - 1]);
      InsertPermutes(SortByDateDesc(init), s[|s| - 1]);
      assert s == init + [s[|s| - 1]];
    }
  }

  /** The sort is stable: the records of any one date keep their stored order. */
  lemma {:induction false} SortStable(s: seq<Expense>, d: Date)
    ensures Filter(SortByDateDesc(s), LevelWith(d)) == Filter(s, LevelWith(d))
  {
    if s != [] {
      var init, last := s[..|s| - 1], s[|s| - 1];
      SortStable(init, d);
      InsertStable(SortByDateDesc(init), last, d);
      assert s == init + [last];
      FilterAppend(init, [last], LevelWith(d));
    }
  }

  /** Sorting an array that is already newest-first leaves it as it is, so
      sorting twice is sorting once. */
  lemma {:induction false} SortSortedIsIdentity(s: seq<Expense>)
    requires SortedNewestFirst(s)
    ensures SortByDateDesc(s) == s
  {
    if s != [] {
      var init := s[..|s| - 1];
      assert SortedNewestFirst(init);
      SortSortedIsIdentity(init);
      assert s == init + [s[|s| - 1]];
    }
  }

  lemma SortIdempotent(s: seq<Expense>)
    ensures SortByDateDesc(SortByDateDesc(s)) == SortByDateDesc(s)
  {
    SortSpec(s);
    SortSortedIsIdentity(SortByDateDesc(s));
  }

  /** A subsequence of a newest-first list is newest-first. */
  lemma {:induction false} FilterKeepsSorted(s: seq<Expense>, p: Expense -> bool)
    requires SortedNewestFirst(s)
    ensures SortedNewestFirst(Filter(s, p))
  {
    if s != [] {
      assert SortedNewestFirst(s[1..]);
      FilterKeepsSorted(s[1..], p);
      var rest := Filter(s[1..], p);
      forall j | 0 <= j < |rest| ensures NoOlder(s[0].date, rest[j].date) {
        assert rest[j] in rest;
        var k :| 0 <= k < |s[1..]| && s[1..][k] == rest[j];
        assert s[k + 1] == rest[j];
      }
    }
  }

  /** What the recent-entries table shows: the first ten records of the sorted array. */
  function Newest(sorted: seq<Expense>): (r: seq<Expense>)
    ensures |r| == if |sorted| < RecentCount then |sorted| else RecentCount
    ensures r == sorted[..|r|]
  {
    if |sorted| <= RecentCount then sorted else sorted[..RecentCount]
  }

  /** The table holds the ten newest records, newest first: every shown record is
      stored, and every record left out is no newer than every shown one. */
  lemma RecentSpec(s: seq<Expense>)
    ensures |Newest(SortByDateDesc(s))| == if |s| < RecentCount then |s| else RecentCount
    ensures SortedNewestFirst(Newest(SortByDateDesc(s)))
    ensures forall e :: e in Newest(SortByDateDesc(s)) ==> e in s
    ensures forall i, j :: 0 <= i < |Newest(SortByDateDesc(s))| <= j < |s| ==>
      NoOlder(Newest(SortByDateDesc(s))[i].date, SortByDateDesc(s)[j].date)
  {
    var t := SortByDateDesc(s);
    SortSpec(s);
    forall e | e in Newest(t) ensures e in s {
      assert e in multiset(t);
    }
  }
}
