/** The three query helpers of the ledger: text search, date range and category. */
module Filters {
  import opened Seqs
  import opened Dates
  import opened Records

  /** `toLowerCase` on the letters A to Z; every other character is kept. */
  function LowerChar(c: char): (l: char)
    ensures 'A' <= c <= 'Z' ==> l as int == c as int + 32
    ensures !('A' <= c <= 'Z') ==> l == c
    ensures !('A' <= l <= 'Z')
  {
    if 'A' <= c <= 'Z' then (c as int + 32) as char else c
  }

  function Lower(s: string): (r: string)
    ensures |r| == |s|
    ensures forall i :: 0 <= i < |s| ==> r[i] == LowerChar(s[i])
  {
    if s == [] then [] else [LowerChar(s[0])] + Lower(s[1..])
  }

  /** Lowering is idempotent: a lowered query is its own lower case. */
  lemma {:induction false} LowerIdempotent(s: string)
    ensures Lower(Lower(s)) == Lower(s)
  {
    var l := Lower(s);
    assert forall i :: 0 <= i < |l| ==> LowerChar(l[i]) == l[i];
  }

  predicate StartsWith(s: string, prefix: string) {
    |prefix| <= |s| && s[..|prefix|] == prefix
  }

  /** `String.prototype.includes`. */
  predicate Contains(haystack: string, needle: string)
    decreases |haystack|
  {
    StartsWith(haystack, needle) || (haystack != [] && Contains(haystack[1..], needle))
  }

  /** `needle` occurs in `haystack` starting at offset `i`. */
  predicate OccursAt(haystack: string, needle: string, i: int) {
    0 <= i && i + |needle| <= |haystack| && haystack[i..i + |needle|] == needle
  }

  /** `includes` holds exactly when the needle occurs at some offset. */
  lemma {:induction false} ContainsIff(haystack: string, needle: string)
    ensures Contains(haystack, needle) <==> exists i :: OccursAt(haystack, needle, i)
  {
    if StartsWith(haystack, needle) {
      assert OccursAt(haystack, needle, 0);
    }
    if haystack != [] {
      ContainsIff(haystack[1..], needle);
      if Contains(haystack[1..], needle) {
        var i :| OccursAt(haystack[1..], needle, i);
        assert haystack[i + 1..i + 1 + |needle|] == haystack[1..][i..i + |needle|];
        assert OccursAt(haystack, needle, i + 1);
      }
      if exists i :: OccursAt(haystack, needle, i) {
        var i :| OccursAt(haystack, needle, i);
        if i > 0 {
          assert haystack[1..][i - 1..i - 1 + |needle|] == haystack[i..i + |needle|];
          assert OccursAt(haystack[1..], needle, i - 1);
        } else {
          assert StartsWith(haystack, needle);
        }
      }
    } else if exists i :: OccursAt(haystack, needle, i) {
      var i :| OccursAt(haystack, needle, i);
      assert StartsWith(haystack, needle);
    }
  }

  /** The empty query is found in every string. */
  lemma EmptyNeedle(haystack: string)
    ensures Contains(haystack, "")
  {
  }

  /** The search test of one record: its item or its category label contains the
      query, all three lowered. */
  predicate Matches(e: Expense, query: string) {
    Contains(Lower(e.item), Lower(query)) || Contains(Lower(CategoryName(e.category)), Lower(query))
  }

  function SearchTest(query: string): Expense -> bool {
    (e: Expense) => Matches(e, query)
  }

  /** `searchExpenses(query)`. */
  function Search(s: seq<Expense>, query: string): (r: seq<Expense>)
    ensures forall e :: e in r ==> e in s && Matches(e, query)
  {
    Filter(s, SearchTest(query))
  }

  /** A record is found exactly when it is stored and matches, every copy of a
      matching record is kept, and the result keeps the ledger's order. */
  lemma SearchSpec(s: seq<Expense>, query: string, x: Expense)
    ensures x in Search(s, query) <==> x in s && Matches(x, query)
    ensures multiset(Search(s, query))[x] == if Matches(x, query) then multiset(s)[x] else 0
    ensures IsSubsequence(Search(s, query), s)
  {
    FilterMembership(s, SearchTest(query), x);
    FilterMultiset(s, SearchTest(query), x);
    FilterIsSubsequence(s, SearchTest(query));
  }

  /** The empty query returns the whole ledger. */
  lemma SearchEmptyQuery(s: seq<Expense>)
    ensures Search(s, "") == s
  {
    forall i | 0 <= i < |s| ensures Matches(s[i], "") {
      EmptyNeedle(Lower(s[i].item));
    }
    FilterAllPass(s, SearchTest(""));
  }

  /** The search ignores the case of the query. */
  lemma SearchIgnoresCase(s: seq<Expense>, q1: string, q2: string)
    requires Lower(q1) == Lower(q2)
    ensures Search(s, q1) == Search(s, q2)
  {
    FilterCongruence(s, SearchTest(q1), SearchTest(q2));
  }

  /** Both bounds and the record's date parse, and the date lies between the
      bounds, both inclusive. A comparison with `Invalid Date` is false. */
  predicate InRange(d: Date, start: Date, end: Date) {
    d.Valid() && start.Valid() && end.Valid() && NotLater(start, d) && NotLater(d, end)
  }

  function RangeTest(start: Date, end: Date): Expense -> bool {
    (e: Expense) => InRange(e.date, start, end)
  }

  /** `filterByDateRange(startDate, endDate)`. */
  function FilterByDateRange(s: seq<Expense>, start: Date, end: Date): (r: seq<Expense>)
    ensures forall e :: e in r ==> e in s && InRange(e.date, start, end)
  {
    Filter(s, RangeTest(start, end))
  }

  /** A record is kept exactly when it is stored and its date is in range, with
      every copy, in the ledger's order. */
  lemma DateRangeSpec(s: seq<Expense>, start: Date, end: Date, x: Expense)
    ensures x in FilterByDateRange(s, start, end) <==> x in s && InRange(x.date, start, end)
    ensures multiset(FilterByDateRange(s, start, end))[x]
         == if InRange(x.date, start, end) then multiset(s)[x] else 0
    ensures IsSubsequence(FilterByDateRange(s, start, end), s)
  {
    FilterMembership(s, RangeTest(start, end), x);
    FilterMultiset(s, RangeTest(start, end), x);
    FilterIsSubsequence(s, RangeTest(start, end));
  }

  /** A range whose end lies before its start selects nothing. */
  lemma {:induction false} DateRangeInverted(s: seq<Expense>, start: Date, end: Date)
    requires NotLater(end, start) && end != start
    ensures FilterByDateRange(s, start, end) == []
  {
    forall i | 0 <= i < |s| ensures !InRange(s[i].date, start, end) {
      NotLaterIsTotalOrder(start, s[i].date, end);
      NotLaterIsTotalOrder(end, start, end);
    }
    FilterNonePass(s, RangeTest(start, end));
  }

  function CategoryTest(c: Category): Expense -> bool {
    (e: Expense) => e.category == c
  }

  /** `filterByCategory(category)`. */
  function FilterByCategory(s: seq<Expense>, c: Category): (r: seq<Expense>)
    ensures forall e :: e in r ==> e in s && e.category == c
  {
    Filter(s, CategoryTest(c))
  }

  lemma CategorySpec(s: seq<Expense>, c: Category, x: Expense)
    ensures x in FilterByCategory(s, c) <==> x in s && x.category == c
    ensures multiset(FilterByCategory(s, c))[x] == if x.category == c then multiset(s)[x] else 0
    ensures IsSubsequence(FilterByCategory(s, c), s)
  {
    FilterMembership(s, CategoryTest(c), x);
    FilterMultiset(s, CategoryTest(c), x);
    FilterIsSubsequence(s, CategoryTest(c));
  }
}
