/** The expense record kept by the ledger, its five categories and their labels. */
module Records {
  import opened Seqs
  import opened Dates

  /** The five keys of the category tables; an unknown key is not representable. */
  datatype Category = Packaging | Storage | Labor | Transport | Other

  const AllCategories: set<Category> := {Packaging, Storage, Labor, Transport, Other}

  /** Record ids are produced by the caller (the source draws them from the clock
      and a random number). */
  type Id = int

  /** One expense record. Daily entries leave the four optional fields absent;
      invoice lines fill all of them. */
  datatype Expense = Expense(
    id: Id,
    date: Date,
    category: Category,
    item: string,
    amount: real,
    quantity: Option<real>,
    unitPrice: Option<real>,
    unit: Option<string>,
    invoiceId: Option<string>)

  /** The record shape both entry forms produce: a positive amount and, where a
      quantity and a unit price are stored, their product as the amount. */
  predicate WellFormed(e: Expense) {
    && e.amount > 0.0
    && (e.quantity.Some? && e.unitPrice.Some? ==> e.amount == e.quantity.value * e.unitPrice.value)
  }

  predicate AllWellFormed(s: seq<Expense>) {
    forall i :: 0 <= i < |s| ==> WellFormed(s[i])
  }

  /** `getCategoryName`: the display label of a category. */
  function CategoryName(c: Category): (name: string)
    ensures name != []
  {
    match c
    case Packaging => "প্যাকেজিং সামগ্রী"
    case Storage => "সংরক্ষণ সামগ্রী"
    case Labor => "শ্রমিক খরচ"
    case Transport => "পরিবহন খরচ"
    case Other => "অন্যান্য খরচ"
  }

  /** Different categories have different labels, so the label column of the
      export identifies the category. */
  lemma CategoryNameInjective(c: Category, d: Category)
    ensures CategoryName(c) == CategoryName(d) ==> c == d
  {
  }

  /** `reduce((sum, exp) => sum + exp.amount, 0)`. */
  function Sum(s: seq<Expense>): real {
    if s == [] then 0.0 else s[0].amount + Sum(s[1..])
  }

  lemma {:induction false} SumAppend(a: seq<Expense>, b: seq<Expense>)
    ensures Sum(a + b) == Sum(a) + Sum(b)
  {
    if a == [] {
      assert a + b == b;
    } else {
      assert (a + b)[1..] == a[1..] + b;
      SumAppend(a[1..], b);
    }
  }

  /** With no negative amounts a sum is not negative. */
  lemma {:induction false} SumNonNegative(s: seq<Expense>)
    requires forall i :: 0 <= i < |s| ==> s[i].amount >= 0.0
    ensures Sum(s) >= 0.0
  {
    if s != [] {
      SumNonNegative(s[1..]);
    }
  }

  /** With no negative amounts, a sum over a stricter filter is no larger. */
  lemma {:induction false} SumFilterMonotone(s: seq<Expense>, p: Expense -> bool, q: Expense -> bool)
    requires forall i :: 0 <= i < |s| ==> s[i].amount >= 0.0
    requires forall i :: 0 <= i < |s| && p(s[i]) ==> q(s[i])
    ensures Sum(Filter(s, p)) <= Sum(Filter(s, q))
  {
    if s != [] {
      SumFilterMonotone(s[1..], p, q);
      if !p(s[0]) && q(s[0]) {
        assert Sum(Filter(s, q)) == s[0].amount + Sum(Filter(s[1..], q));
      }
    }
  }

  lemma SumCons(x: Expense, rest: seq<Expense>)
    ensures Sum([x] + rest) == x.amount + Sum(rest)
  {
    assert ([x] + rest)[1..] == rest;
  }

  /** Taking one record out of a list takes its amount out of the sum. */
  lemma SumRemove(b: seq<Expense>, k: nat)
    requires k < |b|
    ensures Sum(b) == b[k].amount + Sum(b[..k] + b[k + 1..])
  {
    var front, rest := b[..k], b[k + 1..];
    SplitAt(b, k);
    SumAppend(front, [b[k]] + rest);
    SumCons(b[k], rest);
    SumAppend(front, rest);
  }

  lemma MultisetRemove(b: seq<Expense>, k: nat)
    requires k < |b|
    ensures multiset(b[..k] + b[k + 1..]) == multiset(b) - multiset{b[k]}
  {
    assert b == b[..k] + [b[k]] + b[k + 1..];
  }

  /** A sum does not depend on the order of the records. */
  lemma {:induction false} SumPermutation(a: seq<Expense>, b: seq<Expense>)
    requires multiset(a) == multiset(b)
    ensures Sum(a) == Sum(b)
    decreases |a|
  {
    if a != [] {
      assert a[0] in multiset(b);
      var k :| 0 <= k < |b| && b[k] == a[0];
      MultisetRemove(b, k);
      assert a == [a[0]] + a[1..];
      assert multiset(a[1..]) == multiset(a) - multiset{a[0]};
      SumPermutation(a[1..], b[..k] + b[k + 1..]);
      SumRemove(b, k);
    } else {
      assert |b| == |multiset(b)| == 0;
    }
  }
}
