/** The summary chart's income and expense totals over the snapshot. */
module Summary {
  import opened Wrappers
  import opened Transactions
  import TransactionSlice
  import TransactionQuery

  /** `items.filter(d => d.type === kind)`. */
  function FilterByKind(items: seq<Transaction>, kind: string): (r: seq<Transaction>)
    ensures forall t :: t in r <==> t in items && t.kind == kind
    ensures |r| <= |items|
    ensures forall t :: multiset(r)[t] == if t.kind == kind then multiset(items)[t] else 0
  {
    if |items| == 0 then []
    else
      assert items == [items[0]] + items[1..];
      if items[0].kind == kind then [items[0]] + FilterByKind(items[1..], kind)
      else FilterByKind(items[1..], kind)
  }

  /** `items.reduce((sum, t) => sum + t.amount, acc)`: a left fold. */
  function ReduceAmounts(acc: int, items: seq<Transaction>): (r: int)
    ensures r == acc + AmountTotal(items)
    decreases |items|
  {
    if |items| == 0 then acc else ReduceAmounts(acc + items[0].amount, items[1..])
  }

  /** The `income` total of the chart: the sum of `amount` over the income
      records. */
  function TotalIncome(items: seq<Transaction>): (r: int)
    ensures r == KindTotal(items, IncomeKind)
  {
    FilterThenSumIsKindTotal(items, IncomeKind);
    ReduceAmounts(0, FilterByKind(items, IncomeKind))
  }

  /** The `expense` total of the chart: the sum of `amount` over the expense
      records. */
  function TotalExpense(items: seq<Transaction>): (r: int)
    ensures r == KindTotal(items, ExpenseKind)
  {
    FilterThenSumIsKindTotal(items, ExpenseKind);
    ReduceAmounts(0, FilterByKind(items, ExpenseKind))
  }

  // ----- reference definitions -----

  /** The sum of all amounts. */
  function AmountTotal(items: seq<Transaction>): int {
    if |items| == 0 then 0 else items[0].amount + AmountTotal(items[1..])
  }

  /** What one record adds to the bucket `kind`. */
  function Contribution(t: Transaction, kind: string): int {
    if t.kind == kind then t.amount else 0
  }

  /** The sum of `amount` over the records of `kind`, item by item. */
  function KindTotal(items: seq<Transaction>, kind: string): int {
    if |items| == 0 then 0 else Contribution(items[0], kind) + KindTotal(items[1..], kind)
  }

  /** A record that falls into neither bucket. */
  predicate Unbucketed(t: Transaction) {
    t.kind != IncomeKind && t.kind != ExpenseKind
  }

  /** The sum of `amount` over the records that fall into neither bucket. */
  function UnbucketedTotal(items: seq<Transaction>): int {
    if |items| == 0 then 0
    else (if Unbucketed(items[0]) then items[0].amount else 0) + UnbucketedTotal(items[1..])
  }

  /** One slice of the pie chart. */
  datatype ChartEntry = ChartEntry(name: string, value: int)

  /** `chartData`: Income first, Expense second. */
  function ChartData(items: seq<Transaction>): (r: seq<ChartEntry>)
    ensures |r| == 2
    ensures r[0].name == "Income" && r[0].value == KindTotal(items, IncomeKind)
    ensures r[1].name == "Expense" && r[1].value == KindTotal(items, ExpenseKind)
  {
    [ChartEntry("Income", TotalIncome(items)), ChartEntry("Expense", TotalExpense(items))]
  }

  // ----- lemmas -----

  /** Summing the filtered list equals summing the contributions. */
  lemma {:induction false} FilterThenSumIsKindTotal(items: seq<Transaction>, kind: string)
    ensures AmountTotal(FilterByKind(items, kind)) == KindTotal(items, kind)
    decreases |items|
  {
    if |items| > 0 {
      FilterThenSumIsKindTotal(items[1..], kind);
      if items[0].kind == kind {
        assert ([items[0]] + FilterByKind(items[1..], kind))[1..] == FilterByKind(items[1..], kind);
      }
    }
  }

  /** Both totals are zero for an empty list. */
  lemma TotalsOfEmpty()
    ensures TotalIncome([]) == 0 && TotalExpense([]) == 0
  {
  }

  lemma {:induction false} KindTotalAppend(a: seq<Transaction>, b: seq<Transaction>, kind: string)
    ensures KindTotal(a + b, kind) == KindTotal(a, kind) + KindTotal(b, kind)
    decreases |a|
  {
    if |a| == 0 {
      assert a + b == b;
    } else {
      assert (a + b)[1..] == a[1..] + b;
      KindTotalAppend(a[1..], b, kind);
    }
  }

  /** Appending a record raises exactly the total of its bucket by its
      amount; a record of any other type raises neither. */
  lemma {:induction false} TotalsAfterAppend(items: seq<Transaction>, t: Transaction)
    ensures t.kind == IncomeKind ==>
              TotalIncome(items + [t]) == TotalIncome(items) + t.amount
              && TotalExpense(items + [t]) == TotalExpense(items)
    ensures t.kind == ExpenseKind ==>
              TotalExpense(items + [t]) == TotalExpense(items) + t.amount
              && TotalIncome(items + [t]) == TotalIncome(items)
    ensures Unbucketed(t) ==>
              TotalIncome(items + [t]) == TotalIncome(items)
              && TotalExpense(items + [t]) == TotalExpense(items)
  {
    KindTotalAppend(items, [t], IncomeKind);
    KindTotalAppend(items, [t], ExpenseKind);
    assert IncomeKind != ExpenseKind by { assert |IncomeKind| != |ExpenseKind|; }
  }

  /** The add case of the reducer (a prepend) changes the totals the same way. */
  lemma TotalsAfterAdd(s: TransactionSlice.SliceState, t: Transaction)
    ensures var r := TransactionSlice.Reduce(s, TransactionSlice.AddFulfilled(t)).items;
            && TotalIncome(r) == TotalIncome(s.items) + Contribution(t, IncomeKind)
            && TotalExpense(r) == TotalExpense(s.items) + Contribution(t, ExpenseKind)
  {
    var r := TransactionSlice.Reduce(s, TransactionSlice.AddFulfilled(t)).items;
    assert r[1..] == s.items;
  }

  /** Removing position `k` takes its contribution off the total. */
  lemma KindTotalRemove(items: seq<Transaction>, k: int, kind: string)
    requires 0 <= k < |items|
    ensures KindTotal(items, kind) == Contribution(items[k], kind) + KindTotal(items[..k] + items[k + 1..], kind)
  {
    assert items == items[..k] + [items[k]] + items[k + 1..];
    KindTotalAppend(items[..k] + [items[k]], items[k + 1..], kind);
    KindTotalAppend(items[..k], [items[k]], kind);
    KindTotalAppend(items[..k], items[k + 1..], kind);
  }

  /** A bucket's total does not depend on the order of the records. */
  lemma {:induction false} KindTotalPermutation(a: seq<Transaction>, b: seq<Transaction>, kind: string)
    requires multiset(a) == multiset(b)
    ensures KindTotal(a, kind) == KindTotal(b, kind)
    decreases |a|
  {
    if |a| == 0 {
      assert |b| == |multiset(b)| == 0;
    } else {
      assert a[0] in multiset(b);
      var k :| 0 <= k < |b| && b[k] == a[0];
      var b' := b[..k] + b[k + 1..];
      assert b == b[..k] + [b[k]] + b[k + 1..];
      assert a == [a[0]] + a[1..];
      assert multiset(b) == multiset(b[..k]) + multiset{b[k]} + multiset(b[k + 1..]);
      assert multiset(b') == multiset(b[..k]) + multiset(b[k + 1..]);
      assert multiset(a) == multiset{a[0]} + multiset(a[1..]);
      calc {
        multiset(a[1..]);
        multiset(a) - multiset{a[0]};
        multiset(b) - multiset{b[k]};
        multiset(b');
      }
      KindTotalPermutation(a[1..], b', kind);
      KindTotalRemove(b, k, kind);
    }
  }

  /** Both chart totals are the same for any reordering of the items. */
  lemma {:induction false} TotalsPermutation(a: seq<Transaction>, b: seq<Transaction>)
    requires multiset(a) == multiset(b)
    ensures TotalIncome(a) == TotalIncome(b) && TotalExpense(a) == TotalExpense(b)
  {
    KindTotalPermutation(a, b, IncomeKind);
    KindTotalPermutation(a, b, ExpenseKind);
  }

  /** Every amount lies in exactly one of income, expense, neither. */
  lemma {:induction false} BucketsPartitionAmounts(items: seq<Transaction>)
    ensures AmountTotal(items) ==
              KindTotal(items, IncomeKind) + KindTotal(items, ExpenseKind) + UnbucketedTotal(items)
    decreases |items|
  {
    if |items| > 0 {
      BucketsPartitionAmounts(items[1..]);
      assert IncomeKind != ExpenseKind by { assert |IncomeKind| != |ExpenseKind|; }
    }
  }

  lemma {:induction false} UnbucketedTotalBounds(items: seq<Transaction>)
    requires forall i :: 0 <= i < |items| ==> items[i].amount >= 0
    ensures UnbucketedTotal(items) >= 0
    ensures (forall i :: 0 <= i < |items| ==> !Unbucketed(items[i])) ==> UnbucketedTotal(items) == 0
    ensures (forall i :: 0 <= i < |items| ==> items[i].amount > 0) && UnbucketedTotal(items) == 0 ==>
              forall i :: 0 <= i < |items| ==> !Unbucketed(items[i])
    decreases |items|
  {
    if |items| > 0 {
      UnbucketedTotalBounds(items[1..]);
      if (forall i :: 0 <= i < |items| ==> items[i].amount > 0) && UnbucketedTotal(items) == 0 {
        assert !Unbucketed(items[0]);
        forall i | 0 <= i < |items| ensures !Unbucketed(items[i]) {
          if i > 0 { assert items[i] == items[1..][i - 1]; }
        }
      }
    }
  }

  /** With non-negative amounts, income plus expense is at most the sum of all
      amounts; it is equal when every record is income or expense, and, with
      positive amounts, only then. */
  lemma {:induction false} TotalsBoundedByAmounts(items: seq<Transaction>)
    requires forall i :: 0 <= i < |items| ==> items[i].amount >= 0
    ensures TotalIncome(items) + TotalExpense(items) <= AmountTotal(items)
    ensures (forall i :: 0 <= i < |items| ==> !Unbucketed(items[i])) ==>
              TotalIncome(items) + TotalExpense(items) == AmountTotal(items)
    ensures (forall i :: 0 <= i < |items| ==> items[i].amount > 0)
              && TotalIncome(items) + TotalExpense(items) == AmountTotal(items) ==>
              forall i :: 0 <= i < |items| ==> !Unbucketed(items[i])
  {
    BucketsPartitionAmounts(items);
    UnbucketedTotalBounds(items);
  }

  /** With non-negative amounts both totals are non-negative. */
  lemma {:induction false} KindTotalNonNegative(items: seq<Transaction>, kind: string)
    requires forall i :: 0 <= i < |items| ==> items[i].amount >= 0
    ensures KindTotal(items, kind) >= 0
    decreases |items|
  {
    if |items| > 0 {
      KindTotalNonNegative(items[1..], kind);
    }
  }

  /** Two records, an expense of 40 and an income of 60, total 60 income and
      40 expense. */
  lemma TwoRecordExample(e: Transaction, i: Transaction)
    requires e.kind == ExpenseKind && e.amount == 40 && e.category == "Food"
    requires i.kind == IncomeKind && i.amount == 60 && i.category == "Gift"
    ensures TotalIncome([e, i]) == 60 && TotalExpense([e, i]) == 40
  {
    assert IncomeKind != ExpenseKind by { assert |IncomeKind| != |ExpenseKind|; }
    assert [e, i][1..] == [i];
    assert KindTotal([i], IncomeKind) == 60 && KindTotal([i], ExpenseKind) == 0;
  }

  /** After the dashboard's unfiltered fetch succeeds, the chart totals are
      the income and expense sums over the whole store, whatever order the
      store returned. */
  lemma {:induction false} TotalsOfFetchedSnapshot(s: TransactionSlice.SliceState, store: seq<Transaction>)
    ensures var r := TransactionSlice.Reduce(s, TransactionSlice.FetchFulfilled(
                       TransactionQuery.GetTransactions(store, TransactionQuery.NoCriteria))).items;
            && TotalIncome(r) == KindTotal(store, IncomeKind)
            && TotalExpense(r) == KindTotal(store, ExpenseKind)
  {
    var r := TransactionQuery.GetTransactions(store, TransactionQuery.NoCriteria);
    TransactionQuery.NoCriteriaListsEverything(store, None, None);
    KindTotalPermutation(r, store, IncomeKind);
    KindTotalPermutation(r, store, ExpenseKind);
  }
}
