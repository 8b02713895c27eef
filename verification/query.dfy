/** The list endpoint: optional query criteria become a filter document, the
    store returns the records that satisfy it, sorted newest first. */
module TransactionQuery {
  import opened Wrappers
  import opened Transactions

  /** The query string. A string criterion that is absent or empty is `None`
      or `Some("")`; a date bound is `None` when absent or empty and otherwise
      the timestamp it parses to. */
  datatype Criteria = Criteria(
    kind: Option<string>,
    category: Option<string>,
    startDate: Option<int>,
    endDate: Option<int>)

  const NoCriteria: Criteria := Criteria(None, None, None, None)

  /** An inclusive date range, `{ $gte: from, $lte: to }`. */
  datatype DateRange = DateRange(from: int, to: int)

  /** The filter document: one optional constraint per field. */
  datatype Filter = Filter(kind: Option<string>, category: Option<string>, date: Option<DateRange>)

  const EmptyFilter: Filter := Filter(None, None, None)

  /** JavaScript truthiness of a query-string value. */
  predicate Given(o: Option<string>) {
    o.Some? && o.value != ""
  }

  /** Whether a record satisfies every constraint the filter holds. */
  predicate Matches(f: Filter, t: Transaction) {
    && (f.kind.Some? ==> t.kind == f.kind.value)
    && (f.category.Some? ==> t.category == f.category.value)
    && (f.date.Some? ==> f.date.value.from <= t.date <= f.date.value.to)
  }

  /** How `getTransactions` builds its filter. */
  function BuildFilter(c: Criteria): (f: Filter)
    ensures f.kind.Some? <==> Given(c.kind)
    ensures f.kind.Some? ==> f.kind == c.kind
    ensures f.category.Some? <==> Given(c.category)
    ensures f.category.Some? ==> f.category == c.category
    ensures f.date.Some? <==> c.startDate.Some? && c.endDate.Some?
    ensures f.date.Some? ==> f.date.value == DateRange(c.startDate.value, c.endDate.value)
    ensures forall t :: Matches(f, t) <==>
              && (Given(c.kind) ==> t.kind == c.kind.value)
              && (Given(c.category) ==> t.category == c.category.value)
              && (c.startDate.Some? && c.endDate.Some? ==> c.startDate.value <= t.date <= c.endDate.value)
  {
    Filter(
      if Given(c.kind) then c.kind else None,
      if Given(c.category) then c.category else None,
      if c.startDate.Some? && c.endDate.Some? then Some(DateRange(c.startDate.value, c.endDate.value)) else None)
  }

  /** The store's `find(filter)`, with no promise about order. */
  function Find(store: seq<Transaction>, f: Filter): (r: seq<Transaction>)
    ensures forall t :: t in r <==> t in store && Matches(f, t)
    ensures multiset(r) <= multiset(store)
    ensures forall t :: multiset(r)[t] == if Matches(f, t) then multiset(store)[t] else 0
  {
    if |store| == 0 then []
    else
      assert store == [store[0]] + store[1..];
      if Matches(f, store[0]) then [store[0]] + Find(store[1..], f)
      else Find(store[1..], f)
  }

  /** Dates never increase from one record to any later one. */
  ghost predicate NewestFirst(xs: seq<Transaction>) {
    forall i, j :: 0 <= i < j < |xs| ==> xs[i].date >= xs[j].date
  }

  /** A record no older than the head of a newest-first list may go in front. */
  lemma PrependNewest(t: Transaction, xs: seq<Transaction>)
    requires NewestFirst(xs)
    requires |xs| > 0 ==> t.date >= xs[0].date
    ensures NewestFirst([t] + xs)
  {
    var r := [t] + xs;
    forall i, j | 0 <= i < j < |r| ensures r[i].date >= r[j].date {
      if i == 0 {
        assert r[j] == xs[j - 1] && xs[0].date >= xs[j - 1].date;
      } else {
        assert r[i] == xs[i - 1] && r[j] == xs[j - 1];
      }
    }
  }

  /** Puts `t` into a newest-first list in front of the first record that is
      not newer than it. */
  function InsertByDate(t: Transaction, xs: seq<Transaction>): (r: seq<Transaction>)
    requires NewestFirst(xs)
    ensures NewestFirst(r)
    ensures multiset(r) == multiset(xs) + multiset{t}
    ensures |r| > 0 && (r[0] == t || (|xs| > 0 && r[0] == xs[0]))
  {
    if |xs| == 0 then [t]
    else if t.date >= xs[0].date then
      PrependNewest(t, xs);
      [t] + xs
    else
      assert NewestFirst(xs[1..]);
      var rest := InsertByDate(t, xs[1..]);
      assert xs == [xs[0]] + xs[1..];
      PrependNewest(xs[0], rest);
      [xs[0]] + rest
  }

  /** `.sort({ date: -1 })`: a newest-first permutation. The order of records
      with equal dates is left to the store; this model fixes one. */
  function SortNewestFirst(xs: seq<Transaction>): (r: seq<Transaction>)
    ensures NewestFirst(r)
    ensures multiset(r) == multiset(xs)
  {
    if |xs| == 0 then []
    else
      assert xs == [xs[0]] + xs[1..];
      InsertByDate(xs[0], SortNewestFirst(xs[1..]))
  }

  /** `getTransactions`: exactly the matching records, newest first. */
  function GetTransactions(store: seq<Transaction>, c: Criteria): (r: seq<Transaction>)
    ensures NewestFirst(r)
    ensures multiset(r) == multiset(Find(store, BuildFilter(c)))
    ensures forall t :: t in r <==> t in store && Matches(BuildFilter(c), t)
  {
    var r := SortNewestFirst(Find(store, BuildFilter(c)));
    assert forall t :: t in r <==> t in multiset(r);
    r
  }

  // ----- lemmas -----

  /** A filter document is the conjunction of its constraints, each taken on
      its own: equality on the type, equality on the category, and a date
      range that includes both of its ends. */
  lemma MatchesConjunction(f: Filter, t: Transaction)
    ensures Matches(f, t) <==>
              && Matches(Filter(f.kind, None, None), t)
              && Matches(Filter(None, f.category, None), t)
              && Matches(Filter(None, None, f.date), t)
    ensures Matches(Filter(Some(t.kind), None, None), t)
    ensures Matches(Filter(None, Some(t.category), None), t)
    ensures forall from, to :: Matches(Filter(None, None, Some(DateRange(from, to))), t) <==> from <= t.date <= to
  {
  }

  /** The empty filter lets everything through. */
  lemma {:induction false} FindEmptyFilter(store: seq<Transaction>)
    ensures Find(store, EmptyFilter) == store
    decreases |store|
  {
    if |store| > 0 {
      FindEmptyFilter(store[1..]);
      assert Matches(EmptyFilter, store[0]);
    }
  }

  /** With no criteria (or only empty strings) the filter is empty and the
      result is every stored record, newest first. */
  lemma {:induction false} NoCriteriaListsEverything(store: seq<Transaction>, startDate: Option<int>, endDate: Option<int>)
    requires !(startDate.Some? && endDate.Some?)
    ensures BuildFilter(NoCriteria) == EmptyFilter
    ensures BuildFilter(Criteria(Some(""), Some(""), startDate, endDate)) == EmptyFilter
    ensures forall t :: Matches(EmptyFilter, t)
    ensures multiset(GetTransactions(store, NoCriteria)) == multiset(store)
  {
    FindEmptyFilter(store);
  }

  /** Only one date bound: the same filter, hence the same result, as no date
      criterion at all. */
  lemma OneDateBoundIsIgnored(store: seq<Transaction>, c: Criteria)
    requires c.startDate.Some? != c.endDate.Some?
    ensures BuildFilter(c) == BuildFilter(c.(startDate := None, endDate := None))
    ensures GetTransactions(store, c) == GetTransactions(store, c.(startDate := None, endDate := None))
  {
  }

  /** `c2` keeps every criterion of `c1` with the same value, except that its
      date range may lie inside `c1`'s. */
  predicate Narrows(c2: Criteria, c1: Criteria) {
    && (Given(c1.kind) ==> c2.kind == c1.kind)
    && (Given(c1.category) ==> c2.category == c1.category)
    && (c1.startDate.Some? && c1.endDate.Some? ==>
          && c2.startDate.Some? && c2.endDate.Some?
          && c1.startDate.value <= c2.startDate.value
          && c2.endDate.value <= c1.endDate.value)
  }

  /** A filter that lets fewer records through finds fewer records; this
      follows from the exact counts in `Find`'s contract. */
  lemma FindMonotone(store: seq<Transaction>, f1: Filter, f2: Filter)
    requires forall t :: Matches(f2, t) ==> Matches(f1, t)
    ensures multiset(Find(store, f2)) <= multiset(Find(store, f1))
  {
  }

  /** Adding or tightening a criterion can only shrink the result. */
  lemma {:induction false} NarrowingShrinksResult(store: seq<Transaction>, c1: Criteria, c2: Criteria)
    requires Narrows(c2, c1)
    ensures forall t :: Matches(BuildFilter(c2), t) ==> Matches(BuildFilter(c1), t)
    ensures multiset(GetTransactions(store, c2)) <= multiset(GetTransactions(store, c1))
  {
    FindMonotone(store, BuildFilter(c1), BuildFilter(c2));
  }
}
