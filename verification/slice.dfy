/** The Redux slice that holds the dashboard's snapshot of the transaction
    list: its initial state, the reducer cases, and the payloads the update
    and delete thunks build. */
module TransactionSlice {
  import opened Wrappers
  import opened Sequences
  import opened Transactions

  /** The `status` strings "idle", "loading" and "succeeded"; no reducer case
      ever sets any other value. */
  datatype Status = Idle | Loading | Succeeded

  datatype SliceState = SliceState(items: seq<Transaction>, status: Status)

  /** The lifecycle actions of the four thunks. Only the fulfilled ones and
      fetch-pending have a reducer case. */
  datatype Action =
    | FetchPending | FetchFulfilled(fetched: seq<Transaction>) | FetchRejected
    | AddPending | AddFulfilled(added: Transaction) | AddRejected
    | UpdatePending | UpdateFulfilled(updated: Transaction) | UpdateRejected
    | DeletePending | DeleteFulfilled(deletedId: Id) | DeleteRejected

  const InitialState: SliceState := SliceState([], Idle)

  /** No item carries `id`. */
  ghost predicate Absent(items: seq<Transaction>, id: Id) {
    forall j :: 0 <= j < |items| ==> items[j].id != id
  }

  /** `k` is the first position whose item carries `id`. */
  ghost predicate IsFirstWithId(items: seq<Transaction>, k: int, id: Id) {
    && 0 <= k < |items|
    && items[k].id == id
    && forall j :: 0 <= j < k ==> items[j].id != id
  }

  /** No two items share an id. */
  ghost predicate UniqueIds(items: seq<Transaction>) {
    forall i, j :: 0 <= i < j < |items| ==> items[i].id != items[j].id
  }

  /** `items.findIndex(t => t._id === id)`: the first matching position, or -1. */
  function FindIndex(items: seq<Transaction>, id: Id): (r: int)
    ensures -1 <= r < |items|
    ensures r == -1 <==> Absent(items, id)
    ensures r != -1 ==> IsFirstWithId(items, r, id)
  {
    if |items| == 0 then -1
    else if items[0].id == id then 0
    else
      var k := FindIndex(items[1..], id);
      if k == -1 then -1 else k + 1
  }

  /** The update case: the first item with the payload's id becomes the
      payload; without such an item the list is left as it is. */
  function ReplaceFirstById(items: seq<Transaction>, t: Transaction): (r: seq<Transaction>)
    ensures |r| == |items|
    ensures Absent(items, t.id) ==> r == items
    ensures forall k :: IsFirstWithId(items, k, t.id) ==>
              && r[k] == t
              && forall j :: 0 <= j < |items| && j != k ==> r[j] == items[j]
  {
    var i := FindIndex(items, t.id);
    if i == -1 then items else items[i := t]
  }

  /** The delete case: `items.filter(t => t._id !== id)`. */
  function RemoveById(items: seq<Transaction>, id: Id): (r: seq<Transaction>)
    ensures Absent(r, id)
    ensures forall t :: t in r <==> t in items && t.id != id
    ensures Absent(items, id) ==> r == items
  {
    if |items| == 0 then []
    else if items[0].id == id then RemoveById(items[1..], id)
    else [items[0]] + RemoveById(items[1..], id)
  }

  /** The actions the slice has a case for; every other action leaves the
      state as it is. */
  predicate Handled(a: Action) {
    a.FetchPending? || a.FetchFulfilled? || a.AddFulfilled? || a.UpdateFulfilled? || a.DeleteFulfilled?
  }

  /** The slice reducer. */
  function Reduce(s: SliceState, a: Action): (r: SliceState)
    ensures a.FetchPending? ==> r.items == s.items && r.status == Loading
    ensures a.FetchFulfilled? ==> r.items == a.fetched && r.status == Succeeded
    ensures a.AddFulfilled? ==>
              && r.status == s.status
              && |r.items| == |s.items| + 1
              && r.items[0] == a.added
              && r.items[1..] == s.items
    ensures a.UpdateFulfilled? ==>
              && r.status == s.status
              && |r.items| == |s.items|
              && (Absent(s.items, a.updated.id) ==> r.items == s.items)
              && forall k :: IsFirstWithId(s.items, k, a.updated.id) ==>
                   && r.items[k] == a.updated
                   && forall j :: 0 <= j < |s.items| && j != k ==> r.items[j] == s.items[j]
    ensures a.DeleteFulfilled? ==>
              && r.status == s.status
              && Absent(r.items, a.deletedId)
              && (forall t :: t in r.items <==> t in s.items && t.id != a.deletedId)
              && (Absent(s.items, a.deletedId) ==> r == s)
    ensures !Handled(a) ==> r == s
  {
    match a
    case FetchPending => s.(status := Loading)
    case FetchFulfilled(payload) => SliceState(payload, Succeeded)
    case AddFulfilled(t) => s.(items := [t] + s.items)
    case UpdateFulfilled(t) => s.(items := ReplaceFirstById(s.items, t))
    case DeleteFulfilled(id) => s.(items := RemoveById(s.items, id))
    case _ => s
  }

  /** The update thunk: `const { id, ...data } = transaction` and a PUT of
      `data` at `id`. The form handler calls it only with an id present. */
  function UpdateRequest(f: Form): (req: Request)
    requires f.id.Some?
    ensures req.Replace?
    ensures Some(req.target) == f.id
    ensures WithId(req.body, Some(req.target)) == f
  {
    Replace(f.id.value, BodyOf(f))
  }

  /** The delete thunk: a DELETE at `id`, fulfilled with `id` itself. */
  function DeleteThunk(id: Id): (Request, Action) {
    (Remove(id), DeleteFulfilled(id))
  }

  // ----- lemmas -----

  /** The store starts with no items and status "idle". */
  lemma InitialStateIsEmpty()
    ensures InitialState.items == [] && InitialState.status == Idle
  {
  }

  /** A fetch that fails after starting leaves the items alone and the status
      stuck at "loading": there is no rejected case. */
  lemma FailedFetchStaysLoading(s: SliceState)
    ensures Reduce(Reduce(s, FetchPending), FetchRejected) == SliceState(s.items, Loading)
  {
  }

  /** The delete thunk sends a DELETE at `id` and is fulfilled with exactly
      that id, so reducing it filters out the items carrying it and no item
      with that id is left. */
  lemma DeleteThunkRemovesTarget(s: SliceState, id: Id)
    ensures DeleteThunk(id).0 == Remove(id)
    ensures DeleteThunk(id).1 == DeleteFulfilled(DeleteThunk(id).0.target)
    ensures Reduce(s, DeleteThunk(id).1).items == RemoveById(s.items, id)
    ensures Absent(Reduce(s, DeleteThunk(id).1).items, DeleteThunk(id).0.target)
  {
  }

  /** Deleting keeps the surviving items in their original relative order. */
  lemma {:induction false} RemoveByIdKeepsOrder(items: seq<Transaction>, id: Id)
    ensures Subsequence(RemoveById(items, id), items)
    decreases |items|
  {
    if |items| > 0 {
      RemoveByIdKeepsOrder(items[1..], id);
      var rest := RemoveById(items[1..], id);
      if items[0].id != id {
        assert RemoveById(items, id) == [items[0]] + rest;
        assert ([items[0]] + rest)[1..] == rest;
      }
    }
  }

  /** Deleting distributes over concatenation: each part is filtered on its
      own and the parts stay in place. */
  lemma {:induction false} RemoveByIdAppend(a: seq<Transaction>, b: seq<Transaction>, id: Id)
    ensures RemoveById(a + b, id) == RemoveById(a, id) + RemoveById(b, id)
    decreases |a|
  {
    if |a| > 0 {
      assert (a + b)[1..] == a[1..] + b;
      RemoveByIdAppend(a[1..], b, id);
    } else {
      assert a + b == b;
    }
  }

  /** Deleting an id twice is the same as deleting it once. */
  lemma DeleteTwiceIsDeleteOnce(s: SliceState, id: Id)
    ensures Reduce(Reduce(s, DeleteFulfilled(id)), DeleteFulfilled(id)) == Reduce(s, DeleteFulfilled(id))
  {
  }

  /** Deleting removes exactly the items that carry the id: the length drops
      by their number. */
  lemma {:induction false} RemoveByIdCount(items: seq<Transaction>, id: Id)
    ensures |RemoveById(items, id)| == |items| - CountId(items, id)
    decreases |items|
  {
    if |items| > 0 {
      RemoveByIdCount(items[1..], id);
    }
  }

  /** The number of items carrying `id`. */
  function CountId(items: seq<Transaction>, id: Id): nat {
    if |items| == 0 then 0
    else (if items[0].id == id then 1 else 0) + CountId(items[1..], id)
  }

  /** With unique ids, the update case replaces the one item that carries the
      payload's id and nothing else. */
  lemma UpdateWithUniqueIds(s: SliceState, t: Transaction, k: int)
    requires UniqueIds(s.items)
    requires 0 <= k < |s.items| && s.items[k].id == t.id
    ensures Reduce(s, UpdateFulfilled(t)).items == s.items[k := t]
  {
    assert IsFirstWithId(s.items, k, t.id);
  }

  /** Every reducer case keeps ids unique, provided a fetched list has unique
      ids and an added record brings a new id. */
  lemma ReducePreservesUniqueIds(s: SliceState, a: Action)
    requires UniqueIds(s.items)
    requires a.FetchFulfilled? ==> UniqueIds(a.fetched)
    requires a.AddFulfilled? ==> Absent(s.items, a.added.id)
    ensures UniqueIds(Reduce(s, a).items)
  {
    match a
    case AddFulfilled(t) =>
      var r := Reduce(s, a).items;
      forall i, j | 0 <= i < j < |r| ensures r[i].id != r[j].id {
        if i > 0 {
          assert r[i] == s.items[i - 1] && r[j] == s.items[j - 1];
        } else {
          assert r[j] == s.items[j - 1];
        }
      }
    case UpdateFulfilled(t) =>
      var r := Reduce(s, a).items;
      if !Absent(s.items, t.id) {
        var k := FindIndex(s.items, t.id);
        assert r == s.items[k := t];
      }
    case DeleteFulfilled(id) =>
      RemoveByIdKeepsUnique(s.items, id);
    case _ =>
  }

  lemma {:induction false} RemoveByIdKeepsUnique(items: seq<Transaction>, id: Id)
    requires UniqueIds(items)
    ensures UniqueIds(RemoveById(items, id))
    decreases |items|
  {
    if |items| > 0 {
      RemoveByIdKeepsUnique(items[1..], id);
      var rest := RemoveById(items[1..], id);
      if items[0].id != id {
        forall u | u in rest ensures u.id != items[0].id {
          var m :| 0 <= m < |items[1..]| && items[1..][m] == u;
          assert items[m + 1] == u;
        }
        var r := [items[0]] + rest;
        forall i, j | 0 <= i < j < |r| ensures r[i].id != r[j].id {
          assert r[j] == rest[j - 1];
          if i > 0 {
            assert r[i] == rest[i - 1];
          }
        }
      }
    }
  }
}
