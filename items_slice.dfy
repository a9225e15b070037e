/** The client's items slice (frontend/src/store/itemsSlice.ts): its state, the
    actions its async thunks dispatch, the reducer as a pure function of state and
    action, and the case reducers as methods that update a draft state in place. */
module ItemsSlice {
  import opened Wrappers
  import opened Types
  import opened ItemLists

  /** `ItemsState`: the cached items in arrival order, the fetch flag and the last fetch error. */
  datatype ItemsState = ItemsState(items: seq<Item>, loading: bool, error: Option<string>)

  /** `initialState`. */
  function InitialState(): ItemsState
  {
    ItemsState([], false, None)
  }

  /** The error recorded when a rejected fetch carries no message. */
  const FetchFailedMessage: string := "Failed to fetch items"

  /** The action types the slice has a case for. */
  const HandledTypes: set<string> := {
    "items/fetchAll/pending", "items/fetchAll/fulfilled", "items/fetchAll/rejected",
    "items/create/fulfilled", "items/update/fulfilled",
    "items/delete/fulfilled", "items/deleteMany/fulfilled"
  }

  /** An action type the slice has no case for. */
  type UnhandledType = t: string | t !in HandledTypes witness "items/create/pending"

  /** The actions the slice's thunks dispatch. Each thunk dispatches `pending` and then
      `fulfilled` or `rejected`; the slice handles seven of those action types and
      `Unhandled(type)` stands for the others (such as "items/create/rejected"). */
  datatype Action =
    | FetchPending
    | FetchFulfilled(payload: seq<Item>)
    | FetchRejected(message: Option<string>)
    | CreateFulfilled(item: Item)
    | UpdateFulfilled(item: Item)
    | DeleteFulfilled(id: int)
    | DeleteManyFulfilled(ids: seq<int>)
    | Unhandled(actionType: UnhandledType)

  /** `action.error.message || 'Failed to fetch items'`: an absent or empty message
      falls back to the default, so the recorded error is never empty. */
  function RejectionError(message: Option<string>): (r: string)
    ensures r != []
    ensures message.Some? && message.value != [] ==> r == message.value
    ensures message.None? || message.value == [] ==> r == FetchFailedMessage
  {
    if message.Some? && message.value != [] then message.value else FetchFailedMessage
  }

  /** The slice's reducer: the state after one action. */
  function Reduce(s: ItemsState, a: Action): ItemsState
  {
    match a
    case FetchPending => s.(loading := true)
    case FetchFulfilled(payload) => s.(loading := false, items := payload)
    case FetchRejected(message) => s.(loading := false, error := Some(RejectionError(message)))
    case CreateFulfilled(item) => s.(items := s.items + [item])
    case UpdateFulfilled(item) => s.(items := ReplaceFirst(s.items, item))
    case DeleteFulfilled(id) => s.(items := RemoveById(s.items, id))
    case DeleteManyFulfilled(ids) => s.(items := RemoveByIds(s.items, ids))
    case Unhandled(_) => s
  }

  /** The state after dispatching `acts` in order. */
  function ReduceAll(s: ItemsState, acts: seq<Action>): ItemsState
  {
    if acts == [] then s else Reduce(ReduceAll(s, acts[..|acts| - 1]), acts[|acts| - 1])
  }

  // ---------------------------------------------------------------------------
  // The async thunks, through the actions they dispatch. The server's answer is a
  // parameter: `Resolved(v)` when the request succeeded with response data `v`,
  // `Failed(message)` when it threw.

  datatype Outcome<+T> = Resolved(value: T) | Failed(message: Option<string>)

  /** `fetchItems`: its payload is the item list the server returned. */
  function FetchItemsActions(response: Outcome<seq<Item>>): seq<Action>
  {
    [FetchPending] +
    match response
    case Resolved(items) => [FetchFulfilled(items)]
    case Failed(message) => [FetchRejected(message)]
  }

  /** `createItem(data)`: its payload is the item the server created. */
  function CreateItemActions(response: Outcome<Item>): seq<Action>
  {
    [Unhandled("items/create/pending")] +
    match response
    case Resolved(item) => [CreateFulfilled(item)]
    case Failed(_) => [Unhandled("items/create/rejected")]
  }

  /** `updateItem({id, data})`: its payload is the item the server returned. */
  function UpdateItemActions(response: Outcome<Item>): seq<Action>
  {
    [Unhandled("items/update/pending")] +
    match response
    case Resolved(item) => [UpdateFulfilled(item)]
    case Failed(_) => [Unhandled("items/update/rejected")]
  }

  /** `deleteItem(id)`: its payload is the id it was given, whatever the response data. */
  function DeleteItemActions<R>(id: int, response: Outcome<R>): seq<Action>
  {
    [Unhandled("items/delete/pending")] +
    match response
    case Resolved(_) => [DeleteFulfilled(id)]
    case Failed(_) => [Unhandled("items/delete/rejected")]
  }

  /** `deleteMany(ids)`: its payload is the ids it was given, whatever the response data. */
  function DeleteManyActions<R>(ids: seq<int>, response: Outcome<R>): seq<Action>
  {
    [Unhandled("items/deleteMany/pending")] +
    match response
    case Resolved(_) => [DeleteManyFulfilled(ids)]
    case Failed(_) => [Unhandled("items/deleteMany/rejected")]
  }

  // ---------------------------------------------------------------------------
  // The case reducers, one at a time.

  /** Fetch pending raises `loading` and touches nothing else. */
  lemma FetchPendingEffect(s: ItemsState)
    ensures Reduce(s, FetchPending) == ItemsState(s.items, true, s.error)
  {
  }

  /** Fetch fulfilled clears `loading` and installs the payload; an earlier error is kept. */
  lemma FetchFulfilledEffect(s: ItemsState, payload: seq<Item>)
    ensures Reduce(s, FetchFulfilled(payload)) == ItemsState(payload, false, s.error)
  {
  }

  /** Fetch rejected clears `loading`, keeps the items and records the message or the default. */
  lemma FetchRejectedEffect(s: ItemsState, message: Option<string>)
    ensures var t := Reduce(s, FetchRejected(message));
      t.items == s.items && !t.loading && t.error.Some? &&
      t.error.value == (if message.Some? && message.value != [] then message.value else FetchFailedMessage)
  {
  }

  /** Create fulfilled appends the payload after the existing items. */
  lemma CreateEffect(s: ItemsState, item: Item)
    ensures var t := Reduce(s, CreateFulfilled(item));
      |t.items| == |s.items| + 1 && s.items <= t.items && t.items[|s.items|] == item &&
      t.loading == s.loading && t.error == s.error
  {
  }

  /** Update fulfilled overwrites the first item with the payload's id and no other position. */
  lemma UpdateEffect(s: ItemsState, item: Item)
    ensures var t := Reduce(s, UpdateFulfilled(item));
      |t.items| == |s.items| && t.loading == s.loading && t.error == s.error &&
      (forall j :: 0 <= j < |s.items| && j != FirstIndex(s.items, item.id) ==> t.items[j] == s.items[j]) &&
      (HasId(s.items, item.id) ==> t.items[FirstIndex(s.items, item.id)] == item) &&
      (!HasId(s.items, item.id) ==> t == s)
  {
  }

  /** Delete fulfilled keeps exactly the items with another id; a second delete changes nothing. */
  lemma DeleteEffect(s: ItemsState, id: int)
    ensures var t := Reduce(s, DeleteFulfilled(id));
      t.loading == s.loading && t.error == s.error &&
      (forall it :: it in t.items <==> it in s.items && it.id != id) &&
      !HasId(t.items, id) &&
      Reduce(t, DeleteFulfilled(id)) == t
  {
    RemoveByIdMembers(s.items, id);
    RemoveByIdIdempotent(s.items, id);
  }

  /** DeleteMany fulfilled keeps exactly the items whose id is not listed; it equals a
      single delete for a one-id list, and a second application changes nothing. */
  lemma DeleteManyEffect(s: ItemsState, ids: seq<int>)
    ensures var t := Reduce(s, DeleteManyFulfilled(ids));
      t.loading == s.loading && t.error == s.error &&
      (forall it :: it in t.items <==> it in s.items && it.id !in ids) &&
      Reduce(t, DeleteManyFulfilled(ids)) == t
  {
    RemoveByIdsMembers(s.items, ids);
    RemoveByIdsIdempotent(s.items, ids);
  }

  /** `deleteMany([x])` has the effect of `deleteItem(x)`. */
  lemma DeleteManySingleton(s: ItemsState, x: int)
    ensures Reduce(s, DeleteManyFulfilled([x])) == Reduce(s, DeleteFulfilled(x))
  {
    RemoveByIdsSingleton(s.items, x);
  }

  /** Actions the slice has no case for leave the state as it was. */
  lemma UnhandledEffect(s: ItemsState, actionType: UnhandledType)
    ensures Reduce(s, Unhandled(actionType)) == s
  {
  }

  // ---------------------------------------------------------------------------
  // Whole thunk lifecycles

  /** Dispatching two actions. */
  lemma ReduceAllPair(s: ItemsState, a: Action, b: Action)
    ensures ReduceAll(s, [a, b]) == Reduce(Reduce(s, a), b)
  {
    assert [a, b][..1] == [a];
    assert [a][..0] == [];
    assert ReduceAll(s, [a]) == Reduce(ReduceAll(s, []), a);
    assert ReduceAll(s, [a, b]) == Reduce(ReduceAll(s, [a]), b);
  }

  /** A completed fetch leaves `loading` false and either installs the response or
      records an error while keeping the items. */
  lemma FetchItemsLifecycle(s: ItemsState, response: Outcome<seq<Item>>)
    ensures var t := ReduceAll(s, FetchItemsActions(response));
      !t.loading &&
      (response.Resolved? ==> t.items == response.value && t.error == s.error) &&
      (response.Failed? ==> t.items == s.items && t.error == Some(RejectionError(response.message)))
  {
    ReduceAllPair(s, FetchPending, FetchItemsActions(response)[1]);
  }

  /** A successful create appends the server's item; a failed one changes nothing. */
  lemma CreateItemLifecycle(s: ItemsState, response: Outcome<Item>)
    ensures ReduceAll(s, CreateItemActions(response)) ==
      if response.Resolved? then s.(items := s.items + [response.value]) else s
  {
    match response
    case Resolved(item) => ReduceAllPair(s, Unhandled("items/create/pending"), CreateFulfilled(item));
    case Failed(_) => ReduceAllPair(s, Unhandled("items/create/pending"), Unhandled("items/create/rejected"));
  }

  /** A successful update replaces by the server item's id; a failed one changes nothing. */
  lemma UpdateItemLifecycle(s: ItemsState, response: Outcome<Item>)
    ensures ReduceAll(s, UpdateItemActions(response)) ==
      if response.Resolved? then s.(items := ReplaceFirst(s.items, response.value)) else s
  {
    match response
    case Resolved(item) => ReduceAllPair(s, Unhandled("items/update/pending"), UpdateFulfilled(item));
    case Failed(_) => ReduceAllPair(s, Unhandled("items/update/pending"), Unhandled("items/update/rejected"));
  }

  /** A successful delete removes the id it was given; a failed one changes nothing. */
  lemma DeleteItemLifecycle<R>(s: ItemsState, id: int, response: Outcome<R>)
    ensures ReduceAll(s, DeleteItemActions(id, response)) ==
      if response.Resolved? then s.(items := RemoveById(s.items, id)) else s
  {
    match response
    case Resolved(_) => ReduceAllPair(s, Unhandled("items/delete/pending"), DeleteFulfilled(id));
    case Failed(_) => ReduceAllPair(s, Unhandled("items/delete/pending"), Unhandled("items/delete/rejected"));
  }

  /** A successful batch delete removes the ids it was given; a failed one changes nothing. */
  lemma DeleteManyLifecycle<R>(s: ItemsState, ids: seq<int>, response: Outcome<R>)
    ensures ReduceAll(s, DeleteManyActions(ids, response)) ==
      if response.Resolved? then s.(items := RemoveByIds(s.items, ids)) else s
  {
    match response
    case Resolved(_) => ReduceAllPair(s, Unhandled("items/deleteMany/pending"), DeleteManyFulfilled(ids));
    case Failed(_) => ReduceAllPair(s, Unhandled("items/deleteMany/pending"), Unhandled("items/deleteMany/rejected"));
  }

  // ---------------------------------------------------------------------------
  // Properties of whole action histories

  /** No case clears `error`: once a fetch has failed, an error stays recorded. */
  lemma {:induction false} ErrorNeverCleared(s: ItemsState, acts: seq<Action>)
    requires s.error.Some?
    ensures ReduceAll(s, acts).error.Some?
  {
    if acts != [] {
      ErrorNeverCleared(s, acts[..|acts| - 1]);
    }
  }

  /** From the initial state, an error is recorded iff some fetch was rejected. */
  lemma {:induction false} ErrorIffFetchRejected(acts: seq<Action>)
    ensures ReduceAll(InitialState(), acts).error.Some? <==>
      exists i :: 0 <= i < |acts| && acts[i].FetchRejected?
  {
    if acts != [] {
      var front := acts[..|acts| - 1];
      ErrorIffFetchRejected(front);
      assert forall i :: 0 <= i < |front| ==> front[i] == acts[i];
      if acts[|acts| - 1].FetchRejected? {
      } else if exists i :: 0 <= i < |acts| && acts[i].FetchRejected? {
        var i :| 0 <= i < |acts| && acts[i].FetchRejected?;
        assert front[i].FetchRejected?;
      }
    }
  }

  /** The action settles a fetch. */
  predicate SettlesFetch(a: Action)
  {
    a.FetchFulfilled? || a.FetchRejected?
  }

  /** Position `i` holds a fetch-pending action that no later action settles. */
  predicate OutstandingFetchAt(acts: seq<Action>, i: int)
  {
    0 <= i < |acts| && acts[i].FetchPending? &&
    forall j :: i < j < |acts| ==> !SettlesFetch(acts[j])
  }

  /** From the initial state, `loading` is true iff the last fetch action is a pending
      one. With two fetches in flight, the first to settle clears `loading`. */
  lemma {:induction false} LoadingIffFetchOutstanding(acts: seq<Action>)
    ensures ReduceAll(InitialState(), acts).loading <==>
      exists i :: OutstandingFetchAt(acts, i)
  {
    if acts != [] {
      var n := |acts| - 1;
      var front := acts[..n];
      LoadingIffFetchOutstanding(front);
      assert forall i :: 0 <= i < n ==> front[i] == acts[i];
      if acts[n].FetchPending? {
        assert OutstandingFetchAt(acts, n);
      } else if SettlesFetch(acts[n]) {
      } else {
        if exists i :: OutstandingFetchAt(front, i) {
          var i :| OutstandingFetchAt(front, i);
          assert OutstandingFetchAt(acts, i);
        }
        if exists i :: OutstandingFetchAt(acts, i) {
          var i :| OutstandingFetchAt(acts, i);
          assert OutstandingFetchAt(front, i);
        }
      }
    }
  }

  // ---------------------------------------------------------------------------
  // The case reducers as Immer runs them: each updates a draft state in place.

  class ItemsDraft {
    var items: seq<Item>
    var loading: bool
    var error: Option<string>

    /** The draft's current value. */
    function Value(): ItemsState
      reads this
    {
      ItemsState(items, loading, error)
    }

    /** A draft holding `initialState`. */
    constructor ()
      ensures Value() == InitialState()
    {
      items, loading, error := [], false, None;
    }

    /** `state.loading = true`. */
    method OnFetchPending()
      modifies this
      ensures Value() == Reduce(old(Value()), FetchPending)
    {
      loading := true;
    }

    /** `state.loading = false; state.items = action.payload`. */
    method OnFetchFulfilled(payload: seq<Item>)
      modifies this
      ensures Value() == Reduce(old(Value()), FetchFulfilled(payload))
    {
      loading := false;
      items := payload;
    }

    /** `state.loading = false; state.error = action.error.message || 'Failed to fetch items'`. */
    method OnFetchRejected(message: Option<string>)
      modifies this
      ensures Value() == Reduce(old(Value()), FetchRejected(message))
    {
      loading := false;
      if message.Some? && message.value != [] {
        error := Some(message.value);
      } else {
        error := Some(FetchFailedMessage);
      }
    }

    /** `state.items.push(action.payload)`. */
    method OnCreateFulfilled(item: Item)
      modifies this
      ensures Value() == Reduce(old(Value()), CreateFulfilled(item))
    {
      items := items + [item];
    }

    /** `findIndex` by the payload's id, then overwrite that position if there is one. */
    method OnUpdateFulfilled(item: Item)
      modifies this
      ensures Value() == Reduce(old(Value()), UpdateFulfilled(item))
    {
      var index := FindIndex(items, item.id);
      if index != -1 {
        items := items[index := item];
      }
    }

    /** `state.items = state.items.filter(item => item.id !== action.payload)`. */
    method OnDeleteFulfilled(id: int)
      modifies this
      ensures Value() == Reduce(old(Value()), DeleteFulfilled(id))
    {
      items := RemoveById(items, id);
    }

    /** `state.items = state.items.filter(item => !action.payload.includes(item.id))`. */
    method OnDeleteManyFulfilled(ids: seq<int>)
      modifies this
      ensures Value() == Reduce(old(Value()), DeleteManyFulfilled(ids))
    {
      items := RemoveByIds(items, ids);
    }

    /** The slice reducer on a draft: run the case for the action's type, if any. */
    method Dispatch(a: Action)
      modifies this
      ensures Value() == Reduce(old(Value()), a)
    {
      match a
      case FetchPending => OnFetchPending();
      case FetchFulfilled(payload) => OnFetchFulfilled(payload);
      case FetchRejected(message) => OnFetchRejected(message);
      case CreateFulfilled(item) => OnCreateFulfilled(item);
      case UpdateFulfilled(item) => OnUpdateFulfilled(item);
      case DeleteFulfilled(id) => OnDeleteFulfilled(id);
      case DeleteManyFulfilled(ids) => OnDeleteManyFulfilled(ids);
      case Unhandled(_) =>
    }
  }
}
