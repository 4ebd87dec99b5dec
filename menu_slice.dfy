/**
 * The menu slice of the client's store: the kitchen inventory together with
 * the loading flag and the error message of the one asynchronous fetch that
 * fills it (src/store/slices/menuSlice.ts).
 *
 * The fetch itself is network I/O and is not modelled; its three outcomes
 * reach the slice as actions.  `Reduce` is the reducer as a pure function of
 * the old state and the action; `MenuStore` is the same reducer as the
 * in-place update of the store's fields that the source writes.
 */
module MenuSlice {
  import opened Wrappers

  /** One inventory row as the server sends it. */
  datatype InventoryItem = InventoryItem(
    itemId: string,
    name: string,
    category: string,
    price: int,
    quantityAvailable: int,
    availability: bool,
    image: Option<string>,
    createdAt: string,
    updatedAt: string,
    preparationTime: int)

  datatype InventoryState = InventoryState(
    inventory: seq<InventoryItem>,
    loading: bool,
    error: Option<string>)

  /** What the slice can be sent: the fetch's pending, fulfilled and rejected
      outcomes, and any other action of the application (the slice declares
      no synchronous reducers, so it has no case for them). */
  datatype Action =
    | FetchPending
    | FetchFulfilled(payload: seq<InventoryItem>)
    | FetchRejected(message: Option<string>)
    | Other(actionType: string)

  const FetchFailedMessage := "Failed to fetch data"

  const Initial := InventoryState([], false, None)

  /** The error text stored on rejection: the action's message when it is
      present and non-empty (JavaScript `||` treats "" as missing), otherwise
      the fixed fallback. */
  function RejectionError(message: Option<string>): (e: string)
    ensures e != []
    ensures message.Some? && message.value != [] ==> e == message.value
    ensures message.None? || message == Some([]) ==> e == FetchFailedMessage
  {
    if message.Some? && message.value != [] then message.value else FetchFailedMessage
  }

  /** The reducer.  Each transition is stated field by field, including the
      fields it leaves alone. */
  function Reduce(s: InventoryState, a: Action): (t: InventoryState)
    ensures a.FetchPending? ==> t.loading && t.error == None && t.inventory == s.inventory
    ensures a.FetchFulfilled? ==> !t.loading && t.inventory == a.payload && t.error == s.error
    ensures a.FetchRejected? ==>
      !t.loading && t.inventory == s.inventory && t.error == Some(RejectionError(a.message))
    ensures a.Other? ==> t == s
  {
    match a
    case FetchPending => s.(loading := true, error := None)
    case FetchFulfilled(payload) => s.(loading := false, inventory := payload)
    case FetchRejected(message) => s.(loading := false, error := Some(RejectionError(message)))
    case Other(_) => s
  }

  /** The state after the slice has been sent `actions` in order. */
  function Run(s: InventoryState, actions: seq<Action>): InventoryState
    decreases |actions|
  {
    if actions == [] then s
    else Reduce(Run(s, actions[..|actions| - 1]), actions[|actions| - 1])
  }

  predicate TouchesError(a: Action) { a.FetchPending? || a.FetchRejected? }
  predicate Settles(a: Action) { a.FetchFulfilled? || a.FetchRejected? }

  // ---------------------------------------------------------------------
  // One step

  /** After a fulfilled or rejected outcome the slice is not loading, and after
      a rejection it holds a non-empty error message. */
  lemma SettledIsNotLoading(s: InventoryState, a: Action)
    requires Settles(a)
    ensures !Reduce(s, a).loading
    ensures a.FetchRejected? ==> Reduce(s, a).error.Some? && Reduce(s, a).error.value != []
  {
  }

  /** A successful fetch, started from any state, leaves no stale error behind
      even though the fulfilled case itself does not reset the error. */
  lemma PendingThenFulfilled(s: InventoryState, payload: seq<InventoryItem>)
    ensures Run(s, [FetchPending, FetchFulfilled(payload)]) == InventoryState(payload, false, None)
  {
    assert [FetchPending, FetchFulfilled(payload)][..1] == [FetchPending];
    assert [FetchPending][..0] == [];
  }

  // ---------------------------------------------------------------------
  // Whole runs: each field is decided by the latest action that writes it.

  lemma {:induction false} RunAppend(s: InventoryState, xs: seq<Action>, ys: seq<Action>)
    ensures Run(s, xs + ys) == Run(Run(s, xs), ys)
    decreases |ys|
  {
    if ys == [] {
      assert xs + ys == xs;
    } else {
      var ys' := ys[..|ys| - 1];
      assert (xs + ys)[..|xs + ys| - 1] == xs + ys';
      RunAppend(s, xs, ys');
    }
  }

  /** Actions that are neither pending nor rejected leave the error alone. */
  lemma {:induction false} RunKeepsError(s: InventoryState, ys: seq<Action>)
    requires forall j :: 0 <= j < |ys| ==> !TouchesError(ys[j])
    ensures Run(s, ys).error == s.error
    decreases |ys|
  {
    if ys != [] {
      RunKeepsError(s, ys[..|ys| - 1]);
    }
  }

  /** Actions that are not fulfilled outcomes leave the inventory alone. */
  lemma {:induction false} RunKeepsInventory(s: InventoryState, ys: seq<Action>)
    requires forall j :: 0 <= j < |ys| ==> !ys[j].FetchFulfilled?
    ensures Run(s, ys).inventory == s.inventory
    decreases |ys|
  {
    if ys != [] {
      RunKeepsInventory(s, ys[..|ys| - 1]);
    }
  }

  /** Actions of no fetch outcome leave the loading flag alone. */
  lemma {:induction false} RunKeepsLoading(s: InventoryState, ys: seq<Action>)
    requires forall j :: 0 <= j < |ys| ==> ys[j].Other?
    ensures Run(s, ys).loading == s.loading
    decreases |ys|
  {
    if ys != [] {
      RunKeepsLoading(s, ys[..|ys| - 1]);
    }
  }

  /** The inventory is the payload of the latest fulfilled outcome. */
  lemma {:induction false} InventoryIsLatestPayload(s: InventoryState, actions: seq<Action>, i: nat)
    requires i < |actions| && actions[i].FetchFulfilled?
    requires forall j :: i < j < |actions| ==> !actions[j].FetchFulfilled?
    ensures Run(s, actions).inventory == actions[i].payload
  {
    var xs, ys := actions[..i + 1], actions[i + 1..];
    assert actions == xs + ys;
    RunAppend(s, xs, ys);
    RunKeepsInventory(Run(s, xs), ys);
  }

  /** The error is the message of the latest rejection, unless a pending
      outcome came after it, in which case it is null. */
  lemma {:induction false} ErrorIsLatestFailure(s: InventoryState, actions: seq<Action>, i: nat)
    requires i < |actions| && TouchesError(actions[i])
    requires forall j :: i < j < |actions| ==> !TouchesError(actions[j])
    ensures actions[i].FetchPending? ==> Run(s, actions).error == None
    ensures actions[i].FetchRejected? ==>
      Run(s, actions).error == Some(RejectionError(actions[i].message))
  {
    var xs, ys := actions[..i + 1], actions[i + 1..];
    assert actions == xs + ys;
    RunAppend(s, xs, ys);
    RunKeepsError(Run(s, xs), ys);
  }

  /** The slice is loading exactly when its latest fetch outcome is the
      pending one. */
  lemma {:induction false} LoadingIffLatestOutcomePending(s: InventoryState, actions: seq<Action>, i: nat)
    requires i < |actions| && !actions[i].Other?
    requires forall j :: i < j < |actions| ==> actions[j].Other?
    ensures Run(s, actions).loading <==> actions[i].FetchPending?
  {
    var xs, ys := actions[..i + 1], actions[i + 1..];
    assert actions == xs + ys;
    RunAppend(s, xs, ys);
    RunKeepsLoading(Run(s, xs), ys);
  }

  // ---------------------------------------------------------------------
  // The store as the source writes it: fields assigned in place.

  class MenuStore {
    var inventory: seq<InventoryItem>
    var loading: bool
    var error: Option<string>

    function State(): InventoryState
      reads this
    {
      InventoryState(inventory, loading, error)
    }

    /** The initial state: no inventory, not loading, no error. */
    constructor ()
      ensures inventory == [] && !loading && error == None
      ensures State() == Initial
    {
      inventory, loading, error := [], false, None;
    }

    method Pending()
      modifies this
      ensures loading && error == None
      ensures inventory == old(inventory)
      ensures State() == Reduce(old(State()), FetchPending)
    {
      loading := true;
      error := None;
    }

    method Fulfilled(payload: seq<InventoryItem>)
      modifies this
      ensures !loading && inventory == payload
      ensures error == old(error)
      ensures State() == Reduce(old(State()), FetchFulfilled(payload))
    {
      loading := false;
      inventory := payload;
    }

    method Rejected(message: Option<string>)
      modifies this
      ensures !loading && error.Some? && error.value != []
      ensures message.Some? && message.value != [] ==> error == message
      ensures message.None? || message == Some([]) ==> error == Some(FetchFailedMessage)
      ensures inventory == old(inventory)
      ensures State() == Reduce(old(State()), FetchRejected(message))
    {
      loading := false;
      error := Some(RejectionError(message));
    }

    /** Sends one action to the slice. */
    method Dispatch(a: Action)
      modifies this
      ensures State() == Reduce(old(State()), a)
      ensures a.Other? ==> State() == old(State())
    {
      match a
      case FetchPending => Pending();
      case FetchFulfilled(payload) => Fulfilled(payload);
      case FetchRejected(message) => Rejected(message);
      case Other(_) =>
    }
  }
}
