/**
  The server's board store: an ordered, append-only list of point actions.
  Adding a clear action wipes the list instead of being stored; `clear()`
  wipes it too; `getActions()` hands out a copy.
 */
module BoardStore {
  import opened Actions

  /** The store's whole state: the stored actions in insertion order. */
  datatype Store = Store(actions: seq<Action>)

  /** A freshly constructed service holds no actions. */
  const Empty := Store([])

  /** The store invariant: a clear action is never kept. */
  predicate Valid(st: Store) {
    NoClears(st.actions)
  }

  /** `addAction`: a clear action empties the list, any other action goes to the tail. */
  function AddAction(st: Store, a: Action): (r: Store)
    ensures a.clear ==> r.actions == []
    ensures !a.clear ==> |r.actions| == |st.actions| + 1
    ensures !a.clear ==> IsPrefix(st.actions, r.actions) && r.actions[|st.actions|] == a
    ensures Valid(st) ==> Valid(r)
  {
    if a.clear then Store([]) else Store(st.actions + [a])
  }

  /**
    `getActions`: the stored list, as a value. A Dafny sequence is immutable,
    so the returned copy is detached from later changes to the store.
   */
  function GetActions(st: Store): seq<Action> {
    st.actions
  }

  /** `clear`: drop every stored action. */
  function Clear(st: Store): (r: Store)
    ensures GetActions(r) == []
    ensures Valid(r)
  {
    Store([])
  }

  /** Adds the actions of `added`, first to last. */
  function AddAll(st: Store, added: seq<Action>): Store
    decreases |added|
  {
    if added == [] then st else AddAction(AddAll(st, added[..|added| - 1]), added[|added| - 1])
  }

  /** Adding only point actions appends exactly them, in insertion order. */
  lemma {:induction false} AddAllAppends(st: Store, added: seq<Action>)
    requires NoClears(added)
    ensures GetActions(AddAll(st, added)) == st.actions + added
    decreases |added|
  {
    if added != [] {
      var init := added[..|added| - 1];
      assert NoClears(init);
      AddAllAppends(st, init);
      assert init + [added[|added| - 1]] == added;
    }
  }

  /** Starting from an empty service, the board is exactly the point actions added. */
  lemma AddAllFromEmpty(added: seq<Action>)
    requires NoClears(added)
    ensures GetActions(AddAll(Empty, added)) == added
  {
    AddAllAppends(Empty, added);
  }

  /** A clear action leaves the board empty, whatever was added before it. */
  lemma ClearActionForgetsHistory(st: Store, added: seq<Action>, c: Action)
    requires c.clear
    ensures GetActions(AddAll(st, added + [c])) == []
  {
    assert (added + [c])[..|added + [c]| - 1] == added;
  }

  /** The calls a caller can make on the service. */
  datatype Op = Add(action: Action) | ClearAll

  /** True iff `op` wipes the board: `clear()`, or adding a clear action. */
  predicate Resets(op: Op) {
    op.ClearAll? || op.action.clear
  }

  function Apply(st: Store, op: Op): Store {
    match op
    case Add(a) => AddAction(st, a)
    case ClearAll => Clear(st)
  }

  /** The store after the calls `ops`, made on a new service. */
  function Replay(ops: seq<Op>): Store
    decreases |ops|
  {
    if ops == [] then Empty else Apply(Replay(ops[..|ops| - 1]), ops[|ops| - 1])
  }

  /** Index of the last call in `ops` that wipes the board, or -1 if none does. */
  function LastReset(ops: seq<Op>): (k: int)
    ensures -1 <= k < |ops|
    ensures 0 <= k ==> Resets(ops[k])
    ensures forall j :: k < j < |ops| ==> !Resets(ops[j])
    decreases |ops|
  {
    if ops == [] then -1
    else if Resets(ops[|ops| - 1]) then |ops| - 1
    else LastReset(ops[..|ops| - 1])
  }

  /** The actions carried by the `Add` calls of `ops`, in order. */
  function Payloads(ops: seq<Op>): seq<Action>
    decreases |ops|
  {
    if ops == [] then []
    else Payloads(ops[..|ops| - 1]) + (if ops[|ops| - 1].Add? then [ops[|ops| - 1].action] else [])
  }

  /**
    The effective board as an independent definition: the actions added
    after the most recent wipe, or the whole history when nothing wiped it.
   */
  function Effective(ops: seq<Op>): seq<Action> {
    Payloads(ops[LastReset(ops) + 1..])
  }

  /** Replaying any call history leaves exactly the effective board in the store. */
  lemma {:induction false} ReplayIsEffective(ops: seq<Op>)
    ensures GetActions(Replay(ops)) == Effective(ops)
    decreases |ops|
  {
    if ops != [] {
      var n := |ops|;
      var init := ops[..n - 1];
      var last := ops[n - 1];
      if !Resets(last) {
        ReplayIsEffective(init);
        var k := LastReset(init);
        assert LastReset(ops) == k;
        var tail := ops[k + 1..];
        assert tail[..|tail| - 1] == init[k + 1..];
        assert tail[|tail| - 1] == last;
      }
    }
  }

  /** No sequence of calls ever leaves a clear action in the store. */
  lemma {:induction false} ReplayValid(ops: seq<Op>)
    ensures Valid(Replay(ops))
    decreases |ops|
  {
    if ops != [] {
      ReplayValid(ops[..|ops| - 1]);
    }
  }

  /**
    A copy handed out earlier stays an initial segment of every later copy
    as long as nothing wipes the board in between: later additions never
    reorder, drop or rewrite what was already returned.
   */
  lemma {:induction false} SnapshotStaysPrefix(ops: seq<Op>, more: seq<Op>)
    requires forall j :: 0 <= j < |more| ==> !Resets(more[j])
    ensures IsPrefix(GetActions(Replay(ops)), GetActions(Replay(ops + more)))
    ensures |GetActions(Replay(ops + more))| == |GetActions(Replay(ops))| + |more|
    decreases |more|
  {
    if more == [] {
      assert ops + more == ops;
    } else {
      var init := more[..|more| - 1];
      SnapshotStaysPrefix(ops, init);
      assert (ops + more)[..|ops + more| - 1] == ops + init;
      assert (ops + more)[|ops + more| - 1] == more[|more| - 1];
    }
  }
}
