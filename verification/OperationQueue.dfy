/** The promise-chain queue of one workspace (src/server/git-workspace-service.ts,
    src/server/clarification-runtime.ts): operations wait for the previous promise to settle, in any way. */
module OperationQueue {
  import opened Wrappers

  /** An operation runs after its predecessor has settled; `swept` once its caller's `finally` has run. */
  datatype State = Waiting | Running | Settled(ok: bool)
  datatype Operation = Operation(previous: Option<nat>, state: State, swept: bool)

  /** Operations in the order they were requested; `pending` is the map's entry, the tail of the chain. */
  datatype Queue = Queue(operations: seq<Operation>, pending: Option<nat>)

  datatype Action = Request | Start(n: nat) | Settle(n: nat, ok: bool) | Sweep(n: nat)

  predicate IsSettled(q: Queue, n: nat) { n < |q.operations| && q.operations[n].state.Settled? }

  /** The promise `previous.catch(...)` has been fulfilled. */
  predicate MayStart(q: Queue, n: nat) {
    && n < |q.operations| && q.operations[n].state == Waiting
    && (q.operations[n].previous.Some? ==> IsSettled(q, q.operations[n].previous.value))
  }

  function Set(q: Queue, n: nat, o: Operation): Queue
    requires n < |q.operations|
  {
    q.(operations := q.operations[n := o])
  }

  function After(q: Queue, a: Action): Queue {
    match a
    case Request => Queue(q.operations + [Operation(q.pending, Waiting, false)], Some(|q.operations|))
    case Start(n) => if MayStart(q, n) then Set(q, n, q.operations[n].(state := Running)) else q
    case Settle(n, ok) =>
      if n < |q.operations| && q.operations[n].state == Running then Set(q, n, q.operations[n].(state := Settled(ok))) else q
    case Sweep(n) =>
      if !IsSettled(q, n) || q.operations[n].swept then q
      else Set(q, n, q.operations[n].(swept := true)).(pending := if q.pending == Some(n) then None else q.pending)
  }

  function Run(actions: seq<Action>): Queue {
    if actions == [] then Queue([], None) else After(Run(actions[..|actions| - 1]), actions[|actions| - 1])
  }

  // ---- The invariant ----

  /** Everything requested before operation `n` has settled. */
  predicate EarlierSettled(q: Queue, n: nat) {
    forall j :: 0 <= j < n && j < |q.operations| ==> q.operations[j].state.Settled?
  }

  predicate LinkOk(q: Queue, n: nat)
    requires n < |q.operations|
  {
    match q.operations[n].previous
    case Some(p) => p == n - 1
    case None => EarlierSettled(q, n)
  }

  predicate Ok(q: Queue) {
    && (forall n :: 0 <= n < |q.operations| ==> LinkOk(q, n))
    && (forall n :: 0 <= n < |q.operations| && !q.operations[n].state.Waiting? ==> EarlierSettled(q, n))
    && (forall n :: 0 <= n < |q.operations| && q.operations[n].swept ==> q.operations[n].state.Settled?)
    && (q.pending.Some? <==> q.operations != [] && !q.operations[|q.operations| - 1].swept)
    && (q.pending.Some? ==> q.pending.value == |q.operations| - 1)
  }

  /** If the tail has settled, everything has. */
  lemma TailSettled(q: Queue)
    requires Ok(q) && (q.operations == [] || q.operations[|q.operations| - 1].state.Settled?)
    ensures EarlierSettled(q, |q.operations|)
  {
    if q.operations != [] { assert EarlierSettled(q, |q.operations| - 1); }
  }

  lemma SettledStays(q: Queue, a: Action, n: nat)
    requires EarlierSettled(q, n) && n <= |q.operations|
    ensures EarlierSettled(After(q, a), n)
  {
  }

  lemma StartNeedsAll(q: Queue, n: nat)
    requires Ok(q) && MayStart(q, n)
    ensures EarlierSettled(q, n)
  {
    assert LinkOk(q, n);
    if q.operations[n].previous.Some? {
      assert EarlierSettled(q, n - 1);
    }
  }

  lemma AfterKeeps(q: Queue, a: Action)
    requires Ok(q)
    ensures Ok(After(q, a))
  {
    var v := After(q, a);
    if a.Request? && q.pending.None? { TailSettled(q); }
    forall n | 0 <= n < |v.operations| ensures LinkOk(v, n) {
      if n < |q.operations| {
        assert LinkOk(q, n);
        if q.operations[n].previous.None? { SettledStays(q, a, n); }
      }
    }
    forall n | 0 <= n < |v.operations| && !v.operations[n].state.Waiting? ensures EarlierSettled(v, n) {
      if a.Start? && a.n == n && MayStart(q, n) { StartNeedsAll(q, n); } else { assert EarlierSettled(q, n); }
      SettledStays(q, a, n);
    }
  }

  lemma {:induction false} RunKeeps(actions: seq<Action>)
    ensures Ok(Run(actions))
  {
    if actions != [] {
      RunKeeps(actions[..|actions| - 1]);
      AfterKeeps(Run(actions[..|actions| - 1]), actions[|actions| - 1]);
    }
  }

  // ---- Whole-run theorems ----

  /** Mutual exclusion in the order of the requests: an operation that has begun finds every earlier one settled
      and every later one still waiting. */
  lemma {:induction false} FirstComeFirstServed(actions: seq<Action>, n: nat)
    requires n < |Run(actions).operations| && Run(actions).operations[n].state == Running
    ensures forall m :: 0 <= m < |Run(actions).operations| && m != n ==>
      if m < n then Run(actions).operations[m].state.Settled? else Run(actions).operations[m].state == Waiting
  {
    RunKeeps(actions);
    var q := Run(actions);
    assert EarlierSettled(q, n);
    forall m | n < m < |q.operations| ensures q.operations[m].state == Waiting {
      assert q.operations[m].state == Waiting || EarlierSettled(q, m);
    }
  }

  /** A failed operation never blocks the next: whenever all earlier operations have settled, in success or
      failure, a waiting operation may start; and only then. */
  lemma {:induction false} FailureNeverBlocks(actions: seq<Action>, n: nat)
    requires n < |Run(actions).operations| && Run(actions).operations[n].state == Waiting
    ensures MayStart(Run(actions), n) <==> EarlierSettled(Run(actions), n)
  {
    RunKeeps(actions);
    var q := Run(actions);
    if MayStart(q, n) { StartNeedsAll(q, n); }
    assert LinkOk(q, n);
  }

  /** The map holds an entry exactly while the tail is unfinished or its caller has not swept it; and once the
      tail has settled, which is what closing waits for, everything has. */
  lemma {:induction false} EntryMeansUnswept(actions: seq<Action>)
    ensures var q := Run(actions);
      && (q.pending.Some? <==> q.operations != [] && !q.operations[|q.operations| - 1].swept)
      && (q.pending.None? || IsSettled(q, q.pending.value) ==> EarlierSettled(q, |q.operations|))
  {
    RunKeeps(actions);
    var q := Run(actions);
    if q.pending.None? || IsSettled(q, q.pending.value) { TailSettled(q); }
  }

  // ---- The code ----

  /** The `pending` map over all workspaces; the promises themselves are the operations of each. */
  class WorkspaceOperationQueue {
    var pending: map<nat, nat>
    var promises: map<nat, seq<Operation>>

    function Operations(workspace: nat): seq<Operation>
      reads this
    {
      if workspace in promises then promises[workspace] else []
    }

    ghost function Value(workspace: nat): Queue
      reads this
    {
      Queue(Operations(workspace), if workspace in pending then Some(pending[workspace]) else None)
    }

    constructor ()
      ensures forall w :: Value(w) == Run([])
    {
      pending, promises := map[], map[];
    }

    method Enqueue(workspace: nat) returns (current: nat)
      modifies this
      ensures current == |old(Operations(workspace))| && Value(workspace) == After(old(Value(workspace)), Request)
      ensures forall w :: w != workspace ==> Value(w) == old(Value(w))
    {
      var previous := if workspace in pending then Some(pending[workspace]) else None;
      current := |Operations(workspace)|;
      promises := promises[workspace := Operations(workspace) + [Operation(previous, Waiting, false)]];
      pending := pending[workspace := current];
    }

    /** The `finally` of the caller. */
    method Finally(workspace: nat, current: nat)
      requires IsSettled(Value(workspace), current) && !Operations(workspace)[current].swept
      modifies this
      ensures Value(workspace) == After(old(Value(workspace)), Sweep(current))
      ensures forall w :: w != workspace ==> Value(w) == old(Value(w))
    {
      var done := Operations(workspace)[current].(swept := true);
      promises := promises[workspace := Operations(workspace)[current := done]];
      if workspace in pending && pending[workspace] == current { pending := pending - {workspace}; }
    }
  }
}
