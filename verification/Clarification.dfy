/** Handing an interview over to a member (src/server/clarification-runtime.ts,
    src/server/clarification-request-store.ts). A handoff has two transactions, the reservation of a member
    and the dispatch; any other handoff, retry or deletion may come between them. */
module Clarification {
  import opened Wrappers

  type RequestId = nat
  type WorkerId = nat
  type DispatchId = nat

  /** What must stay the same over all retries of a request id. */
  datatype Request = Request(id: RequestId, workspace: nat, actor: nat, text: nat, skill: nat)

  datatype Ownership = Ownership(request: Request, worker: WorkerId, created: bool, dispatch: Option<DispatchId>, failed: bool)

  /** `admitted` and `dispatched` record the members taken and the dispatches made for request ids. */
  datatype World = World(
    table: map<RequestId, Ownership>, members: set<WorkerId>, used: set<WorkerId>,
    admitted: seq<(RequestId, WorkerId)>, dispatched: seq<(RequestId, DispatchId, WorkerId)>, nextDispatch: DispatchId
  )

  const EMPTY := World(map[], {}, {}, [], [], 0)

  predicate Reserved(w: World, workspace: nat, worker: WorkerId) {
    exists id :: id in w.table && w.table[id].request.workspace == workspace && w.table[id].worker == worker && w.table[id].dispatch.None?
  }

  /** `reserve`: the primary key and the check of `create` in one transaction. */
  function Reserve(w: World, q: Request, worker: WorkerId, created: bool): Option<World> {
    if q.id in w.table || Reserved(w, q.workspace, worker) then None
    else
      Some(w.(table := w.table[q.id := Ownership(q, worker, created, None, false)], admitted := w.admitted + [(q.id, worker)],
              members := if created then w.members + {worker} else w.members, used := w.used + {worker}))
  }

  /** The dispatch is created and attached in one transaction; when the request already owns one, the update
      changes no row and the new dispatch is rolled back with it. */
  function Dispatch(w: World, id: RequestId, worker: WorkerId): Option<World> {
    if id !in w.table || w.table[id].worker != worker || w.table[id].dispatch.Some? then None
    else
      Some(w.(table := w.table[id := w.table[id].(dispatch := Some(w.nextDispatch), failed := false)],
              dispatched := w.dispatched + [(id, w.nextDispatch, worker)], nextDispatch := w.nextDispatch + 1))
  }

  function Fail(w: World, id: RequestId): World {
    if id in w.table then w.(table := w.table[id := w.table[id].(failed := true)]) else w
  }

  datatype Answer = Refused | Viewed(o: Ownership)

  /** What the first half of a handoff meets: the skill may not resolve; the selected idle member, if any; a new
      member's id; and whether creating it succeeds. */
  datatype Admission = Admission(closing: bool, skillOk: bool, selected: Option<WorkerId>, newcomer: WorkerId, memberOk: bool)

  /** Up to the record being there; `None` is a thrown error. */
  function Admit(w: World, q: Request, a: Admission): Option<World> {
    if a.closing then None
    else if q.id in w.table then
      if w.table[q.id].request != q then None
      else if w.table[q.id].dispatch.Some? then Some(w)
      else if !a.skillOk then None else Some(w)
    else if !a.skillOk then None
    else if a.selected.Some? then Reserve(w, q, a.selected.value, false)
    else if !a.memberOk || a.newcomer in w.used then None
    else Reserve(w, q, a.newcomer, true)
  }

  /** How `dispatchTask` goes: not created at all, or created, with a delivery that may fail afterwards. */
  datatype Task = NotCreated | Created(delivered: bool)

  /** The second half, for a request that is admitted. */
  function Send(w: World, id: RequestId, task: Task): World {
    if id !in w.table || w.table[id].worker !in w.members then w
    else if task.NotCreated? then Fail(w, id)
    else
      var made := Dispatch(w, id, w.table[id].worker);
      if made.None? then Fail(w, id) else if task.delivered then made.value else Fail(made.value, id)
  }

  datatype Action =
    | AdmitStep(q: Request, a: Admission)
    | SendStep(id: RequestId, task: Task)
    | AddMember(worker: WorkerId)
    | DeleteMember(worker: WorkerId)

  function After(w: World, act: Action): World {
    match act
    case AdmitStep(q, a) => var r := Admit(w, q, a); if r.Some? then r.value else w
    case SendStep(id, task) => Send(w, id, task)
    case AddMember(worker) => if worker in w.used then w else w.(members := w.members + {worker}, used := w.used + {worker})
    case DeleteMember(worker) => w.(members := w.members - {worker})
  }

  function Run(actions: seq<Action>): World {
    if actions == [] then EMPTY else After(Run(actions[..|actions| - 1]), actions[|actions| - 1])
  }

  // ---- The invariant ----

  predicate FirstsDistinct(log: seq<(RequestId, WorkerId)>) {
    forall i, j :: 0 <= i < j < |log| ==> log[i].0 != log[j].0
  }

  predicate DispatchesDistinct(log: seq<(RequestId, DispatchId, WorkerId)>) {
    forall i, j :: 0 <= i < j < |log| ==> log[i].0 != log[j].0 && log[i].1 != log[j].1
  }

  /** The logs say what the table says. */
  predicate Recorded(w: World) {
    && (forall i :: 0 <= i < |w.admitted| ==> w.admitted[i].0 in w.table && w.table[w.admitted[i].0].worker == w.admitted[i].1)
    && (forall i :: 0 <= i < |w.dispatched| ==>
          && w.dispatched[i].0 in w.table && w.table[w.dispatched[i].0].dispatch == Some(w.dispatched[i].1)
          && w.table[w.dispatched[i].0].worker == w.dispatched[i].2 && w.dispatched[i].1 < w.nextDispatch)
  }

  /** Two records of one workspace that both wait for their dispatch. */
  predicate Rivals(a: Ownership, b: Ownership) {
    a.dispatch.None? && b.dispatch.None? && a.request.workspace == b.request.workspace
  }

  predicate OwnersDistinct(w: World) {
    forall a, b :: a in w.table && b in w.table && a != b && Rivals(w.table[a], w.table[b]) ==> w.table[a].worker != w.table[b].worker
  }

  predicate Ok(w: World) {
    && (forall id :: id in w.table ==> w.table[id].request.id == id)
    && FirstsDistinct(w.admitted) && DispatchesDistinct(w.dispatched) && Recorded(w) && OwnersDistinct(w)
  }

  lemma ReserveKeeps(w: World, q: Request, worker: WorkerId, created: bool)
    requires Ok(w) && Reserve(w, q, worker, created).Some?
    ensures Ok(Reserve(w, q, worker, created).value)
  {
    var v := Reserve(w, q, worker, created).value;
    assert forall id :: id in w.table ==> id != q.id && v.table[id] == w.table[id];
  }

  lemma DispatchKeeps(w: World, id: RequestId, worker: WorkerId)
    requires Ok(w) && Dispatch(w, id, worker).Some?
    ensures Ok(Dispatch(w, id, worker).value)
  {
  }

  lemma FailKeeps(w: World, id: RequestId)
    requires Ok(w)
    ensures Ok(Fail(w, id))
  {
  }

  lemma AfterKeeps(w: World, act: Action)
    requires Ok(w)
    ensures Ok(After(w, act))
  {
    match act
    case AdmitStep(q, a) =>
      if Admit(w, q, a).Some? && q.id !in w.table {
        if a.selected.Some? { ReserveKeeps(w, q, a.selected.value, false); } else { ReserveKeeps(w, q, a.newcomer, true); }
      }
    case SendStep(id, task) =>
      FailKeeps(w, id);
      if id in w.table {
        var made := Dispatch(w, id, w.table[id].worker);
        if made.Some? {
          DispatchKeeps(w, id, w.table[id].worker);
          FailKeeps(made.value, id);
        }
      }
    case AddMember(_) =>
    case DeleteMember(_) =>
  }

  lemma {:induction false} RunKeeps(actions: seq<Action>)
    ensures Ok(Run(actions))
  {
    if actions != [] {
      RunKeeps(actions[..|actions| - 1]);
      AfterKeeps(Run(actions[..|actions| - 1]), actions[|actions| - 1]);
    }
  }

  // ---- Whole-run theorems ----

  /** Over all handoffs and retries, interleaved in any way, a request id takes at most one member and makes at
      most one dispatch, which is the one its record names, for the member its record names. */
  lemma {:induction false} OneMemberOneDispatch(actions: seq<Action>)
    ensures var w := Run(actions);
      && FirstsDistinct(w.admitted) && DispatchesDistinct(w.dispatched) && Recorded(w)
  {
    RunKeeps(actions);
  }

  /** Two requests that still wait for their dispatch never own the same member. */
  lemma {:induction false} PendingOwnersDiffer(actions: seq<Action>)
    ensures OwnersDistinct(Run(actions))
  {
    RunKeeps(actions);
  }

  /** The owner of a request never changes, its dispatch is never replaced, and its record never goes away. */
  lemma OwnershipIsFinal(w: World, act: Action, id: RequestId)
    requires Ok(w) && id in w.table
    ensures var v := After(w, act);
      && id in v.table && v.table[id].request == w.table[id].request && v.table[id].worker == w.table[id].worker
      && (w.table[id].dispatch.Some? ==> v.table[id].dispatch == w.table[id].dispatch)
  {
  }

  /** A retry with another text, author, workspace or skill is refused and changes nothing; one with the same
      after a dispatch exists changes nothing either. */
  lemma RetriesAreIdempotent(w: World, q: Request, a: Admission)
    requires q.id in w.table
    ensures w.table[q.id].request != q ==> Admit(w, q, a).None?
    ensures w.table[q.id].dispatch.Some? && Admit(w, q, a).Some? ==> Admit(w, q, a).value == w
  {
  }

  /** When a handoff gets past its admission, and with what: a request that has its dispatch always does, one without needs
      its skill, and a new one also a member that is free. A record that is there is never changed by it. */
  lemma AdmittedIff(w: World, q: Request, a: Admission)
    ensures Admit(w, q, a).Some? <==>
      && !a.closing
      && (if q.id in w.table then w.table[q.id].request == q && (w.table[q.id].dispatch.Some? || a.skillOk)
          else
            && a.skillOk && (a.selected.None? ==> a.memberOk && a.newcomer !in w.used)
            && !Reserved(w, q.workspace, if a.selected.Some? then a.selected.value else a.newcomer))
    ensures Admit(w, q, a).Some? && q.id in w.table ==> Admit(w, q, a).value == w
    ensures Admit(w, q, a).Some? && q.id !in w.table ==>
      var v, worker := Admit(w, q, a).value, if a.selected.Some? then a.selected.value else a.newcomer;
      && v.table == w.table[q.id := Ownership(q, worker, a.selected.None?, None, false)]
      && v.members == (if a.selected.None? then w.members + {worker} else w.members)
  {
    hide Reserved;
  }

  /** What becomes of an admitted request: without its member nothing; with it, it gets its dispatch exactly if that was
      created and it had none, and it is marked as failed exactly if anything went wrong. */
  lemma SentIs(w: World, id: RequestId, task: Task)
    requires id in w.table
    ensures var o, v := w.table[id], Send(w, id, task);
      if o.worker !in w.members then v == w
      else
        && id in v.table
        && v.table[id] == o.(dispatch := if o.dispatch.Some? then o.dispatch else if task.Created? then Some(w.nextDispatch) else None,
                             failed := !(o.dispatch.None? && task == Created(true)))
  {}

  /** So a request is never stuck: as long as its member is there, a retry with the same content completes it once its
      dependencies work. */
  lemma RetryCompletes(w: World, q: Request, a: Admission)
    requires q.id in w.table && w.table[q.id].request == q && w.table[q.id].dispatch.None? && w.table[q.id].worker in w.members
    requires !a.closing && a.skillOk
    ensures var v := After(After(w, AdmitStep(q, a)), SendStep(q.id, Created(true)));
      q.id in v.table && v.table[q.id] == w.table[q.id].(dispatch := Some(w.nextDispatch), failed := false)
  {}

  /** An id joins once; members leave only by being deleted. */
  lemma MembersAre(w: World, act: Action, x: WorkerId)
    requires act.AddMember? || act.DeleteMember?
    ensures var v := After(w, act);
      && (x in v.members <==> (x in w.members && act != DeleteMember(x)) || (act == AddMember(x) && x !in w.used))
      && (x in v.used <==> x in w.used || act == AddMember(x)) && v.table == w.table
  {}

  // ---- The code ----

  /** A member as the selection sees it. */
  datatype Member = Member(id: WorkerId, orchestrator: bool, retired: bool, preparing: bool, working: bool, pendingTasks: nat,
                           stopped: bool, openDispatch: bool, launchable: bool, prior: bool, skilled: bool)

  predicate Suitable(w: World, workspace: nat, m: Member) {
    && !m.orchestrator && !m.retired && !m.preparing && !m.working && m.pendingTasks == 0 && !m.stopped && !m.openDispatch
    && !Reserved(w, workspace, m.id) && m.launchable && (m.prior || m.skilled)
  }

  /** Who may be selected: an idle worker without any task, that can be started, knows the skill or has answered before, and
      that no other request waits for. */
  lemma SuitableIff(w: World, workspace: nat, m: Member)
    ensures Suitable(w, workspace, m) <==>
      && !m.orchestrator && !m.retired && !m.preparing && !m.working && m.pendingTasks == 0 && !m.stopped && !m.openDispatch
      && m.launchable && (m.prior || m.skilled)
      && forall id :: id in w.table ==>
           w.table[id].worker != m.id || w.table[id].request.workspace != workspace || w.table[id].dispatch.Some?
  {}

  class Requests {
    var table: map<RequestId, Ownership>
    var members: set<WorkerId>
    var used: set<WorkerId>
    ghost var admitted: seq<(RequestId, WorkerId)>
    ghost var dispatched: seq<(RequestId, DispatchId, WorkerId)>
    var nextDispatch: DispatchId

    ghost function Value(): World
      reads this
    {
      World(table, members, used, admitted, dispatched, nextDispatch)
    }

    /** `reserved`. */
    method IsReserved(workspace: nat, worker: WorkerId) returns (found: bool)
      ensures found == Reserved(Value(), workspace, worker)
    {
      var left := table.Keys;
      while left != {}
        invariant left <= table.Keys
        invariant forall id :: id in table && id !in left ==>
          !(table[id].request.workspace == workspace && table[id].worker == worker && table[id].dispatch.None?)
        decreases |left|
      {
        var id :| id in left;
        if table[id].request.workspace == workspace && table[id].worker == worker && table[id].dispatch.None? { return true; }
        left := left - {id};
      }
      return false;
    }

    /** The selection loop: the first suitable member. */
    method SelectMember(workspace: nat, agents: seq<Member>) returns (worker: Option<WorkerId>)
      ensures worker.None? <==> forall i :: 0 <= i < |agents| ==> !Suitable(Value(), workspace, agents[i])
      ensures worker.Some? ==>
        exists i :: 0 <= i < |agents| && agents[i].id == worker.value && Suitable(Value(), workspace, agents[i])
          && forall j :: 0 <= j < i ==> !Suitable(Value(), workspace, agents[j])
    {
      var i := 0;
      while i < |agents|
        invariant 0 <= i <= |agents|
        invariant forall j :: 0 <= j < i ==> !Suitable(Value(), workspace, agents[j])
      {
        var m := agents[i];
        i := i + 1;
        if m.orchestrator || m.retired || m.preparing || m.working || m.pendingTasks > 0 || m.stopped || m.openDispatch { continue; }
        var reserved := IsReserved(workspace, m.id);
        if reserved || !m.launchable { continue; }
        if m.prior || m.skilled {
          assert Suitable(Value(), workspace, agents[i - 1]);
          return Some(m.id);
        }
      }
      return None;
    }

    method CreateRecord(q: Request, worker: WorkerId, created: bool) returns (ok: bool)
      modifies this
      ensures ok == Reserve(old(Value()), q, worker, created).Some?
      ensures Value() == if ok then Reserve(old(Value()), q, worker, created).value else old(Value())
    {
      var reserved := IsReserved(q.workspace, worker);
      if reserved || q.id in table { return false; }
      table := table[q.id := Ownership(q, worker, created, None, false)];
      if created { members := members + {worker}; }
      used := used + {worker};
      admitted := admitted + [(q.id, worker)];
      return true;
    }

    /** `attach`, inside the transaction that creates the dispatch. */
    method CreateDispatch(id: RequestId, worker: WorkerId) returns (ok: bool)
      modifies this
      ensures ok == Dispatch(old(Value()), id, worker).Some?
      ensures Value() == if ok then Dispatch(old(Value()), id, worker).value else old(Value())
    {
      if id !in table || table[id].worker != worker || table[id].dispatch.Some? { return false; }
      table := table[id := table[id].(dispatch := Some(nextDispatch), failed := false)];
      dispatched := dispatched + [(id, nextDispatch, worker)];
      nextDispatch := nextDispatch + 1;
      return true;
    }

    /** `handoff`, run alone: the first half and, unless the request is answered already, the second. */
    method Handoff(q: Request, a: Admission, task: Task) returns (ok: bool)
      modifies this
      ensures var admitted := Admit(old(Value()), q, a);
        && ok == admitted.Some?
        && (!ok ==> Value() == old(Value()))
        && (ok && !(q.id in old(table) && old(table)[q.id].dispatch.Some?) ==> Value() == Send(admitted.value, q.id, task))
        && (q.id in old(table) && old(table)[q.id].dispatch.Some? ==> Value() == old(Value()))
    {
      if a.closing { return false; }
      if q.id in table {
        if table[q.id].request != q { return false; }
        if table[q.id].dispatch.Some? { return true; }
      }
      if !a.skillOk { return false; }
      if q.id !in table {
        if a.selected.Some? {
          ok := CreateRecord(q, a.selected.value, false);
        } else if !a.memberOk || a.newcomer in used {
          return false;
        } else {
          ok := CreateRecord(q, a.newcomer, true);
        }
        if !ok { return false; }
      }
      var worker := table[q.id].worker;
      if worker !in members { return true; }
      var made := false;
      if task.Created? { made := CreateDispatch(q.id, worker); }
      if !made || !task.delivered { table := table[q.id := table[q.id].(failed := true)]; }
      return true;
    }
  }
}
