/** Starting agent runs while their processes may exit at any moment (src/server/agent-run-starter.ts,
    agent-run-exit-handler.ts, live-run-registry.ts, agent-tokens.ts).

    Any number of starts and exits interleave. A token is named after the run it was issued for: tokens
    are random and never issued twice. Only the launch path without a native session is modelled. */
module RunLifecycle {
  import opened Wrappers

  type RunId = nat
  type Agent = nat
  /** An exit code, or `None` where the process reported none. */
  type Code = Option<int>

  /** Where the start of a run is; `error` is the status its launch returned with. */
  datatype Phase = Starting | Launched(error: bool) | Recorded(error: bool) | Registered(error: bool) | Returned | Aborting | Failed

  datatype Status = Active | Exited | Error
  datatype Row = Row(status: Status, exitCode: Code, ended: bool)

  /** Everything kept for one run: `exit` is the process's exit once its one callback was delivered;
      `live`, `pending` and `entry` are its slots in the registry (`entry` says whether it is resolved);
      `deferred` is its queued microtask; `notices` counts its agent-exit notifications. `early`: the exit came before
      the run was registered. `broken`: the table could not be updated when the run was to be completed. */
  datatype Record = Record(
    agent: Agent, phase: Phase, exit: Option<Code>, live: Option<Status>, pending: Option<Code>, entry: Option<bool>,
    handled: bool, aborted: bool, deferred: Option<Code>, row: Option<Row>, notices: nat, early: bool, broken: bool
  )

  /** `latest` is the last start of each agent. */
  datatype World = World(runs: map<RunId, Record>, latest: map<Agent, RunId>, tokens: map<Agent, RunId>)

  function Revoke(tokens: map<Agent, RunId>, agent: Agent, token: RunId): map<Agent, RunId> {
    if agent in tokens && tokens[agent] == token then tokens - {agent} else tokens
  }

  // ---- Steps of one run ----

  function Final(code: Code): Status { if code == Some(0) then Exited else Error }

  function Fresh(agent: Agent): Record {
    Record(agent, Starting, None, None, None, None, false, false, None, None, 0, false, false)
  }

  /** What a step does to its run, and whether it revokes the run's token. */
  datatype Change = Change(run: Record, revokes: bool, completed: bool)

  /** `handleAgentRunExit`; it throws when the table update does, before anything but the live run has changed. */
  function HandleExit(r: Record, code: Code, stored: bool): (c: Change)
    ensures c.run.aborted == r.aborted && c.run.agent == r.agent
  {
    if r.live.None? then Change(r.(pending := Some(code)), true, false)
    else if r.handled then Change(r.(pending := None), false, false)
    else if !stored then Change(r.(live := Some(Final(code)), pending := Some(code), broken := true), false, false)
    else
      Change(r.(live := Some(Final(code)), row := Some(Row(Final(code), code, true)), handled := true, notices := r.notices + 1,
                entry := if r.entry.Some? then Some(true) else None, pending := None, broken := false), true, true)
  }

  /** The callback of the process: a run whose start was aborted keeps no pending code. */
  function OnExit(r: Record, code: Code, stored: bool): Change {
    var change := HandleExit(r.(exit := Some(code), early := r.live.None?), code, stored);
    if !change.completed && r.aborted then change.(run := change.run.(pending := None)) else change
  }

  predicate LaunchFailed(r: Record) { r.exit.Some? && r.exit.value != Some(0) }

  function ExitCode(r: Record): Code { if r.exit.Some? then r.exit.value else None }

  /** `stored`: whether the table update of the step succeeds; for `ErrorReturn` also whether the failure calls in front
      of it do. `rolledBack`: whether the recovery message is rolled back behind the notification. */
  datatype Action =
    | Start(r: RunId, agent: Agent)
    | LaunchThrows(r: RunId)
    | LaunchReturns(r: RunId)
    | Insert(r: RunId)
    | InsertThrows(r: RunId, inserted: bool)
    | AbortEnds(r: RunId, stored: bool)
    | Register(r: RunId)
    | ErrorReturn(r: RunId, stored: bool, rolledBack: bool)
    | CheckPending(r: RunId)
    | RunDeferred(r: RunId, stored: bool)
    | ProcessExits(r: RunId, code: Code, stored: bool)

  function Kept(r: Record): Change { Change(r, false, false) }

  function Step(r: Record, a: Action): Change {
    match a
    case Start(_, _) => Kept(r)
    case LaunchThrows(_) => if r.phase == Starting then Change(r.(phase := Failed), true, false) else Kept(r)
    case LaunchReturns(_) => if r.phase == Starting then Kept(r.(phase := Launched(LaunchFailed(r)))) else Kept(r)
    case Insert(_) =>
      if !r.phase.Launched? then Kept(r)
      else if r.phase.error then Kept(r.(phase := Recorded(true), row := Some(Row(Error, ExitCode(r), false))))
      else Kept(r.(phase := Recorded(false), row := Some(Row(Active, None, false))))
    case InsertThrows(_, inserted) =>
      if !r.phase.Launched? then Kept(r)
      else Change(r.(phase := Aborting, aborted := true, pending := None, row := if inserted then Some(Row(Active, None, false)) else None), true, false)
    case AbortEnds(_, stored) =>
      if r.phase != Aborting then Kept(r)
      else if !stored then Kept(r.(phase := Failed, broken := true))
      else Kept(r.(phase := Failed, row := if r.row.Some? then Some(Row(Error, None, true)) else None, notices := r.notices + 1))
    case Register(_) =>
      if !r.phase.Recorded? then Kept(r)
      else Kept(r.(phase := Registered(r.phase.error), entry := Some(false), live := Some(if r.phase.error then Error else Active)))
    case ErrorReturn(_, stored, rolledBack) =>
      if r.phase != Registered(true) then Kept(r)
      else if !stored then Kept(r.(phase := Failed, broken := true))
      else
        Change(r.(phase := if rolledBack then Returned else Failed, row := Some(Row(Error, ExitCode(r), true)), notices := r.notices + 1,
                  entry := Some(true), pending := None), true, false)
    case CheckPending(_) => if r.phase != Registered(false) then Kept(r) else Kept(r.(phase := Returned, deferred := r.pending))
    case RunDeferred(_, stored) => if r.deferred.None? then Kept(r) else HandleExit(r.(deferred := None), r.deferred.value, stored)
    case ProcessExits(_, code, stored) => if r.exit.Some? then Kept(r) else OnExit(r, code, stored)
  }

  // ---- All runs ----

  function After(w: World, a: Action): World {
    if a.Start? then
      if a.r in w.runs then w
      else World(w.runs[a.r := Fresh(a.agent)], w.latest[a.agent := a.r], w.tokens[a.agent := a.r])
    else if a.r !in w.runs then w
    else
      var change := Step(w.runs[a.r], a);
      w.(runs := w.runs[a.r := change.run], tokens := if change.revokes then Revoke(w.tokens, w.runs[a.r].agent, a.r) else w.tokens)
  }

  function Run(actions: seq<Action>): World {
    if actions == [] then World(map[], map[], map[]) else After(Run(actions[..|actions| - 1]), actions[|actions| - 1])
  }

  // ---- The invariant of one run ----

  /** The exit was completed: one notification, entry resolved, pending code cleared, row ended. */
  predicate Completed(r: Record) {
    && r.exit.Some? && r.notices == 1 && r.entry == Some(true) && r.pending.None? && r.deferred.None? && !r.broken
    && r.row == Some(Row(if r.exit.value == Some(0) then Exited else Error, r.exit.value, true))
    && r.live == Some(if r.exit.value == Some(0) then Exited else Error)
  }

  /** The process runs: nothing notified, nothing resolved, nothing pending. */
  predicate Alive(r: Record) {
    && r.exit.None? && r.notices == 0 && r.entry == Some(false) && r.pending.None? && r.deferred.None? && !r.handled && !r.broken
    && r.live == Some(Active) && r.row == Some(Row(Active, None, false))
  }

  /** The exit was seen before the start looked for it, and its completion is queued. */
  predicate Waiting(r: Record) {
    r.exit.Some? && r.notices == 0 && r.entry == Some(false) && !r.handled && r.pending == r.exit && r.deferred == r.exit
    && (r.early || r.broken) && r.row == Some(Row(Active, None, false))
  }

  /** The update threw: nobody was notified, the entry is unresolved, the code stays pending, and nothing is queued. */
  predicate Stuck(r: Record) {
    && r.exit.Some? && r.notices == 0 && r.entry == Some(false) && !r.handled && r.pending == r.exit && r.deferred.None? && r.broken
    && r.live == Some(if r.exit.value == Some(0) then Exited else Error) && r.row.Some? && !r.row.value.ended
  }

  /** Nothing has been completed; an exit that was delivered is kept as the pending code. */
  predicate Untouched(r: Record) {
    !r.handled && !r.aborted && r.notices == 0 && r.deferred.None? && r.pending == r.exit && !r.broken && (r.exit.Some? ==> r.early)
  }

  predicate Ended(r: Record, notices: nat) {
    r.live.None? && !r.handled && r.deferred.None? && r.notices == notices
  }

  predicate InPhase(r: Record) {
    match r.phase
    case Starting => Untouched(r) && r.live.None? && r.entry.None?
    case Launched(e) => Untouched(r) && r.live.None? && r.entry.None? && (e ==> LaunchFailed(r))
    case Recorded(e) =>
      && Untouched(r) && r.live.None? && r.entry.None? && (e ==> LaunchFailed(r))
      && r.row == Some(if e then Row(Error, ExitCode(r), false) else Row(Active, None, false))
    case Registered(e) =>
      && r.live.Some? && !r.aborted
      && (if e then Untouched(r) && LaunchFailed(r) && r.entry == Some(false) && r.live == Some(Error) && r.row == Some(Row(Error, ExitCode(r), false))
          else
            || (Untouched(r) && r.entry == Some(false) && r.live == Some(Active) && r.row == Some(Row(Active, None, false)))
            || (Completed(r) && r.handled) || (Stuck(r) && r.row == Some(Row(Active, None, false))))
    case Returned => r.live.Some? && !r.aborted && (Completed(r) || Alive(r) || Waiting(r) || (Stuck(r) && r.row == Some(Row(Active, None, false))))
    case Aborting => r.aborted && Ended(r, 0) && r.pending.None? && !r.broken && (r.row.None? || r.row == Some(Row(Active, None, false)))
    case Failed =>
      if r.aborted then
        && Ended(r, if r.broken then 0 else 1) && r.pending.None?
        && (r.row.None? || r.row == Some(if r.broken then Row(Active, None, false) else Row(Error, None, true)))
      else if r.live.Some? then if r.broken then Stuck(r) else Completed(r)
      else Ended(r, 0) && r.pending == r.exit && !r.broken
  }

  /** The run has no right to its token any more. */
  predicate Over(r: Record) {
    r.phase == Failed || r.phase == Aborting || (r.exit.Some? && (r.early || !r.broken))
  }

  /** One step, from any state of a run: its invariant is kept, and its token is revoked with the step that
      ends the run's right to it; later revocations come only when that right has ended already. */
  lemma StepKeeps(r: Record, a: Action)
    requires InPhase(r)
    ensures var c := Step(r, a);
      InPhase(c.run) && c.run.agent == r.agent && (c.revokes ==> Over(c.run)) && (Over(r) ==> Over(c.run)) && (Over(c.run) && !Over(r) ==> c.revokes)
  {
    if a.RunDeferred? && r.deferred.Some? {
      DeferredKeeps(r, a.stored);
    } else if a.ProcessExits? && r.exit.None? {
      ExitKeeps(r, a.code, a.stored);
    } else {
      hide HandleExit, OnExit;
    }
  }

  lemma DeferredKeeps(r: Record, stored: bool)
    requires InPhase(r) && r.deferred.Some?
    ensures var c := HandleExit(r.(deferred := None), r.deferred.value, stored);
      InPhase(c.run) && c.run.agent == r.agent && (c.revokes ==> Over(c.run)) && (Over(r) ==> Over(c.run)) && (Over(c.run) && !Over(r) ==> c.revokes)
  {
    assert r.phase == Returned && Waiting(r);
  }

  lemma ExitKeeps(r: Record, code: Code, stored: bool)
    requires InPhase(r) && r.exit.None?
    ensures var c := OnExit(r, code, stored);
      InPhase(c.run) && c.run.agent == r.agent && (c.revokes ==> Over(c.run)) && (Over(r) ==> Over(c.run)) && (Over(c.run) && !Over(r) ==> c.revokes)
  {
  }

  // ---- The invariant of all runs ----

  predicate TokenOk(w: World, a: Agent) {
    && (a in w.tokens ==> a in w.latest)
    && (a in w.latest ==>
          && w.latest[a] in w.runs && w.runs[w.latest[a]].agent == a
          && (a in w.tokens <==> !Over(w.runs[w.latest[a]]))
          && (a in w.tokens ==> w.tokens[a] == w.latest[a]))
  }

  ghost predicate Ok(w: World) {
    (forall r :: r in w.runs ==> InPhase(w.runs[r])) && (forall a :: TokenOk(w, a))
  }

  lemma AfterKeeps(w: World, a: Action)
    requires Ok(w)
    ensures Ok(After(w, a))
  {
    var v := After(w, a);
    if !a.Start? && a.r in w.runs { StepKeeps(w.runs[a.r], a); }
    forall agent ensures TokenOk(v, agent) {
      assert TokenOk(w, agent);
    }
  }

  lemma {:induction false} RunKeeps(actions: seq<Action>)
    ensures Ok(Run(actions))
  {
    if actions != [] {
      RunKeeps(actions[..|actions| - 1]);
      AfterKeeps(Run(actions[..|actions| - 1]), actions[|actions| - 1]);
    }
  }

  // ---- Whole-run theorems ----

  predicate Unstored(a: Action, id: RunId) {
    (a.AbortEnds? || a.ErrorReturn? || a.RunDeferred? || a.ProcessExits?) && !a.stored && a.r == id
  }

  lemma StepBreaks(r: Record, a: Action)
    ensures Step(r, a).run.broken ==> r.broken || Unstored(a, a.r)
  {}

  /** Only a table update that failed, or for a failed launch a call in front of it, breaks a run. */
  lemma {:induction false} BrokenMeansUnstored(actions: seq<Action>, id: RunId)
    requires id in Run(actions).runs && Run(actions).runs[id].broken
    ensures exists i :: 0 <= i < |actions| && Unstored(actions[i], id)
  {
    hide HandleExit, Step;
    var n := |actions| - 1;
    var before := Run(actions[..n]);
    if id in before.runs {
      StepBreaks(before.runs[id], actions[n]);
      if before.runs[id].broken {
        BrokenMeansUnstored(actions[..n], id);
        var i :| 0 <= i < n && Unstored(actions[..n][i], id);
        assert Unstored(actions[i], id);
      } else {
        assert Unstored(actions[n], id);
      }
    }
  }

  /** Whatever the interleaving: once the start of a run has returned and its microtask has run, an exit of its process
      has been completed exactly once, if and only if the table could be updated with it, and without an exit nothing
      has been completed. */
  lemma {:induction false} ExitCompletedExactlyOnce(actions: seq<Action>, id: RunId)
    requires id in Run(actions).runs && Run(actions).runs[id].phase == Returned && Run(actions).runs[id].deferred.None?
    ensures var r := Run(actions).runs[id]; if r.exit.None? then Alive(r) else if r.broken then Stuck(r) else Completed(r)
    ensures (forall i :: 0 <= i < |actions| ==> !Unstored(actions[i], id)) ==>
              var r := Run(actions).runs[id]; if r.exit.Some? then Completed(r) else Alive(r)
  {
    RunKeeps(actions);
    assert InPhase(Run(actions).runs[id]);
    if Run(actions).runs[id].broken { BrokenMeansUnstored(actions, id); }
  }

  /** No interleaving ever notifies twice, whatever becomes of the start. */
  lemma {:induction false} NeverNotifiedTwice(actions: seq<Action>, id: RunId)
    requires id in Run(actions).runs
    ensures Run(actions).runs[id].notices <= 1
  {
    RunKeeps(actions);
    assert InPhase(Run(actions).runs[id]);
  }

  /** A queued microtask completes the run when it is executed and its update succeeds. */
  lemma {:induction false} DeferredCompletes(actions: seq<Action>, id: RunId)
    requires id in Run(actions).runs && Run(actions).runs[id].deferred.Some?
    ensures var w := Run(actions + [RunDeferred(id, true)]); id in w.runs && Completed(w.runs[id])
  {
    RunKeeps(actions);
    assert InPhase(Run(actions).runs[id]);
    assert (actions + [RunDeferred(id, true)])[..|actions|] == actions;
  }

  /** An agent's valid token is always the one of its latest start, and it is valid exactly until that start fails or
      the exit of that run is seen; an exit behind the registration must be stored. No exit or failure of an older
      run, however late, revokes it. */
  lemma {:induction false} TokenLivesWithItsRun(actions: seq<Action>, agent: Agent)
    requires agent in Run(actions).latest
    ensures var w := Run(actions);
      && w.latest[agent] in w.runs
      && (agent in w.tokens <==> !Over(w.runs[w.latest[agent]]))
      && (agent in w.tokens ==> w.tokens[agent] == w.latest[agent])
  {
    RunKeeps(actions);
    assert TokenOk(Run(actions), agent);
  }

  /** A start that was aborted behind its launch notifies once if and only if its row could be closed, and leaves no
      pending code. One whose launch threw notifies nobody, and keeps a pending code exactly if its process had
      exited. One whose failed launch was registered has been completed all the same when only the rollback of its
      recovery message threw; when its row was not updated, the exit stays pending and nobody is notified. */
  lemma {:induction false} FailedStarts(actions: seq<Action>, id: RunId)
    requires id in Run(actions).runs && Run(actions).runs[id].phase == Failed
    ensures var r := Run(actions).runs[id];
      && (r.notices == 1 <==> !r.broken && (r.aborted || r.live.Some?)) && r.notices <= 1
      && (r.pending.Some? <==> !r.aborted && r.exit.Some? && (r.live.None? || r.broken))
      && (r.live.Some? ==> !r.aborted && if r.broken then Stuck(r) else Completed(r))
      && (r.broken ==> r.aborted || r.live.Some?)
      && (r.aborted && r.row.Some? ==> r.row == Some(if r.broken then Row(Active, None, false) else Row(Error, None, true)))
  {
    RunKeeps(actions);
    assert InPhase(Run(actions).runs[id]);
  }

  /** When a start returns to its caller: a launched process always, a failed launch if and only if its row was updated and
      its recovery message rolled back. */
  lemma StartReturnsIff(r: Record, a: Action)
    requires InPhase(r) && r.phase.Registered?
    ensures Step(r, a).run.phase == Returned <==>
      || (a.CheckPending? && !r.phase.error) || (a.ErrorReturn? && r.phase.error && a.stored && a.rolledBack)
    ensures Step(r, a).run.phase == Failed <==> a.ErrorReturn? && r.phase.error && !(a.stored && a.rolledBack)
  {}

  /** The end of an aborted start closes the row if there is one, and makes none. */
  lemma AbortClosesRow(r: Record, id: RunId, stored: bool)
    requires InPhase(r) && r.phase == Aborting
    ensures var v := Step(r, AbortEnds(id, stored)).run;
      && (v.row.Some? <==> r.row.Some?) && (v.row.Some? && v.row.value.ended <==> r.row.Some? && stored)
      && v.notices == if stored then 1 else 0
  {}

  // ---- Concrete runs ----

  lemma RunNext(actions: seq<Action>, a: Action)
    ensures Run(actions + [a]) == After(Run(actions), a)
  {
    assert (actions + [a])[..|actions|] == actions;
  }

  /** The process exits, then its launch throws: the pending code stays. */
  lemma PendingCodeLeftExample()
    ensures var w := Run([Start(0, 0)] + [ProcessExits(0, None, true)] + [LaunchThrows(0)]);
            0 in w.runs && w.runs[0].phase == Failed && w.runs[0].pending == Some(None)
  {
    assert [] + [Start(0, 0)] == [Start(0, 0)] && Run([]) == World(map[], map[], map[]);
    RunNext([], Start(0, 0));
    RunNext([Start(0, 0)], ProcessExits(0, None, true));
    RunNext([Start(0, 0)] + [ProcessExits(0, None, true)], LaunchThrows(0));
  }

  /** The row is inserted, a later step of the start fails, and then the row cannot be closed: nobody is notified, and
      the row stays open. */
  lemma AbortNotNotifiedExample()
    ensures var w := Run([Start(0, 0)] + [LaunchReturns(0)] + [InsertThrows(0, true)] + [AbortEnds(0, false)]);
            0 in w.runs && w.runs[0].phase == Failed && w.runs[0].notices == 0 && w.runs[0].row == Some(Row(Active, None, false))
  {
    hide HandleExit, OnExit, Revoke;
    assert [] + [Start(0, 0)] == [Start(0, 0)] && Run([]) == World(map[], map[], map[]);
    RunNext([], Start(0, 0));
    RunNext([Start(0, 0)], LaunchReturns(0));
    RunNext([Start(0, 0)] + [LaunchReturns(0)], InsertThrows(0, true));
    RunNext([Start(0, 0)] + [LaunchReturns(0)] + [InsertThrows(0, true)], AbortEnds(0, false));
  }
}
