/** The run table and its resume flag (src/server/agent-run-store.ts, src/server/agent-runtime-close.ts):
    which agents are offered for resuming after a restart of the server. */
module AgentRunStore {
  import opened Wrappers

  type RunId = nat
  type Agent = nat

  datatype Status = Starting | Running | Exited | Error

  datatype Row = Row(
    runId: RunId, agent: Agent, status: Status, exitCode: Option<int>, startedAt: int, endedAt: Option<int>,
    fastExits: nat, resume: bool
  )

  /** `rows` in rowid order. `shutdown` lives in memory only; a closed store ignores every call. */
  datatype Store = Store(rows: seq<Row>, shutdown: set<RunId>, closed: bool)

  const FAST_EXIT_WINDOW_MS := 10000

  predicate Active(status: Status) { status == Starting || status == Running }

  // ---- Queries ----

  /** `ORDER BY started_at DESC, rowid DESC LIMIT 1` over the rows of an agent. */
  function Latest(rows: seq<Row>, a: Agent): (r: Option<nat>)
    ensures r.Some? ==> r.value < |rows| && rows[r.value].agent == a
  {
    if rows == [] then None
    else
      var rest, last := rows[..|rows| - 1], rows[|rows| - 1];
      var before := Latest(rest, a);
      if last.agent == a && (before.None? || last.startedAt >= rest[before.value].startedAt) then Some(|rows| - 1) else before
  }

  /** Row `i` is in `listInterruptedRuns`, for a configured and not retired agent. */
  predicate Listed(s: Store, i: nat) {
    !s.closed && i < |s.rows| && (Active(s.rows[i].status) || s.rows[i].resume) && Latest(s.rows, s.rows[i].agent) == Some(i)
  }

  predicate Known(rows: seq<Row>, r: RunId) {
    exists i :: 0 <= i < |rows| && rows[i].runId == r
  }

  // ---- Updates ----

  function Map(rows: seq<Row>, f: Row -> Row): (r: seq<Row>)
    ensures |r| == |rows| && forall i :: 0 <= i < |rows| ==> r[i] == f(rows[i])
  {
    seq(|rows|, i requires 0 <= i < |rows| => f(rows[i]))
  }

  /** The flag of every row of the agent is cleared. */
  function Cleared(rows: seq<Row>, a: Agent): (r: seq<Row>)
    ensures |r| == |rows| && SameKeys(rows, r)
  {
    Map(rows, (row: Row) => if row.agent == a then row.(resume := false) else row)
  }

  /** The same agents and start times, row by row: what `Latest` reads. */
  predicate SameKeys(rows: seq<Row>, other: seq<Row>) {
    |rows| == |other| && forall i :: 0 <= i < |rows| ==> rows[i].agent == other[i].agent && rows[i].startedAt == other[i].startedAt
  }

  /** `insertAgentRun`: the newest row of the agent hands its flag and its streak on, and every other row
      of the agent loses the flag. */
  function Insert(s: Store, r: RunId, a: Agent, startedAt: int, status: Status, exitCode: Option<int>): Store {
    if s.closed || Known(s.rows, r) then s
    else
      var previous := Latest(s.rows, a);
      var fast := if previous.Some? then s.rows[previous.value].fastExits else 0;
      var resume := status != Exited && previous.Some? && s.rows[previous.value].resume;
      s.(rows := Cleared(s.rows, a) + [Row(r, a, status, exitCode, startedAt, None, fast, resume)])
  }

  function Streak(row: Row, shutdown: bool, status: Status, exitCode: Option<int>, endedAt: Option<int>): nat {
    if shutdown || row.endedAt.Some? || endedAt.None? || Active(status) then row.fastExits
    else if exitCode.Some? && exitCode.value != 0 && endedAt.value - row.startedAt < FAST_EXIT_WINDOW_MS then row.fastExits + 1
    else 0
  }

  function Updated(row: Row, shutdown: bool, status: Status, exitCode: Option<int>, endedAt: Option<int>): Row {
    row.(status := status, exitCode := exitCode, endedAt := endedAt, fastExits := Streak(row, shutdown, status, exitCode, endedAt),
         resume := row.resume && (status != Exited || shutdown))
  }

  /** `updatePersistedRun`. */
  function Update(s: Store, r: RunId, status: Status, exitCode: Option<int>, endedAt: Option<int>): Store {
    if s.closed then s
    else s.(rows := Map(s.rows, (row: Row) => if row.runId == r then Updated(row, r in s.shutdown, status, exitCode, endedAt) else row))
  }

  function Checkpoint(s: Store, ids: seq<RunId>): Store {
    if s.closed then s
    else
      s.(rows := Map(s.rows, (row: Row) => if row.runId in ids && Active(row.status) then row.(resume := true) else row),
         shutdown := s.shutdown + set r | r in ids)
  }

  function MarkStale(s: Store, endedAt: int): Store {
    if s.closed then s
    else
      s.(rows := Map(s.rows, (row: Row) =>
           if Active(row.status) then row.(status := Error, exitCode := None, endedAt := Some(endedAt), resume := true) else row))
  }

  function ResetStreak(s: Store, a: Agent): Store {
    if s.closed then s else s.(rows := Map(s.rows, (row: Row) => if row.agent == a then row.(fastExits := 0) else row))
  }

  /** The rows of a deleted worker are deleted with it. */
  function Without(rows: seq<Row>, a: Agent): seq<Row> {
    if rows == [] then []
    else
      var rest := Without(rows[..|rows| - 1], a);
      if rows[|rows| - 1].agent == a then rest else rest + [rows[|rows| - 1]]
  }

  /** A backup restored to a new directory: no run is resumed there. */
  function Restored(rows: seq<Row>, at: int): (r: seq<Row>)
    ensures |r| == |rows| && SameKeys(rows, r)
  {
    Map(rows, (row: Row) => row.(status := Exited, resume := false, endedAt := if row.endedAt.Some? then row.endedAt else Some(at)))
  }

  datatype Action =
    | InsertRun(r: RunId, a: Agent, startedAt: int, status: Status, exitCode: Option<int>)
    | UpdateRun(r: RunId, status: Status, exitCode: Option<int>, endedAt: Option<int>)
    | CheckpointRuns(ids: seq<RunId>)
    | ResetFastExits(a: Agent)
    | Retire(a: Agent)
    | Delete(a: Agent)
    | Close
    | Restart(at: int)
    | Restore(at: int)

  /** A restart opens the same rows in a new process and runs the startup recovery. Retiring and deleting a worker are
      transactions of other stores, so this one need not be open. */
  function After(s: Store, act: Action): Store {
    match act
    case InsertRun(r, a, startedAt, status, exitCode) => Insert(s, r, a, startedAt, status, exitCode)
    case UpdateRun(r, status, exitCode, endedAt) => Update(s, r, status, exitCode, endedAt)
    case CheckpointRuns(ids) => Checkpoint(s, ids)
    case ResetFastExits(a) => ResetStreak(s, a)
    case Retire(a) => s.(rows := Cleared(s.rows, a))
    case Delete(a) => s.(rows := Without(s.rows, a))
    case Close => s.(closed := true)
    case Restart(at) => MarkStale(Store(s.rows, {}, false), at)
    case Restore(at) => MarkStale(Store(Restored(s.rows, at), {}, false), at)
  }

  function RunFrom(s: Store, actions: seq<Action>): Store {
    if actions == [] then s else After(RunFrom(s, actions[..|actions| - 1]), actions[|actions| - 1])
  }

  // ---- The newest row ----

  /** `Latest` is what the query says: no row of the agent starts later, or as late with a higher rowid. */
  lemma {:induction false} LatestIsNewest(rows: seq<Row>, a: Agent)
    ensures var n := Latest(rows, a);
      && (n.None? <==> forall i :: 0 <= i < |rows| ==> rows[i].agent != a)
      && (n.Some? ==> forall i :: 0 <= i < |rows| && rows[i].agent == a && i != n.value ==>
            rows[i].startedAt < rows[n.value].startedAt || (rows[i].startedAt == rows[n.value].startedAt && i < n.value))
  {
    if rows != [] {
      var rest := rows[..|rows| - 1];
      LatestIsNewest(rest, a);
      forall i | 0 <= i < |rest| ensures rest[i] == rows[i] {}
    }
  }

  lemma {:induction false} LatestByKeys(rows: seq<Row>, other: seq<Row>, a: Agent)
    requires SameKeys(rows, other)
    ensures Latest(rows, a) == Latest(other, a)
  {
    if rows != [] {
      LatestByKeys(rows[..|rows| - 1], other[..|rows| - 1], a);
    }
  }

  // ---- The flag of the newest row ----

  /** The agent's newest run is marked for resuming. */
  predicate Marked(s: Store, a: Agent) {
    var n := Latest(s.rows, a);
    n.Some? && s.rows[n.value].resume
  }

  predicate Newer(s: Store, a: Agent, startedAt: int) {
    var n := Latest(s.rows, a);
    n.None? || s.rows[n.value].startedAt <= startedAt
  }

  /** What takes the mark away: the agent is retired or deleted, or a backup restored; or, in an open store, a clean exit
      of the newest run outside a shutdown, a new run recorded as exited at once, or one that starts before the newest. */
  predicate Clears(s: Store, act: Action, a: Agent) {
    || act == Retire(a) || act == Delete(a) || act.Restore?
    || (!s.closed && Latest(s.rows, a).Some? && ClearsNewest(s, act, a, s.rows[Latest(s.rows, a).value].runId))
  }

  predicate ClearsNewest(s: Store, act: Action, a: Agent, newest: RunId) {
    match act
    case InsertRun(r, b, startedAt, status, _) => b == a && !Known(s.rows, r) && (status == Exited || !Newer(s, a, startedAt))
    case UpdateRun(r, status, _, _) => r == newest && status == Exited && r !in s.shutdown
    case _ => false
  }

  lemma LatestAppended(rows: seq<Row>, last: Row, b: Agent)
    ensures Latest(rows + [last], b) ==
              var before := Latest(rows, b);
              if last.agent == b && (before.None? || last.startedAt >= rows[before.value].startedAt) then Some(|rows|) else before
  {
    assert (rows + [last])[..|rows|] == rows;
  }

  lemma InsertLatest(s: Store, r: RunId, a: Agent, startedAt: int, status: Status, exitCode: Option<int>, b: Agent)
    requires !s.closed && !Known(s.rows, r)
    ensures var v := Insert(s, r, a, startedAt, status, exitCode);
      Latest(v.rows, b) == if b == a && Newer(s, a, startedAt) then Some(|s.rows|) else Latest(s.rows, b)
  {
    hide Latest, Cleared;
    var v := Insert(s, r, a, startedAt, status, exitCode);
    LatestByKeys(s.rows, Cleared(s.rows, a), b);
    LatestAppended(Cleared(s.rows, a), v.rows[|s.rows|], b);
  }

  lemma InsertMark(s: Store, act: Action, a: Agent)
    requires Marked(s, a) && act.InsertRun?
    ensures Marked(After(s, act), a) <==> !Clears(s, act, a)
  {
    if !s.closed && !Known(s.rows, act.r) {
      InsertLatest(s, act.r, act.a, act.startedAt, act.status, act.exitCode, a);
    }
  }

  lemma {:induction false} LatestWithout(rows: seq<Row>, b: Agent, a: Agent)
    ensures var n, m := Latest(rows, a), Latest(Without(rows, b), a);
            if a == b then m.None? else n.None? == m.None? && (n.Some? ==> Without(rows, b)[m.value] == rows[n.value])
  {
    if rows != [] {
      var rest, last := rows[..|rows| - 1], rows[|rows| - 1];
      LatestWithout(rest, b, a);
      LatestAppended(Without(rest, b), last, a);
    }
  }

  /** One step takes the mark away exactly when it is one of those. */
  lemma MarkLostIff(s: Store, act: Action, a: Agent)
    requires Marked(s, a)
    ensures Marked(After(s, act), a) <==> !Clears(s, act, a)
  {
    hide Latest, Without, Insert;
    if act.InsertRun? {
      InsertMark(s, act, a);
    } else if act.Delete? {
      LatestWithout(s.rows, act.a, a);
    } else {
      LatestByKeys(s.rows, After(s, act).rows, a);
    }
  }

  predicate NeverClears(s: Store, actions: seq<Action>, a: Agent) {
    actions != [] ==>
      && NeverClears(s, actions[..|actions| - 1], a)
      && !Clears(RunFrom(s, actions[..|actions| - 1]), actions[|actions| - 1], a)
  }

  /** Once marked, the agent's newest run is its single entry in the interrupted list through any number of
      restarts and failed runs, until one of the clearing steps happens. */
  lemma {:induction false} StaysListed(s: Store, actions: seq<Action>, a: Agent)
    requires Marked(s, a) && NeverClears(s, actions, a)
    ensures var v := RunFrom(s, actions);
      && Marked(v, a)
      && (!v.closed ==> forall i :: 0 <= i < |v.rows| && v.rows[i].agent == a ==> (Listed(v, i) <==> Latest(v.rows, a) == Some(i)))
  {
    if actions != [] {
      var rest := actions[..|actions| - 1];
      StaysListed(s, rest, a);
      MarkLostIff(RunFrom(s, rest), actions[|actions| - 1], a);
    }
  }

  // ---- Who gets marked ----

  /** Startup recovery marks every agent whose newest run never ended. */
  lemma RestartMarks(s: Store, at: int, a: Agent)
    requires Latest(s.rows, a).Some? && Active(s.rows[Latest(s.rows, a).value].status)
    ensures Marked(After(s, Restart(at)), a)
  {
    LatestByKeys(s.rows, After(s, Restart(at)).rows, a);
  }

  /** The shutdown checkpoint marks every agent whose newest run is active and named, and no later exit of that
      run in this process, clean or not, takes the mark away. */
  lemma CheckpointSurvivesExit(s: Store, ids: seq<RunId>, a: Agent, status: Status, exitCode: Option<int>, endedAt: Option<int>)
    requires !s.closed && Latest(s.rows, a).Some?
    requires s.rows[Latest(s.rows, a).value].runId in ids && Active(s.rows[Latest(s.rows, a).value].status)
    ensures var run := s.rows[Latest(s.rows, a).value].runId;
      Marked(Checkpoint(s, ids), a) && Marked(Update(Checkpoint(s, ids), run, status, exitCode, endedAt), a)
  {
    var v := Checkpoint(s, ids);
    LatestByKeys(s.rows, v.rows, a);
    MarkLostIff(v, UpdateRun(s.rows[Latest(s.rows, a).value].runId, status, exitCode, endedAt), a);
  }

  /** Without the order of start times the mark can be lost although nothing exited: a run recorded with an
      earlier start takes the flag over but is not the newest row. */
  lemma ClockStepLosesMark()
    ensures exists s: Store, act: Action ::
      Marked(s, 1) && act.InsertRun? && act.status == Starting && !Marked(After(s, act), 1) && !Listed(After(s, act), 0)
  {
    var row := Row(7, 1, Error, None, 100, Some(101), 0, true);
    var s := Store([row], {}, false);
    var act := InsertRun(8, 1, 99, Starting, None);
    assert Latest(s.rows, 1) == Some(0) by { assert s.rows[..0] == []; }
    assert Clears(s, act, 1);
    MarkLostIff(s, act, 1);
    InsertLatest(s, 8, 1, 99, Starting, None, 1);
    assert After(s, act).rows[0] == row.(resume := false);
  }

  /** From the shutdown to the next start that succeeds: whatever fails in between, the agent stays listed. */
  lemma {:induction false} ShutdownThenListed(s: Store, ids: seq<RunId>, actions: seq<Action>, a: Agent)
    requires !s.closed && Latest(s.rows, a).Some?
    requires s.rows[Latest(s.rows, a).value].runId in ids && Active(s.rows[Latest(s.rows, a).value].status)
    requires NeverClears(Checkpoint(s, ids), actions, a) && !RunFrom(Checkpoint(s, ids), actions).closed
    ensures var v := RunFrom(Checkpoint(s, ids), actions); var n := Latest(v.rows, a); n.Some? && Listed(v, n.value)
  {
    CheckpointSurvivesExit(s, ids, a, Error, None, None);
    StaysListed(Checkpoint(s, ids), actions, a);
  }

  // ---- What the updates leave of a row ----

  /** An update touches the row of its run only: it records status, code and end, never the start or the agent, and takes the
      flag away exactly with a clean exit outside a shutdown. */
  lemma UpdatedRow(s: Store, r: RunId, status: Status, exitCode: Option<int>, endedAt: Option<int>, i: nat)
    requires !s.closed && i < |s.rows|
    ensures var row, v := s.rows[i], Update(s, r, status, exitCode, endedAt);
      && |v.rows| == |s.rows| && v.shutdown == s.shutdown
      && if row.runId != r then v.rows[i] == row
         else v.rows[i] == Row(r, row.agent, status, exitCode, row.startedAt, endedAt, v.rows[i].fastExits,
                               row.resume && (status == Starting || status == Running || status == Error || r in s.shutdown))
  {
    if status != Starting && status != Running && status != Error { assert status == Exited; }
  }

  /** The checkpoint marks the active ones among the named runs, and no others. */
  lemma CheckpointedRow(s: Store, ids: seq<RunId>, i: nat)
    requires !s.closed && i < |s.rows|
    ensures var row, v := s.rows[i], Checkpoint(s, ids);
      && |v.rows| == |s.rows| && (forall r :: r in v.shutdown <==> r in s.shutdown || r in ids)
      && v.rows[i] == row.(resume := row.resume || (row.runId in ids && (row.status == Starting || row.status == Running)))
  {}

  /** Startup recovery ends the unfinished runs as marked errors, and touches no other. */
  lemma RecoveredRow(s: Store, at: int, i: nat)
    requires i < |s.rows|
    ensures var row, v := s.rows[i], After(s, Restart(at));
      && |v.rows| == |s.rows| && v.shutdown == {} && !v.closed
      && v.rows[i] == if row.status == Starting || row.status == Running
                      then row.(status := Error, exitCode := None, endedAt := Some(at), resume := true) else row
  {}

  /** A restored backup has no active run, and no marked one. */
  lemma RestoredRow(s: Store, at: int, i: nat)
    requires i < |s.rows|
    ensures var row, v := s.rows[i], After(s, Restore(at));
      && |v.rows| == |s.rows|
      && v.rows[i] == row.(status := Exited, resume := false, endedAt := Some(if row.endedAt.Some? then row.endedAt.value else at))
  {}

  /** A closed store lists nothing and takes no update. */
  lemma ClosedIsSilent(s: Store, act: Action, i: nat)
    requires s.closed
    ensures !Listed(s, i)
    ensures act.InsertRun? || act.UpdateRun? || act.CheckpointRuns? || act.ResetFastExits? || act.Close? ==> After(s, act) == s
  {}

  // ---- The streak of fast exits ----

  /** The streak of the agent: that of its newest run. */
  function StreakOf(s: Store, a: Agent): nat {
    var n := Latest(s.rows, a);
    if n.Some? then s.rows[n.value].fastExits else 0
  }

  /** An exit counts as fast: it failed, and within ten seconds of the start. */
  predicate Fast(startedAt: int, exitCode: Option<int>, endedAt: int) {
    exitCode.Some? && exitCode.value != 0 && endedAt - startedAt < 10000
  }

  /** A run that starts behind the others and ends outside a shutdown: a fast exit continues the streak of its agent, any
      other end breaks it. */
  lemma StreakContinues(s: Store, r: RunId, a: Agent, startedAt: int, first: Status, status: Status, exitCode: Option<int>, endedAt: int)
    requires !s.closed && !Known(s.rows, r) && Newer(s, a, startedAt) && r !in s.shutdown && (status == Exited || status == Error)
    ensures var v := Update(Insert(s, r, a, startedAt, first, None), r, status, exitCode, Some(endedAt));
      StreakOf(v, a) == if Fast(startedAt, exitCode, endedAt) then StreakOf(s, a) + 1 else 0
  {
    hide Latest, Cleared, Known;
    var started := Insert(s, r, a, startedAt, first, None);
    InsertLatest(s, r, a, startedAt, first, None, a);
    LatestByKeys(started.rows, Update(started, r, status, exitCode, Some(endedAt)).rows, a);
  }

  /** Nothing else touches a streak, but for a reset: neither the end of a run of another agent, nor a second report of the
      same end, nor a run that is still active, nor an end that the shutdown brings about. */
  lemma StreakStays(s: Store, act: Action, a: Agent)
    requires act.UpdateRun? || act.CheckpointRuns? || act.Restart? || act.Close?
    requires act.UpdateRun? ==>
      forall i :: 0 <= i < |s.rows| && s.rows[i].runId == act.r && s.rows[i].agent == a ==>
        s.rows[i].endedAt.Some? || act.endedAt.None? || act.status == Starting || act.status == Running || act.r in s.shutdown
    ensures StreakOf(After(s, act), a) == StreakOf(s, a)
  {
    LatestByKeys(s.rows, After(s, act).rows, a);
    hide Latest;
  }

  lemma StreakResets(s: Store, a: Agent)
    requires !s.closed
    ensures StreakOf(ResetStreak(s, a), a) == 0
  {
    LatestByKeys(s.rows, ResetStreak(s, a).rows, a);
    hide Latest;
  }

  // ---- Closing the runtime ----

  /** How one live run answers `syncRun` (it may find and save a new state first), and what stopping it does:
      the exit callback may run inside the stop. */
  datatype Answer = SyncThrows | SyncSame(status: Status) | SyncChanges(status: Status, exitCode: Option<int>, endedAt: Option<int>)
  datatype StopResult = StopThrows | StopLater | ExitsAtOnce(exitCode: Option<int>, at: int)

  datatype LiveRun = LiveRun(id: RunId, answer: Answer, stop: StopResult)

  datatype Event = Checkpointed(ids: seq<RunId>) | Stopped(id: RunId)

  function Synced(s: Store, runs: seq<LiveRun>): Store {
    if runs == [] then s
    else
      var before, last := Synced(s, runs[..|runs| - 1]), runs[|runs| - 1];
      if last.answer.SyncChanges? then Update(before, last.id, last.answer.status, last.answer.exitCode, last.answer.endedAt) else before
  }

  function ActiveIds(runs: seq<LiveRun>): seq<RunId> {
    if runs == [] then []
    else
      var last := runs[|runs| - 1];
      ActiveIds(runs[..|runs| - 1]) + (if !last.answer.SyncThrows? && Active(last.answer.status) then [last.id] else [])
  }

  function ExitStatus(exitCode: Option<int>): Status { if exitCode == Some(0) then Exited else Error }

  function AfterStops(s: Store, runs: seq<LiveRun>): Store {
    if runs == [] then s
    else
      var before, last := AfterStops(s, runs[..|runs| - 1]), runs[|runs| - 1];
      if last.stop.ExitsAtOnce? then Update(before, last.id, ExitStatus(last.stop.exitCode), last.stop.exitCode, Some(last.stop.at)) else before
  }

  function StopEvents(runs: seq<LiveRun>): (events: seq<Event>)
    ensures |events| == |runs| && forall i :: 0 <= i < |runs| ==> events[i] == Stopped(runs[i].id)
  {
    seq(|runs|, i requires 0 <= i < |runs| => Stopped(runs[i].id))
  }

  function Closed(s: Store, runs: seq<LiveRun>): Store {
    AfterStops(Checkpoint(Synced(s, runs), ActiveIds(runs)), runs)
  }

  /** Stops keep the flag of every row whose run is in the shutdown set. */
  lemma {:induction false} StopsKeepFlags(s: Store, runs: seq<LiveRun>, i: nat)
    requires i < |s.rows| && s.rows[i].resume && s.rows[i].runId in s.shutdown
    ensures var v := AfterStops(s, runs);
      i < |v.rows| && v.rows[i].resume && v.rows[i].runId == s.rows[i].runId && v.shutdown == s.shutdown && v.closed == s.closed
  {
    if runs != [] { StopsKeepFlags(s, runs[..|runs| - 1], i); }
  }

  /** Every run that is active when the runtime closes is still marked after all stops, even when its exit,
      clean or not, is recorded while it is being stopped. */
  lemma {:induction false} ActiveRunsSurviveShutdown(s: Store, runs: seq<LiveRun>, i: nat)
    requires !Synced(s, runs).closed && i < |Synced(s, runs).rows|
    requires Synced(s, runs).rows[i].runId in ActiveIds(runs) && Active(Synced(s, runs).rows[i].status)
    ensures i < |Closed(s, runs).rows| && Closed(s, runs).rows[i].resume
  {
    StopsKeepFlags(Checkpoint(Synced(s, runs), ActiveIds(runs)), runs, i);
  }

  /** The runs that are checkpointed: those whose state could be synced and is active. */
  lemma {:induction false} ActiveIdsAre(runs: seq<LiveRun>, id: RunId)
    ensures id in ActiveIds(runs) <==>
      exists k :: 0 <= k < |runs| && runs[k].id == id && !runs[k].answer.SyncThrows?
                  && (runs[k].answer.status == Starting || runs[k].answer.status == Running)
  {
    if runs != [] {
      var front := runs[..|runs| - 1];
      ActiveIdsAre(front, id);
      assert forall k :: 0 <= k < |front| ==> front[k] == runs[k];
    }
  }

  predicate StopsOnce(runs: seq<LiveRun>) { forall j, k :: 0 <= j < k < |runs| ==> runs[j].id != runs[k].id }

  /** A run whose exit is reported while it is being stopped ends with its code, as exited or as an error; a row whose run
      does not exit stays as it is. */
  lemma {:induction false} StoppedRow(s: Store, runs: seq<LiveRun>, i: nat, k: nat)
    requires !s.closed && i < |s.rows| && k < |runs| && runs[k].id == s.rows[i].runId && StopsOnce(runs)
    ensures var v := AfterStops(s, runs);
      && |v.rows| == |s.rows| && !v.closed && v.rows[i].runId == s.rows[i].runId
      && if runs[k].stop.ExitsAtOnce?
         then v.rows[i].status == (if runs[k].stop.exitCode == Some(0) then Exited else Error) && v.rows[i].exitCode == runs[k].stop.exitCode
              && v.rows[i].endedAt == Some(runs[k].stop.at)
         else v.rows[i] == s.rows[i]
  {
    var front := runs[..|runs| - 1];
    if k < |front| {
      assert StopsOnce(front) by { assert forall j :: 0 <= j < |front| ==> front[j] == runs[j]; }
      StoppedRow(s, front, i, k);
    } else {
      UnstoppedRow(s, front, i);
    }
  }

  lemma {:induction false} UnstoppedRow(s: Store, runs: seq<LiveRun>, i: nat)
    requires !s.closed && i < |s.rows| && forall k :: 0 <= k < |runs| ==> runs[k].id != s.rows[i].runId
    ensures var v := AfterStops(s, runs); |v.rows| == |s.rows| && !v.closed && v.rows[i] == s.rows[i]
  {
    if runs != [] { UnstoppedRow(s, runs[..|runs| - 1], i); }
  }

  // ---- The code ----

  class RunTable {
    var rows: seq<Row>
    var shutdownRuns: set<RunId>
    var closed: bool

    ghost function Value(): Store
      reads this
    {
      Store(rows, shutdownRuns, closed)
    }

    method InsertAgentRun(r: RunId, a: Agent, startedAt: int, status: Status, exitCode: Option<int>)
      modifies this
      ensures Value() == Insert(old(Value()), r, a, startedAt, status, exitCode)
    {
      hide Latest, Cleared;
      if closed || Known(rows, r) { return; }
      var previous := Latest(rows, a);
      var fast, resume := 0, false;
      if previous.Some? {
        fast := rows[previous.value].fastExits;
        resume := rows[previous.value].resume;
      }
      rows := rows + [Row(r, a, status, exitCode, startedAt, None, fast, if status == Exited then false else resume)];
      ClearOthers(a, r, |rows| - 1);
    }

    /** `UPDATE agent_runs SET resume_on_restart = 0 WHERE agent_id = ? AND run_id != ?`. */
    method ClearOthers(a: Agent, r: RunId, n: nat)
      requires |rows| == n + 1 && rows[n].runId == r && !Known(rows[..n], r)
      modifies this`rows
      ensures rows == Cleared(old(rows)[..n], a) + [old(rows)[n]]
    {
      ghost var before := rows[..n];
      forall i | 0 <= i < n ensures rows[i].runId != r {
        assert before[i] == rows[i];
      }
      rows := Map(rows, (row: Row) => if row.agent == a && row.runId != r then row.(resume := false) else row);
    }

    method UpdatePersistedRun(r: RunId, status: Status, exitCode: Option<int>, endedAt: Option<int>)
      modifies this
      ensures Value() == Update(old(Value()), r, status, exitCode, endedAt)
    {
      if closed { return; }
      var shutdown := r in shutdownRuns;
      rows := Map(rows, (row: Row) => if row.runId == r then Updated(row, shutdown, status, exitCode, endedAt) else row);
      assert rows == Update(old(Value()), r, status, exitCode, endedAt).rows;
    }

    method CheckpointShutdownRuns(ids: seq<RunId>)
      modifies this
      ensures Value() == Checkpoint(old(Value()), ids)
    {
      if closed { return; }
      ghost var before := rows;
      var i := 0;
      while i < |ids|
        invariant 0 <= i <= |ids| && |rows| == |before| && shutdownRuns == old(shutdownRuns) && closed == old(closed)
        invariant forall k :: 0 <= k < |rows| ==>
          rows[k] == if before[k].runId in ids[..i] && Active(before[k].status) then before[k].(resume := true) else before[k]
      {
        var id := ids[i];
        rows := Map(rows, (row: Row) => if row.runId == id && Active(row.status) then row.(resume := true) else row);
        assert ids[..i + 1] == ids[..i] + [id];
        i := i + 1;
      }
      assert ids[..i] == ids;
      shutdownRuns := shutdownRuns + set r | r in ids;
      assert rows == Checkpoint(old(Value()), ids).rows;
    }

    method MarkUnfinishedRunsStale(endedAt: int)
      modifies this
      ensures Value() == MarkStale(old(Value()), endedAt)
    {
      if closed { return; }
      rows := Map(rows, (row: Row) =>
        if Active(row.status) then row.(status := Error, exitCode := None, endedAt := Some(endedAt), resume := true) else row);
      assert rows == MarkStale(old(Value()), endedAt).rows;
    }

    /** `closeAgentRuntime`: the checkpoint is the first of its events, so it precedes every stop. */
    method CloseAgentRuntime(runs: seq<LiveRun>) returns (events: seq<Event>)
      modifies this
      ensures Value() == Closed(old(Value()), runs)
      ensures events == [Checkpointed(ActiveIds(runs))] + StopEvents(runs)
    {
      var activeRunIds := SyncRuns(runs);
      CheckpointShutdownRuns(activeRunIds);
      events := [Checkpointed(activeRunIds)];
      var stops := StopRuns(runs);
      events := events + stops;
    }

    method SyncRuns(runs: seq<LiveRun>) returns (activeRunIds: seq<RunId>)
      modifies this
      ensures Value() == Synced(old(Value()), runs) && activeRunIds == ActiveIds(runs)
    {
      activeRunIds := [];
      var i := 0;
      while i < |runs|
        invariant 0 <= i <= |runs| && activeRunIds == ActiveIds(runs[..i]) && Value() == Synced(old(Value()), runs[..i])
      {
        assert runs[..i + 1][..i] == runs[..i];
        var run := runs[i];
        if !run.answer.SyncThrows? {
          if run.answer.SyncChanges? { UpdatePersistedRun(run.id, run.answer.status, run.answer.exitCode, run.answer.endedAt); }
          if Active(run.answer.status) { activeRunIds := activeRunIds + [run.id]; }
        }
        i := i + 1;
      }
      assert runs[..i] == runs;
    }

    method StopRuns(runs: seq<LiveRun>) returns (events: seq<Event>)
      modifies this
      ensures Value() == AfterStops(old(Value()), runs) && events == StopEvents(runs)
    {
      events := [];
      var i := 0;
      while i < |runs|
        invariant 0 <= i <= |runs| && Value() == AfterStops(old(Value()), runs[..i]) && events == StopEvents(runs[..i])
      {
        assert runs[..i + 1][..i] == runs[..i];
        var run := runs[i];
        events := events + [Stopped(run.id)];
        if run.stop.ExitsAtOnce? { UpdatePersistedRun(run.id, ExitStatus(run.stop.exitCode), run.stop.exitCode, Some(run.stop.at)); }
        i := i + 1;
      }
      assert runs[..i] == runs;
    }
  }
}
