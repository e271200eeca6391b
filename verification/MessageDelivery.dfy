/** The durable life of one message over all attempts, launches, process deaths and resends
    (src/server/message-delivery-store.ts, src/server/codex-initial-dispatch.ts and their use in
    src/server/team-delivery-runtime.ts). */
module MessageDelivery {
  import opened Wrappers
  import opened CodexComposer
  import opened CodexDeliveryTrace
  import opened CodexReportDelivery
  import opened CodexDeliverySafety
  import opened DeliveryRecheck

  const MAX_ATTEMPTS: nat := 5

  datatype Phase = Pending | Attempting | Unknown | Manual | Confirmed | Resolved

  datatype Record = Record(phase: Phase, attempt: nat, writeStarted: bool)

  /** `desk.checkpoint` is the record's checkpoint column; terminals, their counters and the journal reader kept
      between two rechecks live in memory only; `used` are the run ids handed out so far. */
  datatype World = World(record: Record, desk: Desk, used: set<RunId>, reader: Option<Kept>)

  /** How the caller classifies an error of an attempt. */
  datatype Severity = Retryable | NeedsReview | Final

  datatype LaunchFate = ClaimRefused | DiedBeforeSpawn | SpawnFailed | Spawned | DiedAfterSpawn

  datatype Action =
    | StartRun(run: RunId)
    | EndRun(run: RunId)
    | Input(run: RunId, inputs: seq<Foreign>)
    | Deliver(message: Message, run: RunId, available: bool, polls: seq<Poll>, dies: bool, acknowledged: bool, severity: Severity)
    | Launch(run: RunId, digest: nat, fate: LaunchFate)
    | Acknowledge
    | Recheck(tests: Checkpoint -> LineTest, binding: Binding, journal: nat -> Observed, manual: bool, stores: bool)
    | Restart
    | Restore
    | Supersede
    | Resolve(resend: bool)

  /** `recover` at startup. The terminals of the old process are gone. */
  function Restarted(w: World): World {
    var phase := if w.record.phase != Attempting then w.record.phase
                 else if w.record.writeStarted then Unknown else Pending;
    World(w.record.(phase := phase), w.desk.(counters := map[]), w.used, None)
  }

  function FailedPhase(r: Record, severity: Severity): Phase {
    if r.writeStarted then Unknown
    else match severity
      case NeedsReview => Manual
      case Final => Resolved
      case Retryable => if r.attempt >= MAX_ATTEMPTS then Manual else Pending
  }

  function AfterAttempt(w: World, outcome: Outcome, acknowledged: bool, severity: Severity): World {
    if acknowledged then
      var done := w.(record := w.record.(phase := Confirmed));
      if outcome.Died? then Restarted(done) else done
    else match outcome
      case Delivered => w.(record := w.record.(phase := Confirmed))
      case Died => Restarted(w)
      case _ => w.(record := w.record.(phase := FailedPhase(w.record, severity)))
  }

  function DeliverNext(w: World, message: Message, run: RunId, available: bool, polls: seq<Poll>, dies: bool,
                       acknowledged: bool, severity: Severity): World
  {
    if w.record.phase != Pending || !available || run !in w.desk.counters then w
    else
      var r := CodexReportDelivery.Deliver(message, w.desk, run, polls, dies);
      var started := w.record.writeStarted || r.desk.checkpoint.Some?;
      AfterAttempt(World(Record(Attempting, w.record.attempt + 1, started), r.desk, w.used, w.reader), r.outcome, acknowledged, severity)
  }

  function LaunchCheckpoint(run: RunId, digest: nat): Checkpoint {
    Checkpoint(run, 0, 0, false, 0, None, true, NativeInitial(digest), 0)
  }

  function LaunchNext(w: World, run: RunId, digest: nat, fate: LaunchFate): World {
    if w.record.phase != Pending || w.record.writeStarted || w.desk.checkpoint.Some? || run in w.used || fate.ClaimRefused?
    then w
    else
      var claimed := Then(w.desk.history, Opened(run));
      var record := Record(Attempting, w.record.attempt + 1, true);
      var desk := w.desk.(checkpoint := Some(LaunchCheckpoint(run, digest)), history := claimed);
      var used := w.used + {run};
      match fate
      case SpawnFailed => World(record.(phase := FailedPhase(record, Retryable)), desk, used, w.reader)
      case DiedBeforeSpawn => Restarted(World(record, desk, used, None))
      case _ =>
        var spawned := desk.(counters := desk.counters[run := 0], history := Then(Then(claimed, Launched(run)), Started(run)));
        if fate.Spawned? then World(record.(phase := Unknown), spawned, used, w.reader)
        else Restarted(World(record, spawned, used, None))
  }

  /** A backup restored to a new directory leaves everything unfinished to a person. */
  function Restored(w: World): World {
    var unfinished := w.record.phase == Pending || w.record.phase == Attempting || w.record.phase == Unknown;
    World(w.record.(phase := if unfinished then Manual else w.record.phase), w.desk.(counters := map[]), w.used, None)
  }

  /** A new revision of a report replaces one that was never written. */
  function Superseded(w: World): World {
    if (w.record.phase == Pending || w.record.phase == Attempting) && !w.record.writeStarted
    then w.(record := w.record.(phase := Resolved)) else w
  }

  function ResolveNext(w: World, resend: bool): World {
    if w.record.phase == Attempting || w.record.phase == Confirmed || w.record.phase == Resolved then w
    else if !resend then w.(record := w.record.(phase := Resolved), reader := None)
    else World(w.record.(phase := Pending, writeStarted := false),
               w.desk.(checkpoint := None, history := Then(w.desk.history, Resent)), w.used, None)
  }

  /** `recheck`, by the scheduler or by hand: an uncertain message is confirmed when its receipt stands in the journal
      behind its checkpoint. The test of a line depends on message and checkpoint; `stores`: the transaction succeeds.
      Only the scheduler throws its reader away behind an error. */
  function RecheckNext(w: World, tests: Checkpoint -> LineTest, binding: Binding, journal: nat -> Observed,
                       manual: bool, stores: bool): World
  {
    if w.record.phase == Confirmed || w.record.phase == Resolved || w.record.phase == Attempting || w.desk.checkpoint.None? then w
    else
      var thrown := if manual then w else w.(reader := None);
      if binding.BindingFails? then thrown
      else match BoundCheckpoint(w.desk.checkpoint.value, binding)
        case None => w
        case Some(bound) => if bound.wire.InvalidWire? && !KeepsReader(w, bound) then thrown else ReadAndConfirm(w, bound, tests, journal, manual, stores)
  }

  predicate KeepsReader(w: World, bound: Checkpoint) { w.reader.Some? && w.reader.value.checkpoint == bound }

  function ReadAndConfirm(w: World, bound: Checkpoint, tests: Checkpoint -> LineTest, journal: nat -> Observed,
                          manual: bool, stores: bool): World
  {
    var (kept, answer) := ReadOn(if KeepsReader(w, bound) then w.reader.value else FreshReader(bound), journal, tests(bound), 0);
    if answer == Receives && stores then
      World(w.record.(phase := Confirmed), w.desk.(checkpoint := Some(bound)), w.used, None)
    else w.(reader := if manual || (answer != Receives && answer != Throws) then Some(kept) else None)
  }

  function After(w: World, action: Action): World {
    match action
    case StartRun(run) =>
      if run in w.used then w
      else World(w.record, w.desk.(counters := w.desk.counters[run := 0], history := Then(w.desk.history, Started(run))), w.used + {run}, w.reader)
    case EndRun(run) => w.(desk := w.desk.(counters := w.desk.counters - {run}))
    case Input(run, inputs) =>
      if run in w.desk.counters then w.(desk := ForeignInput(w.desk, run, inputs)) else w
    case Deliver(message, run, available, polls, dies, acknowledged, severity) =>
      DeliverNext(w, message, run, available, polls, dies, acknowledged, severity)
    case Launch(run, digest, fate) => LaunchNext(w, run, digest, fate)
    case Acknowledge =>
      if w.record.phase == Confirmed || w.record.phase == Resolved then w else w.(record := w.record.(phase := Confirmed))
    case Recheck(tests, binding, journal, manual, stores) => RecheckNext(w, tests, binding, journal, manual, stores)
    case Restart => Restarted(w)
    case Restore => Restored(w)
    case Supersede => Superseded(w)
    case Resolve(resend) => ResolveNext(w, resend)
  }

  const START := World(Record(Pending, 0, false), Desk(None, map[], Nothing), {}, None)

  function Run(actions: seq<Action>): World {
    if actions == [] then START else After(Run(actions[..|actions| - 1]), actions[|actions| - 1])
  }

  // ---- The invariant of every reachable world ----

  /** A pending message has no checkpoint: this is why an attempt never meets an uncertain paste. */
  ghost predicate WorldOk(w: World) {
    && DeskOk(true, w.desk)
    && w.record.phase != Attempting
    && (w.record.phase == Pending ==> w.desk.checkpoint.None? && !w.record.writeStarted)
    && (w.desk.checkpoint.Some? ==> w.record.writeStarted && w.desk.checkpoint.value.run in w.used)
    && w.desk.counters.Keys <= w.used
  }

  /** The invariant while an attempt is being settled. */
  ghost predicate Settling(w: World) {
    && DeskOk(true, w.desk)
    && (w.desk.checkpoint.Some? ==> w.record.writeStarted && w.desk.checkpoint.value.run in w.used)
    && (w.record.writeStarted ==> w.desk.checkpoint.Some?)
    && w.desk.counters.Keys <= w.used
    && w.record.phase == Attempting
  }

  lemma AfterAttemptKeeps(w: World, outcome: Outcome, acknowledged: bool, severity: Severity)
    requires Settling(w)
    ensures WorldOk(AfterAttempt(w, outcome, acknowledged, severity))
  {}

  lemma {:induction false} AttemptSettles(w: World, message: Message, run: RunId, polls: seq<Poll>, dies: bool)
    requires WorldOk(w) && w.record.phase == Pending && run in w.desk.counters
    ensures var r := CodexReportDelivery.Deliver(message, w.desk, run, polls, dies);
      Settling(World(Record(Attempting, w.record.attempt + 1, r.desk.checkpoint.Some?), r.desk, w.used, w.reader))
  {
    hide CodexReportDelivery.Deliver, DeskOk;
    FirstDeliveryKeeps(message, w.desk, run, polls, dies);
  }

  lemma {:induction false} DeliverNextKeeps(w: World, message: Message, run: RunId, available: bool, polls: seq<Poll>, dies: bool,
                         acknowledged: bool, severity: Severity)
    requires WorldOk(w)
    ensures WorldOk(DeliverNext(w, message, run, available, polls, dies, acknowledged, severity))
  {
    hide CodexReportDelivery.Deliver, DeskOk, AfterAttempt, Settling;
    if w.record.phase == Pending && available && run in w.desk.counters {
      AttemptSettles(w, message, run, polls, dies);
      var r := CodexReportDelivery.Deliver(message, w.desk, run, polls, dies);
      var settling := World(Record(Attempting, w.record.attempt + 1, r.desk.checkpoint.Some?), r.desk, w.used, w.reader);
      AfterAttemptKeeps(settling, r.outcome, acknowledged, severity);
    }
  }

  /** The desk behind the claim, and behind the spawn. */
  lemma ClaimedDesk(d: Desk, run: RunId, digest: nat)
    requires DeskOk(true, d) && d.checkpoint.None?
    ensures DeskOk(true, d.(checkpoint := Some(LaunchCheckpoint(run, digest)), history := Then(d.history, Opened(run))))
  {
  }

  lemma SpawnedDesk(d: Desk, run: RunId, digest: nat)
    requires DeskOk(true, d) && d.checkpoint.None?
    ensures DeskOk(true, Desk(Some(LaunchCheckpoint(run, digest)), d.counters[run := 0],
                              Then(Then(Then(d.history, Opened(run)), Launched(run)), Started(run))))
  {
    var claimed := Then(d.history, Opened(run));
    var launched := Then(claimed, Launched(run));
    assert Safe(true, claimed) && CheckpointOpen(claimed);
    assert Safe(true, launched) && CheckpointOpen(launched);
    forall x | x in d.counters ensures Counter(launched, x) == Counter(d.history, x) {
      assert Counter(claimed, x) == Counter(d.history, x);
    }
  }

  lemma DeskWithout(d: Desk)
    requires DeskOk(true, d)
    ensures DeskOk(true, d.(counters := map[]))
  {
  }

  lemma LaunchNextKeeps(w: World, run: RunId, digest: nat, fate: LaunchFate)
    requires WorldOk(w)
    ensures WorldOk(LaunchNext(w, run, digest, fate))
  {
    if w.record.phase == Pending && run !in w.used {
      hide DeskOk;
      ClaimedDesk(w.desk, run, digest);
      DeskWithout(w.desk.(checkpoint := Some(LaunchCheckpoint(run, digest)), history := Then(w.desk.history, Opened(run))));
      SpawnedDesk(w.desk, run, digest);
      DeskWithout(Desk(Some(LaunchCheckpoint(run, digest)), w.desk.counters[run := 0],
                       Then(Then(Then(w.desk.history, Opened(run)), Launched(run)), Started(run))));
    }
  }

  /** A recheck writes nothing, and of the checkpoint it sets only the session it reads. */
  lemma RecheckKeeps(w: World, tests: Checkpoint -> LineTest, binding: Binding, journal: nat -> Observed, manual: bool, stores: bool)
    requires WorldOk(w)
    ensures var v := RecheckNext(w, tests, binding, journal, manual, stores);
      && WorldOk(v) && v.desk.history == w.desk.history && v.desk.counters == w.desk.counters
      && ((v.record == w.record && v.desk == w.desk)
          || (v.record == w.record.(phase := Confirmed) && w.desk.checkpoint.Some? && v.desk.checkpoint == BoundCheckpoint(w.desk.checkpoint.value, binding)))
  {
    hide ReadOn;
    if w.desk.checkpoint.Some? && BoundCheckpoint(w.desk.checkpoint.value, binding).Some? {
      BoundDesk(w.desk, BoundCheckpoint(w.desk.checkpoint.value, binding).value);
    }
  }

  lemma BoundDesk(d: Desk, bound: Checkpoint)
    requires DeskOk(true, d) && d.checkpoint.Some? && bound == d.checkpoint.value.(session := bound.session, offset := bound.offset)
    ensures DeskOk(true, d.(checkpoint := Some(bound)))
  {
  }

  lemma NextKeeps(w: World, action: Action)
    requires WorldOk(w)
    ensures WorldOk(After(w, action))
  {
    hide DeliverNext, LaunchNext, RecheckNext, ForeignInput, CodexReportDelivery.Deliver;
    match action {
      case Input(run, inputs) =>
        if run in w.desk.counters {
          ForeignKeeps(true, w.desk, run, inputs);
        }
      case Deliver(message, run, available, polls, dies, acknowledged, severity) =>
        DeliverNextKeeps(w, message, run, available, polls, dies, acknowledged, severity);
      case Launch(run, digest, fate) => LaunchNextKeeps(w, run, digest, fate);
      case Recheck(tests, binding, journal, manual, stores) => RecheckKeeps(w, tests, binding, journal, manual, stores);
      case _ =>
    }
  }

  lemma {:induction false} RunOk(actions: seq<Action>)
    ensures WorldOk(Run(actions))
  {
    if actions != [] {
      RunOk(actions[..|actions| - 1]);
      NextKeeps(Run(actions[..|actions| - 1]), actions[|actions| - 1]);
    }
  }

  // ---- Whole-run theorems ----

  ghost function EventsOf(actions: seq<Action>): seq<Event> {
    Events(Run(actions).desk.history)
  }

  /** Over all attempts, timeouts, deaths, launches and new runs, the message is handed to Codex at
      most once between two explicit resends, each time behind a durable checkpoint. */
  lemma {:induction false} HandedToCodexOnce(actions: seq<Action>)
    ensures var ev := EventsOf(actions);
            && (forall j :: 0 <= j < |ev| && Handoff(ev[j]) ==> j > 0 && ev[j - 1] == Opened(ev[j].run))
            && (forall i, j :: 0 <= i < j < |ev| && Handoff(ev[i]) && Handoff(ev[j]) ==>
                  exists k :: i < k < j && ev[k] == Resent)
  {
    RunOk(actions);
    var h := Run(actions).desk.history;
    var ev := EventsOf(actions);
    forall j | 0 <= j < |ev| && Handoff(ev[j]) ensures j > 0 && ev[j - 1] == Opened(ev[j].run) {
      CheckpointPrecedesHandoff(true, h, j);
    }
    forall i, j | 0 <= i < j < |ev| && Handoff(ev[i]) && Handoff(ev[j])
      ensures exists k :: i < k < j && ev[k] == Resent
    {
      HandedOverOnce(true, h, i, j);
    }
  }

  /** Every Enter is pressed over this message's own paste, into which nobody has typed since, and the screen that was
      read in front of it accounts for the text of that paste: an encoded wire piece by piece, with nothing left over. */
  lemma {:induction false} EntersOnlyOverOwnPaste(actions: seq<Action>, j: nat) returns (i: nat)
    requires EnterAt(EventsOf(actions), j)
    ensures var ev := EventsOf(actions); UntouchedPaste(ev, i, j, ev[j].run) && AccountsFor(ev[i].key.draft, ev[j].key.screen)
  {
    hide AccountsFor, Shows, WorldOk;
    RunDeskOk(actions);
    i := EnterOverUntouchedPaste(Run(actions).desk.history, j);
    ShowsMeans(EventsOf(actions)[i].key.draft, EventsOf(actions)[j].key.screen);
  }

  lemma RunDeskOk(actions: seq<Action>)
    ensures Safe(true, Run(actions).desk.history)
  {
    RunOk(actions);
  }

  /** At most three Enters between two resends, over all attempts and runs. */
  lemma {:induction false} ThreeEntersPerResend(actions: seq<Action>, a: nat, b: nat, c: nat, d: nat)
    requires a < b < c < d
    requires var ev := EventsOf(actions); EnterAt(ev, a) && EnterAt(ev, b) && EnterAt(ev, c) && EnterAt(ev, d)
    ensures exists k :: a < k < d && EventsOf(actions)[k] == Resent
  {
    RunOk(actions);
    AtMostThreeEnters(true, Run(actions).desk.history, a, b, c, d);
  }

  /** Where an attempt leaves the message that nobody acknowledged: confirmed by a delivery; uncertain if it failed or died
      with a checkpoint; else pending again, with a person, or given up. */
  lemma AttemptEnds(w: World, m: Message, run: RunId, polls: seq<Poll>, dies: bool, severity: Severity)
    requires WorldOk(w) && w.record.phase == Pending && run in w.desk.counters
    ensures var r := CodexReportDelivery.Deliver(m, w.desk, run, polls, dies);
      var v := DeliverNext(w, m, run, true, polls, dies, false, severity);
      && v.record.attempt == w.record.attempt + 1 && (v.record.writeStarted <==> r.desk.checkpoint.Some?)
      && (v.record.phase == Confirmed <==> r.outcome == Delivered)
      && (v.record.phase == Unknown <==> r.outcome != Delivered && r.desk.checkpoint.Some?)
      && (v.record.phase == Pending <==>
            r.desk.checkpoint.None? && (r.outcome == Died || (r.outcome == Threw && severity == Retryable && w.record.attempt < 4)))
      && (v.record.phase == Manual <==>
            r.desk.checkpoint.None? && r.outcome == Threw && (severity == NeedsReview || (severity == Retryable && w.record.attempt >= 4)))
      && (v.record.phase == Resolved <==> r.desk.checkpoint.None? && r.outcome == Threw && severity == Final)
  {
    hide CodexReportDelivery.Deliver, DeskOk;
  }

  /** What was uncertain stays out of the scheduler's hands: only an explicit resend makes a message
      with a checkpoint pending again. The checkpoint stays, but for the session in which a recheck finds the receipt. */
  lemma UncertainUntilResent(w: World, action: Action)
    requires WorldOk(w) && w.desk.checkpoint.Some?
    ensures action != Resolve(true) ==>
              && After(w, action).record.phase != Pending
              && (After(w, action).desk.checkpoint == w.desk.checkpoint
                  || (action.Recheck? && After(w, action).record.phase == Confirmed
                      && After(w, action).desk.checkpoint == BoundCheckpoint(w.desk.checkpoint.value, action.binding)))
  {
    NextKeeps(w, action);
    if action.Recheck? { RecheckKeeps(w, action.tests, action.binding, action.journal, action.manual, action.stores); }
  }

  // ---- The store and the scheduler over mutable state ----

  class DeliveryRuntime {
    var phase: Phase
    var attempt: nat
    var writeStarted: bool
    var used: set<RunId>
    var reader: Option<Kept>
    const courier: ReportDelivery

    ghost function Value(): World
      reads this, courier
    {
      World(Record(phase, attempt, writeStarted), courier.Value(), used, reader)
    }

    constructor ()
      ensures Value() == START && fresh(courier)
    {
      phase, attempt, writeStarted, used, reader := Pending, 0, false, {}, None;
      courier := new ReportDelivery(None, map[], Nothing);
    }

    method StartRun(run: RunId)
      modifies this, courier
      ensures Value() == After(old(Value()), Action.StartRun(run))
    {
      if run !in used {
        used := used + {run};
        courier.counters := courier.counters[run := 0];
        courier.history := Then(courier.history, Started(run));
      }
    }

    method EndRun(run: RunId)
      modifies courier
      ensures Value() == After(old(Value()), Action.EndRun(run))
    {
      courier.counters := courier.counters - {run};
    }

    method Recover()
      modifies this, courier
      ensures Value() == After(old(Value()), Restart)
    {
      if phase == Attempting {
        phase := if writeStarted then Unknown else Pending;
      }
      courier.counters := map[];
      reader := None;
    }

    method Failed(severity: Severity)
      requires phase == Attempting
      modifies this
      ensures Value() == old(Value()).(record := old(Value()).record.(phase := FailedPhase(old(Value()).record, severity)))
    {
      if writeStarted {
        phase := Unknown;
      } else {
        match severity {
          case NeedsReview => phase := Manual;
          case Final => phase := Resolved;
          case Retryable => phase := if attempt >= MAX_ATTEMPTS then Manual else Pending;
        }
      }
    }

    method Confirm()
      modifies this
      ensures Value() == After(old(Value()), Acknowledge)
    {
      if phase != Confirmed && phase != Resolved {
        phase := Confirmed;
      }
    }

    method DeliverPending(message: Message, run: RunId, available: bool, polls: seq<Poll>, dies: bool,
                          acknowledged: bool, severity: Severity)
      modifies this, courier
      ensures Value() == DeliverNext(old(Value()), message, run, available, polls, dies, acknowledged, severity)
    {
      hide CodexReportDelivery.Deliver, AfterAttempt;
      if phase != Pending || !available || run !in courier.counters {
        return;
      }
      var outcome := Attempt(message, run, polls, dies);
      Settle(outcome, acknowledged, severity);
    }

    method Attempt(message: Message, run: RunId, polls: seq<Poll>, dies: bool) returns (outcome: Outcome)
      requires run in courier.counters
      modifies this, courier
      ensures var r := CodexReportDelivery.Deliver(message, old(courier.Value()), run, polls, dies);
        && outcome == r.outcome && phase == Attempting
        && Value() == World(Record(Attempting, old(attempt) + 1, old(writeStarted) || r.desk.checkpoint.Some?), r.desk, old(used), old(reader))
    {
      phase, attempt := Attempting, attempt + 1;
      outcome := courier.DeliverCodexReport(message, run, polls, dies);
      // Every save inside the attempt has also set the write_started column.
      writeStarted := writeStarted || courier.checkpoint.Some?;
    }

    method Settle(outcome: Outcome, acknowledged: bool, severity: Severity)
      requires phase == Attempting
      modifies this, courier
      ensures Value() == AfterAttempt(old(Value()), outcome, acknowledged, severity)
    {
      if acknowledged {
        Confirm();
      }
      if outcome.Died? {
        Recover();
      } else if outcome.Delivered? {
        Confirm();
      } else if phase == Attempting {
        Failed(severity);
      }
    }

    /** One transaction: claim, checkpoint and `write_started`. */
    method ClaimLaunch(run: RunId, digest: nat)
      modifies this`phase, this`attempt, this`writeStarted, this`used, courier`checkpoint, courier`history
      ensures phase == Attempting && attempt == old(attempt) + 1 && writeStarted && used == old(used) + {run}
      ensures courier.checkpoint == Some(LaunchCheckpoint(run, digest)) && courier.history == Then(old(courier.history), Opened(run))
    {
      phase, attempt, writeStarted, used := Attempting, attempt + 1, true, used + {run};
      courier.checkpoint := Some(Checkpoint(run, 0, 0, false, 0, None, true, NativeInitial(digest), 0));
      courier.history := Then(courier.history, Opened(run));
    }

    method LaunchInitial(run: RunId, digest: nat, fate: LaunchFate)
      modifies this, courier
      ensures Value() == LaunchNext(old(Value()), run, digest, fate)
    {
      hide LaunchCheckpoint;
      if phase != Pending || writeStarted || courier.checkpoint.Some? || run in used || fate.ClaimRefused? {
        return;
      }
      ClaimLaunch(run, digest);
      if fate.SpawnFailed? {
        Failed(Retryable);
      } else if fate.DiedBeforeSpawn? {
        Recover();
      } else {
        courier.history := Then(Then(courier.history, Launched(run)), Started(run));
        courier.counters := courier.counters[run := 0];
        if fate.Spawned? {
          phase := Unknown;
        } else {
          Recover();
        }
      }
    }

    method Recheck(tests: Checkpoint -> LineTest, binding: Binding, journal: nat -> Observed, manual: bool, stores: bool)
      modifies this, courier
      ensures Value() == RecheckNext(old(Value()), tests, binding, journal, manual, stores)
    {
      hide ReadOnce, ReadOn;
      if phase == Confirmed || phase == Resolved || phase == Attempting || courier.checkpoint.None? {
        return;
      }
      var bound := BoundCheckpoint(courier.checkpoint.value, binding);
      var creates := reader.None? || bound.None? || reader.value.checkpoint != bound.value;
      if binding.BindingFails? || (bound.Some? && creates && bound.value.wire.InvalidWire?) {
        if !manual {
          reader := None;
        }
        return;
      }
      if bound.None? {
        return;
      }
      if creates {
        reader := Some(FreshReader(bound.value));
      }
      var answer := ReadUp(tests(bound.value), journal);
      if answer == Receives && stores {
        phase, reader, courier.checkpoint := Confirmed, None, bound;
      } else if !manual && (answer == Receives || answer == Throws) {
        reader := None;
      }
    }

    /** At most 32 reads, until one says more than that there is more. */
    method ReadUp(kind: LineTest, journal: nat -> Observed) returns (answer: Answer)
      requires reader.Some?
      modifies this`reader
      ensures reader.Some? && (reader.value, answer) == ReadOn(old(reader.value), journal, kind, 0)
    {
      hide ReadOnce;
      answer := More;
      var i := 0;
      while i < MAX_READS && answer == More
        invariant 0 <= i <= MAX_READS && reader.Some?
        invariant ReadOn(old(reader.value), journal, kind, 0)
               == if answer == More then ReadOn(reader.value, journal, kind, i) else (reader.value, answer)
      {
        var (next, a) := ReadOnce(reader.value, journal(i), kind);
        reader, answer, i := Some(next), a, i + 1;
      }
    }

    method ResolveByPerson(resend: bool)
      modifies this, courier
      ensures Value() == ResolveNext(old(Value()), resend)
    {
      if phase == Attempting || phase == Confirmed || phase == Resolved {
        return;
      }
      reader := None;
      if !resend {
        phase := Resolved;
        return;
      }
      phase, writeStarted := Pending, false;
      courier.checkpoint := None;
      courier.history := Then(courier.history, Resent);
    }
  }
}
