/** One delivery attempt: the polling loop that pastes once and submits with bounded Enters
    (src/server/codex-report-delivery.ts, src/server/delivery-input-guard.ts). */
module CodexReportDelivery {
  import opened Wrappers
  import opened CodexComposer
  import opened CodexDeliveryTrace
  import CodexMessageEncoding
  import CodexReportJournal

  const SUBMIT_INTERVAL_MS: nat := 1000
  const FLUSH_SETTLE_MS: nat := 100

  type Byte = CodexReportJournal.Byte
  type Reader = CodexReportJournal.Reader

  /** The transport recorded in a checkpoint; digests stand for hashes of the whole wire. */
  datatype Wire = PlainText | JsonString(digest: nat) | NativeInitial(digest: nat) | InvalidWire

  datatype Checkpoint = Checkpoint(
    run: RunId,
    inputSequence: nat,
    lastSubmitAt: nat,
    pasteConfirmed: bool,
    submitAttempts: nat,
    session: Option<nat>,
    captured: bool,  // a capture pattern was saved because no session was known
    wire: Wire,
    offset: nat      // where the journal of the session is read from
  )

  /** What does not change during an attempt. `digest` is the hash of the encoded payload, `records` tells the lines
      of a journal apart by marker and digest, `guarded`: the manager is wrapped by the input guard. */
  datatype Message = Message(
    text: string, marker: string, digest: nat, records: seq<Byte> -> CodexReportJournal.LineKind,
    windows: bool, guarded: bool, allowUnbound: bool
  )

  /** `replace(/\r\n?/gu, '\n')`. */
  function UnixBreaks(s: string): string {
    if s == "" then ""
    else if s[0] == '\r' then "\n" + UnixBreaks(s[if |s| > 1 && s[1] == '\n' then 2 else 1..])
    else [s[0]] + UnixBreaks(s[1..])
  }

  function Payload(m: Message): string {
    UnixBreaks(TrimEnd(m.text) + "\n\n" + m.marker + "\n")
  }

  /** What an attempt with this checkpoint pastes, and looks for on screen. */
  function DraftOf(m: Message, cp: Checkpoint): Draft {
    if cp.wire != PlainText then Draft(CodexMessageEncoding.Encode(Payload(m)), Encoded, m.marker)
    else Draft(Payload(m), if cp.captured then Compact else Bound, m.marker)
  }

  datatype Binding = BindingFails | NotBound | BoundTo(session: nat)
  datatype Foreign = Typing | Reply
  datatype Permit = Granted | Denied | ProcessDies

  /** Everything one iteration of the loop can observe. `before` and `during` are what others wrote
      up to the status check and while the screen was read; `journal` is the file of the session, of which `length`
      bytes are delivered and which has `grown` when its size is taken again; `saves` is how many saves the store
      accepts before one throws; `permit` is the fate of the iteration's write. */
  datatype Poll = Poll(
    now: nat,
    before: seq<Foreign>,
    during: seq<Foreign>,
    binding: Binding,
    journal: seq<Byte>,
    length: nat,
    grown: nat,
    journalFails: bool,
    aborted: bool,
    running: bool,
    dialog: bool,
    screen: string,
    codexContext: bool,
    session: Option<nat>,
    sessionMissing: bool,
    saves: nat,
    permit: Permit
  )

  /** The durable checkpoint and the terminals' input counters, with the history they came from. */
  datatype Desk = Desk(checkpoint: Option<Checkpoint>, counters: map<RunId, nat>, history: History)

  /** The loop's variables; `guard` is the guard's private copy of the input counter. */
  datatype Attempt = Attempt(run: RunId, guard: nat, flushedAt: Option<nat>, reader: Option<Reader>)

  /** `Next` goes on within the iteration, `Again` polls again. */
  datatype Outcome = Next | Again | Delivered | Threw | Died

  datatype Step = Step(desk: Desk, attempt: Attempt, saves: nat, outcome: Outcome)

  // ---- One iteration, stage by stage ----

  function OneForeign(d: Desk, run: RunId, input: Foreign): Desk
    requires run in d.counters
  {
    match input
    case Typing => d.(counters := d.counters[run := d.counters[run] + 1], history := Then(d.history, Keystroke(run)))
    case Reply => d.(history := Then(d.history, TerminalReply(run)))
  }

  function ForeignInput(d: Desk, run: RunId, inputs: seq<Foreign>): (r: Desk)
    requires run in d.counters
    ensures r.counters.Keys == d.counters.Keys && r.checkpoint == d.checkpoint
    decreases |inputs|
  {
    if inputs == [] then d else ForeignInput(OneForeign(d, run, inputs[0]), run, inputs[1..])
  }

  function Save(s: Step, next: Checkpoint): (r: Step)
    ensures r.attempt.run == s.attempt.run && r.desk.counters.Keys == s.desk.counters.Keys
  {
    if s.saves == 0 then s.(outcome := Threw)
    else s.(desk := s.desk.(checkpoint := Some(next)), saves := s.saves - 1)
  }

  function StartAt(offset: nat): Reader { CodexReportJournal.Reader(offset, []) }

  /** A session captured after the paste is read from its start. */
  function Bind(cp: Checkpoint, session: nat): Checkpoint { cp.(session := Some(session), offset := 0) }

  function BindSession(s: Step, p: Poll): (r: Step)
    ensures r.attempt.run == s.attempt.run && r.desk.counters.Keys == s.desk.counters.Keys
  {
    if s.desk.checkpoint.None? || s.attempt.reader.Some? then s
    else
      var cp := s.desk.checkpoint.value;
      if p.binding.BindingFails? then s.(outcome := Threw)
      else if cp.session.Some? then s.(attempt := s.attempt.(reader := Some(StartAt(cp.offset))))
      else if p.binding.NotBound? || !cp.captured then s
      else
        var saved := Save(s, Bind(cp, p.binding.session));
        if saved.outcome == Threw then saved else saved.(attempt := s.attempt.(reader := Some(StartAt(0))))
  }

  function ReadJournal(m: Message, s: Step, p: Poll): (r: Step)
    ensures r.attempt.run == s.attempt.run && r.desk == s.desk
  {
    if s.attempt.reader.None? then s
    else if p.journalFails then s.(outcome := Threw)
    else
      var look := CodexReportJournal.LookAt(s.attempt.reader.value, p.journal, p.length, |p.journal| + p.grown, m.records);
      if look.reading.Failure? then s.(outcome := Threw)
      else if look.reading.value.found then s.(outcome := Delivered)
      else s.(attempt := s.attempt.(reader := Some(look.reader)), outcome := if look.reading.value.caughtUp then s.outcome else Again)
  }

  function CheckRun(m: Message, s: Step, p: Poll): (r: Step)
    requires s.attempt.run in s.desk.counters
    ensures r.attempt.run == s.attempt.run && r.desk.counters.Keys == s.desk.counters.Keys
    ensures r.outcome == Next ==> r.attempt == s.attempt && r.desk.checkpoint == s.desk.checkpoint
  {
    if m.guarded && (p.aborted || s.desk.counters[s.attempt.run] != s.attempt.guard) then s.(outcome := Threw)
    else if !p.running then s.(outcome := Threw)
    else if s.desk.checkpoint.Some? && s.desk.checkpoint.value.run != s.attempt.run then s.(outcome := Threw)
    else
      var seen := s.(desk := ForeignInput(s.desk, s.attempt.run, p.during));
      if p.dialog then seen.(outcome := Threw) else seen
  }

  /** The write that a checkpoint has announced. The guard refuses it when its signal or deadline
      fired or its copy of the counter is stale. */
  function Write(m: Message, s: Step, key: Key, p: Poll): (r: Step)
    requires s.attempt.run in s.desk.counters
    ensures r.attempt.run == s.attempt.run && r.desk.counters.Keys == s.desk.counters.Keys
  {
    var run := s.attempt.run;
    var counter := s.desk.counters[run];
    if p.permit.ProcessDies? then s.(desk := s.desk.(history := Then(s.desk.history, Lost(run, key))), outcome := Died)
    else if p.permit.Denied? || (m.guarded && counter != s.attempt.guard)
    then s.(desk := s.desk.(history := Then(s.desk.history, Lost(run, key))), outcome := Threw)
    else s.(desk := s.desk.(counters := s.desk.counters[run := counter + 1], history := Then(s.desk.history, Wrote(run, key))),
            attempt := s.attempt.(guard := counter + 1))
  }

  /** Checkpoint first, then write. */
  function Send(m: Message, s: Step, next: Checkpoint, key: Key, p: Poll): (r: Step)
    requires s.attempt.run in s.desk.counters
    ensures r.attempt.run == s.attempt.run && r.desk.counters.Keys == s.desk.counters.Keys
  {
    var saved := Save(s, next);
    if s.saves == 0 then saved
    else if s.desk.checkpoint.Some? then Write(m, saved, key, p)
    else Write(m, saved.(desk := saved.desk.(history := Then(s.desk.history, Opened(s.attempt.run)))), key, p)
  }

  /** Where the journal of a known session is read from; it is taken before the paste. */
  function JournalOffset(p: Poll): Wrappers.Result<nat, CodexReportJournal.ReadError> {
    if p.session.None? then Wrappers.Success(0)
    else CodexReportJournal.ReportJournalOffset(p.journal, CodexReportJournal.FullRead(p.journal))
  }

  function FirstCheckpoint(m: Message, run: RunId, counter: nat, offset: nat, p: Poll): Checkpoint {
    Checkpoint(run, counter + 1, 0, false, 0, p.session, p.session.None?,
               if m.windows then JsonString(m.digest) else PlainText, offset)
  }

  predicate MayOffer(m: Message, p: Poll) {
    EmptyComposer(ComposerOf(p.screen).line) && p.codexContext && (p.session.Some? || m.allowUnbound)
  }

  function Polled(s: Step): (r: Step)
    ensures r.attempt.run == s.attempt.run && r.desk.counters.Keys == s.desk.counters.Keys
    ensures r.outcome != Next
  {
    if s.outcome == Next then s.(outcome := Again) else s
  }

  function Offer(m: Message, s: Step, p: Poll): (r: Step)
    requires s.attempt.run in s.desk.counters
    ensures r.attempt.run == s.attempt.run && r.desk.counters.Keys == s.desk.counters.Keys
    ensures r.outcome != Next
  {
    if !MayOffer(m, p) then s.(outcome := Again)
    else if (p.session.Some? && p.sessionMissing) || JournalOffset(p).Failure? then s.(outcome := Threw)
    else
      var next := FirstCheckpoint(m, s.attempt.run, s.desk.counters[s.attempt.run], JournalOffset(p).value, p);
      var reading := s.(attempt := s.attempt.(reader := if p.session.Some? then Some(StartAt(JournalOffset(p).value)) else s.attempt.reader));
      Polled(Send(m, reading, next, Paste(DraftOf(m, next)), p))
  }

  predicate NeedsFlush(m: Message, cp: Checkpoint) {
    m.windows && (cp.wire != PlainText || cp.captured)
  }

  function Submit(m: Message, s: Step, p: Poll): (r: Step)
    requires s.attempt.run in s.desk.counters && s.desk.checkpoint.Some?
    ensures r.attempt.run == s.attempt.run && r.desk.counters.Keys == s.desk.counters.Keys
    ensures r.outcome != Next
  {
    var cp := s.desk.checkpoint.value;
    if s.desk.counters[s.attempt.run] != cp.inputSequence then s.(outcome := Threw)
    else if !Shows(DraftOf(m, cp), p.screen) then s.(outcome := Again)
    else
      var confirmed := if cp.pasteConfirmed then s else Save(s, cp.(pasteConfirmed := true));
      if confirmed.outcome != Next then confirmed else PressKeys(m, confirmed, p)
  }

  function Flush(m: Message, s: Step, p: Poll): (r: Step)
    requires s.attempt.run in s.desk.counters && s.desk.checkpoint.Some?
    ensures r.attempt.run == s.attempt.run && r.desk.counters.Keys == s.desk.counters.Keys
    ensures r.outcome != Next
  {
    var cp := s.desk.checkpoint.value;
    var sent := Send(m, s, cp.(inputSequence := cp.inputSequence + 1), CursorRight, p);
    if sent.outcome != Next then sent
    else Polled(sent.(attempt := sent.attempt.(flushedAt := Some(p.now))))
  }

  function PressEnter(m: Message, s: Step, p: Poll): (r: Step)
    requires s.attempt.run in s.desk.counters && s.desk.checkpoint.Some?
    ensures r.attempt.run == s.attempt.run && r.desk.counters.Keys == s.desk.counters.Keys
    ensures r.outcome != Next
  {
    var cp := s.desk.checkpoint.value;
    var next := cp.(inputSequence := cp.inputSequence + 1, lastSubmitAt := p.now, submitAttempts := cp.submitAttempts + 1);
    var sent := Send(m, s, next, Enter(p.screen), p);
    if sent.outcome != Next then sent
    else Polled(sent.(attempt := sent.attempt.(flushedAt := None)))
  }

  function PressKeys(m: Message, s: Step, p: Poll): (r: Step)
    requires s.attempt.run in s.desk.counters && s.desk.checkpoint.Some?
    ensures r.attempt.run == s.attempt.run && r.desk.counters.Keys == s.desk.counters.Keys
    ensures r.outcome != Next
  {
    var cp := s.desk.checkpoint.value;
    if cp.submitAttempts >= MAX_SUBMITS || p.now < cp.lastSubmitAt + SUBMIT_INTERVAL_MS then s.(outcome := Again)
    else if NeedsFlush(m, cp) && s.attempt.flushedAt.None? then Flush(m, s, p)
    else if NeedsFlush(m, cp) && p.now < s.attempt.flushedAt.value + FLUSH_SETTLE_MS then s.(outcome := Again)
    else PressEnter(m, s, p)
  }

  /** The stages in front of the composer. */
  function Ready(m: Message, d: Desk, a: Attempt, p: Poll): (r: Step)
    requires a.run in d.counters
    ensures r.attempt.run == a.run && r.desk.counters.Keys == d.counters.Keys
  {
    var bound := BindSession(Step(ForeignInput(d, a.run, p.before), a, p.saves, Next), p);
    if bound.outcome != Next then bound
    else
      var read := ReadJournal(m, bound, p);
      if read.outcome != Next then read else CheckRun(m, read, p)
  }

  function PollOnce(m: Message, d: Desk, a: Attempt, p: Poll): (s: Step)
    requires a.run in d.counters
    ensures s.attempt.run == a.run && s.desk.counters.Keys == d.counters.Keys
    ensures s.outcome != Next
  {
    var ready := Ready(m, d, a, p);
    if ready.outcome != Next then ready
    else if ready.desk.checkpoint.None? then Offer(m, ready, p)
    else Submit(m, ready, p)
  }

  // ---- The loop ----

  datatype Result = Result(desk: Desk, outcome: Outcome)

  /** `dies`: the process ends while the loop is waiting; otherwise the deadline passes. */
  function Loop(m: Message, d: Desk, a: Attempt, polls: seq<Poll>, i: nat, dies: bool): (r: Result)
    requires a.run in d.counters && i <= |polls|
    ensures r.desk.counters.Keys == d.counters.Keys
    ensures r.outcome.Delivered? || r.outcome.Threw? || r.outcome.Died?
    decreases |polls| - i
  {
    if i == |polls| then Result(d, if dies then Died else Threw)
    else
      var s := PollOnce(m, d, a, polls[i]);
      if s.outcome == Again then Loop(m, s.desk, s.attempt, polls, i + 1, dies) else Result(s.desk, s.outcome)
  }

  /** The checks in front of the loop: an argv handoff, a broken checkpoint or a changed payload. */
  predicate Refused(m: Message, d: Desk) {
    d.checkpoint.Some? && match d.checkpoint.value.wire
      case PlainText => false
      case JsonString(digest) => digest != m.digest
      case NativeInitial(_) => true
      case InvalidWire => true
  }

  function Deliver(m: Message, d: Desk, run: RunId, polls: seq<Poll>, dies: bool): (r: Result)
    requires run in d.counters
    ensures r.desk.counters.Keys == d.counters.Keys
    ensures r.outcome.Delivered? || r.outcome.Threw? || r.outcome.Died?
  {
    if Refused(m, d) then Result(d, Threw)
    else Loop(m, d, Attempt(run, d.counters[run], None, None), polls, 0, dies)
  }

  // ---- The source's loop over mutable state ----

  /** `guard` is the sequence of the input guard; `flushedAt` and `reader` are variables of the call. */
  class ReportDelivery {
    var checkpoint: Option<Checkpoint>
    var counters: map<RunId, nat>
    var guard: nat
    var flushedAt: Option<nat>
    var reader: CodexReportJournal.ReportJournalReader?
    ghost var history: History

    ghost function Value(): Desk
      reads this
    {
      Desk(checkpoint, counters, history)
    }

    ghost function Now(run: RunId): Attempt
      reads this, reader
    {
      Attempt(run, guard, flushedAt, if reader == null then None else Some(reader.Value()))
    }

    /** The reader is in order and tells lines apart as this message needs. */
    ghost predicate Reading(m: Message)
      reads this, reader
    {
      reader != null ==> reader.kind == m.records && reader.Reads(reader.Value())
    }

    constructor (checkpoint: Option<Checkpoint>, counters: map<RunId, nat>, ghost history: History)
      ensures Value() == Desk(checkpoint, counters, history)
    {
      this.checkpoint, this.counters, this.history := checkpoint, counters, history;
      guard, flushedAt, reader := 0, None, null;
    }

    method TypeInto(run: RunId, inputs: seq<Foreign>)
      requires run in counters
      modifies this`counters, this`history
      ensures Value() == ForeignInput(old(Value()), run, inputs)
    {
      var i := 0;
      while i < |inputs|
        invariant 0 <= i <= |inputs| && run in counters
        invariant ForeignInput(Value(), run, inputs[i..]) == ForeignInput(old(Value()), run, inputs)
      {
        if inputs[i].Typing? {
          counters := counters[run := counters[run] + 1];
          history := Then(history, Keystroke(run));
        } else {
          history := Then(history, TerminalReply(run));
        }
        assert inputs[i..][1..] == inputs[i + 1..];
        i := i + 1;
      }
    }

    /** `writeInput` of the guarded manager. */
    method WriteInput(m: Message, run: RunId, ghost saves: nat, key: Key, p: Poll) returns (outcome: Outcome)
      requires run in counters
      modifies this`counters, this`history, this`guard
      ensures var s := Write(m, Step(old(Value()), old(Now(run)), saves, Next), key, p);
              Value() == s.desk && outcome == s.outcome && Now(run) == s.attempt
    {
      if p.permit.ProcessDies? {
        history := Then(history, Lost(run, key));
        return Died;
      }
      if p.permit.Denied? || (m.guarded && counters[run] != guard) {
        history := Then(history, Lost(run, key));
        return Threw;
      }
      counters := counters[run := counters[run] + 1];
      history := Then(history, Wrote(run, key));
      guard := counters[run];
      return Next;
    }

    /** Saves, then writes: `Next` when both went through. */
    method CheckpointAndWrite(m: Message, run: RunId, saves: nat, next: Checkpoint, key: Key, p: Poll) returns (outcome: Outcome)
      requires run in counters
      modifies this`checkpoint, this`counters, this`history, this`guard
      ensures var s := Send(m, Step(old(Value()), old(Now(run)), saves, Next), next, key, p);
              Value() == s.desk && outcome == s.outcome && Now(run) == s.attempt
    {
      hide Write;
      if saves == 0 {
        return Threw;
      }
      if checkpoint.None? {
        history := Then(history, Opened(run));
      }
      checkpoint := Some(next);
      outcome := WriteInput(m, run, saves - 1, key, p);
    }

    /** One pass through the loop body, up to `continue`, the final sleep, `return` or `throw`. */
    method PollTerminal(m: Message, run: RunId, p: Poll) returns (outcome: Outcome)
      requires run in counters && Reading(m)
      modifies this, reader
      ensures var s := PollOnce(m, old(Value()), old(Now(run)), p);
              Value() == s.desk && outcome == s.outcome && (outcome == Again ==> Now(run) == s.attempt)
      ensures outcome == Again ==> Reading(m)
      ensures reader == old(reader) || fresh(reader)
    {
      hide Ready, Offer, Submit;
      var saves;
      saves, outcome := Prepare(m, run, p);
      if outcome == Next {
        if checkpoint.None? {
          outcome := OfferPaste(m, run, saves, p);
        } else {
          outcome := SubmitPaste(m, run, saves, p);
        }
      }
    }

    /** Session binding, journal, run status and dialogs. */
    method Prepare(m: Message, run: RunId, p: Poll) returns (saves: nat, outcome: Outcome)
      requires run in counters && Reading(m)
      modifies this, reader
      ensures var s := Ready(m, old(Value()), old(Now(run)), p);
              Value() == s.desk && outcome == s.outcome
              && (outcome == Again || outcome == Next ==> saves == s.saves && Now(run) == s.attempt && Reading(m))
      ensures reader == old(reader) || fresh(reader)
    {
      hide BindSession, ReadJournal, CheckRun, ForeignInput;
      TypeInto(run, p.before);
      saves, outcome := OpenReader(m, run, p);
      if outcome == Next {
        outcome := ReadReceipt(m, run, saves, p);
      }
      if outcome == Next {
        outcome := LookAtRun(m, run, saves, p);
      }
    }

    method OpenReader(m: Message, run: RunId, p: Poll) returns (saves: nat, outcome: Outcome)
      requires run in counters && Reading(m)
      modifies this`checkpoint, this`reader
      ensures var s := BindSession(Step(old(Value()), old(Now(run)), p.saves, Next), p);
              Value() == s.desk && outcome == s.outcome
              && (outcome == Next ==> saves == s.saves && Now(run) == s.attempt && Reading(m))
      ensures outcome == Next || outcome == Threw
      ensures reader == old(reader) || fresh(reader)
    {
      saves := p.saves;
      if checkpoint.Some? && reader == null {
        if p.binding.BindingFails? {
          return saves, Threw;
        }
        if checkpoint.value.session.Some? {
          reader := new CodexReportJournal.ReportJournalReader(checkpoint.value.offset, m.records);
        } else if p.binding.BoundTo? && checkpoint.value.captured {
          if saves == 0 {
            return saves, Threw;
          }
          checkpoint := Some(checkpoint.value.(session := Some(p.binding.session), offset := 0));
          saves := saves - 1;
          reader := new CodexReportJournal.ReportJournalReader(0, m.records);
        }
      }
      return saves, Next;
    }

    method ReadReceipt(m: Message, run: RunId, ghost saves: nat, p: Poll) returns (outcome: Outcome)
      requires run in counters && Reading(m)
      modifies reader
      ensures var s := ReadJournal(m, Step(old(Value()), old(Now(run)), saves, Next), p);
              outcome == s.outcome && saves == s.saves && (outcome == Again || outcome == Next ==> Now(run) == s.attempt && Reading(m))
    {
      if reader == null {
        return Next;
      }
      if p.journalFails {
        return Threw;
      }
      var reading := reader.Read(p.journal, p.length, |p.journal| + p.grown, reader.Value());
      match reading {
        case Failure(_) => return Threw;
        case Success(r) => return if r.found then Delivered else if r.caughtUp then Next else Again;
      }
    }

    method LookAtRun(m: Message, run: RunId, ghost saves: nat, p: Poll) returns (outcome: Outcome)
      requires run in counters
      modifies this`counters, this`history
      ensures var s := CheckRun(m, Step(old(Value()), old(Now(run)), saves, Next), p);
              Value() == s.desk && outcome == s.outcome && saves == s.saves && Now(run) == s.attempt
    {
      if m.guarded && (p.aborted || counters[run] != guard) {
        return Threw;
      }
      if !p.running || (checkpoint.Some? && checkpoint.value.run != run) {
        return Threw;
      }
      TypeInto(run, p.during);
      return if p.dialog then Threw else Next;
    }

    method OfferPaste(m: Message, run: RunId, saves: nat, p: Poll) returns (outcome: Outcome)
      requires run in counters && checkpoint.None? && Reading(m)
      modifies this
      ensures var s := Offer(m, Step(old(Value()), old(Now(run)), saves, Next), p);
              Value() == s.desk && outcome == s.outcome && (outcome == Again ==> Now(run) == s.attempt)
      ensures outcome == Again ==> Reading(m)
      ensures reader == old(reader) || fresh(reader)
    {
      hide Send, FirstCheckpoint, DraftOf, EmptyComposer, ComposerOf, JournalOffset;
      var input := ComposerOf(p.screen);
      if !(EmptyComposer(input.line) && p.codexContext && (p.session.Some? || m.allowUnbound)) {
        return Again;
      }
      if p.session.Some? && p.sessionMissing {
        return Threw;
      }
      var offset := JournalOffset(p);
      if offset.Failure? {
        return Threw;
      }
      var next := FirstCheckpoint(m, run, counters[run], offset.value, p);
      if p.session.Some? {
        reader := new CodexReportJournal.ReportJournalReader(offset.value, m.records);
      }
      outcome := CheckpointAndWrite(m, run, saves, next, Paste(DraftOf(m, next)), p);
      if outcome == Next {
        outcome := Again;
      }
    }

    method SubmitPaste(m: Message, run: RunId, saves: nat, p: Poll) returns (outcome: Outcome)
      requires run in counters && checkpoint.Some?
      modifies this`checkpoint, this`counters, this`history, this`guard, this`flushedAt
      ensures var s := Submit(m, Step(old(Value()), old(Now(run)), saves, Next), p);
              Value() == s.desk && outcome == s.outcome && Now(run) == s.attempt
    {
      hide PressKeys, Shows, DraftOf;
      var left := saves;
      if counters[run] != checkpoint.value.inputSequence {
        return Threw;
      }
      if !Shows(DraftOf(m, checkpoint.value), p.screen) {
        return Again;
      }
      if !checkpoint.value.pasteConfirmed {
        if left == 0 {
          return Threw;
        }
        checkpoint := Some(checkpoint.value.(pasteConfirmed := true));
        left := left - 1;
      }
      outcome := SubmitKeys(m, run, left, p);
    }

    method SubmitKeys(m: Message, run: RunId, saves: nat, p: Poll) returns (outcome: Outcome)
      requires run in counters && checkpoint.Some?
      modifies this`checkpoint, this`counters, this`history, this`guard, this`flushedAt
      ensures var s := PressKeys(m, Step(old(Value()), old(Now(run)), saves, Next), p);
              Value() == s.desk && outcome == s.outcome && Now(run) == s.attempt
    {
      hide Send;
      var cp := checkpoint.value;
      if cp.submitAttempts >= MAX_SUBMITS || p.now < cp.lastSubmitAt + SUBMIT_INTERVAL_MS {
        return Again;
      }
      if NeedsFlush(m, cp) {
        if flushedAt.None? {
          outcome := CheckpointAndWrite(m, run, saves, cp.(inputSequence := cp.inputSequence + 1), CursorRight, p);
          if outcome == Next {
            flushedAt := Some(p.now);
            return Again;
          }
          return outcome;
        }
        if p.now < flushedAt.value + FLUSH_SETTLE_MS {
          return Again;
        }
      }
      var next := cp.(inputSequence := cp.inputSequence + 1, lastSubmitAt := p.now, submitAttempts := cp.submitAttempts + 1);
      outcome := CheckpointAndWrite(m, run, saves, next, Enter(p.screen), p);
      if outcome == Next {
        flushedAt := None;
        return Again;
      }
    }

    method DeliverCodexReport(m: Message, run: RunId, polls: seq<Poll>, dies: bool) returns (outcome: Outcome)
      requires run in counters
      modifies this
      ensures Result(Value(), outcome) == Deliver(m, old(Value()), run, polls, dies)
    {
      hide PollOnce;
      if Refused(m, Desk(checkpoint, counters, Nothing)) {
        return Threw;
      }
      guard, flushedAt, reader := counters[run], None, null;
      var i := 0;
      while i < |polls|
        invariant 0 <= i <= |polls| && run in counters
        invariant Reading(m) && (reader == null || fresh(reader))
        invariant Loop(m, Value(), Now(run), polls, i, dies) == Deliver(m, old(Value()), run, polls, dies)
      {
        var polled := PollTerminal(m, run, polls[i]);
        if polled != Again {
          return polled;
        }
        i := i + 1;
      }
      return if dies then Died else Threw;
    }
  }
}
