/** What each call does to the life of a message, told case by case (src/server/message-delivery-store.ts,
    src/server/codex-initial-dispatch.ts, src/server/team-delivery-runtime.ts). */
module MessageCalls {
  import opened Wrappers
  import opened CodexDeliveryTrace
  import opened CodexReportDelivery
  import opened DeliveryRecheck
  import opened MessageDelivery
  import J = CodexReportJournal

  predicate Done(w: World) { w.record.phase == Confirmed || w.record.phase == Resolved }

  /** A message that is not finished is confirmed by its worker at any time. */
  lemma AcknowledgeIs(w: World)
    ensures After(w, Acknowledge) == if Done(w) then w else w.(record := w.record.(phase := Confirmed))
  {}

  /** A person settles or resends what is neither under way nor finished. A resend clears the checkpoint, the mark of a write
      and the kept reader, and is noted. */
  lemma ResolveIs(w: World, resend: bool)
    ensures var v := After(w, Resolve(resend));
      if Done(w) || w.record.phase == Attempting then v == w
      else if resend then
        && v.record == Record(Pending, w.record.attempt, false) && v.desk.checkpoint == None && v.desk.counters == w.desk.counters
        && v.desk.history == Then(w.desk.history, Resent) && v.used == w.used && v.reader == None
      else
        v.record == w.record.(phase := Resolved) && v.desk == w.desk && v.used == w.used && v.reader == None
  {}

  /** A new revision replaces an unwritten message, a restore leaves an unfinished one to a person, and a restart takes the
      terminals, the kept reader and an attempt under way with it. */
  lemma OutsideIs(w: World)
    ensures After(w, Supersede) ==
      if (w.record.phase == Pending || w.record.phase == Attempting) && !w.record.writeStarted then w.(record := w.record.(phase := Resolved)) else w
    ensures var v := After(w, Restore);
      && v.record == (if w.record.phase == Pending || w.record.phase == Attempting || w.record.phase == Unknown then w.record.(phase := Manual) else w.record)
      && v.desk.checkpoint == w.desk.checkpoint && v.desk.history == w.desk.history && v.desk.counters == map[] && v.used == w.used && v.reader == None
    ensures var v := After(w, Restart);
      && v.record == (if w.record.phase != Attempting then w.record else w.record.(phase := if w.record.writeStarted then Unknown else Pending))
      && v.desk.checkpoint == w.desk.checkpoint && v.desk.history == w.desk.history && v.desk.counters == map[] && v.used == w.used && v.reader == None
  {}

  /** A message is launched with its recipient exactly if it is pending, untouched and claimed, for a new run. From the claim
      on it is uncertain, whatever becomes of the process; and it was handed over exactly if the process was spawned. */
  lemma LaunchIs(w: World, run: RunId, digest: nat, fate: LaunchFate)
    ensures var v := After(w, Launch(run, digest, fate));
      if w.record.phase != Pending || w.record.writeStarted || w.desk.checkpoint.Some? || run in w.used || fate == ClaimRefused then v == w
      else
        var claimed := Then(w.desk.history, Opened(run));
        && v.record == Record(Unknown, w.record.attempt + 1, true) && v.used == w.used + {run}
        && v.desk.checkpoint.Some? && v.desk.checkpoint.value.run == run && v.desk.checkpoint.value.wire == NativeInitial(digest)
        && v.desk.checkpoint.value.session.None? && v.desk.checkpoint.value.captured && v.desk.checkpoint.value.offset == 0
        && v.desk.history == (if fate == Spawned || fate == DiedAfterSpawn then Then(Then(claimed, Launched(run)), Started(run)) else claimed)
        && v.desk.counters == (if fate == Spawned then w.desk.counters[run := 0] else if fate == SpawnFailed then w.desk.counters else map[])
  {}

  /** A worker that acknowledges during the attempt confirms the message however the attempt ends. */
  lemma AcknowledgedAttempt(w: World, m: Message, run: RunId, polls: seq<Poll>, dies: bool, severity: Severity)
    requires w.record.phase == Pending && run in w.desk.counters
    ensures var r := CodexReportDelivery.Deliver(m, w.desk, run, polls, dies);
      var v := DeliverNext(w, m, run, true, polls, dies, true, severity);
      && v.record.phase == Confirmed && v.desk.checkpoint == r.desk.checkpoint && v.desk.history == r.desk.history
      && v.desk.counters == if r.outcome == Died then map[] else r.desk.counters
  {
    hide CodexReportDelivery.Deliver;
  }

  /** Without a running recipient nothing is attempted. */
  lemma UnavailableIs(w: World, m: Message, run: RunId, available: bool, polls: seq<Poll>, dies: bool, acknowledged: bool, severity: Severity)
    requires w.record.phase != Pending || !available || run !in w.desk.counters
    ensures DeliverNext(w, m, run, available, polls, dies, acknowledged, severity) == w
  {}

  /** Runs are new, start with their input counter at zero, and end; input of others moves the counter by what was typed. */
  lemma RunsAre(w: World, run: RunId, input: Foreign)
    ensures After(w, StartRun(run)) ==
      if run in w.used then w
      else w.(desk := w.desk.(counters := w.desk.counters[run := 0], history := Then(w.desk.history, Started(run))), used := w.used + {run})
    ensures After(w, EndRun(run)) == w.(desk := w.desk.(counters := w.desk.counters - {run}))
    ensures After(w, Input(run, [input])) ==
      if run !in w.desk.counters then w
      else if input == Reply then w.(desk := w.desk.(history := Then(w.desk.history, TerminalReply(run))))
      else w.(desk := w.desk.(counters := w.desk.counters[run := w.desk.counters[run] + 1], history := Then(w.desk.history, Keystroke(run))))
  {
    if run in w.desk.counters { assert ForeignInput(w.desk, run, [input]) == ForeignInput(OneForeign(w.desk, run, input), run, []); }
  }

  // ---- Rechecks ----

  /** The session of a checkpoint: its own, or the captured one if the checkpoint has a pattern for it. */
  lemma BoundIs(cp: Checkpoint, binding: Binding)
    ensures BoundCheckpoint(cp, binding) ==
      match cp.session
      case Some(_) => Some(cp)
      case None => if cp.captured && binding.BoundTo? then Some(cp.(session := Some(binding.session), offset := 0)) else None
  {}

  /** There is nothing to recheck: the message is finished or under way, or nothing of it was ever written. */
  predicate NothingToCheck(w: World) { Done(w) || w.record.phase == Attempting || w.desk.checkpoint.None? }

  /** A recheck that cannot start: nothing to check or no session changes nothing; a failing binding or a broken checkpoint
      throws, and then only the scheduler gives its reader up. */
  lemma RecheckRefuses(w: World, tests: Checkpoint -> LineTest, binding: Binding, journal: nat -> Observed, manual: bool, stores: bool)
    ensures var v := RecheckNext(w, tests, binding, journal, manual, stores);
      && (NothingToCheck(w) ==> v == w)
      && (!NothingToCheck(w) && binding != BindingFails && BoundCheckpoint(w.desk.checkpoint.value, binding).None? ==> v == w)
      && (!NothingToCheck(w) && binding == BindingFails ==> v == if manual then w else w.(reader := None))
      && (!NothingToCheck(w) && binding != BindingFails && BoundCheckpoint(w.desk.checkpoint.value, binding).Some? ==>
            var bound := BoundCheckpoint(w.desk.checkpoint.value, binding).value;
            bound.wire == InvalidWire && (w.reader.None? || w.reader.value.checkpoint != bound) ==> v == if manual then w else w.(reader := None))
  {
    hide ReadOn;
  }

  /** Otherwise it reads on with the kept reader of this checkpoint, or with a new one. The message is confirmed exactly if
      its receipt is found and the record stored; a reader is kept unless it was, or the scheduler met an error. */
  lemma RecheckIs(w: World, tests: Checkpoint -> LineTest, binding: Binding, journal: nat -> Observed, manual: bool, stores: bool, bound: Checkpoint, k: Kept)
    requires !NothingToCheck(w) && binding != BindingFails && BoundCheckpoint(w.desk.checkpoint.value, binding) == Some(bound)
    requires if w.reader.Some? && w.reader.value.checkpoint == bound then k == w.reader.value
             else k == Kept(bound, [], [], false) && bound.wire != InvalidWire
    ensures var v, (kept, answer) := RecheckNext(w, tests, binding, journal, manual, stores), ReadOn(k, journal, tests(bound), 0);
      && (v.record.phase == Confirmed <==> answer == Receives && stores)
      && (answer == Receives && stores ==> v == World(w.record.(phase := Confirmed), w.desk.(checkpoint := Some(bound)), w.used, None))
      && (!(answer == Receives && stores) ==>
            v == w.(reader := if !manual && (answer == Receives || answer == Throws) then None else Some(kept)))
  {
    hide ReadOn;
  }

  /** At most 32 reads, as long as each says that there is more. */
  lemma ReadOnIs(k: Kept, journal: nat -> Observed, kind: LineTest, i: nat)
    requires i <= 32
    ensures i == 32 ==> ReadOn(k, journal, kind, i) == (k, More)
    ensures i < 32 ==>
      var (next, answer) := ReadOnce(k, journal(i), kind);
      ReadOn(k, journal, kind, i) == if answer == More then ReadOn(next, journal, kind, i + 1) else (next, answer)
  {
    hide ReadOnce;
  }

  /** One read. A found receipt stays found; a failing call throws; so does a malformed line, behind which the reader goes
      on the next time. */
  lemma ReadOnceIs(k: Kept, o: Observed, kind: LineTest)
    ensures var (next, answer) := ReadOnce(k, o, kind);
      var look := J.LookAt(J.Reader(k.checkpoint.offset + |k.skipped|, k.seen), o.journal, o.length, |o.journal| + o.grown, kind);
      if k.found then next == k && answer == Receives
      else if o.fails then next == k && answer == Throws
      else
        && (answer == Receives <==> look.reading.Success? && look.reading.value.found)
        && (answer == Throws <==> look.reading.Failure? || (!look.reading.value.found && o.sizeFails))
        && (answer == CaughtUp <==> !o.sizeFails && look.reading == Success(J.Reading(false, true)))
        && (next.found <==> answer == Receives) && next.checkpoint == k.checkpoint
        && next.skipped + next.seen == k.skipped + look.reader.seen
        && (look.reading != Failure(J.MalformedRecord) ==> next.skipped == k.skipped)
        && (look.reading == Failure(J.MalformedRecord) ==> next.seen == Behind(look.reader.seen, kind))
  {
    hide J.LookAt, Behind;
    var seen := J.LookAt(J.Reader(k.checkpoint.offset + |k.skipped|, k.seen), o.journal, o.length, |o.journal| + o.grown, kind).reader.seen;
    var rest := Behind(seen, kind);
    var head := seen[..|seen| - |rest|];
    assert head + rest == seen;
    assert (k.skipped + head) + rest == k.skipped + seen;
  }

  predicate Decides(kind: LineTest, line: seq<Byte>) { kind(line) == J.Receipt || kind(line) == J.Malformed }

  /** What lies behind the first line that decides. */
  lemma {:induction false} BehindIs(s: seq<Byte>, kind: LineTest) returns (n: nat)
    requires J.Judge(J.Lines(s), kind) != J.Verdict.Pending
    ensures n < |J.Lines(s)| && Decides(kind, J.Lines(s)[n]) && (forall k :: 0 <= k < n ==> !Decides(kind, J.Lines(s)[k]))
    ensures J.Lines(Behind(s, kind)) == J.Lines(s)[n + 1..] && J.Tail(Behind(s, kind)) == J.Tail(s)
    decreases |s|
  {
    hide J.Lines, J.Tail, J.Judge;
    var end := J.IndexOfNewline(s);
    if end.None? {
      J.WithoutNewline(s);
      J.NothingDecides(kind);
      assert false;
    } else {
      var line, rest := s[..end.value], s[end.value + 1..];
      assert s == line + [J.NEWLINE] + rest;
      assert Behind(s, kind) == if Decides(kind, line) then rest else Behind(rest, kind);
      hide Behind, J.IndexOfNewline;
      J.FirstLine(line, rest);
      J.FirstRecord(line, rest, kind);
      if Decides(kind, line) {
        n := 0;
      } else {
        n := BehindIs(rest, kind);
        n := n + 1;
        assert forall k :: 1 <= k <= n ==> J.Lines(s)[k] == J.Lines(rest)[k - 1];
      }
    }
  }
}
