/** Why the delivery loop is safe: what every iteration keeps, for any observations, refused saves,
    refused writes and process deaths. */
module CodexDeliverySafety {
  import opened Wrappers
  import opened CodexComposer
  import opened CodexDeliveryTrace
  import opened CodexReportDelivery
  import opened CodexPasteRecognition
  import CodexReportJournal

  predicate Pastes(wire: Wire) {
    wire.PlainText? || wire.JsonString?
  }

  /** The durable checkpoint against the history. The last line is the drift equation: the saved
      sequence runs ahead of the terminal by the lost writes and behind it by foreign keystrokes. */
  ghost predicate CheckpointMatches(cp: Checkpoint, d: Desk) {
    && CheckpointOpen(d.history)
    && (Pastes(cp.wire) ==>
          && OpenedIn(d.history, cp.run)
          && Enters(d.history) <= cp.submitAttempts <= MAX_SUBMITS
          && (cp.run in d.counters ==>
                cp.inputSequence + Typed(d.history, cp.run) == d.counters[cp.run] + LostWrites(d.history, cp.run)))
  }

  ghost predicate DeskOk(strict: bool, d: Desk) {
    && Safe(strict, d.history)
    && (forall run :: run in d.counters ==> d.counters[run] == Counter(d.history, run))
    && (d.checkpoint.None? ==> !CheckpointOpen(d.history))
    && (d.checkpoint.Some? ==> CheckpointMatches(d.checkpoint.value, d))
  }

  /** While the attempt that pasted is still polling, nothing was lost and the paste is in. */
  ghost predicate AttemptOk(strict: bool, m: Message, d: Desk, run: RunId) {
    strict && d.checkpoint.Some? ==>
      DraftIn(d.history, run) == Some(DraftOf(m, d.checkpoint.value)) && LostWrites(d.history, run) == 0
  }

  /** A strictly safe attempt works on its own run's checkpoint only. */
  ghost predicate OwnRun(strict: bool, d: Desk, run: RunId) {
    strict && d.checkpoint.Some? ==> d.checkpoint.value.run == run
  }

  ghost predicate StepOk(strict: bool, m: Message, s: Step) {
    && DeskOk(strict, s.desk)
    && s.attempt.run in s.desk.counters
    && OwnRun(strict, s.desk, s.attempt.run)
    && (s.desk.checkpoint.Some? ==> Pastes(s.desk.checkpoint.value.wire))
    && (s.outcome.Next? || s.outcome.Again? ==> AttemptOk(strict, m, s.desk, s.attempt.run))
  }

  lemma OneForeignKeeps(strict: bool, d: Desk, run: RunId, input: Foreign)
    requires DeskOk(strict, d) && run in d.counters
    ensures var r := OneForeign(d, run, input);
            && DeskOk(strict, r) && r.checkpoint == d.checkpoint
            && DraftIn(r.history, run) == DraftIn(d.history, run) && LostWrites(r.history, run) == LostWrites(d.history, run)
  {
    hide Safe, CheckpointOpen, OpenedIn, DraftIn, Typed, LostWrites, Enters, Counter;
    ForeignEvent(strict, d.history, run, input.Typing?);
  }

  /** What foreign input adds to a history. */
  lemma ForeignEvent(strict: bool, h: History, run: RunId, typing: bool)
    requires Safe(strict, h)
    ensures var v := Then(h, if typing then Keystroke(run) else TerminalReply(run));
            && Safe(strict, v) && (CheckpointOpen(v) <==> CheckpointOpen(h)) && Enters(v) == Enters(h)
            && (forall x :: Counter(v, x) == Counter(h, x) + (if x == run && typing then 1 else 0))
            && (forall x :: (OpenedIn(v, x) <==> OpenedIn(h, x)) && DraftIn(v, x) == DraftIn(h, x) && LostWrites(v, x) == LostWrites(h, x))
            && (forall x :: Typed(v, x) == Typed(h, x) + (if x == run && typing then 1 else 0))
  {}

  lemma {:induction false} ForeignKeeps(strict: bool, d: Desk, run: RunId, inputs: seq<Foreign>)
    requires DeskOk(strict, d) && run in d.counters
    ensures var r := ForeignInput(d, run, inputs);
            && DeskOk(strict, r) && r.checkpoint == d.checkpoint
            && DraftIn(r.history, run) == DraftIn(d.history, run) && LostWrites(r.history, run) == LostWrites(d.history, run)
    decreases |inputs|
  {
    hide DeskOk, DraftIn, LostWrites;
    if inputs != [] {
      OneForeignKeeps(strict, d, run, inputs[0]);
      ForeignKeeps(strict, OneForeign(d, run, inputs[0]), run, inputs[1..]);
    }
  }

  lemma AttemptGoesOn(strict: bool, m: Message, d: Desk, run: RunId, inputs: seq<Foreign>)
    requires DeskOk(strict, d) && run in d.counters
    ensures DeskOk(strict, ForeignInput(d, run, inputs))
    ensures AttemptOk(strict, m, d, run) ==> AttemptOk(strict, m, ForeignInput(d, run, inputs), run)
  {
    hide DeskOk, DraftOf, ForeignInput;
    ForeignKeeps(strict, d, run, inputs);
  }

  /** `next` differs from `cp` in nothing that the history knows about. */
  predicate SamePaste(cp: Checkpoint, next: Checkpoint) {
    next.run == cp.run && next.wire == cp.wire && next.captured == cp.captured
  }

  lemma SameDraft(m: Message, cp: Checkpoint, next: Checkpoint)
    requires SamePaste(cp, next)
    ensures DraftOf(m, next) == DraftOf(m, cp)
  {}

  /** Replacing the checkpoint without touching its run, sequence, attempts or transport. */
  lemma SaveKeeps(strict: bool, m: Message, s: Step, next: Checkpoint)
    requires StepOk(strict, m, s) && s.outcome.Next? && s.desk.checkpoint.Some?
    requires var cp := s.desk.checkpoint.value;
             SamePaste(cp, next) && next.inputSequence == cp.inputSequence && next.submitAttempts == cp.submitAttempts
    ensures StepOk(strict, m, Save(s, next))
  {
    hide DraftOf;
    SameDraft(m, s.desk.checkpoint.value, next);
  }

  /** What the first checkpoint and its paste add to a history. */
  lemma FirstPaste(strict: bool, h: History, run: RunId, draft: Draft)
    requires Safe(strict, h) && !CheckpointOpen(h)
    ensures var open := Then(h, Opened(run));
            var w, l := Then(open, Wrote(run, Paste(draft))), Then(open, Lost(run, Paste(draft)));
            && Safe(strict, w) && Safe(strict, l) && CheckpointOpen(w) && CheckpointOpen(l) && OpenedIn(w, run) && OpenedIn(l, run)
            && DraftIn(w, run) == Some(draft) && Typed(w, run) == Typed(l, run) == 0 && Enters(w) == Enters(l) == 0
            && LostWrites(w, run) == 0 && LostWrites(l, run) == 1
            && (forall x :: Counter(w, x) == Counter(h, x) + (if x == run then 1 else 0) && Counter(l, x) == Counter(h, x))
  {
    var open := Then(h, Opened(run));
    assert Safe(strict, open) && forall x :: Counter(open, x) == Counter(h, x);
  }

  lemma OpenAndPasteKeeps(strict: bool, m: Message, s: Step, next: Checkpoint, p: Poll)
    requires StepOk(strict, m, s) && s.outcome.Next? && s.desk.checkpoint.None?
    requires next.run == s.attempt.run && next.inputSequence == s.desk.counters[s.attempt.run] + 1
    requires next.submitAttempts == 0 && Pastes(next.wire)
    ensures StepOk(strict, m, Send(m, s, next, Paste(DraftOf(m, next)), p))
  {
    hide DraftOf, Safe, CheckpointOpen, OpenedIn, DraftIn, Typed, LostWrites, Enters, Counter;
    FirstPaste(strict, s.desk.history, s.attempt.run, DraftOf(m, next));
  }

  /** What a key behind the paste adds to a history, whether it is written or lost. */
  lemma KeyBehindPaste(strict: bool, h: History, run: RunId, key: Key)
    requires Safe(strict, h) && Owned(strict, h, run) && !key.Paste?
    requires key.Enter? ==> Enters(h) < MAX_SUBMITS && (strict ==> Shows(DraftIn(h, run).value, key.screen))
    ensures var w, l := Then(h, Wrote(run, key)), Then(h, Lost(run, key));
            && Safe(strict, w) && Safe(strict, l) && CheckpointOpen(w) && CheckpointOpen(l) && OpenedIn(w, run) && OpenedIn(l, run)
            && DraftIn(w, run) == DraftIn(l, run) == DraftIn(h, run) && Typed(w, run) == Typed(l, run) == Typed(h, run)
            && LostWrites(w, run) == LostWrites(h, run) && LostWrites(l, run) == LostWrites(h, run) + 1
            && Enters(l) == Enters(h) && Enters(w) == Enters(h) + (if key.Enter? then 1 else 0)
            && (forall x :: Counter(w, x) == Counter(h, x) + (if x == run then 1 else 0) && Counter(l, x) == Counter(h, x))
  {
    hide Shows;
  }

  ghost predicate MayPress(strict: bool, m: Message, s: Step) {
    && StepOk(strict, m, s) && s.outcome.Next? && s.desk.checkpoint.Some?
    && s.desk.checkpoint.value.run == s.attempt.run
    && s.desk.checkpoint.value.inputSequence == s.desk.counters[s.attempt.run]
  }

  /** The comparison of counters in front of a key is what makes the key safe. */
  lemma MayPressOwns(strict: bool, m: Message, s: Step)
    requires MayPress(strict, m, s)
    ensures Owned(strict, s.desk.history, s.attempt.run)
    ensures strict ==> DraftIn(s.desk.history, s.attempt.run) == Some(DraftOf(m, s.desk.checkpoint.value))
  {
    hide DraftOf;
  }

  lemma PressKeeps(strict: bool, m: Message, s: Step, next: Checkpoint, key: Key, p: Poll)
    requires MayPress(strict, m, s) && !key.Paste?
    requires var cp := s.desk.checkpoint.value;
             && SamePaste(cp, next) && next.inputSequence == cp.inputSequence + 1
             && next.submitAttempts == cp.submitAttempts + (if key.Enter? then 1 else 0)
             && (key.Enter? ==> cp.submitAttempts < MAX_SUBMITS && (strict ==> Shows(DraftOf(m, cp), key.screen)))
    ensures StepOk(strict, m, Send(m, s, next, key, p))
  {
    hide DraftOf, Shows, Safe, CheckpointOpen, OpenedIn, DraftIn, Typed, LostWrites, Enters, Counter, Owned;
    MayPressOwns(strict, m, s);
    KeyBehindPaste(strict, s.desk.history, s.attempt.run, key);
    SameDraft(m, s.desk.checkpoint.value, next);
  }

  lemma BindKeeps(strict: bool, m: Message, s: Step, p: Poll)
    requires StepOk(strict, m, s) && s.outcome.Next?
    ensures StepOk(strict, m, BindSession(s, p)) && (BindSession(s, p).outcome.Next? || BindSession(s, p).outcome.Threw?)
  {
    hide DeskOk, AttemptOk;
    if s.desk.checkpoint.Some? && p.binding.BoundTo? {
      SaveKeeps(strict, m, s, Bind(s.desk.checkpoint.value, p.binding.session));
    }
  }

  lemma CheckRunKeeps(strict: bool, m: Message, s: Step, p: Poll)
    requires StepOk(strict, m, s) && s.outcome.Next?
    ensures StepOk(strict, m, CheckRun(m, s, p))
    ensures var r := CheckRun(m, s, p);
            r.outcome.Next? && r.desk.checkpoint.Some? ==> r.desk.checkpoint.value.run == s.attempt.run
  {
    hide DeskOk, AttemptOk, ForeignInput;
    AttemptGoesOn(strict, m, s.desk, s.attempt.run, p.during);
  }

  lemma JournalKeeps(strict: bool, m: Message, s: Step, p: Poll)
    requires StepOk(strict, m, s) && s.outcome.Next?
    ensures StepOk(strict, m, ReadJournal(m, s, p))
  {
    hide DeskOk, AttemptOk, CodexReportJournal.LookAt;
  }

  lemma ReadyKeeps(strict: bool, m: Message, d: Desk, a: Attempt, p: Poll)
    requires StepOk(strict, m, Step(d, a, p.saves, Next))
    ensures StepOk(strict, m, Ready(m, d, a, p))
    ensures var r := Ready(m, d, a, p);
            r.outcome.Next? && r.desk.checkpoint.Some? ==> r.desk.checkpoint.value.run == a.run
  {
    hide DeskOk, AttemptOk, ForeignInput, BindSession, ReadJournal, CheckRun;
    AttemptGoesOn(strict, m, d, a.run, p.before);
    var bound := BindSession(Step(ForeignInput(d, a.run, p.before), a, p.saves, Next), p);
    BindKeeps(strict, m, Step(ForeignInput(d, a.run, p.before), a, p.saves, Next), p);
    if bound.outcome.Next? {
      JournalKeeps(strict, m, bound, p);
      var read := ReadJournal(m, bound, p);
      if read.outcome.Next? { CheckRunKeeps(strict, m, read, p); }
    }
  }

  lemma FlushKeeps(strict: bool, m: Message, s: Step, p: Poll)
    requires MayPress(strict, m, s)
    ensures StepOk(strict, m, Flush(m, s, p))
  {
    hide DeskOk, AttemptOk, Send;
    var cp := s.desk.checkpoint.value;
    PressKeeps(strict, m, s, cp.(inputSequence := cp.inputSequence + 1), CursorRight, p);
  }

  lemma PressEnterKeeps(strict: bool, m: Message, s: Step, p: Poll)
    requires MayPress(strict, m, s) && s.desk.checkpoint.value.submitAttempts < MAX_SUBMITS
    requires Shows(DraftOf(m, s.desk.checkpoint.value), p.screen)
    ensures StepOk(strict, m, PressEnter(m, s, p))
  {
    hide DeskOk, AttemptOk, Send, Shows, DraftOf;
    var cp := s.desk.checkpoint.value;
    var next := cp.(inputSequence := cp.inputSequence + 1, lastSubmitAt := p.now, submitAttempts := cp.submitAttempts + 1);
    PressKeeps(strict, m, s, next, Enter(p.screen), p);
  }

  lemma PressKeysKeeps(strict: bool, m: Message, s: Step, p: Poll)
    requires MayPress(strict, m, s) && Shows(DraftOf(m, s.desk.checkpoint.value), p.screen)
    ensures StepOk(strict, m, PressKeys(m, s, p))
  {
    hide DeskOk, AttemptOk, Flush, PressEnter, Shows, DraftOf;
    FlushKeeps(strict, m, s, p);
    if s.desk.checkpoint.value.submitAttempts < MAX_SUBMITS {
      PressEnterKeeps(strict, m, s, p);
    }
  }

  lemma SubmitKeeps(strict: bool, m: Message, s: Step, p: Poll)
    requires StepOk(strict, m, s) && s.outcome.Next?
    requires s.desk.checkpoint.Some? && s.desk.checkpoint.value.run == s.attempt.run
    ensures StepOk(strict, m, Submit(m, s, p))
  {
    hide DeskOk, AttemptOk, PressKeys, Shows, DraftOf;
    var cp := s.desk.checkpoint.value;
    SaveKeeps(strict, m, s, cp.(pasteConfirmed := true));
    SameDraft(m, cp, cp.(pasteConfirmed := true));
    var confirmed := if cp.pasteConfirmed then s else Save(s, cp.(pasteConfirmed := true));
    if s.desk.counters[s.attempt.run] == cp.inputSequence && confirmed.outcome.Next? && Shows(DraftOf(m, cp), p.screen) {
      PressKeysKeeps(strict, m, confirmed, p);
    }
  }

  lemma OfferKeeps(strict: bool, m: Message, s: Step, p: Poll)
    requires StepOk(strict, m, s) && s.outcome.Next? && s.desk.checkpoint.None?
    ensures StepOk(strict, m, Offer(m, s, p))
  {
    hide DeskOk, AttemptOk, Send, MayOffer, DraftOf, JournalOffset;
    if JournalOffset(p).Success? {
      var next := FirstCheckpoint(m, s.attempt.run, s.desk.counters[s.attempt.run], JournalOffset(p).value, p);
      ReaderIsFree(strict, m, s, if p.session.Some? then Some(StartAt(JournalOffset(p).value)) else s.attempt.reader);
      var reading := s.(attempt := s.attempt.(reader := if p.session.Some? then Some(StartAt(JournalOffset(p).value)) else s.attempt.reader));
      OpenAndPasteKeeps(strict, m, reading, next, p);
    }
  }

  lemma ReaderIsFree(strict: bool, m: Message, s: Step, reader: Option<Reader>)
    requires StepOk(strict, m, s)
    ensures StepOk(strict, m, s.(attempt := s.attempt.(reader := reader)))
  {
    hide DeskOk, AttemptOk;
  }

  lemma PollKeeps(strict: bool, m: Message, d: Desk, a: Attempt, p: Poll)
    requires StepOk(strict, m, Step(d, a, p.saves, Next))
    ensures StepOk(strict, m, PollOnce(m, d, a, p))
  {
    hide DeskOk, AttemptOk, Ready, Offer, Submit;
    ReadyKeeps(strict, m, d, a, p);
    var ready := Ready(m, d, a, p);
    if ready.outcome.Next? {
      if ready.desk.checkpoint.None? { OfferKeeps(strict, m, ready, p); } else { SubmitKeeps(strict, m, ready, p); }
    }
  }

  lemma {:induction false} LoopKeeps(strict: bool, m: Message, d: Desk, a: Attempt, polls: seq<Poll>, i: nat, dies: bool)
    requires i <= |polls| && StepOk(strict, m, Step(d, a, 0, Next))
    ensures var d' := Loop(m, d, a, polls, i, dies).desk; DeskOk(strict, d') && OwnRun(strict, d', a.run)
    decreases |polls| - i
  {
    hide DeskOk, AttemptOk, PollOnce;
    if i < |polls| {
      PollKeeps(strict, m, d, a, polls[i]);
      var s := PollOnce(m, d, a, polls[i]);
      if s.outcome == Again {
        LoopKeeps(strict, m, s.desk, s.attempt, polls, i + 1, dies);
      }
    }
  }

  /** One call keeps everything, also when it retries the uncertain paste of an earlier call: no
      second paste, at most three Enters, and the drift equation. */
  lemma {:induction false} DeliverKeeps(m: Message, d: Desk, run: RunId, polls: seq<Poll>, dies: bool)
    requires DeskOk(false, d) && run in d.counters
    ensures DeskOk(false, Deliver(m, d, run, polls, dies).desk)
  {
    hide DeskOk, Loop;
    if !Refused(m, d) {
      LoopKeeps(false, m, d, Attempt(run, d.counters[run], None, None), polls, 0, dies);
    }
  }

  /** A call that starts without a checkpoint is strictly safe: every key it presses after its paste goes out over
      untouched input, and every Enter over a screen that shows what it pasted. */
  lemma {:induction false} FirstDeliveryKeeps(m: Message, d: Desk, run: RunId, polls: seq<Poll>, dies: bool)
    requires DeskOk(true, d) && d.checkpoint.None? && run in d.counters
    ensures var d' := Deliver(m, d, run, polls, dies).desk; DeskOk(true, d') && OwnRun(true, d', run)
  {
    hide DeskOk, Loop;
    LoopKeeps(true, m, d, Attempt(run, d.counters[run], None, None), polls, 0, dies);
  }

  /** A launch handoff is never pasted: the call changes nothing at all. */
  lemma {:induction false} LaunchedNeverPasted(m: Message, d: Desk, run: RunId, polls: seq<Poll>, dies: bool)
    requires run in d.counters && d.checkpoint.Some? && d.checkpoint.value.wire.NativeInitial?
    ensures Deliver(m, d, run, polls, dies) == Result(d, Threw)
  {}

  /** The saved sequence equals the terminal's counter exactly when as many writes were lost as
      others have typed; while no write is lost, exactly when nobody else has typed. */
  lemma SequenceMeansOwnership(strict: bool, d: Desk)
    requires DeskOk(strict, d) && d.checkpoint.Some? && Pastes(d.checkpoint.value.wire)
    requires d.checkpoint.value.run in d.counters
    ensures var cp := d.checkpoint.value;
            && (d.counters[cp.run] == cp.inputSequence <==> Typed(d.history, cp.run) == LostWrites(d.history, cp.run))
            && (LostWrites(d.history, cp.run) == 0 ==>
                  (d.counters[cp.run] == cp.inputSequence <==> Typed(d.history, cp.run) == 0))
  {}

  // ---- The equation is exact: a retry after a lost write can submit foreign input ----

  /** Nobody interferes with this iteration and the store accepts its saves. */
  predicate Undisturbed(p: Poll) {
    && p.before == [] && p.during == [] && p.running && !p.dialog && !p.aborted && p.saves >= 3
  }

  /** A first call whose paste is refused behind its checkpoint. */
  lemma PasteCanBeLost(m: Message, d: Desk, run: RunId, p: Poll)
    requires run in d.counters && d.checkpoint.None?
    requires Undisturbed(p) && MayOffer(m, p) && p.session.None? && p.permit.Denied?
    ensures Deliver(m, d, run, [p], false)
            == Result(Desk(Some(FirstCheckpoint(m, run, d.counters[run], 0, p)), d.counters,
                           Then(Then(d.history, Opened(run)), Lost(run, Paste(DraftOf(m, FirstCheckpoint(m, run, d.counters[run], 0, p)))))), Threw)
  {
    hide DraftOf, MayOffer;
    var a := Attempt(run, d.counters[run], None, None);
    assert Ready(m, d, a, p) == Step(d, a, p.saves, Next);
    var s := PollOnce(m, d, a, p);
    assert s.outcome == Threw;
  }

  /** Then somebody writes once, and a retry finds the counters equal: if the screen passes for the message, it
      presses Enter over a draft it never pasted. */
  lemma RetryCanSubmitForeignInput(m: Message, d: Desk, run: RunId, first: Poll, retry: Poll)
    requires DeskOk(true, d) && run in d.counters && d.checkpoint.None? && !m.windows
    requires Undisturbed(first) && first.session.None? && first.permit.Denied?
    requires Undisturbed(retry) && retry.binding.NotBound? && retry.permit.Granted? && retry.now >= SUBMIT_INTERVAL_MS
    ensures var typed := ForeignInput(Deliver(m, d, run, [first], false).desk, run, [Typing]);
            var retried := Deliver(m, typed, run, [retry], false);
            MayOffer(m, first) && Shows(Draft(Payload(m), Compact, m.marker), retry.screen) ==>
              && Typed(typed.history, run) == 1
              && retried.desk.history == Then(typed.history, Wrote(run, Enter(retry.screen)))
              && !Safe(true, retried.desk.history)
  {
    hide Deliver, Shows, MayOffer;
    if MayOffer(m, first) && Shows(Draft(Payload(m), Compact, m.marker), retry.screen) {
      LossThenKey(m, d, run, first);
      RetryPresses(m, LostThenTyped(m, d, run, first), run, retry);
      NotOverPaste(m, d, run, first, retry.screen);
    }
  }

  /** Where the refused paste and the foreign key leave the desk. */
  function LostThenTyped(m: Message, d: Desk, run: RunId, p: Poll): Desk
    requires run in d.counters
  {
    var cp := FirstCheckpoint(m, run, d.counters[run], 0, p);
    Desk(Some(cp), d.counters[run := d.counters[run] + 1],
         Then(Then(Then(d.history, Opened(run)), Lost(run, Paste(DraftOf(m, cp)))), Keystroke(run)))
  }

  lemma LossThenKey(m: Message, d: Desk, run: RunId, p: Poll)
    requires run in d.counters && d.checkpoint.None?
    requires Undisturbed(p) && MayOffer(m, p) && p.session.None? && p.permit.Denied?
    ensures ForeignInput(Deliver(m, d, run, [p], false).desk, run, [Typing]) == LostThenTyped(m, d, run, p)
  {
    hide Deliver, FirstCheckpoint, ForeignInput, DraftOf, MayOffer;
    PasteCanBeLost(m, d, run, p);
    OneKey(Deliver(m, d, run, [p], false).desk, run);
  }

  lemma OneKey(d: Desk, run: RunId)
    requires run in d.counters
    ensures ForeignInput(d, run, [Typing]) == OneForeign(d, run, Typing)
  {
    assert ForeignInput(OneForeign(d, run, Typing), run, [Typing][1..]) == OneForeign(d, run, Typing);
  }

  lemma NotOverPaste(m: Message, d: Desk, run: RunId, p: Poll, screen: string)
    requires run in d.counters
    ensures var h := LostThenTyped(m, d, run, p).history;
            Typed(h, run) == 1 && !Safe(true, Then(h, Wrote(run, Enter(screen))))
  {
    hide DraftOf, Shows;
    var h := LostThenTyped(m, d, run, p).history;
    assert Typed(h.past, run) == 0;
    assert !Owned(true, h, run);
  }

  lemma RetryPresses(m: Message, d: Desk, run: RunId, p: Poll)
    requires run in d.counters && d.checkpoint.Some? && !m.windows
    requires var cp := d.checkpoint.value;
             && cp.run == run && cp.wire == PlainText && cp.captured && cp.session.None?
             && cp.inputSequence == d.counters[run] && cp.submitAttempts == 0 && cp.lastSubmitAt == 0
    requires Undisturbed(p) && p.binding.NotBound? && p.permit.Granted? && p.now >= SUBMIT_INTERVAL_MS
    requires Shows(Draft(Payload(m), Compact, m.marker), p.screen)
    ensures Deliver(m, d, run, [p], false).desk.history == Then(d.history, Wrote(run, Enter(p.screen)))
  {
    hide Shows;
    var a := Attempt(run, d.counters[run], None, None);
    assert Ready(m, d, a, p) == Step(d, a, p.saves, Next);
    var s := PollOnce(m, d, a, p);
    assert s.outcome == Again;
    assert Loop(m, s.desk, s.attempt, [p], 1, false) == Result(s.desk, Threw);
  }

  lemma FourEvents(m: Message, p: Poll)
    ensures var h := LostThenTyped(m, Desk(None, map[1 := 0], Then(Nothing, Started(1))), 1, p).history;
            Events(h) == [Started(1), Opened(1), h.past.event, Keystroke(1)] && h.past.event.Lost?
  {
    hide FirstCheckpoint, DraftOf;
    var h := LostThenTyped(m, Desk(None, map[1 := 0], Then(Nothing, Started(1))), 1, p).history;
    assert Events(h.past.past.past) == [Started(1)];
    assert Events(h.past.past) == [Started(1), Opened(1)];
  }

  /** For every such message there is a run of this kind: an empty prompt, a refused paste, a person who pastes
      something else of the same length, and a retry that submits it. */
  lemma EveryMessageCanBeMistaken(m: Message) returns (first: Poll, retry: Poll)
    requires !m.windows && m.allowUnbound
    ensures first.screen == [PROMPT] && retry.screen == ChipScreen(|Payload(m)|)
    ensures var d := Desk(None, map[1 := 0], Then(Nothing, Started(1)));
            var typed := ForeignInput(Deliver(m, d, 1, [first], false).desk, 1, [Typing]);
            var h := Deliver(m, typed, 1, [retry], false).desk.history;
            !Safe(true, h) && EnterAt(Events(h), 4) && forall k :: 0 <= k < 4 ==> !Events(h)[k].Wrote?
  {
    hide Deliver, Shows, ChipScreen, EmptyComposer, ComposerOf, Payload, ForeignInput;
    first := Poll(1000, [], [], NotBound, [], 0, 0, false, false, true, false, [PROMPT], true, None, false, 5, Denied);
    retry := first.(screen := ChipScreen(|Payload(m)|), permit := Granted);
    var d := Desk(None, map[1 := 0], Then(Nothing, Started(1)));
    assert DeskOk(true, d);
    BarePromptIsEmpty();
    ChipPassesForText(Payload(m), m.marker);
    RetryCanSubmitForeignInput(m, d, 1, first, retry);
    LossThenKey(m, d, 1, first);
    FourEvents(m, first);
  }
}
