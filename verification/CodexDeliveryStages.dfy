/** When the delivery loop does what: each stage of an iteration by its conditions, in both directions
    (src/server/codex-report-delivery.ts, src/server/delivery-input-guard.ts). */
module CodexDeliveryStages {
  import opened Wrappers
  import opened CodexComposer
  import opened CodexDeliveryTrace
  import opened CodexReportDelivery
  import CodexReportJournal

  /** A session is bound once a checkpoint is there. It must be known, or the member's captured one, and then be saved. */
  lemma BindsWhen(s: Step, p: Poll)
    requires s.outcome == Next
    ensures var r := BindSession(s, p);
      var binds := s.desk.checkpoint.Some? && s.attempt.reader.None?;
      var captures := binds && s.desk.checkpoint.value.session.None? && s.desk.checkpoint.value.captured && p.binding.BoundTo?;
      && (r.outcome == Threw <==> (binds && p.binding == BindingFails) || (captures && s.saves == 0))
      && (r.outcome == Next || r.outcome == Threw)
      && (r.outcome == Next && captures ==>
            && r.desk.checkpoint == Some(s.desk.checkpoint.value.(session := Some(p.binding.session), offset := 0))
            && r.attempt.reader == Some(CodexReportJournal.Reader(0, [])) && r.saves == s.saves - 1)
      && (r.outcome == Next && !captures ==>
            && r.desk == s.desk && r.saves == s.saves
            && r.attempt.reader == if binds && s.desk.checkpoint.value.session.Some?
                                   then Some(CodexReportJournal.Reader(s.desk.checkpoint.value.offset, [])) else s.attempt.reader)
  {}

  /** With a reader, the journal decides: a receipt ends the delivery, an error stops it, and a reader that is not at the end
      of its file makes the loop wait. */
  lemma ReadsWhen(m: Message, s: Step, p: Poll)
    requires s.outcome == Next
    ensures var r := ReadJournal(m, s, p);
      if s.attempt.reader.None? then r == s
      else
        var look := CodexReportJournal.LookAt(s.attempt.reader.value, p.journal, p.length, |p.journal| + p.grown, m.records);
        && (r.outcome == Threw <==> p.journalFails || look.reading.Failure?)
        && (r.outcome == Delivered <==> !p.journalFails && look.reading.Success? && look.reading.value.found)
        && (r.outcome == Again <==> !p.journalFails && look.reading == Wrappers.Success(CodexReportJournal.Reading(false, false)))
        && (r.outcome == Again || r.outcome == Next ==> r.attempt.reader == Some(look.reader))
  {
    hide CodexReportJournal.LookAt;
  }

  /** What stops an attempt: a cancelled or disturbed guard, a run that has ended, a checkpoint of another run, a dialog. */
  lemma StopsWhen(m: Message, s: Step, p: Poll)
    requires s.attempt.run in s.desk.counters && s.outcome == Next
    ensures CheckRun(m, s, p).outcome == Threw <==>
      || (m.guarded && (p.aborted || s.desk.counters[s.attempt.run] != s.attempt.guard)) || !p.running || p.dialog
      || (s.desk.checkpoint.Some? && s.desk.checkpoint.value.run != s.attempt.run)
    ensures CheckRun(m, s, p).outcome == Threw || CheckRun(m, s, p).outcome == Next
  {
    hide ForeignInput;
  }

  /** The guard lets the write through. */
  predicate Passes(m: Message, s: Step, p: Poll)
    requires s.attempt.run in s.desk.counters
  {
    p.permit == Granted && (m.guarded ==> s.desk.counters[s.attempt.run] == s.attempt.guard)
  }

  /** A write takes effect if and only if its checkpoint was stored and the guard lets it through; it moves the counter by
      one. A write that was stored but not let through is lost. */
  lemma SendsWhen(m: Message, s: Step, next: Checkpoint, key: Key, p: Poll)
    requires s.attempt.run in s.desk.counters && s.desk.checkpoint.Some? && s.outcome == Next
    ensures var run, r := s.attempt.run, Send(m, s, next, key, p);
      if s.saves == 0 then r.outcome == Threw && r.desk == s.desk
      else
        && r.desk.checkpoint == Some(next)
        && if Passes(m, s, p)
           then && r.outcome == Next && r.desk.history == Then(s.desk.history, Wrote(run, key))
                && r.desk.counters == s.desk.counters[run := s.desk.counters[run] + 1] && r.attempt == s.attempt.(guard := s.desk.counters[run] + 1)
           else && r.outcome == (if p.permit == ProcessDies then Died else Threw) && r.desk.history == Then(s.desk.history, Lost(run, key))
                && r.desk.counters == s.desk.counters
  {}

  /** A cursor key is needed in front of an Enter on Windows, and must have settled for 100 ms. */
  predicate KeyDue(m: Message, cp: Checkpoint, a: Attempt) { m.windows && (cp.wire != PlainText || cp.captured) && a.flushedAt.None? }

  predicate KeySettled(m: Message, cp: Checkpoint, a: Attempt, p: Poll) {
    m.windows && (cp.wire != PlainText || cp.captured) ==> a.flushedAt.Some? && p.now >= a.flushedAt.value + 100
  }

  /** The draft is ours and on screen, and an Enter may be tried: fewer than three so far, the last a second ago. */
  predicate MaySubmit(m: Message, s: Step, p: Poll)
    requires s.attempt.run in s.desk.counters && s.desk.checkpoint.Some?
  {
    var cp := s.desk.checkpoint.value;
    && s.desk.counters[s.attempt.run] == cp.inputSequence && Shows(DraftOf(m, cp), p.screen)
    && cp.submitAttempts < 3 && p.now >= cp.lastSubmitAt + 1000 && (cp.pasteConfirmed || s.saves > 0)
  }

  function SavesLeft(s: Step): int
    requires s.desk.checkpoint.Some?
  {
    s.saves - if s.desk.checkpoint.value.pasteConfirmed then 0 else 1
  }

  lemma ThenDiffers(h: History, e: Event)
    ensures Then(h, e) != h
  {
    assert |Events(Then(h, e))| == |Events(h)| + 1;
  }

  /** The keys behind the paste, once its visibility has been recorded. */
  lemma KeysWhen(m: Message, s: Step, p: Poll)
    requires s.attempt.run in s.desk.counters && s.desk.checkpoint.Some? && s.outcome == Next
    ensures var cp, run, r := s.desk.checkpoint.value, s.attempt.run, PressKeys(m, s, p);
      var tries := cp.submitAttempts < 3 && p.now >= cp.lastSubmitAt + 1000;
      var cursor := tries && KeyDue(m, cp, s.attempt);
      var enter := tries && KeySettled(m, cp, s.attempt, p);
      && (cursor || enter ==> if s.saves == 0 then r.outcome == Threw && r.desk == s.desk else r.outcome != Next && r.desk.history.Then?)
      && (cursor && s.saves > 0 ==> r.desk.history == Then(s.desk.history, if Passes(m, s, p) then Wrote(run, CursorRight) else Lost(run, CursorRight)))
      && (cursor && s.saves > 0 && Passes(m, s, p) ==> r.outcome == Again && r.attempt.flushedAt == Some(p.now))
      && (enter && s.saves > 0 ==> r.desk.history == Then(s.desk.history, if Passes(m, s, p) then Wrote(run, Enter(p.screen)) else Lost(run, Enter(p.screen))))
      && (enter && s.saves > 0 && Passes(m, s, p) ==>
            && r.outcome == Again && r.attempt.flushedAt == None
            && r.desk.checkpoint == Some(cp.(inputSequence := cp.inputSequence + 1, lastSubmitAt := p.now, submitAttempts := cp.submitAttempts + 1)))
      && (!cursor && !enter ==> r == s.(outcome := Again))
  {
    hide Send;
    var cp := s.desk.checkpoint.value;
    SendsWhen(m, s, cp.(inputSequence := cp.inputSequence + 1), CursorRight, p);
    SendsWhen(m, s, cp.(inputSequence := cp.inputSequence + 1, lastSubmitAt := p.now, submitAttempts := cp.submitAttempts + 1), Enter(p.screen), p);
  }

  /** Behind the paste: when the cursor key is pressed, and when Enter. */
  lemma PressesWhen(m: Message, s: Step, p: Poll)
    requires s.attempt.run in s.desk.counters && s.desk.checkpoint.Some? && s.outcome == Next
    ensures var cp, run, r := s.desk.checkpoint.value, s.attempt.run, Submit(m, s, p);
      var writes := MaySubmit(m, s, p) && SavesLeft(s) > 0 && Passes(m, s, p);
      && (r.desk.history == Then(s.desk.history, Wrote(run, CursorRight)) <==> writes && KeyDue(m, cp, s.attempt))
      && (r.desk.history == Then(s.desk.history, Wrote(run, Enter(p.screen))) <==> writes && KeySettled(m, cp, s.attempt, p))
      && (writes && KeyDue(m, cp, s.attempt) ==> r.outcome == Again && r.attempt.flushedAt == Some(p.now))
      && (writes && KeySettled(m, cp, s.attempt, p) ==>
            && r.outcome == Again && r.attempt.flushedAt == None
            && r.desk.checkpoint == Some(cp.(pasteConfirmed := true, inputSequence := cp.inputSequence + 1, lastSubmitAt := p.now,
                                             submitAttempts := cp.submitAttempts + 1)))
  {
    hide Shows, DraftOf, PressKeys;
    ThenDiffers(s.desk.history, Wrote(s.attempt.run, Enter(p.screen)));
    ThenDiffers(s.desk.history, Wrote(s.attempt.run, CursorRight));
    KeysWhen(m, Confirmed(s), p);
  }

  /** The step behind the note that the paste has been seen. */
  function Confirmed(s: Step): Step
    requires s.desk.checkpoint.Some?
  {
    if s.desk.checkpoint.value.pasteConfirmed || s.saves == 0 then s else Save(s, s.desk.checkpoint.value.(pasteConfirmed := true))
  }

  /** And when it stops or waits without a key. */
  lemma WaitsWhen(m: Message, s: Step, p: Poll)
    requires s.attempt.run in s.desk.counters && s.desk.checkpoint.Some? && s.outcome == Next
    ensures var cp, r := s.desk.checkpoint.value, Submit(m, s, p);
      var ours := s.desk.counters[s.attempt.run] == cp.inputSequence;
      var key := MaySubmit(m, s, p) && (KeyDue(m, cp, s.attempt) || KeySettled(m, cp, s.attempt, p));
      && (r.outcome == Threw && r.desk.history == s.desk.history <==>
            !ours || (Shows(DraftOf(m, cp), p.screen) && !cp.pasteConfirmed && s.saves == 0) || (key && SavesLeft(s) == 0))
      && (r.outcome == Again && r.desk.history == s.desk.history <==>
            ours && !key && (Shows(DraftOf(m, cp), p.screen) ==> cp.pasteConfirmed || s.saves > 0))
  {
    hide Shows, DraftOf, PressKeys;
    ThenDiffers(s.desk.history, Wrote(s.attempt.run, Enter(p.screen)));
    ThenDiffers(s.desk.history, Lost(s.attempt.run, Enter(p.screen)));
    ThenDiffers(s.desk.history, Wrote(s.attempt.run, CursorRight));
    ThenDiffers(s.desk.history, Lost(s.attempt.run, CursorRight));
    KeysWhen(m, Confirmed(s), p);
  }

  /** The journal of a known session is read from where its unfinished last record begins, a session yet unknown from 0. */
  lemma PlacedAt(p: Poll)
    ensures p.session.None? ==> JournalOffset(p) == Wrappers.Success(0)
    ensures p.session.Some? && JournalOffset(p).Success? ==>
              JournalOffset(p).value <= |p.journal| && p.journal[JournalOffset(p).value..] == CodexReportJournal.Tail(p.journal)
  {
    hide CodexReportJournal.Tail, CodexReportJournal.FullRead, CodexReportJournal.Unbroken;
    if p.session.Some? { CodexReportJournal.OffsetIsLastBoundary(p.journal); }
  }

  predicate Offers(m: Message, p: Poll) {
    EmptyComposer(ComposerOf(p.screen).line) && p.codexContext && (p.session.Some? || m.allowUnbound)
  }

  predicate Placed(p: Poll) { JournalOffset(p).Success? && (p.session.Some? ==> !p.sessionMissing) }

  /** A paste goes out if and only if the composer is empty in a Codex session that is known or need not be, its file is
      there and has a place to read from, the checkpoint is stored, and the guard lets it through. */
  lemma PastesWhen(m: Message, s: Step, p: Poll)
    requires s.attempt.run in s.desk.counters && s.desk.checkpoint.None? && s.outcome == Next
    ensures var run, r := s.attempt.run, Offer(m, s, p);
      var offers, placed := Offers(m, p), Placed(p);
      && (r.outcome == Again && r.desk == s.desk <==> !offers)
      && (r.outcome == Threw && r.desk == s.desk <==> offers && (!placed || s.saves == 0))
      && (offers && placed && s.saves > 0 ==>
            && r.desk.checkpoint == Some(Checkpoint(run, s.desk.counters[run] + 1, 0, false, 0, p.session, p.session.None?,
                                                    if m.windows then JsonString(m.digest) else PlainText,
                                                    JournalOffset(p).value))
            && r.desk.history.Then? && r.desk.history.past == Then(s.desk.history, Opened(run)) && r.desk.history.event.key.Paste?
            && (r.outcome == Again <==> Passes(m, s, p)) && (r.desk.history.event.Wrote? <==> Passes(m, s, p)))
  {
    hide EmptyComposer, ComposerOf, DraftOf, JournalOffset;
    PlacedAt(p);
  }

  /** A message that was handed over at the launch, one with a broken checkpoint, or one whose payload has changed since its
      checkpoint is refused before anything else. */
  lemma RefusedWhen(m: Message, d: Desk, run: RunId, polls: seq<Poll>, dies: bool)
    requires run in d.counters && d.checkpoint.Some?
    requires d.checkpoint.value.wire.NativeInitial? || d.checkpoint.value.wire.InvalidWire?
             || (d.checkpoint.value.wire.JsonString? && d.checkpoint.value.wire.digest != m.digest)
    ensures Deliver(m, d, run, polls, dies) == Result(d, Threw)
  {}
}
