/** What a delivery that reports success has seen in the journal, and that an undisturbed one succeeds
    (src/server/codex-report-delivery.ts, src/server/codex-report-journal.ts). */
module CodexDeliveryReceipt {
  import opened Wrappers
  import opened CodexComposer
  import opened CodexDeliveryTrace
  import opened CodexReportDelivery
  import opened CodexDeliverySafety
  import opened J = CodexReportJournal
  import CodexMessageEncoding
  import M = MessageDelivery
  import R = DeliveryRecheck

  /** The journal of a session only grows. */
  ghost predicate AppendOnly(polls: seq<Poll>) {
    forall i, j :: 0 <= i <= j < |polls| ==> polls[i].journal <= polls[j].journal
  }

  /** The complete lines behind the offset hold a matching receipt, and nothing malformed before it. */
  ghost predicate ReceiptBehind(m: Message, journal: seq<Byte>, offset: nat) {
    offset <= |journal| && Judge(Lines(journal[offset..]), m.records) == Found
  }

  /** What the reader has seen is what stands in this journal behind its offset. */
  ghost predicate SeenIn(r: Reader, journal: seq<Byte>) {
    r.seen == [] || (r.offset + |r.seen| <= |journal| && journal[r.offset..r.offset + |r.seen|] == r.seen)
  }

  /** Up to poll `i` the reader has read from the checkpoint's offset. */
  ghost predicate Tracks(checkpoint: Option<Checkpoint>, a: Attempt, polls: seq<Poll>, i: nat) {
    a.reader.Some? ==>
      && checkpoint.Some? && a.reader.value.offset == checkpoint.value.offset
      && forall k :: i <= k < |polls| ==> SeenIn(a.reader.value, polls[k].journal)
  }

  /** In a `first` attempt the offset of a known session was taken at the poll that pasted. */
  ghost predicate FromPaste(first: bool, checkpoint: Option<Checkpoint>, polls: seq<Poll>, i: nat, paste: nat) {
    first && checkpoint.Some? && !checkpoint.value.captured ==>
      && paste < i && paste < |polls|
      && ReportJournalOffset(polls[paste].journal, FullRead(polls[paste].journal)) == Wrappers.Success(checkpoint.value.offset)
  }

  lemma LookSeesFile(r: Reader, journal: seq<Byte>, length: nat, sizeAfter: nat, kind: seq<Byte> -> LineKind)
    requires SeenIn(r, journal) && LookAt(r, journal, length, sizeAfter, kind).reading.Success?
    ensures var next := LookAt(r, journal, length, sizeAfter, kind).reader;
            next.offset == r.offset && r.offset + |next.seen| <= |journal| && journal[r.offset..r.offset + |next.seen|] == next.seen
  {
    hide Judge, Lines, Tail, Chunk, SeenIn;
    Extended(r, journal, Chunk(r, journal, length));
  }

  lemma Extended(r: Reader, journal: seq<Byte>, chunk: seq<Byte>)
    requires SeenIn(r, journal) && r.offset + |r.seen| + |chunk| <= |journal|
    requires chunk == journal[r.offset + |r.seen|..r.offset + |r.seen| + |chunk|]
    ensures journal[r.offset..r.offset + |r.seen + chunk|] == r.seen + chunk
  {
    var position := r.offset + |r.seen|;
    assert journal[r.offset..position + |chunk|] == journal[r.offset..position] + journal[position..position + |chunk|];
  }

  lemma SeenLater(r: Reader, journal: seq<Byte>, later: seq<Byte>)
    requires r.offset + |r.seen| <= |journal| && journal[r.offset..r.offset + |r.seen|] == r.seen && journal <= later
    ensures SeenIn(r, later)
  {
    assert later[r.offset..r.offset + |r.seen|] == journal[r.offset..r.offset + |r.seen|];
  }

  lemma FoundInPrefix(m: Message, r: Reader, journal: seq<Byte>)
    requires r.offset + |r.seen| <= |journal| && journal[r.offset..r.offset + |r.seen|] == r.seen
    requires Judge(Lines(r.seen), m.records) == Found
    ensures ReceiptBehind(m, journal, r.offset)
  {
    hide Judge, Lines;
    var rest := journal[r.offset + |r.seen|..];
    assert journal[r.offset..] == r.seen + rest;
    DecidedStays(r.seen, rest, m.records);
  }

  // ---- Stage by stage ----

  lemma BindTracks(first: bool, s: Step, p: Poll, polls: seq<Poll>, i: nat, paste: nat)
    requires Tracks(s.desk.checkpoint, s.attempt, polls, i) && FromPaste(first, s.desk.checkpoint, polls, i, paste)
    ensures var r := BindSession(s, p); r.outcome == Next ==>
              Tracks(r.desk.checkpoint, r.attempt, polls, i) && FromPaste(first, r.desk.checkpoint, polls, i, paste)
  {
    hide ReportJournalOffset;
  }

  lemma JournalTracks(m: Message, s: Step, polls: seq<Poll>, i: nat)
    requires i < |polls| && AppendOnly(polls) && Tracks(s.desk.checkpoint, s.attempt, polls, i)
    requires s.outcome == Next
    ensures var r := ReadJournal(m, s, polls[i]);
            && (r.outcome == Again || r.outcome == Next ==> Tracks(s.desk.checkpoint, r.attempt, polls, i + 1))
            && (r.outcome == Delivered ==> s.desk.checkpoint.Some? && ReceiptBehind(m, polls[i].journal, s.desk.checkpoint.value.offset))
  {
    hide LookAt, SeenIn, ReceiptBehind;
    var p := polls[i];
    if s.attempt.reader.Some? && !p.journalFails {
      var r := s.attempt.reader.value;
      var look := LookAt(r, p.journal, p.length, |p.journal| + p.grown, m.records);
      if look.reading.Success? {
        LookSeesFile(r, p.journal, p.length, |p.journal| + p.grown, m.records);
        forall k | i + 1 <= k < |polls| ensures SeenIn(look.reader, polls[k].journal) {
          SeenLater(look.reader, p.journal, polls[k].journal);
        }
        if look.reading.value.found {
          FoundWasJudged(r, p.journal, p.length, |p.journal| + p.grown, m.records);
          FoundInPrefix(m, look.reader, p.journal);
        }
      }
    }
  }

  lemma FoundWasJudged(r: Reader, journal: seq<Byte>, length: nat, sizeAfter: nat, kind: seq<Byte> -> LineKind)
    requires LookAt(r, journal, length, sizeAfter, kind).reading.Success? && LookAt(r, journal, length, sizeAfter, kind).reading.value.found
    ensures Judge(Lines(LookAt(r, journal, length, sizeAfter, kind).reader.seen), kind) == Found
  {
    hide Judge, Lines, Tail;
  }

  /** A stage that touches neither the reader nor what the checkpoint says about the journal. */
  ghost predicate LeavesJournal(s: Step, r: Step) {
    && r.outcome != Delivered && r.attempt.reader == s.attempt.reader
    && (r.desk.checkpoint.Some? <==> s.desk.checkpoint.Some?)
    && (r.desk.checkpoint.Some? ==>
          r.desk.checkpoint.value.offset == s.desk.checkpoint.value.offset && r.desk.checkpoint.value.captured == s.desk.checkpoint.value.captured)
  }

  lemma SendLeaves(m: Message, s: Step, next: Checkpoint, key: Key, p: Poll)
    requires s.attempt.run in s.desk.counters && s.desk.checkpoint.Some? && s.outcome == Next
    requires next.offset == s.desk.checkpoint.value.offset && next.captured == s.desk.checkpoint.value.captured
    ensures LeavesJournal(s, Send(m, s, next, key, p))
  {}

  lemma PressLeaves(m: Message, s: Step, p: Poll)
    requires s.attempt.run in s.desk.counters && s.desk.checkpoint.Some? && s.outcome == Next
    ensures LeavesJournal(s, PressKeys(m, s, p))
  {
    hide Send;
    var cp := s.desk.checkpoint.value;
    SendLeaves(m, s, cp.(inputSequence := cp.inputSequence + 1), CursorRight, p);
    SendLeaves(m, s, cp.(inputSequence := cp.inputSequence + 1, lastSubmitAt := p.now, submitAttempts := cp.submitAttempts + 1), Enter(p.screen), p);
  }

  lemma SubmitLeaves(m: Message, s: Step, p: Poll)
    requires s.attempt.run in s.desk.counters && s.desk.checkpoint.Some? && s.outcome == Next
    ensures LeavesJournal(s, Submit(m, s, p))
  {
    hide Shows, DraftOf, PressKeys;
    var cp := s.desk.checkpoint.value;
    PressLeaves(m, if cp.pasteConfirmed || s.saves == 0 then s else Save(s, cp.(pasteConfirmed := true)), p);
  }

  lemma OfferTracks(first: bool, m: Message, s: Step, polls: seq<Poll>, i: nat)
    requires i < |polls| && s.attempt.run in s.desk.counters && s.desk.checkpoint.None? && s.attempt.reader.None? && s.outcome == Next
    ensures var r := Offer(m, s, polls[i]);
            && r.outcome != Delivered
            && (r.outcome == Again ==> Tracks(r.desk.checkpoint, r.attempt, polls, i + 1) && FromPaste(first, r.desk.checkpoint, polls, i + 1, i))
  {
    hide MayOffer, DraftOf, ReportJournalOffset;
  }

  lemma PollTracks(first: bool, m: Message, d: Desk, a: Attempt, polls: seq<Poll>, i: nat, paste: nat) returns (paste': nat)
    requires i < |polls| && a.run in d.counters && AppendOnly(polls)
    requires Tracks(d.checkpoint, a, polls, i) && FromPaste(first, d.checkpoint, polls, i, paste)
    ensures var s := PollOnce(m, d, a, polls[i]);
            && (s.outcome == Again ==> Tracks(s.desk.checkpoint, s.attempt, polls, i + 1) && FromPaste(first, s.desk.checkpoint, polls, i + 1, paste'))
            && (s.outcome == Delivered ==>
                  && s.desk.checkpoint.Some? && ReceiptBehind(m, polls[i].journal, s.desk.checkpoint.value.offset)
                  && FromPaste(first, s.desk.checkpoint, polls, i, paste'))
  {
    hide BindSession, ReadJournal, CheckRun, Offer, Submit, ForeignInput, ReceiptBehind, SeenIn, ReportJournalOffset;
    var p := polls[i];
    paste' := paste;
    var start := Step(ForeignInput(d, a.run, p.before), a, p.saves, Next);
    BindTracks(first, start, p, polls, i, paste);
    var bound := BindSession(start, p);
    if bound.outcome == Next {
      JournalTracks(m, bound, polls, i);
      var read := ReadJournal(m, bound, p);
      if read.outcome == Next {
        RunIsNotDelivered(m, read, p);
        var ready := CheckRun(m, read, p);
        if ready.outcome == Next {
          if ready.desk.checkpoint.None? {
            OfferTracks(first, m, ready, polls, i);
            if Offer(m, ready, p).desk.checkpoint.Some? { paste' := i; }
          } else {
            SubmitLeaves(m, ready, p);
          }
        }
      }
    } else {
      BindIsNotDelivered(start, p);
    }
  }

  lemma BindIsNotDelivered(s: Step, p: Poll)
    requires s.outcome == Next
    ensures BindSession(s, p).outcome == Next || BindSession(s, p).outcome == Threw
  {}

  lemma RunIsNotDelivered(m: Message, s: Step, p: Poll)
    requires s.attempt.run in s.desk.counters && s.outcome == Next
    ensures CheckRun(m, s, p).outcome == Next || CheckRun(m, s, p).outcome == Threw
  {
    hide ForeignInput;
  }

  lemma {:induction false} LoopDelivers(first: bool, m: Message, d: Desk, a: Attempt, polls: seq<Poll>, i: nat, dies: bool, paste: nat)
    returns (n: nat, paste': nat)
    requires i <= |polls| && a.run in d.counters && AppendOnly(polls)
    requires Tracks(d.checkpoint, a, polls, i) && FromPaste(first, d.checkpoint, polls, i, paste)
    requires Loop(m, d, a, polls, i, dies).outcome == Delivered
    ensures n < |polls| && var cp := Loop(m, d, a, polls, i, dies).desk.checkpoint;
              cp.Some? && ReceiptBehind(m, polls[n].journal, cp.value.offset) && FromPaste(first, cp, polls, n, paste')
    decreases |polls| - i
  {
    hide PollOnce, Tracks, FromPaste, AppendOnly, ReceiptBehind;
    paste' := PollTracks(first, m, d, a, polls, i, paste);
    var s := PollOnce(m, d, a, polls[i]);
    if s.outcome == Again {
      n, paste' := LoopDelivers(first, m, s.desk, s.attempt, polls, i + 1, dies, paste');
    } else {
      n := i;
    }
  }

  // ---- What `delivered` means ----

  /** A call that reports success, also a retry, has a matching receipt among the complete lines behind the offset of
      its checkpoint: line `k` of them is one, and no line before it is malformed. */
  lemma {:induction false} DeliveredHasReceipt(m: Message, d: Desk, run: RunId, polls: seq<Poll>, dies: bool) returns (n: nat, k: nat)
    requires run in d.counters && AppendOnly(polls) && Deliver(m, d, run, polls, dies).outcome == Delivered
    ensures Deliver(m, d, run, polls, dies).desk.checkpoint.Some? && n < |polls|
    ensures var offset := Deliver(m, d, run, polls, dies).desk.checkpoint.value.offset;
            && offset <= |polls[n].journal| && k < |Lines(polls[n].journal[offset..])|
            && m.records(Lines(polls[n].journal[offset..])[k]) == Receipt
            && forall j :: 0 <= j < k ==> m.records(Lines(polls[n].journal[offset..])[j]) != Malformed
  {
    hide Loop, Judge, Lines, FromPaste;
    var a := Attempt(run, d.counters[run], None, None);
    NotFirst(d.checkpoint, polls);
    var paste;
    n, paste := LoopDelivers(false, m, d, a, polls, 0, dies, 0);
    var lines := Lines(polls[n].journal[Loop(m, d, a, polls, 0, dies).desk.checkpoint.value.offset..]);
    JudgeFound(lines, m.records);
    k :| 0 <= k < |lines| && m.records(lines[k]) == Receipt && forall j :: 0 <= j < k ==> m.records(lines[j]) != Malformed;
  }

  lemma NotFirst(checkpoint: Option<Checkpoint>, polls: seq<Poll>)
    ensures FromPaste(false, checkpoint, polls, 0, 0) && (checkpoint.None? ==> FromPaste(true, checkpoint, polls, 0, 0))
  {}

  /** A first attempt in a known session that reports success: the lines behind the offset, which hold the receipt,
      are exactly those completed since the poll that pasted. */
  lemma {:induction false} DeliveredReceiptIsNew(m: Message, d: Desk, run: RunId, polls: seq<Poll>, dies: bool) returns (paste: nat, n: nat)
    requires run in d.counters && d.checkpoint.None? && AppendOnly(polls)
    requires var r := Deliver(m, d, run, polls, dies); r.outcome == Delivered && r.desk.checkpoint.Some? && !r.desk.checkpoint.value.captured
    ensures paste < n < |polls| && var offset := Deliver(m, d, run, polls, dies).desk.checkpoint.value.offset;
            && offset <= |polls[n].journal|
            && Lines(polls[n].journal) == Lines(polls[paste].journal) + Lines(polls[n].journal[offset..])
            && Judge(Lines(polls[n].journal[offset..]), m.records) == Found
  {
    hide Loop, Judge, Lines, ReportJournalOffset, FullRead;
    var a := Attempt(run, d.counters[run], None, None);
    n, paste := LoopDelivers(true, m, d, a, polls, 0, dies, 0);
    OffsetSkipsOldRecords(polls[paste].journal, polls[n].journal, Deliver(m, d, run, polls, dies).desk.checkpoint.value.offset);
  }

  // ---- What `confirmed` means, over whole runs ----

  /** The files behave as journals do: while a call reads one it only grows, and what a kept reader has read of it
      still stands there. `tests` is the message's test of a line. */
  ghost predicate JournalGrows(w: M.World, action: M.Action, tests: Checkpoint -> R.LineTest) {
    && (action.Deliver? ==> AppendOnly(action.polls))
    && (action.Recheck? ==>
          && action.tests == tests && R.Grows(action.journal)
          && (w.reader.Some? && w.desk.checkpoint.Some? && R.BoundCheckpoint(w.desk.checkpoint.value, action.binding) == Some(w.reader.value.checkpoint) ==>
                R.StandsIn(w.reader.value, action.journal(0).journal)))
  }

  ghost predicate JournalsGrow(actions: seq<M.Action>, tests: Checkpoint -> R.LineTest) {
    forall i :: 0 <= i < |actions| ==> JournalGrows(M.Run(actions[..i]), actions[i], tests)
  }

  /** The worker itself has said that it has the message. */
  predicate ByWorker(action: M.Action) { action.Acknowledge? || (action.Deliver? && action.acknowledged) }

  /** A receipt stands in the journal, as this action has met it, behind the offset of the checkpoint. */
  ghost predicate Evidence(action: M.Action, cp: Checkpoint, tests: Checkpoint -> R.LineTest) {
    || (action.Deliver? && exists n :: 0 <= n < |action.polls| && R.HasReceipt(action.polls[n].journal, cp.offset, action.message.records))
    || (action.Recheck? && exists n :: 0 <= n < R.MAX_READS && R.HasReceipt(action.journal(n).journal, cp.offset, tests(cp)))
  }

  ghost predicate ReaderOk(w: M.World, tests: Checkpoint -> R.LineTest) {
    w.reader.Some? ==> R.KeptOk(w.reader.value, tests(w.reader.value.checkpoint))
  }

  lemma DeliverConfirms(w: M.World, a: M.Action)
    requires a.Deliver? && !a.acknowledged && w.record.phase != M.Confirmed && AppendOnly(a.polls) && M.After(w, a).record.phase == M.Confirmed
    ensures M.After(w, a).desk.checkpoint.Some?
    ensures exists n :: 0 <= n < |a.polls| && R.HasReceipt(a.polls[n].journal, M.After(w, a).desk.checkpoint.value.offset, a.message.records)
  {
    hide Deliver, AppendOnly, Lines;
    var n, k := DeliveredHasReceipt(a.message, w.desk, a.run, a.polls, a.dies);
    assert R.HasReceipt(a.polls[n].journal, M.After(w, a).desk.checkpoint.value.offset, a.message.records);
  }

  lemma RecheckConfirms(w: M.World, a: M.Action, tests: Checkpoint -> R.LineTest)
    requires a.Recheck? && JournalGrows(w, a, tests) && ReaderOk(w, tests)
    ensures ReaderOk(M.After(w, a), tests)
    ensures w.record.phase != M.Confirmed && M.After(w, a).record.phase == M.Confirmed ==>
              M.After(w, a).desk.checkpoint.Some? && Evidence(a, M.After(w, a).desk.checkpoint.value, tests)
  {
    hide R.ReadOn, R.KeptOk, R.StandsIn, R.Grows, R.HasReceipt;
    if w.desk.checkpoint.Some? && R.BoundCheckpoint(w.desk.checkpoint.value, a.binding).Some? {
      var bound := R.BoundCheckpoint(w.desk.checkpoint.value, a.binding).value;
      var k := if M.KeepsReader(w, bound) then w.reader.value else R.FreshReader(bound);
      FreshIsOk(bound, a.journal(0).journal, tests(bound));
      R.ReadOnFinds(k, a.journal, tests(bound), 0);
    }
  }

  lemma FreshIsOk(cp: Checkpoint, journal: seq<Byte>, kind: R.LineTest)
    ensures R.KeptOk(R.FreshReader(cp), kind) && R.StandsIn(R.FreshReader(cp), journal)
  {}

  lemma StepConfirms(w: M.World, a: M.Action, tests: Checkpoint -> R.LineTest)
    requires JournalGrows(w, a, tests) && ReaderOk(w, tests)
    ensures ReaderOk(M.After(w, a), tests)
    ensures w.record.phase != M.Confirmed && M.After(w, a).record.phase == M.Confirmed && !ByWorker(a) ==>
              M.After(w, a).desk.checkpoint.Some? && Evidence(a, M.After(w, a).desk.checkpoint.value, tests)
  {
    hide R.KeptOk, R.StandsIn, R.Grows, R.HasReceipt, Deliver, ForeignInput, AppendOnly;
    if a.Recheck? {
      RecheckConfirms(w, a, tests);
    } else if a.Deliver? && !a.acknowledged && w.record.phase != M.Confirmed && M.After(w, a).record.phase == M.Confirmed {
      DeliverConfirms(w, a);
    }
  }

  lemma ConfirmedStays(w: M.World, a: M.Action)
    requires w.record.phase == M.Confirmed
    ensures M.After(w, a).record.phase == M.Confirmed && M.After(w, a).desk.checkpoint == w.desk.checkpoint
  {}

  /** Action `i` confirmed the message: a word of the worker, or a call that has met the receipt behind the offset of the
      checkpoint that the record still carries at the end of the run. */
  ghost predicate ConfirmedBy(actions: seq<M.Action>, i: nat, tests: Checkpoint -> R.LineTest) {
    && i < |actions|
    && M.Run(actions[..i]).record.phase != M.Confirmed && M.Run(actions[..i + 1]).record.phase == M.Confirmed
    && (ByWorker(actions[i])
        || (M.Run(actions).desk.checkpoint.Some? && Evidence(actions[i], M.Run(actions).desk.checkpoint.value, tests)))
  }

  lemma FrontGrows(actions: seq<M.Action>, tests: Checkpoint -> R.LineTest)
    requires actions != [] && JournalsGrow(actions, tests)
    ensures var front := actions[..|actions| - 1]; JournalsGrow(front, tests) && JournalGrows(M.Run(front), actions[|actions| - 1], tests)
  {
    hide JournalGrows, M.Run;
    var front := actions[..|actions| - 1];
    forall j | 0 <= j < |front| ensures JournalGrows(M.Run(front[..j]), front[j], tests) {
      assert front[..j] == actions[..j] && front[j] == actions[j];
    }
  }

  /** What is confirmed stays as it was confirmed. */
  lemma ConfirmedByStays(actions: seq<M.Action>, i: nat, tests: Checkpoint -> R.LineTest)
    requires actions != [] && ConfirmedBy(actions[..|actions| - 1], i, tests) && M.Run(actions[..|actions| - 1]).record.phase == M.Confirmed
    ensures ConfirmedBy(actions, i, tests)
  {
    hide Evidence, M.After;
    var front := actions[..|actions| - 1];
    assert front[..i] == actions[..i] && front[..i + 1] == actions[..i + 1] && front[i] == actions[i];
    ConfirmedStays(M.Run(front), actions[|actions| - 1]);
  }

  lemma ConfirmedNow(actions: seq<M.Action>, tests: Checkpoint -> R.LineTest)
    requires actions != [] && JournalGrows(M.Run(actions[..|actions| - 1]), actions[|actions| - 1], tests)
    requires ReaderOk(M.Run(actions[..|actions| - 1]), tests)
    ensures ReaderOk(M.Run(actions), tests)
    ensures M.Run(actions[..|actions| - 1]).record.phase != M.Confirmed && M.Run(actions).record.phase == M.Confirmed ==>
              ConfirmedBy(actions, |actions| - 1, tests)
  {
    hide JournalGrows, ReaderOk, Evidence, M.After;
    var n := |actions| - 1;
    StepConfirms(M.Run(actions[..n]), actions[n], tests);
    assert actions[..n + 1] == actions;
  }

  /** In every run, in every state: a message that is confirmed was confirmed by its worker, or by a call that has met
      its receipt in the journal, behind the offset of the checkpoint the record still carries. */
  lemma {:induction false} ConfirmedHasReceipt(actions: seq<M.Action>, tests: Checkpoint -> R.LineTest) returns (i: nat)
    requires JournalsGrow(actions, tests)
    ensures ReaderOk(M.Run(actions), tests)
    ensures M.Run(actions).record.phase == M.Confirmed ==> ConfirmedBy(actions, i, tests)
  {
    hide JournalsGrow, JournalGrows, ReaderOk, ConfirmedBy, M.Run;
    i := 0;
    NothingConfirmed(tests);
    if actions != [] {
      var front := actions[..|actions| - 1];
      FrontGrows(actions, tests);
      i := ConfirmedHasReceipt(front, tests);
      ConfirmedNow(actions, tests);
      if M.Run(front).record.phase == M.Confirmed {
        ConfirmedByStays(actions, i, tests);
      } else {
        i := |actions| - 1;
      }
    }
  }

  lemma NothingConfirmed(tests: Checkpoint -> R.LineTest)
    ensures ReaderOk(M.Run([]), tests) && M.Run([]).record.phase != M.Confirmed
  {}

  // ---- Progress: in a cooperative terminal the message does get through ----

  /** What is pasted into a known session. */
  function BoundDraft(m: Message): Draft {
    if m.windows then Draft(CodexMessageEncoding.Encode(Payload(m)), Encoded, m.marker) else Draft(Payload(m), Bound, m.marker)
  }

  /** The screen shows the paste, and nothing is new in the journal. */
  predicate ShowsPaste(m: Message, p: Poll, journal: seq<Byte>) {
    p.journal == journal && p.grown == 0 && p.now >= SUBMIT_INTERVAL_MS && Shows(BoundDraft(m), p.screen)
  }

  /** An empty composer of a known session, the visible paste and then its record at the end of the journal, with nobody
      interfering. */
  predicate Cooperative(m: Message, paste: Poll, flush: Poll, submit: Poll, receipt: Poll, line: seq<Byte>) {
    && (forall p :: p in [paste, flush, submit, receipt] ==> Undisturbed(p) && !p.journalFails && p.permit.Granted?)
    && MayOffer(m, paste) && paste.session.Some? && !paste.sessionMissing
    && paste.journal != [] && paste.journal[|paste.journal| - 1] == NEWLINE
    && ShowsPaste(m, flush, paste.journal) && ShowsPaste(m, submit, paste.journal) && submit.now >= flush.now + FLUSH_SETTLE_MS
    && receipt.journal == paste.journal + line + [NEWLINE] && NEWLINE !in line && m.records(line) == Receipt
    && |line| < READ_LIMIT && |line| < receipt.length
  }

  /** Then there is one paste, one Enter, and the message is delivered. Windows needs a poll for the flush key in between. */
  lemma CooperativeDelivery(m: Message, d: Desk, run: RunId, paste: Poll, flush: Poll, submit: Poll, receipt: Poll, line: seq<Byte>)
    requires run in d.counters && d.checkpoint.None?
    ensures var r := Deliver(m, d, run, if m.windows then [paste, flush, submit, receipt] else [paste, submit, receipt], false);
            var pasted := Then(Then(d.history, Opened(run)), Wrote(run, Paste(BoundDraft(m))));
            Cooperative(m, paste, flush, submit, receipt, line) ==>
              && r.outcome == Delivered
              && r.desk.history == Then(if m.windows then Then(pasted, Wrote(run, CursorRight)) else pasted, Wrote(run, Enter(submit.screen)))
  {
    hide PollOnce, Shows, MayOffer, BoundDraft, Unsubmitted;
    if Cooperative(m, paste, flush, submit, receipt, line) {
      assert paste in [paste, flush, submit, receipt] && flush in [paste, flush, submit, receipt]
          && submit in [paste, flush, submit, receipt] && receipt in [paste, flush, submit, receipt];
      var polls := if m.windows then [paste, flush, submit, receipt] else [paste, submit, receipt];
      var a := Attempt(run, d.counters[run], None, None);
      var s := PasteStep(m, d, a, paste);
      var at := 1;
      assert Loop(m, d, a, polls, 0, false) == Loop(m, s.desk, s.attempt, polls, 1, false);
      if m.windows {
        var flushed := FlushStep(m, s.desk, s.attempt, flush);
        assert Loop(m, s.desk, s.attempt, polls, 1, false) == Loop(m, flushed.desk, flushed.attempt, polls, 2, false);
        s, at := flushed, 2;
      }
      var e := SubmitStep(m, s.desk, s.attempt, submit, paste.journal);
      assert Loop(m, s.desk, s.attempt, polls, at, false) == Loop(m, e.desk, e.attempt, polls, at + 1, false);
      var r := ReceiptStep(m, e.desk, e.attempt, receipt, paste.journal, line);
      assert Loop(m, e.desk, e.attempt, polls, at + 1, false) == Result(r.desk, Delivered);
    }
  }

  /** Enter may be pressed without a further key in front of it. */
  predicate Settled(m: Message, a: Attempt, p: Poll) {
    m.windows ==> a.flushedAt.Some? && p.now >= a.flushedAt.value + FLUSH_SETTLE_MS
  }

  /** An own paste of which nothing has been submitted. */
  predicate Unsubmitted(m: Message, d: Desk, a: Attempt) {
    && a.run in d.counters && a.guard == d.counters[a.run] && d.checkpoint.Some?
    && var cp := d.checkpoint.value;
    && cp.run == a.run && cp.wire == (if m.windows then JsonString(m.digest) else PlainText) && !cp.captured
    && cp.inputSequence == d.counters[a.run] && cp.submitAttempts == 0 && cp.lastSubmitAt == 0
  }

  lemma OffsetAtEnd(journal: seq<Byte>)
    requires journal != [] && journal[|journal| - 1] == NEWLINE
    ensures ReportJournalOffset(journal, FullRead(journal)) == Wrappers.Success(|journal|)
  {
    assert LastNewline(journal, |journal| - FullRead(journal), |journal|) == Some(|journal| - 1);
  }

  lemma NothingNew(r: Reader, journal: seq<Byte>, length: nat, kind: seq<Byte> -> LineKind)
    requires r == Reader(|journal|, [])
    ensures LookAt(r, journal, length, |journal|, kind) == Look(r, Wrappers.Success(Reading(false, true)))
  {
    NothingDecides(kind);
    assert r.seen + Chunk(r, journal, length) == [];
  }

  lemma OneReceipt(r: Reader, before: seq<Byte>, line: seq<Byte>, length: nat, sizeAfter: nat, kind: seq<Byte> -> LineKind)
    requires r == Reader(|before|, []) && NEWLINE !in line && kind(line) == Receipt && |line| < READ_LIMIT && |line| < length
    ensures LookAt(r, before + line + [NEWLINE], length, sizeAfter, kind).reading == Wrappers.Success(Reading(true, true))
  {
    hide Judge, Lines, Tail;
    var journal := before + line + [NEWLINE];
    assert r.seen + Chunk(r, journal, length) == line + [NEWLINE] + [];
    FirstRecord(line, [], kind);
  }

  lemma PasteStep(m: Message, d: Desk, a: Attempt, p: Poll) returns (s: Step)
    requires a.run in d.counters && a.guard == d.counters[a.run] && d.checkpoint.None? && a.reader.None? && a.flushedAt.None?
    requires Undisturbed(p) && p.permit.Granted? && MayOffer(m, p) && p.session.Some? && !p.sessionMissing
    requires p.journal != [] && p.journal[|p.journal| - 1] == NEWLINE
    ensures s == PollOnce(m, d, a, p) && s.outcome == Again && s.attempt.run == a.run && s.attempt.reader == Some(Reader(|p.journal|, []))
    ensures s.attempt.run in s.desk.counters && Unsubmitted(m, s.desk, s.attempt) && s.attempt.flushedAt.None?
    ensures s.desk.history == Then(Then(d.history, Opened(a.run)), Wrote(a.run, Paste(BoundDraft(m))))
  {
    hide MayOffer, ReportJournalOffset, Payload;
    OffsetAtEnd(p.journal);
    assert Ready(m, d, a, p) == Step(d, a, p.saves, Next);
    s := PollOnce(m, d, a, p);
  }

  lemma ReadyToPress(m: Message, d: Desk, a: Attempt, p: Poll)
    requires Unsubmitted(m, d, a) && a.reader == Some(Reader(|p.journal|, [])) && p.grown == 0 && !p.journalFails && Undisturbed(p)
    ensures Ready(m, d, a, p) == Step(d, a, p.saves, Next)
  {
    hide LookAt;
    NothingNew(a.reader.value, p.journal, p.length, m.records);
  }

  lemma SameBoundDraft(m: Message, cp: Checkpoint)
    requires cp.wire == (if m.windows then JsonString(m.digest) else PlainText) && !cp.captured
    ensures DraftOf(m, cp) == BoundDraft(m)
  {}

  lemma FlushStep(m: Message, d: Desk, a: Attempt, p: Poll) returns (s: Step)
    requires m.windows && Unsubmitted(m, d, a) && a.flushedAt.None? && a.reader == Some(Reader(|p.journal|, []))
    requires Undisturbed(p) && !p.journalFails && p.permit.Granted?
    ensures a.run in d.counters && s == PollOnce(m, d, a, p) && s.attempt.run in s.desk.counters
    ensures ShowsPaste(m, p, p.journal) ==>
              && s.outcome == Again && s.attempt.run == a.run && s.attempt.reader == a.reader
              && Unsubmitted(m, s.desk, s.attempt) && s.attempt.flushedAt == Some(p.now)
              && s.desk.history == Then(d.history, Wrote(a.run, CursorRight))
  {
    hide Shows, DraftOf, BoundDraft, Ready;
    s := PollOnce(m, d, a, p);
    if ShowsPaste(m, p, p.journal) {
      ReadyToPress(m, d, a, p);
      SameBoundDraft(m, d.checkpoint.value);
    }
  }

  lemma SubmitStep(m: Message, d: Desk, a: Attempt, p: Poll, journal: seq<Byte>) returns (s: Step)
    requires Unsubmitted(m, d, a) && Settled(m, a, p) && a.reader == Some(Reader(|journal|, []))
    requires Undisturbed(p) && !p.journalFails && p.permit.Granted? && ShowsPaste(m, p, journal)
    ensures a.run in d.counters && s == PollOnce(m, d, a, p) && s.outcome == Again && s.attempt.reader == a.reader && s.attempt.run == a.run
    ensures s.attempt.run in s.desk.counters && s.desk.checkpoint.Some? && s.desk.history == Then(d.history, Wrote(a.run, Enter(p.screen)))
  {
    hide Shows, DraftOf, BoundDraft, Ready;
    ReadyToPress(m, d, a, p);
    SameBoundDraft(m, d.checkpoint.value);
    s := PollOnce(m, d, a, p);
  }

  lemma ReceiptStep(m: Message, d: Desk, a: Attempt, p: Poll, before: seq<Byte>, line: seq<Byte>) returns (s: Step)
    requires a.run in d.counters && d.checkpoint.Some? && Undisturbed(p) && !p.journalFails
    requires a.reader == Some(Reader(|before|, [])) && p.journal == before + line + [NEWLINE]
    requires NEWLINE !in line && m.records(line) == Receipt && |line| < READ_LIMIT && |line| < p.length
    ensures s == PollOnce(m, d, a, p) && s.outcome == Delivered && s.desk == d
  {
    hide LookAt;
    OneReceipt(a.reader.value, before, line, p.length, |p.journal| + p.grown, m.records);
    s := PollOnce(m, d, a, p);
  }
}
