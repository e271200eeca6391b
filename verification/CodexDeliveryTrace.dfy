/** What happens around one message, as a history of events, and the safety that every history of
    the delivery protocol must have. Keys written for other messages are keystrokes here. */
module CodexDeliveryTrace {
  import opened Wrappers
  import opened CodexComposer

  type RunId = nat

  /** A paste with what was pasted, an Enter with the screen that was read in front of it. */
  datatype Key = Paste(draft: Draft) | Enter(screen: string) | CursorRight

  datatype Event =
    | Started(run: RunId)          // a terminal session begins, its input counter at zero
    | Opened(run: RunId)           // the first checkpoint of this message is durable
    | Wrote(run: RunId, key: Key)  // a checkpointed write took effect
    | Lost(run: RunId, key: Key)   // a checkpointed write was refused or the process died before it
    | Launched(run: RunId)         // the message was passed as a launch argument
    | Keystroke(run: RunId)        // somebody else wrote to the terminal
    | TerminalReply(run: RunId)    // an automatic reply of the terminal: not counted as input
    | Resent                       // a person asked for the message to be sent again

  datatype History = Nothing | Then(past: History, event: Event)

  ghost function Events(h: History): seq<Event> {
    match h
    case Nothing => []
    case Then(past, event) => Events(past) + [event]
  }

  // ---- Measures of a history ----

  /** The terminal's input counter: every write since the session began, replies excepted. */
  ghost function Counter(h: History, run: RunId): nat {
    match h
    case Nothing => 0
    case Then(past, event) =>
      if event == Started(run) then 0
      else if event == Keystroke(run) || (event.Wrote? && event.run == run) then Counter(past, run) + 1
      else Counter(past, run)
  }

  /** Whether the message has a checkpoint that no resend has cleared. */
  ghost predicate CheckpointOpen(h: History) {
    match h
    case Nothing => false
    case Then(past, event) => event.Opened? || (event != Resent && CheckpointOpen(past))
  }

  ghost predicate OpenedIn(h: History, run: RunId) {
    match h
    case Nothing => false
    case Then(past, event) =>
      if event.Opened? then event.run == run else OpenedIn(past, run)
  }

  // The remaining measures look back to the latest Opened.

  ghost function Typed(h: History, run: RunId): nat {
    match h
    case Nothing => 0
    case Then(past, event) =>
      if event.Opened? then 0 else Typed(past, run) + if event == Keystroke(run) then 1 else 0
  }

  ghost function LostWrites(h: History, run: RunId): nat {
    match h
    case Nothing => 0
    case Then(past, event) =>
      if event.Opened? then 0 else LostWrites(past, run) + if event.Lost? && event.run == run then 1 else 0
  }

  ghost function Enters(h: History): nat {
    match h
    case Nothing => 0
    case Then(past, event) =>
      if event.Opened? then 0 else Enters(past) + if event.Wrote? && event.key.Enter? then 1 else 0
  }

  /** What was pasted. */
  ghost function DraftIn(h: History, run: RunId): Option<Draft> {
    match h
    case Nothing => None
    case Then(past, event) =>
      if event.Opened? then None
      else if event.Wrote? && event.run == run && event.key.Paste? then Some(event.key.draft)
      else DraftIn(past, run)
  }

  // ---- Safe histories ----

  const MAX_SUBMITS: nat := 3

  /** Own keys after the paste go out only where losses and keystrokes balance; `strict` histories
      have neither, and press Enter only where the screen shows what was pasted. */
  ghost predicate Owned(strict: bool, h: History, run: RunId) {
    && OpenedIn(h, run) && CheckpointOpen(h)
    && Typed(h, run) == LostWrites(h, run)
    && (strict ==> DraftIn(h, run).Some? && Typed(h, run) == 0)
  }

  ghost predicate StepAllowed(strict: bool, before: History, event: Event) {
    match event
    case Opened(_) => !CheckpointOpen(before)
    case Wrote(run, Paste(_)) => before.Then? && before.event == Opened(run)
    case Launched(run) => before.Then? && before.event == Opened(run)
    case Wrote(run, Enter(screen)) =>
      && Owned(strict, before, run) && Enters(before) < MAX_SUBMITS
      && (strict ==> Shows(DraftIn(before, run).value, screen))
    case Wrote(run, CursorRight) => Owned(strict, before, run)
    case _ => true
  }

  ghost predicate Safe(strict: bool, h: History) {
    match h
    case Nothing => true
    case Then(past, event) => Safe(strict, past) && StepAllowed(strict, past, event)
  }

  // ---- What safety means for the sequence of events ----

  ghost predicate Handoff(e: Event) {
    e.Launched? || (e.Wrote? && e.key.Paste?)
  }

  lemma {:induction false} PrefixOf(strict: bool, h: History, i: nat) returns (p: History)
    requires Safe(strict, h) && i < |Events(h)|
    ensures Events(p) == Events(h)[..i] && Safe(strict, p) && StepAllowed(strict, p, Events(h)[i])
  {
    if i == |Events(h)| - 1 {
      p := h.past;
    } else {
      p := PrefixOf(strict, h.past, i);
    }
  }

  lemma {:induction false} LastEvent(h: History)
    requires h.Then?
    ensures |Events(h)| > 0 && Events(h)[|Events(h)| - 1] == h.event
  {}

  lemma {:induction false} ClosedAfter(h: History, i: nat)
    requires !CheckpointOpen(h) && i < |Events(h)| && Events(h)[i].Opened?
    ensures exists k :: i < k < |Events(h)| && Events(h)[k] == Resent
  {
    if h.event == Resent {
      assert Events(h)[|Events(h)| - 1] == Resent;
    } else {
      ClosedAfter(h.past, i);
      var k :| i < k < |Events(h.past)| && Events(h.past)[k] == Resent;
      assert Events(h)[k] == Resent;
    }
  }

  /** A handoff stands directly behind the durable checkpoint of its own session. */
  lemma {:induction false} CheckpointPrecedesHandoff(strict: bool, h: History, j: nat)
    requires Safe(strict, h) && j < |Events(h)| && Handoff(Events(h)[j])
    ensures j > 0 && Events(h)[j - 1] == Opened(Events(h)[j].run)
  {
    var p := PrefixOf(strict, h, j);
    LastEvent(p);
  }

  /** A message is handed over at most once: between two handoffs somebody asked for a resend. */
  lemma {:induction false} HandedOverOnce(strict: bool, h: History, i: nat, j: nat)
    requires Safe(strict, h) && i < j < |Events(h)|
    requires Handoff(Events(h)[i]) && Handoff(Events(h)[j])
    ensures exists k :: i < k < j && Events(h)[k] == Resent
  {
    CheckpointPrecedesHandoff(strict, h, i);
    CheckpointPrecedesHandoff(strict, h, j);
    var p := PrefixOf(strict, h, j - 1);
    assert Events(p)[i - 1] == Events(h)[i - 1];
    ClosedAfter(p, i - 1);
    var k :| i - 1 < k < |Events(p)| && Events(p)[k] == Resent;
    assert Events(h)[k] == Resent;
  }

  lemma {:induction false} OpenedBefore(h: History)
    requires CheckpointOpen(h)
    ensures exists k :: 0 <= k < |Events(h)| && Events(h)[k].Opened?
  {
    if h.event.Opened? {
      assert Events(h)[|Events(h)| - 1].Opened?;
    } else {
      OpenedBefore(h.past);
      var k :| 0 <= k < |Events(h.past)| && Events(h.past)[k].Opened?;
      assert Events(h)[k].Opened?;
    }
  }

  ghost predicate EnterAt(events: seq<Event>, i: nat) {
    i < |events| && events[i].Wrote? && events[i].key.Enter?
  }

  /** With no checkpoint opened in between, the count since then includes these Enters. */
  lemma {:induction false} EntersCounted(h: History, i: nat, j: nat, k: nat)
    requires i < j < k && EnterAt(Events(h), i) && EnterAt(Events(h), j) && EnterAt(Events(h), k)
    requires forall n :: i < n < |Events(h)| ==> !Events(h)[n].Opened?
    ensures Enters(h) >= 3
  {
    if k < |Events(h)| - 1 {
      EnterStays(h.past, Events(h), i, j, k);
      EntersCounted(h.past, i, j, k);
      LastEvent(h);
    } else {
      EnterStays(h.past, Events(h), i, j, j);
      TwoEnters(h.past, i, j);
    }
  }

  lemma EnterStays(past: History, events: seq<Event>, i: nat, j: nat, k: nat)
    requires |events| > 0 && Events(past) == events[..|events| - 1]
    requires i <= j <= k < |events| - 1
    requires EnterAt(events, i) && EnterAt(events, j) && EnterAt(events, k)
    requires forall n :: i < n < |events| ==> !events[n].Opened?
    ensures EnterAt(Events(past), i) && EnterAt(Events(past), j) && EnterAt(Events(past), k)
    ensures forall n :: i < n < |Events(past)| ==> !Events(past)[n].Opened?
  {}

  lemma {:induction false} TwoEnters(h: History, i: nat, j: nat)
    requires i < j && EnterAt(Events(h), i) && EnterAt(Events(h), j)
    requires forall n :: i < n < |Events(h)| ==> !Events(h)[n].Opened?
    ensures Enters(h) >= 2
  {
    if j < |Events(h)| - 1 {
      EnterStays(h.past, Events(h), i, j, j);
      TwoEnters(h.past, i, j);
      LastEvent(h);
    } else {
      EnterStays(h.past, Events(h), i, i, i);
      OneEnter(h.past, i);
    }
  }

  lemma {:induction false} OneEnter(h: History, i: nat)
    requires EnterAt(Events(h), i)
    requires forall n :: i < n < |Events(h)| ==> !Events(h)[n].Opened?
    ensures Enters(h) >= 1
  {
    if i < |Events(h)| - 1 {
      EnterStays(h.past, Events(h), i, i, i);
      OneEnter(h.past, i);
      LastEvent(h);
    }
  }

  /** At most three Enters over all attempts: a fourth one needs a resend in between. */
  lemma {:induction false} AtMostThreeEnters(strict: bool, h: History, a: nat, b: nat, c: nat, d: nat)
    requires Safe(strict, h) && a < b < c < d
    requires EnterAt(Events(h), a) && EnterAt(Events(h), b) && EnterAt(Events(h), c) && EnterAt(Events(h), d)
    ensures exists k :: a < k < d && Events(h)[k] == Resent
  {
    var p := PrefixOf(strict, h, d);
    assert EnterAt(Events(p), a) && EnterAt(Events(p), b) && EnterAt(Events(p), c);
    if forall n :: a < n < |Events(p)| ==> !Events(p)[n].Opened? {
      EntersCounted(p, a, b, c);
      assert false;
    }
    var n :| a < n < |Events(p)| && Events(p)[n].Opened?;
    var first := PrefixOf(strict, h, a);
    OpenedBefore(first);
    var o :| 0 <= o < |Events(first)| && Events(first)[o].Opened?;
    var q := PrefixOf(strict, h, n);
    assert Events(h)[n] == Events(p)[n] && Events(q)[o] == Events(first)[o];
    ResentAfterEnter(strict, h, q, a, n);
    var k :| a < k < n && Events(h)[k] == Resent;
  }

  /** A checkpoint that is open before an Enter and closed at a later point was closed in between. */
  lemma {:induction false} ResentAfterEnter(strict: bool, h: History, q: History, a: nat, n: nat)
    requires Safe(strict, h) && a < n <= |Events(h)| && EnterAt(Events(h), a)
    requires Events(q) == Events(h)[..n] && !CheckpointOpen(q)
    ensures exists k :: a < k < n && Events(h)[k] == Resent
  {
    var p := PrefixOf(strict, h, a);
    OpenUntilResent(p, q);
    var k :| |Events(p)| <= k < |Events(q)| && Events(q)[k] == Resent;
    assert Events(h)[k] == Resent;
  }

  lemma {:induction false} OpenUntilResent(p: History, q: History)
    requires CheckpointOpen(p) && !CheckpointOpen(q) && Events(p) <= Events(q)
    ensures exists k :: |Events(p)| <= k < |Events(q)| && Events(q)[k] == Resent
  {
    if Events(p) == Events(q) {
      SameEvents(p, q);
      assert false;
    }
    assert q.Then?;
    if q.event == Resent {
      assert Events(q)[|Events(q)| - 1] == Resent;
    } else {
      assert Events(p) <= Events(q.past);
      OpenUntilResent(p, q.past);
      var k :| |Events(p)| <= k < |Events(q.past)| && Events(q.past)[k] == Resent;
      assert Events(q)[k] == Resent;
    }
  }

  lemma {:induction false} SameEvents(p: History, q: History)
    requires Events(p) == Events(q)
    ensures p == q
  {
    if p.Then? && q.Then? {
      LastEvent(p);
      LastEvent(q);
      assert Events(p.past) == Events(p)[..|Events(p)| - 1];
      assert Events(q.past) == Events(q)[..|Events(q)| - 1];
      SameEvents(p.past, q.past);
    }
  }

  /** Event `i` pastes into the run, and up to event `j` nobody types into it and no checkpoint is opened. */
  ghost predicate UntouchedPaste(events: seq<Event>, i: nat, j: nat, run: RunId) {
    && i < j <= |events| && events[i].Wrote? && events[i].run == run && events[i].key.Paste?
    && forall k :: i < k < j ==> events[k] != Keystroke(run) && !events[k].Opened?
  }

  lemma {:induction false} PasteStandsAlone(h: History, run: RunId) returns (i: nat)
    requires DraftIn(h, run).Some? && Typed(h, run) == 0
    ensures UntouchedPaste(Events(h), i, |Events(h)|, run) && Events(h)[i].key.draft == DraftIn(h, run).value
  {
    if h.event.Wrote? && h.event.run == run && h.event.key.Paste? {
      i := |Events(h.past)|;
    } else {
      i := PasteStandsAlone(h.past, run);
      assert Events(h)[i] == Events(h.past)[i];
    }
  }

  /** Every Enter goes out over this message's own paste and nothing else: since that paste nobody has typed into
      the session, and the screen read in front of the Enter shows exactly the text that was pasted. */
  lemma {:induction false} EnterOverUntouchedPaste(h: History, j: nat) returns (i: nat)
    requires Safe(true, h) && EnterAt(Events(h), j)
    ensures UntouchedPaste(Events(h), i, j, Events(h)[j].run) && Shows(Events(h)[i].key.draft, Events(h)[j].key.screen)
  {
    var p := PrefixOf(true, h, j);
    i := PasteStandsAlone(p, Events(h)[j].run);
    assert forall k :: 0 <= k < j ==> Events(h)[k] == Events(p)[k];
  }
}
