/** What a delivery pastes, and into what: over all runs every draft is the message, whole and with plain line breaks, and it
    goes into a composer that shows nothing but its prompt (src/server/codex-report-delivery.ts). */
module CodexPasteContent {
  import opened Wrappers
  import opened CodexComposer
  import opened CodexDeliveryTrace
  import opened CodexReportDelivery
  import CodexMessageEncoding
  import P = CodexPasteRecognition
  import M = MessageDelivery

  /** The code points that `trimEnd` and `\s` take for white space. */
  const WHITE: set<char> := {
    '\t', '\n', '\U{000B}', '\U{000C}', '\r', ' ', '\U{00A0}', '\U{1680}', '\U{2000}', '\U{2001}', '\U{2002}', '\U{2003}',
    '\U{2004}', '\U{2005}', '\U{2006}', '\U{2007}', '\U{2008}', '\U{2009}', '\U{200A}', '\U{2028}', '\U{2029}', '\U{202F}',
    '\U{205F}', '\U{3000}', '\U{FEFF}'
  }

  predicate Blank(s: string) { forall c :: c in s ==> c in WHITE }

  lemma BlankAt(s: string, lo: nat, hi: nat)
    requires lo <= hi <= |s|
    ensures Blank(s[lo..hi]) <==> forall k :: lo <= k < hi ==> s[k] in WHITE
  {
    forall k | lo <= k < hi ensures s[k] in s[lo..hi] {
      assert s[lo..hi][k - lo] == s[k];
    }
  }

  lemma SpaceIsWhite(c: char)
    ensures P.IsSpace(c) <==> c in WHITE
  {}

  // ---- The message ----

  /** The lines of a text, however they are broken: `\n`, `\r` or both. */
  function LinesOf(s: string): (lines: seq<string>)
    ensures |lines| > 0
    decreases |s|
  {
    if s == "" then [""]
    else if s[0] == '\n' || s[0] == '\r' then [""] + LinesOf(s[if s[0] == '\r' && |s| > 1 && s[1] == '\n' then 2 else 1..])
    else
      var rest := LinesOf(s[1..]);
      [[s[0]] + rest[0]] + rest[1..]
  }

  /** Without `\r` the lines tell the text. */
  lemma {:induction false} LinesTell(s: string, t: string)
    requires '\r' !in s && '\r' !in t && LinesOf(s) == LinesOf(t)
    ensures s == t
    decreases |s|
  {
    OnlyOneLine(s);
    OnlyOneLine(t);
    if s != "" {
      if s[0] == '\n' || t[0] == '\n' {
        assert LinesOf(s)[0] == "" <==> s[0] == '\n';
        assert LinesOf(t)[0] == "" <==> t[0] == '\n';
        assert LinesOf(s)[1..] == LinesOf(s[1..]) && LinesOf(t)[1..] == LinesOf(t[1..]);
      } else {
        var a, b := LinesOf(s[1..]), LinesOf(t[1..]);
        assert ([s[0]] + a[0])[0] == ([t[0]] + b[0])[0];
        assert ([s[0]] + a[0])[1..] == a[0] && ([t[0]] + b[0])[1..] == b[0];
        assert a == [a[0]] + LinesOf(s)[1..] && b == [b[0]] + LinesOf(t)[1..];
      }
      LinesTell(s[1..], t[1..]);
      assert s == [s[0]] + s[1..] && t == [t[0]] + t[1..];
    }
  }

  lemma OnlyOneLine(s: string)
    ensures s == "" <==> LinesOf(s) == [""]
  {
    assert s != "" ==> |LinesOf(s)| > 1 || LinesOf(s)[0] != "";
  }

  /** `text` up to its trailing white space is its first `n` characters. */
  predicate EndsAt(text: string, n: nat) {
    n <= |text| && Blank(text[n..]) && (n > 0 ==> text[n - 1] !in WHITE)
  }

  /** The text up to its trailing white space, an empty line and the marker in a line of its own: line for line, without
      a `\r`. If there was none, that is the concatenation itself. */
  predicate IsMessage(t: string, text: string, marker: string) {
    && '\r' !in t
    && exists n :: 0 <= n <= |text| && EndsAt(text, n) && LinesOf(t) == LinesOf(text[..n] + "\n\n" + marker + "\n")
         && ('\r' !in text && '\r' !in marker ==> t == text[..n] + "\n\n" + marker + "\n")
  }

  lemma {:induction false} UnixBreaksKeepLines(s: string)
    ensures '\r' !in UnixBreaks(s) && LinesOf(UnixBreaks(s)) == LinesOf(s) && ('\r' !in s ==> UnixBreaks(s) == s)
    decreases |s|
  {
    if s != "" {
      if s[0] == '\r' {
        var rest := s[if |s| > 1 && s[1] == '\n' then 2 else 1..];
        UnixBreaksKeepLines(rest);
        assert ("\n" + UnixBreaks(rest))[1..] == UnixBreaks(rest);
      } else {
        UnixBreaksKeepLines(s[1..]);
        assert ([s[0]] + UnixBreaks(s[1..]))[1..] == UnixBreaks(s[1..]);
        assert s == [s[0]] + s[1..];
      }
    }
  }

  lemma {:induction false} TrimEndEndsAt(s: string)
    ensures |TrimEnd(s)| <= |s| && TrimEnd(s) == s[..|TrimEnd(s)|] && EndsAt(s, |TrimEnd(s)|)
  {
    if s != "" {
      var last := s[|s| - 1];
      SpaceIsWhite(last);
      if P.IsSpace(last) {
        var front := s[..|s| - 1];
        TrimEndEndsAt(front);
        var n := |TrimEnd(front)|;
        assert s[n..] == front[n..] + [last] && s[..n] == front[..n];
      }
    }
  }

  lemma PayloadIsMessage(m: Message)
    ensures IsMessage(Payload(m), m.text, m.marker)
  {
    TrimEndEndsAt(m.text);
    var n := |TrimEnd(m.text)|;
    var raw := m.text[..n] + "\n\n" + m.marker + "\n";
    UnixBreaksKeepLines(raw);
    assert Payload(m) == UnixBreaks(raw);
    if '\r' !in m.text && '\r' !in m.marker { assert '\r' !in raw; }
  }

  // ---- The composer it is pasted into ----

  /** A row that begins with the prompt, white space aside. */
  predicate PromptRow(row: string) {
    exists i :: 0 <= i < |row| && row[i] == '\U{203A}' && Blank(row[..i])
  }

  /** Behind its prompt the row holds nothing, or the placeholder alone. */
  predicate BareRow(row: string) {
    exists i :: 0 <= i < |row| && row[i] == '\U{203A}' && Blank(row[..i]) && NothingTyped(row[i + 1..])
  }

  predicate NothingTyped(rest: string) {
    || Blank(rest)
    || exists j :: 0 <= j <= |rest| - 24 && Blank(rest[..j]) && rest[j..j + 24] == "Ask Codex to do anything" && Blank(rest[j + 24..])
  }

  /** The last row with a prompt is bare. */
  predicate BareComposer(screen: string) {
    var rows := P.SplitLines(screen);
    exists k :: 0 <= k < |rows| && BareRow(rows[k]) && forall j :: k < j < |rows| ==> !PromptRow(rows[j])
  }

  lemma {:induction false} SkipSpacesIs(s: string, i: nat)
    requires i <= |s|
    ensures var j := SkipSpaces(s, i); Blank(s[i..j]) && (j < |s| ==> s[j] !in WHITE)
    decreases |s| - i
  {
    if i < |s| {
      SpaceIsWhite(s[i]);
      if P.IsSpace(s[i]) {
        SkipSpacesIs(s, i + 1);
        assert s[i..SkipSpaces(s, i)] == [s[i]] + s[i + 1..SkipSpaces(s, i)];
      }
    }
  }

  lemma BlankIs(s: string)
    ensures P.IsBlank(s) <==> Blank(s)
  {
    forall c ensures P.IsSpace(c) <==> c in WHITE { SpaceIsWhite(c); }
  }

  /** There is one such place only. */
  lemma FirstInk(s: string, i: nat, j: nat)
    requires i < |s| && j < |s| && Blank(s[..i]) && Blank(s[..j]) && s[i] !in WHITE && s[j] !in WHITE
    ensures i == j
  {
    assert s[..i] == s[0..i] && s[..j] == s[0..j];
    BlankAt(s, 0, i);
    BlankAt(s, 0, j);
  }

  lemma LastInk(s: string, n: nat, m: nat)
    requires EndsAt(s, n) && EndsAt(s, m)
    ensures n == m
  {
    assert s[n..] == s[n..|s|] && s[m..] == s[m..|s|];
    BlankAt(s, n, |s|);
    BlankAt(s, m, |s|);
  }

  lemma AtPromptIs(row: string)
    ensures AtPrompt(row) <==> PromptRow(row)
    ensures forall i :: 0 <= i < |row| && row[i] == '\U{203A}' && Blank(row[..i]) ==> i == SkipSpaces(row, 0)
  {
    SkipSpacesIs(row, 0);
    var a := SkipSpaces(row, 0);
    assert row[0..a] == row[..a];
    BlankAt(row, 0, a);
    forall i | 0 <= i < |row| && row[i] == '\U{203A}' && Blank(row[..i]) ensures i == a {
      assert row[i] !in WHITE;
      FirstInk(row, i, a);
    }
  }

  /** The trimmed row is empty of input if and only if the row is bare. */
  lemma EmptyComposerIs(row: string)
    requires PromptRow(row)
    ensures EmptyComposer(Trim(row)) <==> BareRow(row)
  {
    AtPromptIs(row);
    var a := SkipSpaces(row, 0);
    SkipSpacesIs(row, 0);
    assert row[0..a] == row[..a];
    var rest := row[a + 1..];
    TypedIs(rest, row[a..]);
    assert BareRow(row) <==> NothingTyped(rest);
  }

  lemma TypedIs(rest: string, row: string)
    requires row == ['\U{203A}'] + rest
    ensures EmptyComposer(TrimEnd(row)) <==> NothingTyped(rest)
  {
    TrimEndEndsAt(row);
    if EmptyComposer(TrimEnd(row)) { EmptyIsUntyped(rest, row, TrimEnd(row)); }
    if NothingTyped(rest) {
      if Blank(rest) {
        assert row[1..] == rest;
        LastInk(row, 1, |TrimEnd(row)|);
      } else {
        var j :| 0 <= j <= |rest| - 24 && Blank(rest[..j]) && rest[j..j + 24] == "Ask Codex to do anything" && Blank(rest[j + 24..]);
        UntypedIsEmpty(rest, row, TrimEnd(row), j);
      }
    }
  }

  /** Places in the row and behind its prompt. */
  lemma Shifted(rest: string, row: string, line: string, lo: nat, hi: nat)
    requires row == ['\U{203A}'] + rest && |line| <= |row| && line == row[..|line|] && 1 <= lo <= hi <= |line|
    ensures line[lo..hi] == rest[lo - 1..hi - 1] && row[|line|..] == rest[|line| - 1..]
  {
    assert row[1..] == rest;
    assert line[lo..hi] == row[lo..hi] == row[1..][lo - 1..hi - 1];
    assert row[|line|..] == row[1..][|line| - 1..];
  }

  lemma EmptyIsUntyped(rest: string, row: string, line: string)
    requires row == ['\U{203A}'] + rest && 0 < |line| <= |row| && line == row[..|line|] && Blank(row[|line|..]) && EmptyComposer(line)
    ensures NothingTyped(rest)
  {
    var n := |line|;
    var i := SkipSpaces(line, 1);
    SkipSpacesIs(line, 1);
    Shifted(rest, row, line, 1, i);
    if i == n {
      BlankAt(rest, 0, i - 1);
      BlankAt(rest, n - 1, |rest|);
      BlankAt(rest, 0, |rest|);
      assert rest[0..|rest|] == rest;
    } else {
      BlankIs(line[i + 24..]);
      Shifted(rest, row, line, i, i + 24);
      Shifted(rest, row, line, i + 24, n);
      hide Blank, EmptyComposer;
      PlaceholderOnly(rest, i - 1, n - 1);
    }
  }

  lemma PlaceholderOnly(rest: string, j: nat, n: nat)
    requires j + 24 <= n <= |rest| && Blank(rest[0..j]) && rest[j..j + 24] == "Ask Codex to do anything"
    requires Blank(rest[j + 24..n]) && Blank(rest[n..])
    ensures NothingTyped(rest)
  {
    BlankAt(rest, j + 24, n);
    BlankAt(rest, n, |rest|);
    BlankAt(rest, j + 24, |rest|);
    hide Blank;
    assert rest[..j] == rest[0..j] && rest[j + 24..] == rest[j + 24..|rest|] && rest[n..] == rest[n..|rest|];
  }

  lemma UntypedIsEmpty(rest: string, row: string, line: string, j: nat)
    requires row == ['\U{203A}'] + rest && |line| <= |row| && line == row[..|line|] && EndsAt(row, |line|)
    requires j + 24 <= |rest| && Blank(rest[..j]) && rest[j..j + 24] == "Ask Codex to do anything" && Blank(rest[j + 24..])
    ensures EmptyComposer(line)
  {
    InkOfPlaceholder(rest, j);
    assert row[j + 25..] == rest[j + 24..] && row[j + 24] == rest[j + 23];
    LastInk(row, j + 25, |line|);
    Shifted(rest, row, line, 1, j + 1);
    Shifted(rest, row, line, j + 1, j + 25);
    SkipsTo(line, j + 1);
    BlankIs(line[j + 25..]);
  }

  lemma InkOfPlaceholder(rest: string, j: nat)
    requires j + 24 <= |rest| && rest[j..j + 24] == "Ask Codex to do anything"
    ensures rest[j] == 'A' && rest[j + 23] == 'g'
  {
    assert rest[j..j + 24][23] == 'g' && rest[j..j + 24][0] == 'A';
  }

  lemma SkipsTo(line: string, k: nat)
    requires 1 <= k < |line| && Blank(line[1..k]) && line[k] !in WHITE
    ensures SkipSpaces(line, 1) == k
  {
    SkipSpacesIs(line, 1);
    BlankAt(line, 1, SkipSpaces(line, 1));
    BlankAt(line, 1, k);
  }

  /** The composer is taken for empty if and only if it is bare. */
  lemma EmptyMeansBare(screen: string)
    ensures EmptyComposer(ComposerOf(screen).line) <==> BareComposer(screen)
  {
    hide EmptyComposer, BareRow, Trim, AtPrompt, PromptRow;
    var rows := P.SplitLines(screen);
    forall j | 0 <= j < |rows| ensures (AtPrompt(rows[j]) <==> PromptRow(rows[j])) && (BareRow(rows[j]) ==> PromptRow(rows[j])) {
      AtPromptIs(rows[j]);
      BareIsPrompt(rows[j]);
    }
    match LastPrompt(rows, |rows|)
    case None => EmptyLine();
    case Some(k) => EmptyComposerIs(rows[k]);
  }

  lemma EmptyLine()
    ensures !EmptyComposer("")
  {}

  lemma BareIsPrompt(row: string)
    ensures BareRow(row) ==> PromptRow(row)
  {}

  /** Dropping white space: each character by itself, and texts piece by piece. */
  lemma {:induction false} SpacesDropped(c: char, a: string, b: string)
    ensures WithoutSpaces([c]) == if c in WHITE then "" else [c]
    ensures WithoutSpaces(a + b) == WithoutSpaces(a) + WithoutSpaces(b)
  {
    SpaceIsWhite(c);
    assert WithoutSpaces([c][1..]) == "";
    if a == "" {
      assert a + b == b;
    } else {
      SpacesDropped(c, a[1..], b);
      assert (a + b)[0] == a[0] && (a + b)[1..] == a[1..] + b;
    }
  }

  // ---- Every paste of every run ----

  const ANNOUNCED :=
    "Hive message encoded as a " + "JSON string; interpret escapes " + "as the original message: "

  /** On Windows the draft is the announcement and a JSON string that decodes to the message; elsewhere it is the message. */
  predicate Carries(draft: Draft, m: Message) {
    && draft.marker == m.marker
    && (if m.windows then
          && draft.form == Encoded && |draft.text| >= |ANNOUNCED| && draft.text[..|ANNOUNCED|] == ANNOUNCED
          && var decoded := CodexMessageEncoding.DecodeString(draft.text[|ANNOUNCED|..]);
          decoded.Some? && IsMessage(decoded.value, m.text, m.marker)
        else draft.form != Encoded && IsMessage(draft.text, m.text, m.marker))
  }

  predicate IsPaste(e: Event) { (e.Wrote? || e.Lost?) && e.key.Paste? }

  /** An empty composer of a Codex session, known or allowed to be unknown. */
  predicate MayBePastedInto(m: Message, p: Poll) {
    BareComposer(p.screen) && p.codexContext && (p.session.Some? || m.allowUnbound)
  }

  /** The event is a paste of this delivery, of its whole message, at a poll that saw an empty composer. */
  ghost predicate PastedBy(e: Event, a: M.Action) {
    && a.Deliver? && IsPaste(e) && e.run == a.run && Carries(e.key.draft, a.message)
    && exists n :: 0 <= n < |a.polls| && MayBePastedInto(a.message, a.polls[n])
  }

  /** What was added to the history holds no other pastes. */
  ghost predicate GrownBy(h: History, base: History, a: M.Action) {
    h == base || (h.Then? && GrownBy(h.past, base, a) && (IsPaste(h.event) ==> PastedBy(h.event, a)))
  }

  lemma GrownByOne(past: History, e: Event, base: History, a: M.Action)
    requires GrownBy(past, base, a) && (IsPaste(e) ==> PastedBy(e, a))
    ensures GrownBy(Then(past, e), base, a)
  {}

  lemma {:induction false} GrownOn(h: History, middle: History, base: History, a: M.Action)
    requires GrownBy(middle, base, a) && GrownBy(h, middle, a)
    ensures GrownBy(h, base, a)
  {
    if h != middle { GrownOn(h.past, middle, base, a); }
  }

  lemma {:induction false} ForeignGrows(d: Desk, run: RunId, inputs: seq<Foreign>, a: M.Action)
    requires run in d.counters
    ensures GrownBy(ForeignInput(d, run, inputs).history, d.history, a)
    decreases |inputs|
  {
    if inputs != [] {
      var next := OneForeign(d, run, inputs[0]);
      ForeignGrows(next, run, inputs[1..], a);
      GrownByOne(d.history, next.history.event, d.history, a);
      GrownOn(ForeignInput(d, run, inputs).history, next.history, d.history, a);
    }
  }

  lemma DraftCarries(m: Message, next: Checkpoint)
    requires next.wire == (if m.windows then JsonString(m.digest) else PlainText)
    ensures Carries(DraftOf(m, next), m)
  {
    PayloadIsMessage(m);
    if m.windows {
      CodexMessageEncoding.EncodeRoundTrip(Payload(m));
      assert ANNOUNCED == CodexMessageEncoding.PREFIX;
    }
  }

  lemma OfferGrows(m: Message, s: Step, n: nat, a: M.Action)
    requires s.attempt.run in s.desk.counters && s.outcome == Next && s.desk.checkpoint.None?
    requires a.Deliver? && a.message == m && a.run == s.attempt.run && n < |a.polls|
    ensures GrownBy(Offer(m, s, a.polls[n]).desk.history, s.desk.history, a)
  {
    hide EmptyComposer, BareComposer, DraftOf, Carries, ComposerOf, CodexReportJournal.ReportJournalOffset;
    var p := a.polls[n];
    if MayOffer(m, p) {
      EmptyMeansBare(p.screen);
      assert MayBePastedInto(m, p);
      if JournalOffset(p).Success? {
        var next := FirstCheckpoint(m, s.attempt.run, s.desk.counters[s.attempt.run], JournalOffset(p).value, p);
        var paste := Paste(DraftOf(m, next));
        DraftCarries(m, next);
        var announced := Then(s.desk.history, Opened(a.run));
        GrownByOne(s.desk.history, Opened(a.run), s.desk.history, a);
        GrownByOne(announced, Wrote(a.run, paste), s.desk.history, a);
        GrownByOne(announced, Lost(a.run, paste), s.desk.history, a);
        hide GrownBy, PastedBy, MayOffer, MayBePastedInto;
      }
    }
  }

  lemma SubmitGrows(m: Message, s: Step, p: Poll, a: M.Action)
    requires s.attempt.run in s.desk.counters && s.outcome == Next && s.desk.checkpoint.Some?
    ensures GrownBy(Submit(m, s, p).desk.history, s.desk.history, a)
  {
    hide Shows, DraftOf;
  }

  lemma ReadyGrows(m: Message, d: Desk, t: Attempt, p: Poll, a: M.Action)
    requires t.run in d.counters
    ensures var r := Ready(m, d, t, p); GrownBy(r.desk.history, d.history, a)
  {
    var seen := ForeignInput(d, t.run, p.before);
    ForeignGrows(d, t.run, p.before, a);
    var bound := BindSession(Step(seen, t, p.saves, Next), p);
    ForeignGrows(bound.desk, t.run, p.during, a);
    GrownOn(ForeignInput(bound.desk, t.run, p.during).history, bound.desk.history, d.history, a);
    hide ForeignInput, CodexReportJournal.LookAt;
  }

  lemma PollGrows(m: Message, d: Desk, t: Attempt, n: nat, a: M.Action)
    requires t.run in d.counters && a.Deliver? && a.message == m && a.run == t.run && n < |a.polls|
    ensures GrownBy(PollOnce(m, d, t, a.polls[n]).desk.history, d.history, a)
  {
    hide Ready, Offer, Submit;
    var p := a.polls[n];
    ReadyGrows(m, d, t, p, a);
    var ready := Ready(m, d, t, p);
    if ready.outcome == Next {
      if ready.desk.checkpoint.None? { OfferGrows(m, ready, n, a); } else { SubmitGrows(m, ready, p, a); }
      GrownOn(PollOnce(m, d, t, p).desk.history, ready.desk.history, d.history, a);
    }
  }

  lemma {:induction false} LoopGrows(m: Message, d: Desk, t: Attempt, i: nat, dies: bool, a: M.Action)
    requires t.run in d.counters && a.Deliver? && a.message == m && a.run == t.run && i <= |a.polls|
    ensures GrownBy(Loop(m, d, t, a.polls, i, dies).desk.history, d.history, a)
    decreases |a.polls| - i
  {
    hide PollOnce;
    if i < |a.polls| {
      PollGrows(m, d, t, i, a);
      var s := PollOnce(m, d, t, a.polls[i]);
      if s.outcome == Again {
        LoopGrows(m, s.desk, s.attempt, i + 1, dies, a);
        GrownOn(Loop(m, s.desk, s.attempt, a.polls, i + 1, dies).desk.history, s.desk.history, d.history, a);
      }
    }
  }

  lemma StepGrows(w: M.World, a: M.Action)
    ensures GrownBy(M.After(w, a).desk.history, w.desk.history, a)
  {
    hide Loop, M.RecheckNext;
    match a {
      case Input(run, inputs) => if run in w.desk.counters { ForeignGrows(w.desk, run, inputs, a); }
      case Deliver(m, run, available, polls, dies, acknowledged, severity) =>
        if run in w.desk.counters { LoopGrows(m, w.desk, Attempt(run, w.desk.counters[run], None, None), 0, dies, a); }
      case Recheck(tests, binding, journal, manual, stores) => RecheckLeavesHistory(w, a);
      case Launch(run, digest, fate) => LaunchGrows(w, a);
      case StartRun(run) => GrownByOne(w.desk.history, Started(run), w.desk.history, a);
      case Resolve(_) => GrownByOne(w.desk.history, Resent, w.desk.history, a);
      case _ =>
    }
  }

  lemma LaunchGrows(w: M.World, a: M.Action)
    requires a.Launch?
    ensures GrownBy(M.After(w, a).desk.history, w.desk.history, a)
  {
    var claimed := Then(w.desk.history, Opened(a.run));
    GrownByOne(w.desk.history, Opened(a.run), w.desk.history, a);
    GrownByOne(claimed, Launched(a.run), w.desk.history, a);
    GrownByOne(Then(claimed, Launched(a.run)), Started(a.run), w.desk.history, a);
  }

  lemma RecheckLeavesHistory(w: M.World, a: M.Action)
    requires a.Recheck?
    ensures M.After(w, a).desk.history == w.desk.history
  {}

  ghost predicate AllPasted(h: History, actions: seq<M.Action>) {
    h.Then? ==> AllPasted(h.past, actions) && (IsPaste(h.event) ==> PastedByOne(h.event, actions))
  }

  ghost predicate PastedByOne(e: Event, actions: seq<M.Action>) {
    exists i :: 0 <= i < |actions| && PastedBy(e, actions[i])
  }

  lemma {:induction false} AllPastedOn(h: History, base: History, actions: seq<M.Action>)
    requires actions != [] && AllPasted(base, actions[..|actions| - 1]) && GrownBy(h, base, actions[|actions| - 1])
    ensures AllPasted(h, actions)
  {
    hide PastedBy;
    var front := actions[..|actions| - 1];
    if h == base { AllPastedLonger(h, actions); }
    else { AllPastedOn(h.past, base, actions); }
  }

  lemma {:induction false} AllPastedLonger(h: History, actions: seq<M.Action>)
    requires actions != [] && AllPasted(h, actions[..|actions| - 1])
    ensures AllPasted(h, actions)
  {
    hide PastedBy;
    if h.Then? {
      AllPastedLonger(h.past, actions);
      var front := actions[..|actions| - 1];
      if IsPaste(h.event) {
        var i :| 0 <= i < |front| && PastedBy(h.event, front[i]);
        assert actions[i] == front[i];
      }
    }
  }

  lemma {:induction false} RunPastes(actions: seq<M.Action>)
    ensures AllPasted(M.Run(actions).desk.history, actions)
  {
    hide M.After, AllPasted, GrownBy;
    if actions != [] {
      var front := actions[..|actions| - 1];
      RunPastes(front);
      StepGrows(M.Run(front), actions[|actions| - 1]);
      AllPastedOn(M.Run(actions).desk.history, M.Run(front).desk.history, actions);
    } else {
      NothingPasted();
    }
  }

  lemma NothingPasted()
    ensures AllPasted(M.Run([]).desk.history, [])
  {}

  lemma {:induction false} EventPasted(h: History, actions: seq<M.Action>, j: nat)
    requires AllPasted(h, actions) && j < |Events(h)| && IsPaste(Events(h)[j])
    ensures PastedByOne(Events(h)[j], actions)
  {
    hide PastedByOne;
    if j < |Events(h)| - 1 { EventPasted(h.past, actions, j); }
  }

  /** Over all runs, whatever else is typed: each paste of the message, also one that was lost, is that of one delivery
      call and holds its whole message, and it was offered to an empty composer only. */
  lemma {:induction false} PastesAreTheMessage(actions: seq<M.Action>, j: nat) returns (i: nat)
    requires j < |M.EventsOf(actions)| && IsPaste(M.EventsOf(actions)[j])
    ensures i < |actions| && PastedBy(M.EventsOf(actions)[j], actions[i])
  {
    hide M.Run, PastedBy;
    RunPastes(actions);
    EventPasted(M.Run(actions).desk.history, actions, j);
    i :| 0 <= i < |actions| && PastedBy(M.EventsOf(actions)[j], actions[i]);
  }
}
