/** What a transcript says, told from its lines and not from the parser (src/server/agent-conversation-parser.ts): which
    turns there are, and of each turn its status, prompt, answer and process items. */
module ConversationMeaning {
  import opened Wrappers
  import opened ConversationTranscript

  // ---- The turns ----

  /** The line names the turn that is current from here on. */
  predicate NamesTurn(line: Line) {
    line.Line? && ((line.kind == EventMsg && line.payload.kind == TaskStarted) || (line.kind == TurnContext && line.payload.turnId.Some?))
  }

  predicate Nameless(line: Line) {
    line.Line? && line.kind == EventMsg && line.payload.kind == TaskStarted && (line.payload.turnId.None? || line.payload.turnId.value == [])
  }

  function NamelessCount(lines: seq<Line>): nat {
    if lines == [] then 0 else NamelessCount(lines[..|lines| - 1]) + if Nameless(lines[|lines| - 1]) then 1 else 0
  }

  /** An event or a response item that is part of a turn. */
  predicate Speaks(line: Line) { line.Line? && (line.kind == EventMsg || line.kind == ResponseItem) && !NamesTurn(line) }

  predicate FromAssistant(line: Line) {
    line.Line? && line.kind == ResponseItem && line.payload.kind == Message && line.payload.role == Assistant
  }

  predicate ForTurn(line: Line, id: Text) { Speaks(line) && (line.payload.turnId.Some? ==> line.payload.turnId.value == id) }

  datatype Section = Section(id: Text, lines: seq<Line>)

  /** The turns behind one more line. A nameless turn is called by the number of nameless ones before it; a name that
      repeats the current one begins nothing; in front of all names an assistant message begins a partial turn. */
  function NextSections(before: seq<Section>, nameless: nat, line: Line): seq<Section> {
    var n := |before| - 1;
    if NamesTurn(line) then
      var id := if Nameless(line) then Units("turn-") + Digits(nameless) else line.payload.turnId.value;
      if before != [] && before[n].id == id then before else before + [Section(id, [])]
    else if before != [] then
      if ForTurn(line, before[n].id) then before[n := before[n].(lines := before[n].lines + [line])] else before
    else if FromAssistant(line) then [Section(Units("partial-turn"), if ForTurn(line, Units("partial-turn")) then [line] else [])]
    else []
  }

  /** The turns of a transcript with their lines, in order. */
  function Sections(lines: seq<Line>): seq<Section> {
    if lines == [] then []
    else
      var front := lines[..|lines| - 1];
      NextSections(Sections(front), NamelessCount(front), lines[|lines| - 1])
  }

  /** Literals stand for their code units. */
  lemma {:induction false} UnitsAre(s: string)
    ensures |Units(s)| == |s| && forall k :: 0 <= k < |s| ==> Units(s)[k] == s[k] as int
  {
    if s != "" { UnitsAre(s[..|s| - 1]); }
  }

  function Decimal(digits: Text): int {
    if digits == [] then 0 else 10 * Decimal(digits[..|digits| - 1]) + (digits[|digits| - 1] as int - 48)
  }

  /** A number in decimal digits, without leading zeros. */
  lemma {:induction false} DigitsAre(n: nat)
    ensures Decimal(Digits(n)) == n && |Digits(n)| > 0 && (forall k :: 0 <= k < |Digits(n)| ==> 48 <= Digits(n)[k] <= 57)
    ensures n > 0 ==> Digits(n)[0] != 48
  {
    if n >= 10 {
      DigitsAre(n / 10);
      assert Digits(n)[..|Digits(n)| - 1] == Digits(n / 10);
    } else {
      assert Digits(n)[..0] == [];
    }
  }

  // ---- Status ----

  predicate NotAnalysis(line: Line) { FromAssistant(line) && line.payload.channel != Analysis && line.payload.phase != Analysis }

  predicate IsFinal(line: Line) { NotAnalysis(line) && (line.payload.phase == Final || line.payload.channel == Final) }

  predicate IsComment(line: Line) { NotAnalysis(line) && line.payload.phase != Final && line.payload.channel != Final }

  predicate IsEvent(line: Line, kind: PayloadType) { line.Line? && line.kind == EventMsg && line.payload.kind == kind }

  predicate Completes(line: Line) { IsFinal(line) || IsEvent(line, TaskComplete) }

  /** The last line that completes or interrupts the turn decides. */
  predicate StatusIs(body: seq<Line>, status: Status) {
    match status
    case Running => forall k :: 0 <= k < |body| ==> !Completes(body[k]) && !IsEvent(body[k], TurnAborted)
    case Complete => exists k :: 0 <= k < |body| && Completes(body[k]) && forall j :: k < j < |body| ==> !IsEvent(body[j], TurnAborted)
    case Interrupted =>
      exists k :: 0 <= k < |body| && IsEvent(body[k], TurnAborted) && forall j :: k < j < |body| ==> !Completes(body[j])
  }

  // ---- Prompt ----

  predicate FromUser(line: Line) {
    line.Line? && line.kind == ResponseItem && line.payload.kind == Message && line.payload.role == User
  }

  /** `from` is the place behind the last user event. The prompt is that of the event, or the first one that is not empty
      among the user messages behind it. */
  predicate PromptFrom(body: seq<Line>, from: nat, prompt: Text)
    requires from <= |body|
  {
    && (from > 0 ==> IsEvent(body[from - 1], UserMessage)) && (forall j :: from <= j < |body| ==> !IsEvent(body[j], UserMessage))
    && (if from > 0 && IsEvent(body[from - 1], UserMessage) && body[from - 1].payload.message != [] then prompt == body[from - 1].payload.message
        else if prompt == [] then forall j :: from <= j < |body| && FromUser(body[j]) ==> body[j].payload.content == []
        else exists k :: from <= k < |body| && FromUser(body[k]) && body[k].payload.content == prompt
               && forall j :: from <= j < k && FromUser(body[j]) ==> body[j].payload.content == [])
  }

  predicate PromptIs(body: seq<Line>, prompt: Text) {
    exists from :: 0 <= from <= |body| && PromptFrom(body, from, prompt)
  }

  ghost predicate PromptKept(body: seq<Line>, limit: Option<nat>, prompt: Text) {
    exists whole :: PromptIs(body, whole) && prompt == if limit.Some? && |whole| > limit.value then whole[..limit.value] else whole
  }

  lemma StatusNext(body: seq<Line>, status: Status, line: Line)
    requires StatusIs(body, status)
    ensures StatusIs(body + [line], if Completes(line) then Complete else if IsEvent(line, TurnAborted) then Interrupted else status)
  {
    var next := body + [line];
    assert forall k :: 0 <= k < |body| ==> next[k] == body[k];
    assert next[|body|] == line;
  }

  lemma PromptNext(body: seq<Line>, whole: Text, line: Line)
    requires PromptIs(body, whole)
    ensures PromptIs(body + [line], if IsEvent(line, UserMessage) then line.payload.message
                                    else if FromUser(line) && whole == [] then line.payload.content else whole)
  {
    var next := body + [line];
    var from :| 0 <= from <= |body| && PromptFrom(body, from, whole);
    assert forall k :: 0 <= k < |body| ==> next[k] == body[k];
    assert next[|body|] == line;
    if IsEvent(line, UserMessage) {
      assert PromptFrom(next, |next|, line.payload.message);
    } else if FromUser(line) && whole == [] {
      assert PromptFrom(next, from, line.payload.content);
    } else {
      assert PromptFrom(next, from, whole);
    }
  }

  // ---- The parser has these turns, with this status and this prompt, for all limits ----

  ghost predicate TurnSays(l: Limits, t: Turn, section: Section) {
    t.id == section.id && StatusIs(section.lines, t.status) && PromptKept(section.lines, l.prompt, t.prompt)
  }

  /** The turns kept are the last ones, as many as the limit allows, and one at least. */
  ghost predicate SaysTurns(l: Limits, turns: seq<Turn>, sections: seq<Section>) {
    && |turns| == (if l.turns.None? || |sections| <= l.turns.value then |sections| else if l.turns.value == 0 then 1 else l.turns.value)
    && Aligned(l, turns, sections)
  }

  ghost predicate Aligned(l: Limits, turns: seq<Turn>, sections: seq<Section>) {
    |turns| <= |sections| && forall i :: 0 <= i < |turns| ==> TurnSays(l, turns[i], sections[|sections| - |turns| + i])
  }

  /** Only the current turn may have changed, and not its id. */
  predicate SameTurn(s: State, v: State)
    requires Begun(s)
  {
    Begun(v) && v.turns == s.turns[|s.turns| - 1 := Current(v)] && v.sequence == s.sequence && Current(v).id == Current(s).id
  }

  /** Nor its status and prompt. */
  predicate SameHead(s: State, v: State)
    requires Begun(s)
  {
    SameTurn(s, v) && Current(v).status == Current(s).status && Current(v).prompt == Current(s).prompt
  }

  lemma AnswerKeepsHead(l: Limits, s: State, id: Text, content: Text)
    requires Begun(s)
    ensures SameHead(s, Answer(l, s, id, content))
  {}

  lemma AddItemKeepsHead(l: Limits, s: State, kind: ItemKind, content: Text)
    requires Begun(s)
    ensures SameHead(s, AddItem(l, s, kind, content))
  {}

  lemma ToolOutputKeepsHead(l: Limits, s: State, p: Payload)
    requires Begun(s)
    ensures SameHead(s, ToolOutput(l, s, p))
  {}

  function Kept(limit: Option<nat>, whole: Text): Text { if limit.Some? && |whole| > limit.value then whole[..limit.value] else whole }

  /** What one line does to status and prompt. */
  predicate HeadNext(l: Limits, s: State, v: State, line: Line)
    requires Begun(s)
  {
    && SameTurn(s, v)
    && Current(v).status == (if Completes(line) then Complete else if IsEvent(line, TurnAborted) then Interrupted else Current(s).status)
    && Current(v).prompt == (if IsEvent(line, UserMessage) then Kept(l.prompt, line.payload.message)
                             else if FromUser(line) && Current(s).prompt == [] then Kept(l.prompt, line.payload.content) else Current(s).prompt)
  }

  lemma EventHead(l: Limits, s: State, line: Line)
    requires Begun(s) && Speaks(line) && line.kind == EventMsg
    ensures HeadNext(l, s, EventMessage(l, s, line.payload), line)
  {
    hide Answer, AddItem, ToolOutput;
    AnswerKeepsHead(l, s, COMPLETION, line.payload.lastMessage);
  }

  lemma AssistantHead(l: Limits, s: State, line: Line)
    requires Begun(s) && FromAssistant(line)
    ensures HeadNext(l, s, AssistantMessage(l, s, line.payload), line)
  {
    hide Answer, AddItem, Or;
    var p := line.payload;
    AnswerKeepsHead(l, s, Or(p.id, p.content), p.content);
    AddItemKeepsHead(l, s, Commentary, p.content);
  }

  lemma ToolHead(l: Limits, s: State, line: Line)
    requires Begun(s) && Speaks(line) && line.kind == ResponseItem
    ensures line.payload.kind == FunctionCall ==> HeadNext(l, s, ToolCall(l, s, line.payload), line)
    ensures line.payload.kind == FunctionCallOutput ==> HeadNext(l, s, ToolOutput(l, s, line.payload), line)
  {
    hide AddItem, ToolOutput, Both, Or;
    var p := line.payload;
    AddItemKeepsHead(l, s, Tool, Both(p.name, Or(p.arguments, p.input)));
    ToolOutputKeepsHead(l, s, p);
  }

  lemma ResponseHead(l: Limits, s: State, line: Line)
    requires Begun(s) && Speaks(line) && line.kind == ResponseItem
    ensures HeadNext(l, s, Response(l, s, line.payload), line)
  {
    hide AssistantMessage, ToolCall, ToolOutput;
    if FromAssistant(line) { AssistantHead(l, s, line); }
    ToolHead(l, s, line);
  }

  lemma InTurnSays(l: Limits, s: State, line: Line, body: seq<Line>)
    requires Begun(s) && ForTurn(line, Current(s).id) && l.prompt != Some(0)
    requires StatusIs(body, Current(s).status) && PromptKept(body, l.prompt, Current(s).prompt)
    ensures var v := InTurn(l, s, line.kind, line.payload);
      SameTurn(s, v) && StatusIs(body + [line], Current(v).status) && PromptKept(body + [line], l.prompt, Current(v).prompt)
  {
    hide EventMessage, Response, StatusIs, PromptIs;
    if line.kind == EventMsg { EventHead(l, s, line); } else { ResponseHead(l, s, line); }
    var whole :| PromptIs(body, whole)
      && Current(s).prompt == if l.prompt.Some? && |whole| > l.prompt.value then whole[..l.prompt.value] else whole;
    StatusNext(body, Current(s).status, line);
    PromptNext(body, whole, line);
  }

  lemma AlignedAdd(l: Limits, turns: seq<Turn>, sections: seq<Section>, t: Turn, section: Section)
    requires Aligned(l, turns, sections) && TurnSays(l, t, section)
    ensures Aligned(l, turns + [t], sections + [section])
  {
    hide TurnSays;
  }

  lemma AlignedTail(l: Limits, turns: seq<Turn>, sections: seq<Section>)
    requires Aligned(l, turns, sections) && turns != []
    ensures Aligned(l, turns[1..], sections)
  {
    hide TurnSays;
  }

  lemma AddedSays(l: Limits, turns: seq<Turn>, sections: seq<Section>, t: Turn, section: Section)
    requires SaysTurns(l, turns, sections) && TurnSays(l, t, section)
    ensures SaysTurns(l, if |turns| > 0 && Exceeds(|turns| + 1, l.turns) then turns[1..] + [t] else turns + [t], sections + [section])
  {
    hide TurnSays, Aligned;
    AlignedAdd(l, turns, sections, t, section);
    if turns != [] {
      AlignedTail(l, turns, sections);
      AlignedAdd(l, turns[1..], sections, t, section);
    }
  }

  lemma ChangedSays(l: Limits, turns: seq<Turn>, sections: seq<Section>, t: Turn, section: Section)
    requires SaysTurns(l, turns, sections) && turns != [] && TurnSays(l, t, section)
    ensures SaysTurns(l, turns[|turns| - 1 := t], sections[|sections| - 1 := section])
  {
    hide TurnSays;
  }

  lemma LastSays(l: Limits, turns: seq<Turn>, sections: seq<Section>)
    requires SaysTurns(l, turns, sections) && turns != []
    ensures sections != [] && TurnSays(l, turns[|turns| - 1], sections[|sections| - 1]) && turns[|turns| - 1].id == sections[|sections| - 1].id
  {}

  lemma NewSays(l: Limits, id: Text)
    requires l.prompt != Some(0)
    ensures TurnSays(l, Turn(id, [], [], [], Running, false), Section(id, []))
  {
    assert PromptFrom([], 0, []);
    assert PromptIs([], []);
  }

  lemma BeginIs(l: Limits, s: State, id: Text)
    ensures var t, v := Turn(id, [], [], [], Running, false), Begin(l, s, id);
      && v.sequence == s.sequence
      && v.turns == if Begun(s) && Current(s).id == id then s.turns
                    else if |s.turns| > 0 && Exceeds(|s.turns| + 1, l.turns) then s.turns[1..] + [t] else s.turns + [t]
  {}

  lemma BeginSays(l: Limits, s: State, sections: seq<Section>, id: Text)
    requires SaysTurns(l, s.turns, sections) && l.prompt != Some(0)
    ensures var n := |sections| - 1;
      SaysTurns(l, Begin(l, s, id).turns, if sections != [] && sections[n].id == id then sections else sections + [Section(id, [])])
      && Begin(l, s, id).sequence == s.sequence
  {
    SomeTurns(l, s, sections);
    if s.turns != [] { LastSays(l, s.turns, sections); }
    NewSays(l, id);
    AddedSays(l, s.turns, sections, Turn(id, [], [], [], Running, false), Section(id, []));
    BeginIs(l, s, id);
    hide TurnSays, SaysTurns, Begin;
  }

  lemma SpeakSays(l: Limits, s: State, sections: seq<Section>, line: Line)
    requires Begun(s) && SaysTurns(l, s.turns, sections) && l.prompt != Some(0) && Speaks(line) && sections != []
    ensures var n := |sections| - 1; var v := InTurn(l, s, line.kind, line.payload);
      && SaysTurns(l, v.turns, if ForTurn(line, sections[n].id) then sections[n := sections[n].(lines := sections[n].lines + [line])] else sections)
      && v.sequence == s.sequence
  {
    hide EventMessage, Response, StatusIs, PromptKept;
    var n := |sections| - 1;
    LastSays(l, s.turns, sections);
    var v := InTurn(l, s, line.kind, line.payload);
    if ForTurn(line, sections[n].id) {
      InTurnSays(l, s, line, sections[n].lines);
      var section := sections[n].(lines := sections[n].lines + [line]);
      assert TurnSays(l, Current(v), section);
      hide InTurn, SaysTurns;
      ChangedSays(l, s.turns, sections, Current(v), section);
    }
  }

  lemma MarkSays(l: Limits, s: State, sections: seq<Section>)
    requires Begun(s) && SaysTurns(l, s.turns, sections)
    ensures SaysTurns(l, Mark(s).turns, sections) && Mark(s).sequence == s.sequence
  {
    hide StatusIs, PromptKept, SaysTurns;
    LastSays(l, s.turns, sections);
    assert TurnSays(l, Current(Mark(s)), sections[|sections| - 1]);
    hide TurnSays;
    ChangedSays(l, s.turns, sections, Current(Mark(s)), sections[|sections| - 1]);
    assert sections[|sections| - 1 := sections[|sections| - 1]] == sections;
  }

  lemma FirstSays(l: Limits, s: State, line: Line)
    requires !Begun(s) && l.prompt != Some(0) && Speaks(line) && FromAssistant(line)
    ensures var v := InTurn(l, Mark(Begin(l, s, PARTIAL_TURN)), line.kind, line.payload); var id := Units("partial-turn");
      && SaysTurns(l, v.turns, [Section(id, if ForTurn(line, id) then [line] else [])]) && v.sequence == s.sequence
  {
    hide InTurn, TurnSays, Units;
    var first, sections := Begin(l, s, PARTIAL_TURN), [Section(PARTIAL_TURN, [])];
    assert [] + sections == sections;
    assert SaysTurns(l, s.turns, []);
    BeginSays(l, s, [], PARTIAL_TURN);
    hide SaysTurns, Begin;
    MarkSays(l, first, sections);
    SpeakSays(l, Mark(first), sections, line);
    assert [] + [line] == [line];
  }

  lemma NamedSays(l: Limits, s: State, sections: seq<Section>, line: Line)
    requires SaysTurns(l, s.turns, sections) && l.prompt != Some(0) && NamesTurn(line)
    ensures var v := Step(l, s, line);
      SaysTurns(l, v.turns, NextSections(sections, s.sequence, line)) && v.sequence == s.sequence + if Nameless(line) then 1 else 0
  {
    hide SaysTurns, Begin, Digits, Units;
    if Nameless(line) {
      BeginSays(l, s.(sequence := s.sequence + 1), sections, TURN + Digits(s.sequence));
    } else {
      BeginSays(l, s, sections, line.payload.turnId.value);
    }
  }

  lemma StepSays(l: Limits, s: State, sections: seq<Section>, line: Line)
    requires SaysTurns(l, s.turns, sections) && l.prompt != Some(0) && !NamesTurn(line)
    ensures var v := Step(l, s, line); SaysTurns(l, v.turns, NextSections(sections, s.sequence, line)) && v.sequence == s.sequence
  {
    SomeTurns(l, s, sections);
    hide SaysTurns, Begin, InTurn, Digits, Units;
    if Speaks(line) {
      if Begun(s) { SpeakSays(l, s, sections, line); } else if FromAssistant(line) { FirstSays(l, s, line); }
    }
  }

  /** For every transcript and all limits: the turns that are kept are the last ones of the transcript, each with the name,
      the status and the (cut) prompt that its own lines give it. */
  lemma {:induction false} TurnsSay(l: Limits, lines: seq<Line>)
    requires l.prompt != Some(0)
    ensures SaysTurns(l, Parse(l, lines).turns, Sections(lines)) && Parse(l, lines).sequence == NamelessCount(lines)
  {
    hide SaysTurns, NextSections, Step;
    if lines != [] {
      var front, line := lines[..|lines| - 1], lines[|lines| - 1];
      TurnsSay(l, front);
      if NamesTurn(line) { NamedSays(l, Parse(l, front), Sections(front), line); } else { StepSays(l, Parse(l, front), Sections(front), line); }
    } else {
      NothingSays(l);
    }
  }

  lemma NothingSays(l: Limits)
    ensures SaysTurns(l, START.turns, [])
  {}

  lemma SomeTurns(l: Limits, s: State, sections: seq<Section>)
    requires SaysTurns(l, s.turns, sections)
    ensures s.turns == [] <==> sections == []
  {}
}
