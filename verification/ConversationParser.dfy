/** The transcript parser as written: one loop over the lines that changes its variables in place, with the
    inner functions of the source as methods. */
module ConversationParser {
  import opened Wrappers
  import opened ConversationTranscript
  import opened ConversationMeaning
  import opened ConversationAnswers
  import opened ConversationProcess

  class Parser {
    const limits: Limits
    var turns: seq<Turn>
    var truncated: bool
    var sequence: nat
    var processSequence: nat
    var finals: seq<(Text, Text)>
    var calls: map<Text, nat>
    var outputs: set<Text>

    ghost function Value(): State
      reads this
    {
      State(turns, truncated, sequence, processSequence, finals, calls, outputs)
    }

    constructor (l: Limits)
      ensures limits == l && Value() == START
    {
      limits := l;
      turns, truncated, sequence, processSequence, finals, calls, outputs := [], false, 0, 0, [], map[], {};
    }

    method MarkTruncated()
      requires turns != []
      modifies this`turns, this`truncated
      ensures Value() == Mark(old(Value()))
    {
      var last := |turns| - 1;
      turns := turns[last := turns[last].(truncated := true)];
      truncated := true;
    }

    method Bounded(value: Text, limit: Option<nat>) returns (cut: Text)
      requires turns != []
      modifies this`turns, this`truncated
      ensures cut == Cut(value, limit) && Value() == MarkIf(old(Value()), Exceeds(|value|, limit))
    {
      if limit.Some? && |value| > limit.value {
        MarkTruncated();
        return value[..limit.value];
      }
      return value;
    }

    method BeginTurn(id: Text)
      modifies this
      ensures Value() == Begin(limits, old(Value()), id)
    {
      if turns != [] && turns[|turns| - 1].id == id { return; }
      processSequence, finals, calls, outputs := 0, [], map[], {};
      turns := turns + [Turn(id, [], [], [], Running, false)];
      if |turns| > 1 && Exceeds(|turns|, limits.turns) {
        turns := turns[1..];
        truncated := true;
      }
    }

    method ProcessItem(kind: ItemKind, value: Text)
      requires turns != [] && value != []
      modifies this`turns, this`truncated, this`processSequence
      ensures Value() == AddItem(limits, old(Value()), kind, value)
    {
      var number := processSequence;
      var text := Bounded(value, limits.tool);
      processSequence := processSequence + 1;
      var last := |turns| - 1;
      var process := turns[last].process + [Item(number, kind, text, Exceeds(|value|, limits.tool), [])];
      var over := Exceeds(|process|, limits.items);
      if over { process := process[1..]; }
      turns := turns[last := turns[last].(process := process)];
      if over { MarkTruncated(); }
    }

    method SetPrompt(value: Text)
      requires turns != []
      modifies this`turns, this`truncated
      ensures Value() == Prompt(limits, old(Value()), value)
    {
      var text := Bounded(value, limits.prompt);
      var last := |turns| - 1;
      turns := turns[last := turns[last].(prompt := text)];
    }

    method Finish(status: Status)
      requires turns != []
      modifies this`turns
      ensures Value() == SetStatus(old(Value()), status)
    {
      var last := |turns| - 1;
      turns := turns[last := turns[last].(status := status)];
    }

    method SetAnswer(id: Text, content: Text)
      requires turns != []
      modifies this`turns, this`truncated, this`finals
      ensures Value() == Answer(limits, old(Value()), id, content)
    {
      if content == [] { return; }
      finals := SetFinal(finals, id, content);
      var text := Bounded(Join(Values(finals)), limits.answer);
      var kept := Filter(turns[|turns| - 1].process, Values(finals));
      var last := |turns| - 1;
      turns := turns[last := turns[last].(answer := text, process := kept)];
    }

    method Filter(process: seq<Item>, values: seq<Text>) returns (kept: seq<Item>)
      ensures kept == WithoutRepeats(process, values)
    {
      kept := [];
      var i := |process|;
      while i > 0
        invariant 0 <= i <= |process| && kept == WithoutRepeats(process[i..], values)
      {
        i := i - 1;
        assert process[i..][1..] == process[i + 1..];
        if process[i].kind != Commentary || process[i].text !in values { kept := [process[i]] + kept; }
      }
    }

    method OnToolCall(p: Payload)
      requires turns != []
      modifies this
      ensures Value() == ToolCall(limits, old(Value()), p)
    {
      if p.callId != [] && p.callId in calls { return; }
      var content := Both(p.name, Or(p.arguments, p.input));
      if content == [] { return; }
      var number := processSequence;
      ProcessItem(Tool, content);
      if p.callId != [] { calls := calls[p.callId := number]; }
    }

    method OnToolOutput(p: Payload)
      requires turns != []
      modifies this
      ensures Value() == ToolOutput(limits, old(Value()), p)
    {
      var last := |turns| - 1;
      if p.callId !in calls || !HasItem(turns[last].process, calls[p.callId]) || p.callId in outputs { return; }
      var output := Or(p.output, p.content);
      if output == [] { return; }
      var i := Find(turns[last].process, calls[p.callId]);
      var entry := turns[last].process[i];
      var combined := entry.text + BLANK_LINE + output;
      var text := Bounded(combined, limits.tool);
      entry := entry.(text := text, attached := entry.attached + [output]);
      if Exceeds(|combined|, limits.tool) { entry := entry.(truncated := true); }
      turns := turns[last := turns[last].(process := turns[last].process[i := entry])];
      outputs := outputs + {p.callId};
    }

    method OnAssistantMessage(p: Payload)
      requires turns != []
      modifies this
      ensures Value() == AssistantMessage(limits, old(Value()), p)
    {
      if p.channel == Analysis || p.phase == Analysis { return; }
      if p.phase == Final || p.channel == Final {
        SetAnswer(Or(p.id, p.content), p.content);
        Finish(Complete);
      } else if LastText(turns[|turns| - 1].process) != Some(p.content) {
        if p.content != [] { ProcessItem(Commentary, p.content); }
      }
    }

    method OnEvent(p: Payload)
      requires turns != []
      modifies this
      ensures Value() == EventMessage(limits, old(Value()), p)
    {
      if p.kind == UserMessage { SetPrompt(p.message); }
      if p.kind == TaskComplete {
        if p.lastMessage != [] && p.lastMessage != turns[|turns| - 1].answer && p.lastMessage !in Values(finals) {
          SetAnswer(COMPLETION, p.lastMessage);
        }
        Finish(Complete);
      }
      if p.kind == TurnAborted { Finish(Interrupted); }
    }

    method OnResponse(p: Payload)
      requires turns != []
      modifies this
      ensures Value() == Response(limits, old(Value()), p)
    {
      if p.kind == Message && p.role == User && turns[|turns| - 1].prompt == [] { SetPrompt(p.content); }
      if p.kind == Message && p.role == Assistant { OnAssistantMessage(p); }
      if p.kind == FunctionCall { OnToolCall(p); }
      if p.kind == FunctionCallOutput { OnToolOutput(p); }
    }

    method OnLine(line: Line)
      modifies this
      ensures Value() == Step(limits, old(Value()), line)
    {
      if line.Skipped? { return; }
      var p := line.payload;
      if line.kind == EventMsg && p.kind == TaskStarted {
        if p.turnId.Some? && p.turnId.value != [] {
          BeginTurn(p.turnId.value);
        } else {
          sequence := sequence + 1;
          BeginTurn(TURN + Digits(sequence - 1));
        }
        return;
      }
      if line.kind == TurnContext && p.turnId.Some? {
        BeginTurn(p.turnId.value);
        return;
      }
      if line.kind != EventMsg && line.kind != ResponseItem { return; }
      if turns == [] {
        if line.kind != ResponseItem || p.kind != Message || p.role != Assistant { return; }
        BeginTurn(PARTIAL_TURN);
        MarkTruncated();
      }
      InCurrentTurn(line.kind, p);
    }

    method InCurrentTurn(kind: ItemType, p: Payload)
      requires turns != []
      modifies this
      ensures Value() == InTurn(limits, old(Value()), kind, p)
    {
      hide EventMessage, Response;
      if p.turnId.Some? && p.turnId.value != turns[|turns| - 1].id { return; }
      if kind == EventMsg { OnEvent(p); } else { OnResponse(p); }
    }

    method ReadAll(lines: seq<Line>)
      requires Value() == START
      modifies this
      ensures Value() == Parse(limits, lines)
    {
      var i := 0;
      while i < |lines|
        invariant 0 <= i <= |lines| && Value() == Parse(limits, lines[..i])
      {
        assert lines[..i + 1][..i] == lines[..i];
        OnLine(lines[i]);
        i := i + 1;
      }
      assert lines[..i] == lines;
    }
  }

  /** A turn with nothing in it is not returned. */
  predicate Shown(t: Turn) { t.prompt != [] || t.process != [] || t.answer != [] }

  function Visible(turns: seq<Turn>): (v: seq<Turn>)
    ensures |v| <= |turns| && forall t :: t in v <==> t in turns && Shown(t)
  {
    if turns == [] then []
    else
      var last := turns[|turns| - 1];
      assert turns == turns[..|turns| - 1] + [last];
      if Shown(last) then Visible(turns[..|turns| - 1]) + [last] else Visible(turns[..|turns| - 1])
  }

  /** Exactly the turns in which nothing was asked, done or answered are dropped. */
  lemma VisibleNext(turns: seq<Turn>, t: Turn)
    ensures Visible(turns + [t]) == Visible(turns) + if t.prompt == [] && t.process == [] && t.answer == [] then [] else [t]
  {
    assert (turns + [t])[..|turns|] == turns;
  }

  /** `parseAgentConversationTranscript`: what it returns is within the limits, and it is what the parser
      without limits returns whenever it says `truncated = false`. */
  method ParseTranscript(lines: seq<Line>) returns (turns: seq<Turn>, truncated: bool)
    ensures !truncated ==> turns == Visible(Parse(UNLIMITED, lines).turns)
    ensures turns == Visible(Parse(LIMITS, lines).turns) && truncated == Parse(LIMITS, lines).truncated
    ensures SaysTurns(LIMITS, Parse(LIMITS, lines).turns, Sections(lines))
    ensures var full, sections := Parse(UNLIMITED, lines).turns, Sections(lines);
      |full| == |sections| && forall i :: 0 <= i < |full| ==> TurnTells(sections[i].lines, full[i])
    ensures |turns| <= 20 && forall t :: t in turns ==>
      Shown(t) && |t.process| <= 50 && |t.answer| <= 128000 && |t.prompt| <= 4000 && forall x :: x in t.process ==> |x.text| <= 16000
  {
    var parser := new Parser(LIMITS);
    parser.ReadAll(lines);
    turns, truncated := [], parser.truncated;
    var i := 0;
    while i < |parser.turns|
      invariant 0 <= i <= |parser.turns| && turns == Visible(parser.turns[..i])
    {
      assert parser.turns[..i + 1][..i] == parser.turns[..i];
      if Shown(parser.turns[i]) { turns := turns + [parser.turns[i]]; }
      i := i + 1;
    }
    assert parser.turns[..i] == parser.turns;
    AlwaysWithinLimits(lines);
    if !truncated { NoTruncationMeansReference(LIMITS, lines); }
    TurnsSay(LIMITS, lines);
    TranscriptTells(lines);
  }
}
