/** The transcript parser (src/server/agent-conversation-parser.ts): one pass over the lines of a session
    file, with limits on what it keeps. The limits are a parameter, so the parser without limits is the same
    function. */
module ConversationTranscript {
  import opened Wrappers

  /** Texts are sequences of UTF-16 units, which is what the source measures and cuts. */
  type Text = seq<nat>

  /** The units of an ASCII literal. */
  function Units(s: string): Text {
    if s == "" then [] else Units(s[..|s| - 1]) + [s[|s| - 1] as int]
  }

  const LINE_BREAK: Text := Units("\n")
  const BLANK_LINE: Text := Units("\n\n")
  const TURN: Text := Units("turn-")
  const PARTIAL_TURN: Text := Units("partial-turn")
  const COMPLETION: Text := Units("completion")

  datatype ItemType = EventMsg | TurnContext | ResponseItem | OtherItem

  datatype PayloadType =
    | TaskStarted | UserMessage | TaskComplete | TurnAborted | Message | FunctionCall | FunctionCallOutput | OtherPayload

  datatype Role = User | Assistant | OtherRole
  datatype Part = Analysis | Final | OtherPart

  /** A payload after `text` and `messageText`: a field that is not a string is the empty string, except
      that `turnId` tells the two apart. */
  datatype Payload = Payload(
    kind: PayloadType, turnId: Option<Text>, role: Role, channel: Part, phase: Part, id: Text, message: Text,
    lastMessage: Text, content: Text, callId: Text, name: Text, arguments: Text, input: Text, output: Text
  )

  /** A line that is blank or not JSON is skipped. */
  datatype Line = Skipped | Line(kind: ItemType, payload: Payload)

  datatype ItemKind = Commentary | Tool
  datatype Status = Running | Complete | Interrupted

  /** One process item; `attached` is the history of the outputs written into it. */
  datatype Item = Item(number: nat, kind: ItemKind, text: Text, truncated: bool, attached: seq<Text>)

  datatype Turn = Turn(id: Text, prompt: Text, process: seq<Item>, answer: Text, status: Status, truncated: bool)

  /** `None` is no limit. */
  datatype Limits = Limits(turns: Option<nat>, items: Option<nat>, tool: Option<nat>, answer: Option<nat>, prompt: Option<nat>)

  const LIMITS := Limits(Some(20), Some(50), Some(16000), Some(128000), Some(4000))
  const UNLIMITED := Limits(None, None, None, None, None)

  /** The local variables of the parser. The current turn is the last one; `finals` is an insertion-ordered
      map, and `calls` points at process items by their number. */
  datatype State = State(
    turns: seq<Turn>, truncated: bool, sequence: nat, processSequence: nat,
    finals: seq<(Text, Text)>, calls: map<Text, nat>, outputs: set<Text>
  )

  const START := State([], false, 0, 0, [], map[], {})

  // ---- Helpers ----

  predicate Exceeds(n: nat, limit: Option<nat>) { limit.Some? && n > limit.value }

  function Cut(value: Text, limit: Option<nat>): Text {
    if Exceeds(|value|, limit) then value[..limit.value] else value
  }

  predicate Begun(s: State) { s.turns != [] }

  function Current(s: State): Turn
    requires Begun(s)
  {
    s.turns[|s.turns| - 1]
  }

  function SetCurrent(s: State, t: Turn): State
    requires Begun(s)
  {
    s.(turns := s.turns[|s.turns| - 1 := t])
  }

  function Mark(s: State): State
    requires Begun(s)
  {
    SetCurrent(s, Current(s).(truncated := true)).(truncated := true)
  }

  /** `bounded`: what it does besides cutting. */
  function MarkIf(s: State, exceeds: bool): State
    requires Begun(s)
  {
    if exceeds then Mark(s) else s
  }

  function Digits(n: nat): Text {
    if n < 10 then ['0' as int + n] else Digits(n / 10) + ['0' as int + n % 10]
  }

  function Values(finals: seq<(Text, Text)>): (v: seq<Text>)
    ensures |v| == |finals|
  {
    seq(|finals|, i requires 0 <= i < |finals| => finals[i].1)
  }

  /** `finals.set(id, content)`: an existing key keeps its place. */
  function SetFinal(finals: seq<(Text, Text)>, id: Text, content: Text): seq<(Text, Text)> {
    if finals == [] then [(id, content)]
    else if finals[0].0 == id then [(id, content)] + finals[1..]
    else [finals[0]] + SetFinal(finals[1..], id, content)
  }

  function Join(values: seq<Text>): Text {
    if values == [] then []
    else if |values| == 1 then values[0]
    else values[0] + BLANK_LINE + Join(values[1..])
  }

  /** Items that `filter` keeps when an answer repeats commentary. */
  function WithoutRepeats(process: seq<Item>, values: seq<Text>): (kept: seq<Item>)
    ensures |kept| <= |process| && forall x :: x in kept ==> x in process
  {
    if process == [] then []
    else
      var rest := WithoutRepeats(process[1..], values);
      if process[0].kind == Commentary && process[0].text in values then rest else [process[0]] + rest
  }

  function Both(name: Text, rest: Text): Text {
    if name == [] then rest else if rest == [] then name else name + LINE_BREAK + rest
  }

  function Or(a: Text, b: Text): Text { if a != [] then a else b }

  // ---- The inner functions ----

  function Begin(l: Limits, s: State, id: Text): (v: State)
    ensures Begun(v) && (s.truncated ==> v.truncated)
  {
    if Begun(s) && Current(s).id == id then s
    else
      var all := s.turns + [Turn(id, [], [], [], Running, false)];
      var over := |all| > 1 && Exceeds(|all|, l.turns);
      State(if over then all[1..] else all, s.truncated || over, s.sequence, 0, [], map[], {})
  }

  function Prompt(l: Limits, s: State, value: Text): (v: State)
    requires Begun(s)
    ensures Begun(v) && (s.truncated ==> v.truncated)
  {
    var marked := MarkIf(s, Exceeds(|value|, l.prompt));
    SetCurrent(marked, Current(marked).(prompt := Cut(value, l.prompt)))
  }

  /** `processItem`, for a value that is not empty; the new item's number is the old `processSequence`. */
  function AddItem(l: Limits, s: State, kind: ItemKind, value: Text): (v: State)
    requires Begun(s)
    ensures Begun(v) && (s.truncated ==> v.truncated)
  {
    var long := Exceeds(|value|, l.tool);
    var marked := MarkIf(s, long);
    var process := Current(marked).process + [Item(s.processSequence, kind, Cut(value, l.tool), long, [])];
    var over := Exceeds(|process|, l.items);
    var pushed := SetCurrent(marked, Current(marked).(process := if over then process[1..] else process)).(processSequence := s.processSequence + 1);
    MarkIf(pushed, over)
  }

  function Answer(l: Limits, s: State, id: Text, content: Text): (v: State)
    requires Begun(s)
    ensures Begun(v) && (s.truncated ==> v.truncated)
  {
    if content == [] then s
    else
      var finals := SetFinal(s.finals, id, content);
      var whole := Join(Values(finals));
      var marked := MarkIf(s.(finals := finals), Exceeds(|whole|, l.answer));
      var t := Current(marked);
      SetCurrent(marked, t.(answer := Cut(whole, l.answer), process := WithoutRepeats(t.process, Values(finals))))
  }

  function SetStatus(s: State, status: Status): (v: State)
    requires Begun(s)
    ensures Begun(v) && v.truncated == s.truncated
  {
    SetCurrent(s, Current(s).(status := status))
  }

  function ToolCall(l: Limits, s: State, p: Payload): (v: State)
    requires Begun(s)
    ensures Begun(v) && (s.truncated ==> v.truncated)
  {
    var content := Both(p.name, Or(p.arguments, p.input));
    if (p.callId != [] && p.callId in s.calls) || content == [] then s
    else
      var added := AddItem(l, s, Tool, content);
      if p.callId == [] then added else added.(calls := added.calls[p.callId := s.processSequence])
  }

  predicate HasItem(process: seq<Item>, number: nat) {
    exists i :: 0 <= i < |process| && process[i].number == number
  }

  function Find(process: seq<Item>, number: nat): (i: nat)
    requires HasItem(process, number)
    ensures i < |process| && process[i].number == number
  {
    if process[|process| - 1].number == number then |process| - 1 else Find(process[..|process| - 1], number)
  }

  function Attach(l: Limits, item: Item, output: Text): Item {
    var combined := item.text + BLANK_LINE + output;
    item.(text := Cut(combined, l.tool), truncated := item.truncated || Exceeds(|combined|, l.tool), attached := item.attached + [output])
  }

  function ToolOutput(l: Limits, s: State, p: Payload): (v: State)
    requires Begun(s)
    ensures Begun(v) && (s.truncated ==> v.truncated)
  {
    var output := Or(p.output, p.content);
    if p.callId !in s.calls || !HasItem(Current(s).process, s.calls[p.callId]) || p.callId in s.outputs || output == [] then s
    else
      var i := Find(Current(s).process, s.calls[p.callId]);
      var item := Current(s).process[i];
      var marked := MarkIf(s, Exceeds(|item.text + BLANK_LINE + output|, l.tool));
      SetCurrent(marked, Current(marked).(process := Current(marked).process[i := Attach(l, item, output)])).(outputs := s.outputs + {p.callId})
  }

  function LastText(process: seq<Item>): Option<Text> {
    if process == [] then None else Some(process[|process| - 1].text)
  }

  function AssistantMessage(l: Limits, s: State, p: Payload): (v: State)
    requires Begun(s)
    ensures Begun(v) && (s.truncated ==> v.truncated)
  {
    if p.channel == Analysis || p.phase == Analysis then s
    else if p.phase == Final || p.channel == Final then SetStatus(Answer(l, s, Or(p.id, p.content), p.content), Complete)
    else if LastText(Current(s).process) != Some(p.content) && p.content != [] then AddItem(l, s, Commentary, p.content)
    else s
  }

  function EventMessage(l: Limits, s: State, p: Payload): (v: State)
    requires Begun(s)
    ensures Begun(v) && (s.truncated ==> v.truncated)
  {
    match p.kind
    case UserMessage => Prompt(l, s, p.message)
    case TaskComplete =>
      if p.lastMessage != [] && p.lastMessage != Current(s).answer && p.lastMessage !in Values(s.finals)
      then SetStatus(Answer(l, s, COMPLETION, p.lastMessage), Complete)
      else SetStatus(s, Complete)
    case TurnAborted => SetStatus(s, Interrupted)
    case _ => s
  }

  function Response(l: Limits, s: State, p: Payload): (v: State)
    requires Begun(s)
    ensures Begun(v) && (s.truncated ==> v.truncated)
  {
    match p.kind
    case Message =>
      if p.role == User then (if Current(s).prompt == [] then Prompt(l, s, p.content) else s)
      else if p.role == Assistant then AssistantMessage(l, s, p)
      else s
    case FunctionCall => ToolCall(l, s, p)
    case FunctionCallOutput => ToolOutput(l, s, p)
    case _ => s
  }

  function InTurn(l: Limits, s: State, kind: ItemType, p: Payload): (v: State)
    requires Begun(s)
    ensures Begun(v) && (s.truncated ==> v.truncated)
  {
    if p.turnId.Some? && p.turnId.value != Current(s).id then s
    else if kind == EventMsg then EventMessage(l, s, p)
    else Response(l, s, p)
  }

  /** One line of the loop. */
  function Step(l: Limits, s: State, line: Line): (v: State)
    ensures s.truncated ==> v.truncated
  {
    if line.Skipped? then s
    else
      var p := line.payload;
      if line.kind == EventMsg && p.kind == TaskStarted then
        if p.turnId.Some? && p.turnId.value != [] then Begin(l, s, p.turnId.value)
        else Begin(l, s.(sequence := s.sequence + 1), TURN + Digits(s.sequence))
      else if line.kind == TurnContext && p.turnId.Some? then Begin(l, s, p.turnId.value)
      else if line.kind != EventMsg && line.kind != ResponseItem then s
      else if Begun(s) then InTurn(l, s, line.kind, p)
      else if line.kind != ResponseItem || p.kind != Message || p.role != Assistant then s
      else InTurn(l, Mark(Begin(l, s, PARTIAL_TURN)), line.kind, p)
  }

  function Parse(l: Limits, lines: seq<Line>): State {
    if lines == [] then START else Step(l, Parse(l, lines[..|lines| - 1]), lines[|lines| - 1])
  }

  // ---- Truncation is the only difference ----

  lemma AddItemAgrees(l: Limits, s: State, kind: ItemKind, value: Text)
    requires Begun(s) && !AddItem(l, s, kind, value).truncated
    ensures AddItem(l, s, kind, value) == AddItem(UNLIMITED, s, kind, value)
  {
  }

  lemma AnswerAgrees(l: Limits, s: State, id: Text, content: Text)
    requires Begun(s) && !Answer(l, s, id, content).truncated
    ensures Answer(l, s, id, content) == Answer(UNLIMITED, s, id, content)
  {
  }

  lemma ResponseAgrees(l: Limits, s: State, p: Payload)
    requires Begun(s) && !Response(l, s, p).truncated
    ensures Response(l, s, p) == Response(UNLIMITED, s, p)
  {
    match p.kind
    case Message =>
      if p.role == Assistant { AssistantAgrees(l, s, p); }
    case FunctionCall => ToolCallAgrees(l, s, p);
    case _ =>
  }

  lemma AssistantAgrees(l: Limits, s: State, p: Payload)
    requires Begun(s) && !AssistantMessage(l, s, p).truncated
    ensures AssistantMessage(l, s, p) == AssistantMessage(UNLIMITED, s, p)
  {
    if p.channel != Analysis && p.phase != Analysis {
      if p.phase == Final || p.channel == Final { AnswerAgrees(l, s, Or(p.id, p.content), p.content); }
      else if LastText(Current(s).process) != Some(p.content) && p.content != [] { AddItemAgrees(l, s, Commentary, p.content); }
    }
  }

  lemma ToolCallAgrees(l: Limits, s: State, p: Payload)
    requires Begun(s) && !ToolCall(l, s, p).truncated
    ensures ToolCall(l, s, p) == ToolCall(UNLIMITED, s, p)
  {
    var content := Both(p.name, Or(p.arguments, p.input));
    if !(p.callId != [] && p.callId in s.calls) && content != [] { AddItemAgrees(l, s, Tool, content); }
  }

  lemma EventAgrees(l: Limits, s: State, p: Payload)
    requires Begun(s) && !EventMessage(l, s, p).truncated
    ensures EventMessage(l, s, p) == EventMessage(UNLIMITED, s, p)
  {
    if p.kind == TaskComplete && p.lastMessage != [] && p.lastMessage != Current(s).answer && p.lastMessage !in Values(s.finals) {
      AnswerAgrees(l, s, COMPLETION, p.lastMessage);
    }
  }

  lemma InTurnAgrees(l: Limits, s: State, kind: ItemType, p: Payload)
    requires Begun(s) && !InTurn(l, s, kind, p).truncated
    ensures InTurn(l, s, kind, p) == InTurn(UNLIMITED, s, kind, p)
  {
    if !(p.turnId.Some? && p.turnId.value != Current(s).id) {
      if kind == EventMsg { EventAgrees(l, s, p); } else { ResponseAgrees(l, s, p); }
    }
  }

  lemma StepAgrees(l: Limits, s: State, line: Line)
    requires !Step(l, s, line).truncated
    ensures Step(l, s, line) == Step(UNLIMITED, s, line)
  {
    if !line.Skipped? {
      var p := line.payload;
      if Begun(s) && (line.kind == EventMsg || line.kind == ResponseItem) && !(line.kind == EventMsg && p.kind == TaskStarted) {
        InTurnAgrees(l, s, line.kind, p);
      }
    }
  }

  /** Whenever the parser says that nothing was truncated, its whole state, and so every turn it returns, is
      that of the parser without limits; in particular the limits never decide anything silently. */
  lemma {:induction false} NoTruncationMeansReference(l: Limits, lines: seq<Line>)
    requires !Parse(l, lines).truncated
    ensures Parse(l, lines) == Parse(UNLIMITED, lines)
  {
    if lines != [] {
      NoTruncationMeansReference(l, lines[..|lines| - 1]);
      StepAgrees(l, Parse(l, lines[..|lines| - 1]), lines[|lines| - 1]);
    }
  }

  // ---- The limits ----

  predicate Within(n: nat, limit: Option<nat>) { !Exceeds(n, limit) }

  predicate TurnFits(l: Limits, t: Turn) {
    && Within(|t.prompt|, l.prompt) && Within(|t.answer|, l.answer) && Within(|t.process|, l.items)
    && forall x :: x in t.process ==> Within(|x.text|, l.tool)
  }

  predicate Fits(l: Limits, s: State) {
    && (|s.turns| > 1 ==> Within(|s.turns|, l.turns))
    && forall i :: 0 <= i < |s.turns| ==> TurnFits(l, s.turns[i])
  }

  lemma CurrentFits(l: Limits, s: State, t: Turn)
    requires Begun(s) && Fits(l, s) && TurnFits(l, t)
    ensures Fits(l, SetCurrent(s, t)) && Fits(l, SetCurrent(s, t).(truncated := true))
  {
  }

  lemma BeginFits(l: Limits, s: State, id: Text)
    requires Fits(l, s)
    ensures Fits(l, Begin(l, s, id))
  {
  }

  lemma AddItemFits(l: Limits, s: State, kind: ItemKind, value: Text)
    requires Begun(s) && Fits(l, s)
    ensures Fits(l, AddItem(l, s, kind, value))
  {
    assert TurnFits(l, Current(s));
    var v := AddItem(l, s, kind, value);
    var item := Item(s.processSequence, kind, Cut(value, l.tool), Exceeds(|value|, l.tool), []);
    AllFit(l, Current(s).process, item);
    AddItemTurns(l, s, kind, value);
    hide AddItem, Fits;
    CurrentFits(l, s, Current(v));
    SameTurnsFit(l, SetCurrent(s, Current(v)), v);
  }

  lemma SameTurnsFit(l: Limits, s: State, v: State)
    requires Fits(l, s) && v.turns == s.turns
    ensures Fits(l, v)
  {
  }

  /** A new item changes the current turn only. */
  lemma AddItemTurns(l: Limits, s: State, kind: ItemKind, value: Text)
    requires Begun(s)
    ensures var v := AddItem(l, s, kind, value);
      var process := Current(s).process + [Item(s.processSequence, kind, Cut(value, l.tool), Exceeds(|value|, l.tool), [])];
      && v.turns == SetCurrent(s, Current(v)).turns && Current(v).prompt == Current(s).prompt && Current(v).answer == Current(s).answer
      && Current(v).process == if Exceeds(|process|, l.items) then process[1..] else process
  {
  }

  lemma AllFit(l: Limits, process: seq<Item>, item: Item)
    requires (forall x :: x in process ==> Within(|x.text|, l.tool)) && Within(|item.text|, l.tool)
    ensures forall x :: x in process + [item] ==> Within(|x.text|, l.tool)
    ensures forall x :: x in (process + [item])[1..] ==> Within(|x.text|, l.tool)
  {
  }

  lemma AnswerFits(l: Limits, s: State, id: Text, content: Text)
    requires Begun(s) && Fits(l, s)
    ensures Fits(l, Answer(l, s, id, content))
  {
    assert TurnFits(l, Current(s));
    var v := Answer(l, s, id, content);
    CurrentFits(l, s, Current(v));
    assert v.turns == SetCurrent(s, Current(v)).turns;
  }

  lemma ToolOutputFits(l: Limits, s: State, p: Payload)
    requires Begun(s) && Fits(l, s)
    ensures Fits(l, ToolOutput(l, s, p))
  {
    assert TurnFits(l, Current(s));
    var v := ToolOutput(l, s, p);
    CurrentFits(l, s, Current(v));
    assert v.turns == SetCurrent(s, Current(v)).turns;
  }

  lemma PromptFits(l: Limits, s: State, value: Text)
    requires Begun(s) && Fits(l, s)
    ensures Fits(l, Prompt(l, s, value))
  {
    assert TurnFits(l, Current(s));
    var v := Prompt(l, s, value);
    CurrentFits(l, s, Current(v));
    assert v.turns == SetCurrent(s, Current(v)).turns;
  }

  lemma StatusFits(l: Limits, s: State, status: Status)
    requires Begun(s) && Fits(l, s)
    ensures Fits(l, SetStatus(s, status))
  {
    assert TurnFits(l, Current(s));
  }

  lemma ResponseFits(l: Limits, s: State, p: Payload)
    requires Begun(s) && Fits(l, s)
    ensures Fits(l, Response(l, s, p))
  {
    match p.kind
    case Message =>
      if p.role == User {
        PromptFits(l, s, p.content);
      } else {
        AnswerFits(l, s, Or(p.id, p.content), p.content);
        StatusFits(l, Answer(l, s, Or(p.id, p.content), p.content), Complete);
        AddItemFits(l, s, Commentary, p.content);
      }
    case FunctionCall => AddItemFits(l, s, Tool, Both(p.name, Or(p.arguments, p.input)));
    case FunctionCallOutput => ToolOutputFits(l, s, p);
    case _ =>
  }

  lemma EventFits(l: Limits, s: State, p: Payload)
    requires Begun(s) && Fits(l, s)
    ensures Fits(l, EventMessage(l, s, p))
  {
    match p.kind
    case UserMessage => PromptFits(l, s, p.message);
    case TaskComplete =>
      AnswerFits(l, s, COMPLETION, p.lastMessage);
      StatusFits(l, Answer(l, s, COMPLETION, p.lastMessage), Complete);
      StatusFits(l, s, Complete);
    case TurnAborted => StatusFits(l, s, Interrupted);
    case _ =>
  }

  lemma MarkFits(l: Limits, s: State)
    requires Begun(s) && Fits(l, s)
    ensures Fits(l, Mark(s))
  {
    assert TurnFits(l, Current(s));
    CurrentFits(l, s, Current(s).(truncated := true));
  }

  lemma StepFits(l: Limits, s: State, line: Line)
    requires Fits(l, s)
    ensures Fits(l, Step(l, s, line))
  {
    hide Begin, EventMessage, Response, TurnFits, Digits;
    if !line.Skipped? {
      var p := line.payload;
      if p.turnId.Some? { BeginFits(l, s, p.turnId.value); }
      BeginFits(l, s.(sequence := s.sequence + 1), TURN + Digits(s.sequence));
      if Begun(s) {
        EventFits(l, s, p);
        ResponseFits(l, s, p);
      } else {
        BeginFits(l, s, PARTIAL_TURN);
        var first := Mark(Begin(l, s, PARTIAL_TURN));
        MarkFits(l, Begin(l, s, PARTIAL_TURN));
        ResponseFits(l, first, p);
      }
    }
  }

  lemma {:induction false} ParseFits(l: Limits, lines: seq<Line>)
    ensures Fits(l, Parse(l, lines))
  {
    if lines != [] {
      ParseFits(l, lines[..|lines| - 1]);
      StepFits(l, Parse(l, lines[..|lines| - 1]), lines[|lines| - 1]);
    }
  }

  /** For every input: at most 20 turns, and in each turn at most 50 items of at most 16000 characters, an
      answer of at most 128000 and a prompt of at most 4000. */
  lemma {:induction false} AlwaysWithinLimits(lines: seq<Line>)
    ensures var turns := Parse(LIMITS, lines).turns;
      && |turns| <= 20
      && forall i :: 0 <= i < |turns| ==>
        && |turns[i].process| <= 50 && |turns[i].answer| <= 128000 && |turns[i].prompt| <= 4000
        && forall x :: x in turns[i].process ==> |x.text| <= 16000
  {
    ParseFits(LIMITS, lines);
    var turns := Parse(LIMITS, lines).turns;
    forall i | 0 <= i < |turns| ensures TurnFits(LIMITS, turns[i]) {}
  }

  // ---- One output per call ----

  predicate OncePerItem(process: seq<Item>) {
    forall x :: x in process ==> |x.attached| <= 1
  }

  /** An output in an item of the current turn comes from a call whose output was noted; calls have items of
      their own. */
  predicate Tracked(s: State)
    requires Begun(s)
  {
    && (forall c :: c in s.calls ==> s.calls[c] < s.processSequence)
    && (forall c, d :: c in s.calls && d in s.calls && s.calls[c] == s.calls[d] ==> c == d)
    && (forall x :: x in Current(s).process ==> x.number < s.processSequence && (x.attached != [] ==> Noted(s, x.number)))
  }

  predicate Noted(s: State, number: nat) {
    exists c :: c in s.outputs && c in s.calls && s.calls[c] == number
  }

  predicate Once(s: State) {
    && (forall i :: 0 <= i < |s.turns| ==> OncePerItem(s.turns[i].process))
    && (Begun(s) ==> Tracked(s))
  }

  lemma BeginOnce(l: Limits, s: State, id: Text)
    requires Once(s)
    ensures Once(Begin(l, s, id))
  {
  }

  lemma ProcessOnce(s: State, v: State)
    requires Begun(s) && Begun(v) && Once(s) && v.turns == s.turns[|s.turns| - 1 := Current(v)]
    requires v.calls == s.calls && v.outputs == s.outputs && v.processSequence == s.processSequence
    requires forall x :: x in Current(v).process ==> x in Current(s).process
    ensures Once(v)
  {
    assert OncePerItem(Current(s).process);
    forall x | x in Current(v).process && x.attached != [] ensures Noted(v, x.number) {
      assert Noted(s, x.number);
    }
  }

  lemma GrowOnce(s: State, v: State, item: Item)
    requires Begun(s) && Begun(v) && Once(s) && v.turns == s.turns[|s.turns| - 1 := Current(v)]
    requires v.calls == s.calls && v.outputs == s.outputs && v.processSequence == s.processSequence + 1
    requires item.number == s.processSequence && item.attached == []
    requires forall x :: x in Current(v).process ==> x in Current(s).process || x == item
    ensures Once(v)
  {
    assert OncePerItem(Current(s).process);
    forall x | x in Current(v).process && x.attached != [] ensures Noted(v, x.number) {
      assert Noted(s, x.number);
    }
  }

  lemma AddItemOnce(l: Limits, s: State, kind: ItemKind, value: Text)
    requires Begun(s) && Once(s)
    ensures var v := AddItem(l, s, kind, value);
      Once(v) && v.calls == s.calls && v.outputs == s.outputs && v.processSequence == s.processSequence + 1
  {
    var v := AddItem(l, s, kind, value);
    assert v.turns == s.turns[|s.turns| - 1 := Current(v)];
    GrowOnce(s, v, Item(s.processSequence, kind, Cut(value, l.tool), Exceeds(|value|, l.tool), []));
  }

  lemma ToolCallOnce(l: Limits, s: State, p: Payload)
    requires Begun(s) && Once(s)
    ensures Once(ToolCall(l, s, p))
  {
    var content := Both(p.name, Or(p.arguments, p.input));
    if !(p.callId != [] && p.callId in s.calls) && content != [] {
      AddItemOnce(l, s, Tool, content);
      var added, v := AddItem(l, s, Tool, content), ToolCall(l, s, p);
      if p.callId != [] {
        forall x | x in Current(v).process && x.attached != [] ensures Noted(v, x.number) {
          assert Noted(added, x.number);
          var c :| c in added.outputs && c in added.calls && added.calls[c] == x.number;
          assert c in v.calls && v.calls[c] == x.number;
        }
      }
    }
  }

  lemma ToolOutputOnce(l: Limits, s: State, p: Payload)
    requires Begun(s) && Once(s)
    ensures Once(ToolOutput(l, s, p))
  {
    var v := ToolOutput(l, s, p);
    if v != s {
      var i := Find(Current(s).process, s.calls[p.callId]);
      var item := Current(s).process[i];
      assert item in Current(s).process && OncePerItem(Current(s).process);
      assert item.attached == [];
      var changed := Attach(l, item, Or(p.output, p.content));
      assert Current(v).process == Current(s).process[i := changed];
      assert v.turns == s.turns[|s.turns| - 1 := Current(v)];
      assert forall x :: x in Current(v).process ==> x in Current(s).process || x == changed;
      forall x | x in Current(v).process && x.attached != [] ensures Noted(v, x.number) {
        if x == changed { assert p.callId in v.outputs && v.calls[p.callId] == x.number; }
        else {
          var c :| c in s.outputs && c in s.calls && s.calls[c] == x.number;
          assert c in v.outputs;
        }
      }
    }
  }

  lemma AnswerOnce(l: Limits, s: State, id: Text, content: Text)
    requires Begun(s) && Once(s)
    ensures Once(Answer(l, s, id, content))
  {
    var v := Answer(l, s, id, content);
    assert v.turns == s.turns[|s.turns| - 1 := Current(v)];
    ProcessOnce(s, v);
  }

  lemma SmallOnce(l: Limits, s: State, value: Text, status: Status)
    requires Begun(s) && Once(s)
    ensures Once(Prompt(l, s, value)) && Once(SetStatus(s, status)) && Once(Mark(s))
  {
    assert Prompt(l, s, value).turns == s.turns[|s.turns| - 1 := Current(Prompt(l, s, value))];
    ProcessOnce(s, Prompt(l, s, value));
    ProcessOnce(s, SetStatus(s, status));
    ProcessOnce(s, Mark(s));
  }

  lemma AssistantOnce(l: Limits, s: State, p: Payload)
    requires Begun(s) && Once(s)
    ensures Once(AssistantMessage(l, s, p))
  {
    AnswerOnce(l, s, Or(p.id, p.content), p.content);
    SmallOnce(l, Answer(l, s, Or(p.id, p.content), p.content), [], Complete);
    AddItemOnce(l, s, Commentary, p.content);
  }

  lemma EventOnce(l: Limits, s: State, p: Payload)
    requires Begun(s) && Once(s)
    ensures Once(EventMessage(l, s, p))
  {
    match p.kind
    case UserMessage => SmallOnce(l, s, p.message, Complete);
    case TaskComplete =>
      AnswerOnce(l, s, COMPLETION, p.lastMessage);
      SmallOnce(l, Answer(l, s, COMPLETION, p.lastMessage), [], Complete);
      SmallOnce(l, s, [], Complete);
    case TurnAborted => SmallOnce(l, s, [], Interrupted);
    case _ =>
  }

  lemma ResponseOnce(l: Limits, s: State, p: Payload)
    requires Begun(s) && Once(s)
    ensures Once(Response(l, s, p))
  {
    match p.kind
    case Message =>
      if p.role == User { SmallOnce(l, s, p.content, Complete); }
      else if p.role == Assistant { AssistantOnce(l, s, p); }
    case FunctionCall => ToolCallOnce(l, s, p);
    case FunctionCallOutput => ToolOutputOnce(l, s, p);
    case _ =>
  }

  lemma InTurnOnce(l: Limits, s: State, kind: ItemType, p: Payload)
    requires Begun(s) && Once(s)
    ensures Once(InTurn(l, s, kind, p))
  {
    if kind == EventMsg { EventOnce(l, s, p); } else { ResponseOnce(l, s, p); }
  }

  lemma FirstTurnOnce(l: Limits, s: State, kind: ItemType, p: Payload)
    requires Once(s)
    ensures Once(InTurn(l, Mark(Begin(l, s, PARTIAL_TURN)), kind, p))
  {
    BeginOnce(l, s, PARTIAL_TURN);
    SmallOnce(l, Begin(l, s, PARTIAL_TURN), [], Running);
    InTurnOnce(l, Mark(Begin(l, s, PARTIAL_TURN)), kind, p);
  }

  lemma NewTurnOnce(l: Limits, s: State, n: nat, id: Text)
    requires Once(s)
    ensures Once(Begin(l, s.(sequence := n), id)) && Once(Begin(l, s, id))
  {
    assert Once(s.(sequence := n)) by {
      if Begun(s) { SequenceOnce(s, n); }
    }
    BeginOnce(l, s.(sequence := n), id);
    BeginOnce(l, s, id);
  }

  lemma SequenceOnce(s: State, n: nat)
    requires Begun(s) && Tracked(s)
    ensures Tracked(s.(sequence := n))
  {
    forall x | x in Current(s).process && x.attached != [] ensures Noted(s.(sequence := n), x.number) {
      assert Noted(s, x.number);
    }
  }

  lemma StepOnce(l: Limits, s: State, line: Line)
    requires Once(s)
    ensures Once(Step(l, s, line))
  {
    if !line.Skipped? {
      var p := line.payload;
      if line.kind == EventMsg && p.kind == TaskStarted {
        if p.turnId.Some? && p.turnId.value != [] { NewTurnOnce(l, s, 0, p.turnId.value); }
        else { NewTurnOnce(l, s, s.sequence + 1, TURN + Digits(s.sequence)); }
      } else if line.kind == TurnContext && p.turnId.Some? {
        NewTurnOnce(l, s, 0, p.turnId.value);
      } else if line.kind == EventMsg || line.kind == ResponseItem {
        if Begun(s) { InTurnOnce(l, s, line.kind, p); } else { FirstTurnOnce(l, s, line.kind, p); }
      }
    }
  }

  lemma {:induction false} ParseOnce(l: Limits, lines: seq<Line>)
    ensures Once(Parse(l, lines))
  {
    if lines != [] {
      ParseOnce(l, lines[..|lines| - 1]);
      StepOnce(l, Parse(l, lines[..|lines| - 1]), lines[|lines| - 1]);
    }
  }

  /** For every input, with or without limits, no process item ever has more than one output written into it. */
  lemma {:induction false} OutputAttachedAtMostOnce(l: Limits, lines: seq<Line>, i: nat, x: Item)
    requires i < |Parse(l, lines).turns| && x in Parse(l, lines).turns[i].process
    ensures |x.attached| <= 1
  {
    ParseOnce(l, lines);
    assert OncePerItem(Parse(l, lines).turns[i].process);
  }
}
