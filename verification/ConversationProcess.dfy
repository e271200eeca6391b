/** What the transcript gives as the process items of a turn, told from its lines and not from the parser
    (src/server/agent-conversation-parser.ts). The limits are those of `NoTruncationMeansReference`: none. */
module ConversationProcess {
  import opened Wrappers
  import opened ConversationTranscript
  import opened ConversationMeaning
  import opened ConversationAnswers

  // ---- Process items ----

  predicate IsCall(line: Line) { line.Line? && line.kind == ResponseItem && line.payload.kind == FunctionCall }

  /** Name and arguments, or input, of a call, those that are not empty, on lines of their own. */
  function CallText(p: Payload): Text {
    var said := if p.arguments != [] then p.arguments else p.input;
    if p.name == [] then said else if said == [] then p.name else p.name + Units("\n") + said
  }

  /** The call has an item: it says something, and it is the first one of its id that does. */
  predicate Accepted(body: seq<Line>, i: nat)
    requires i < |body|
  {
    && IsCall(body[i]) && CallText(body[i].payload) != []
    && (body[i].payload.callId != [] ==>
          forall j :: 0 <= j < i && IsCall(body[j]) && CallText(body[j].payload) != [] ==> body[j].payload.callId != body[i].payload.callId)
  }

  function OutputText(p: Payload): Text { if p.output != [] then p.output else p.content }

  /** An output for the calls of this id. */
  predicate OutputFor(line: Line, id: Text) {
    && line.Line? && line.kind == ResponseItem && line.payload.kind == FunctionCallOutput
    && line.payload.callId == id && id != [] && OutputText(line.payload) != []
  }

  /** The first output behind call `i`. */
  function FirstOutput(body: seq<Line>, i: nat): (j: Option<nat>)
    requires i < |body|
    ensures j.Some? ==> i < j.value < |body| && OutputFor(body[j.value], body[i].payload.callId)
                        && forall k :: i < k < j.value ==> !OutputFor(body[k], body[i].payload.callId)
    ensures j.None? ==> forall k :: i < k < |body| ==> !OutputFor(body[k], body[i].payload.callId)
    requires body[i].Line?
  {
    if |body| == i + 1 then None
    else
      var before := FirstOutput(body[..|body| - 1], i);
      if before.Some? then before
      else if OutputFor(body[|body| - 1], body[i].payload.callId) then Some(|body| - 1) else None
  }

  /** The text of its item: the call, and its first output behind an empty line. */
  function ToolText(body: seq<Line>, i: nat): Text
    requires i < |body| && body[i].Line?
  {
    var call, output := CallText(body[i].payload), FirstOutput(body, i);
    if output.Some? then call + Units("\n\n") + OutputText(body[output.value].payload) else call
  }

  /** The item is what line `i` gives. */
  predicate Tells(body: seq<Line>, i: nat, item: Item)
    requires i < |body|
  {
    if item.kind == Commentary then IsComment(body[i]) && body[i].payload.content != [] && item.text == body[i].payload.content
    else Accepted(body, i) && item.text == ToolText(body, i)
  }

  /** The items come from these lines, in this order. */
  predicate ComesFrom(body: seq<Line>, process: seq<Item>, from: seq<nat>) {
    && |from| == |process|
    && (forall k :: 0 <= k < |from| ==> from[k] < |body| && Tells(body, from[k], process[k]))
    && (forall j, k :: 0 <= j < k < |from| ==> from[j] < from[k])
  }

  predicate HasText(process: seq<Item>, text: Text) { exists k :: 0 <= k < |process| && process[k].text == text }

  predicate Answered(body: seq<Line>, text: Text) { exists k :: 0 <= k < |AnswersOf(body)| && AnswersOf(body)[k].content == text }

  /** At some point a tool item had this text. */
  predicate ToolSaid(body: seq<Line>, text: Text) {
    exists n :: 0 < n <= |body| && SaidBy(body[..n], text)
  }

  predicate SaidBy(body: seq<Line>, text: Text) {
    exists i :: 0 <= i < |body| && Accepted(body, i) && ToolText(body, i) == text
  }

  /** Nothing is missing: each accepted call has its item, and each comment is to be seen as an item, unless it was given as
      an answer or stood behind a tool item with the same text. */
  predicate NothingMissing(body: seq<Line>, process: seq<Item>, from: seq<nat>) {
    && (forall i :: 0 <= i < |body| && Accepted(body, i) ==> i in from)
    && (forall i :: 0 <= i < |body| && IsComment(body[i]) && body[i].payload.content != [] ==> Seen(body, process, body[i].payload.content))
  }

  predicate Seen(body: seq<Line>, process: seq<Item>, text: Text) {
    HasText(process, text) || Answered(body, text) || ToolSaid(body, text)
  }

  /** The answer and the items of a turn with these lines. */
  ghost predicate TurnTells(body: seq<Line>, t: Turn) {
    && t.answer == Joined(LatestContents(AnswersOf(body)))
    && exists from :: ComesFrom(body, t.process, from) && NothingMissing(body, t.process, from)
  }

  // ---- One more line ----

  lemma {:induction false} NextOutput(body: seq<Line>, line: Line, i: nat)
    requires i < |body| && body[i].Line?
    ensures var before := FirstOutput(body, i);
            FirstOutput(body + [line], i) == if before.Some? then before
                                             else if OutputFor(line, body[i].payload.callId) then Some(|body|) else None
  {
    assert (body + [line])[..|body|] == body;
  }

  lemma NextAccepted(body: seq<Line>, line: Line, i: nat)
    requires i < |body|
    ensures Accepted(body + [line], i) <==> Accepted(body, i)
  {
    assert forall j :: 0 <= j < |body| ==> (body + [line])[j] == body[j];
  }

  /** The text of a tool item changes only with the first output for its call. */
  lemma NextText(body: seq<Line>, line: Line, i: nat)
    requires i < |body| && body[i].Line?
    ensures ToolText(body + [line], i) ==
              if FirstOutput(body, i).None? && OutputFor(line, body[i].payload.callId)
              then CallText(body[i].payload) + Units("\n\n") + OutputText(line.payload) else ToolText(body, i)
  {
    NextOutput(body, line, i);
    hide FirstOutput, Units;
  }

  lemma NextTells(body: seq<Line>, line: Line, i: nat, item: Item)
    requires i < |body| && Tells(body, i, item)
    requires item.kind == Tool ==> FirstOutput(body, i).Some? || !OutputFor(line, body[i].payload.callId)
    ensures Tells(body + [line], i, item)
  {
    hide ToolText, Accepted, FirstOutput;
    NextAccepted(body, line, i);
    if item.kind == Tool { AcceptedIsLine(body, i); NextText(body, line, i); }
  }

  lemma AcceptedIsLine(body: seq<Line>, i: nat)
    requires i < |body| && Accepted(body, i)
    ensures body[i].Line?
  {}

  lemma NextSaid(body: seq<Line>, line: Line, text: Text)
    requires ToolSaid(body, text)
    ensures ToolSaid(body + [line], text)
  {
    hide SaidBy;
    var n :| 0 < n <= |body| && SaidBy(body[..n], text);
    assert (body + [line])[..n] == body[..n];
  }

  lemma NextAnswered(body: seq<Line>, line: Line, text: Text)
    requires Answered(body, text)
    ensures Answered(body + [line], text)
  {
    assert (body + [line])[..|body|] == body;
    var k :| 0 <= k < |AnswersOf(body)| && AnswersOf(body)[k].content == text;
    assert AnswersOf(body + [line])[k].content == text;
  }

  // ---- The parser's variables ----

  /** The numbers of the items tell them apart. */
  predicate NumbersDiffer(process: seq<Item>, next: nat) {
    && (forall j, k :: 0 <= j < k < |process| ==> process[j].number < process[k].number)
    && forall k :: 0 <= k < |process| ==> process[k].number < next
  }

  /** `calls` has the ids of the accepted calls, and `outputs` those that have got their output. */
  predicate KnowsCalls(calls: map<Text, nat>, outputs: set<Text>, body: seq<Line>) {
    && outputs <= calls.Keys && (forall c :: c in calls ==> c != [] && Called(body, c))
    && (forall i :: 0 <= i < |body| && Accepted(body, i) && body[i].payload.callId != [] ==>
          body[i].payload.callId in calls && (body[i].payload.callId in outputs <==> FirstOutput(body, i).Some?))
  }

  /** `calls` points at the items of the calls. */
  predicate PointsAtItems(calls: map<Text, nat>, body: seq<Line>, process: seq<Item>, from: seq<nat>) {
    |from| == |process| && forall k :: 0 <= k < |process| ==> from[k] < |body| && PointsAt(calls, body[from[k]], process[k])
  }

  predicate PointsAt(calls: map<Text, nat>, line: Line, item: Item) {
    item.kind == Tool && line.Line? && line.payload.callId != [] ==> line.payload.callId in calls && calls[line.payload.callId] == item.number
  }

  predicate Books(s: State, body: seq<Line>, process: seq<Item>, from: seq<nat>) {
    NumbersDiffer(process, s.processSequence) && KnowsCalls(s.calls, s.outputs, body) && PointsAtItems(s.calls, body, process, from)
  }

  predicate Called(body: seq<Line>, id: Text) {
    exists i :: 0 <= i < |body| && Accepted(body, i) && body[i].payload.callId == id
  }

  /** Everything the parser remembers of the current turn is what its lines say. */
  ghost predicate Remembers(s: State, body: seq<Line>, from: seq<nat>) {
    && Begun(s) && Holds(s.finals, AnswersOf(body)) && Current(s).answer == Joined(LatestContents(AnswersOf(body)))
    && ComesFrom(body, Current(s).process, from) && NothingMissing(body, Current(s).process, from)
    && Books(s, body, Current(s).process, from)
  }

  /** The line is no output that a call waits for. */
  predicate Unheard(body: seq<Line>, line: Line) {
    forall i :: 0 <= i < |body| && Accepted(body, i) && OutputFor(line, body[i].payload.callId) ==> FirstOutput(body, i).Some?
  }

  lemma StillComesFrom(body: seq<Line>, process: seq<Item>, from: seq<nat>, line: Line)
    requires ComesFrom(body, process, from) && Unheard(body, line)
    ensures ComesFrom(body + [line], process, from)
  {
    hide FirstOutput;
    forall k | 0 <= k < |from| ensures Tells(body + [line], from[k], process[k]) {
      assert Tells(body, from[k], process[k]);
      NextTells(body, line, from[k], process[k]);
    }
    hide Tells;
  }

  lemma StillSeen(body: seq<Line>, process: seq<Item>, line: Line, text: Text)
    requires Seen(body, process, text)
    ensures Seen(body + [line], process, text)
  {
    hide ToolSaid, Answered;
    if Answered(body, text) { NextAnswered(body, line, text); }
    if ToolSaid(body, text) { NextSaid(body, line, text); }
  }

  lemma StillNothingMissing(body: seq<Line>, process: seq<Item>, from: seq<nat>, line: Line)
    requires NothingMissing(body, process, from) && !Accepted(body + [line], |body|)
    requires IsComment(line) && line.payload.content != [] ==> Seen(body + [line], process, line.payload.content)
    ensures NothingMissing(body + [line], process, from)
  {
    hide Accepted, Seen;
    var next := body + [line];
    forall i | 0 <= i < |next| && Accepted(next, i) ensures i in from {
      NextAccepted(body, line, i);
    }
    forall i | 0 <= i < |next| && IsComment(next[i]) && next[i].payload.content != [] ensures Seen(next, process, next[i].payload.content) {
      if i < |body| { assert next[i] == body[i]; StillSeen(body, process, line, body[i].payload.content); }
    }
  }

  lemma StillCalled(body: seq<Line>, line: Line, id: Text)
    requires Called(body, id)
    ensures Called(body + [line], id)
  {
    var i :| 0 <= i < |body| && Accepted(body, i) && body[i].payload.callId == id;
    NextAccepted(body, line, i);
    assert (body + [line])[i] == body[i];
  }

  lemma StillKnowsCalls(calls: map<Text, nat>, outputs: set<Text>, body: seq<Line>, line: Line)
    requires KnowsCalls(calls, outputs, body) && !Accepted(body + [line], |body|) && Unheard(body, line)
    ensures KnowsCalls(calls, outputs, body + [line])
  {
    hide FirstOutput, OutputFor, Called;
    var next := body + [line];
    forall c | c in calls ensures c != [] && Called(next, c) { StillCalled(body, line, c); }
    forall i | 0 <= i < |next| && Accepted(next, i) && next[i].payload.callId != []
      ensures next[i].payload.callId in calls && (next[i].payload.callId in outputs <==> FirstOutput(next, i).Some?)
    {
      NextAccepted(body, line, i);
      NextOutput(body, line, i);
      assert next[i] == body[i];
    }
  }

  lemma StillPoints(calls: map<Text, nat>, body: seq<Line>, process: seq<Item>, from: seq<nat>, line: Line)
    requires PointsAtItems(calls, body, process, from)
    ensures PointsAtItems(calls, body + [line], process, from)
  {
    hide PointsAt;
    assert forall i :: 0 <= i < |body| ==> (body + [line])[i] == body[i];
  }

  /** A line that adds no item and no output, and gives no answer. */
  lemma QuietLine(s: State, v: State, body: seq<Line>, from: seq<nat>, line: Line)
    requires Remembers(s, body, from) && Begun(v) && Current(v).answer == Current(s).answer && Current(v).process == Current(s).process
    requires v.finals == s.finals && v.calls == s.calls && v.outputs == s.outputs && v.processSequence == s.processSequence
    requires !Accepted(body + [line], |body|) && Unheard(body, line) && AnswersOf(body + [line]) == AnswersOf(body)
    requires IsComment(line) && line.payload.content != [] ==> Seen(body + [line], Current(s).process, line.payload.content)
    ensures Remembers(v, body + [line], from)
  {
    hide Accepted, Unheard, AnswersOf, Seen, ComesFrom, NothingMissing, KnowsCalls, PointsAtItems, LatestContents, Joined;
    var process := Current(s).process;
    StillComesFrom(body, process, from, line);
    StillNothingMissing(body, process, from, line);
    StillKnowsCalls(s.calls, s.outputs, body, line);
    StillPoints(s.calls, body, process, from, line);
  }

  // ---- Comments ----

  lemma CommentComesFrom(body: seq<Line>, process: seq<Item>, from: seq<nat>, line: Line, item: Item)
    requires ComesFrom(body, process, from) && IsComment(line) && line.payload.content != []
    requires item.kind == Commentary && item.text == line.payload.content
    ensures ComesFrom(body + [line], process + [item], from + [|body|])
  {
    StillComesFrom(body, process, from, line);
    hide Accepted, ToolText;
  }

  lemma MoreSeen(body: seq<Line>, process: seq<Item>, item: Item, text: Text)
    requires Seen(body, process, text) || text == item.text
    ensures Seen(body, process + [item], text)
  {
    hide Answered, ToolSaid;
    if text == item.text { assert (process + [item])[|process|].text == text; }
    else if HasText(process, text) {
      var k :| 0 <= k < |process| && process[k].text == text;
      assert (process + [item])[k].text == text;
    }
  }

  lemma AddedNothingMissing(body: seq<Line>, process: seq<Item>, from: seq<nat>, line: Line, item: Item)
    requires NothingMissing(body, process, from) && (IsComment(line) ==> item.text == line.payload.content)
    ensures NothingMissing(body + [line], process + [item], from + [|body|])
  {
    hide Accepted, Seen;
    var next := body + [line];
    forall i | 0 <= i < |next| && Accepted(next, i) ensures i in from + [|body|] {
      if i < |body| { NextAccepted(body, line, i); }
    }
    forall i | 0 <= i < |next| && IsComment(next[i]) && next[i].payload.content != [] ensures Seen(next, process + [item], next[i].payload.content) {
      if i < |body| {
        assert next[i] == body[i];
        StillSeen(body, process, line, body[i].payload.content);
      }
      MoreSeen(next, process, item, next[i].payload.content);
    }
  }

  lemma AddedPoints(calls: map<Text, nat>, body: seq<Line>, process: seq<Item>, from: seq<nat>, line: Line, item: Item)
    requires PointsAtItems(calls, body, process, from) && PointsAt(calls, line, item)
    ensures PointsAtItems(calls, body + [line], process + [item], from + [|body|])
  {
    StillPoints(calls, body, process, from, line);
    hide PointsAt;
    assert (body + [line])[|body|] == line;
  }

  lemma AddItemIs(s: State, kind: ItemKind, value: Text)
    requires Begun(s)
    ensures var v := AddItem(UNLIMITED, s, kind, value);
      && Begun(v) && Current(v).process == Current(s).process + [Item(s.processSequence, kind, value, false, [])]
      && Current(v).answer == Current(s).answer
      && v.finals == s.finals && v.calls == s.calls && v.outputs == s.outputs && v.processSequence == s.processSequence + 1
  {}

  /** Neither a final message nor a completion. */
  lemma SilentLine(body: seq<Line>, line: Line)
    requires !IsFinal(line) && !IsEvent(line, TaskComplete)
    ensures AnswersOf(body + [line]) == AnswersOf(body)
  {
    assert (body + [line])[..|body|] == body;
  }

  lemma NumbersNext(process: seq<Item>, next: nat, item: Item)
    requires NumbersDiffer(process, next) && item.number == next
    ensures NumbersDiffer(process + [item], next + 1)
  {}

  /** A comment that is not a repetition is the next item. */
  lemma CommentLine(s: State, body: seq<Line>, from: seq<nat>, line: Line)
    requires Remembers(s, body, from) && IsComment(line) && line.payload.content != []
    ensures Remembers(AddItem(UNLIMITED, s, Commentary, line.payload.content), body + [line], from + [|body|])
  {
    hide AddItem, ComesFrom, NothingMissing, KnowsCalls, PointsAtItems, NumbersDiffer, AnswersOf, LatestContents, Joined;
    var item := Item(s.processSequence, Commentary, line.payload.content, false, []);
    var process := Current(s).process;
    AddItemIs(s, Commentary, line.payload.content);
    SilentLine(body, line);
    assert !Accepted(body + [line], |body|) && Unheard(body, line);
    hide Accepted, Unheard;
    CommentComesFrom(body, process, from, line, item);
    AddedNothingMissing(body, process, from, line, item);
    StillKnowsCalls(s.calls, s.outputs, body, line);
    AddedPoints(s.calls, body, process, from, line, item);
    NumbersNext(process, s.processSequence, item);
  }

  // ---- Answers take repeated comments away ----

  predicate Repeats(item: Item, values: seq<Text>) { item.kind == Commentary && item.text in values }

  /** `at` are the places of the kept items, in order: those of the items that do not repeat one of the values. */
  predicate Keeps(process: seq<Item>, kept: seq<Item>, at: seq<nat>, values: seq<Text>) {
    && |at| == |kept| && (forall k :: 0 <= k < |at| ==> at[k] < |process| && kept[k] == process[at[k]])
    && (forall j, k :: 0 <= j < k < |at| ==> at[j] < at[k])
    && (forall k :: 0 <= k < |process| ==> (k in at <==> !Repeats(process[k], values)))
  }

  lemma FilterFirst(first: Item, rest: seq<Item>, values: seq<Text>)
    ensures WithoutRepeats([first] + rest, values) == (if Repeats(first, values) then [] else [first]) + WithoutRepeats(rest, values)
  {
    assert ([first] + rest)[1..] == rest;
  }

  lemma {:induction false} WithoutRepeatsLast(process: seq<Item>, last: Item, values: seq<Text>)
    ensures WithoutRepeats(process + [last], values) == WithoutRepeats(process, values) + if Repeats(last, values) then [] else [last]
  {
    hide WithoutRepeats, Repeats;
    if process == [] {
      FilterFirst(last, [], values);
      FilterNothing(values);
      assert [] + [last] == [last] + [] == [last];
    } else {
      var first, rest := process[0], process[1..];
      WithoutRepeatsLast(rest, last, values);
      FilterFirst(first, rest, values);
      FilterFirst(first, rest + [last], values);
      assert [first] + rest == process && [first] + (rest + [last]) == process + [last];
    }
  }

  lemma FilterNothing(values: seq<Text>)
    ensures WithoutRepeats([], values) == []
  {}

  lemma KeepsNext(process: seq<Item>, kept: seq<Item>, at: seq<nat>, values: seq<Text>, last: Item)
    requires Keeps(process, kept, at, values)
    ensures if Repeats(last, values) then Keeps(process + [last], kept, at, values)
            else Keeps(process + [last], kept + [last], at + [|process|], values)
  {
    hide Repeats;
  }

  /** The comments that repeat one of the values are gone, and nothing else is. */
  lemma {:induction false} FilterKeeps(process: seq<Item>, values: seq<Text>) returns (at: seq<nat>)
    ensures Keeps(process, WithoutRepeats(process, values), at, values)
  {
    at := [];
    if process != [] {
      hide Keeps, WithoutRepeats;
      var front, last := process[..|process| - 1], process[|process| - 1];
      at := FilterKeeps(front, values);
      WithoutRepeatsLast(front, last, values);
      KeepsNext(front, WithoutRepeats(front, values), at, values, last);
      assert front + [last] == process;
      if !Repeats(last, values) { at := at + [|front|]; }
    }
  }

  function Picked(from: seq<nat>, at: seq<nat>): (v: seq<nat>)
    requires forall k :: 0 <= k < |at| ==> at[k] < |from|
    ensures |v| == |at| && forall k :: 0 <= k < |at| ==> v[k] == from[at[k]]
  {
    seq(|at|, k requires 0 <= k < |at| => from[at[k]])
  }

  lemma KeptComesFrom(body: seq<Line>, process: seq<Item>, from: seq<nat>, kept: seq<Item>, at: seq<nat>, values: seq<Text>)
    requires ComesFrom(body, process, from) && Keeps(process, kept, at, values)
    ensures ComesFrom(body, kept, Picked(from, at))
  {
    hide Tells, Repeats;
  }

  lemma KeptPoints(calls: map<Text, nat>, body: seq<Line>, process: seq<Item>, from: seq<nat>, kept: seq<Item>, at: seq<nat>, values: seq<Text>)
    requires PointsAtItems(calls, body, process, from) && Keeps(process, kept, at, values)
    ensures PointsAtItems(calls, body, kept, Picked(from, at))
  {
    hide PointsAt, Repeats;
  }

  lemma KeptNumbers(process: seq<Item>, kept: seq<Item>, at: seq<nat>, values: seq<Text>, next: nat)
    requires NumbersDiffer(process, next) && Keeps(process, kept, at, values)
    ensures NumbersDiffer(kept, next)
  {
    hide Repeats;
  }

  lemma KeptSeen(body: seq<Line>, process: seq<Item>, from: seq<nat>, kept: seq<Item>, at: seq<nat>, values: seq<Text>, text: Text)
    requires Keeps(process, kept, at, values) && Seen(body, process, text)
    requires forall v :: v in values ==> Answered(body, v)
    ensures Seen(body, kept, text)
  {
    hide Answered, ToolSaid;
    if HasText(process, text) && text !in values {
      var k :| 0 <= k < |process| && process[k].text == text;
      var j :| 0 <= j < |at| && at[j] == k;
      assert kept[j].text == text;
    }
  }

  /** A tool item is never taken away. */
  lemma KeptCall(body: seq<Line>, process: seq<Item>, from: seq<nat>, kept: seq<Item>, at: seq<nat>, values: seq<Text>, i: nat)
    requires ComesFrom(body, process, from) && Keeps(process, kept, at, values) && i < |body| && Accepted(body, i) && i in from
    ensures i in Picked(from, at)
  {
    var k :| 0 <= k < |from| && from[k] == i;
    assert Tells(body, from[k], process[k]);
    assert process[k].kind == Tool;
    var j :| 0 <= j < |at| && at[j] == k;
    assert Picked(from, at)[j] == i;
  }

  lemma KeptNothingMissing(body: seq<Line>, process: seq<Item>, from: seq<nat>, kept: seq<Item>, at: seq<nat>, values: seq<Text>)
    requires ComesFrom(body, process, from) && NothingMissing(body, process, from) && Keeps(process, kept, at, values)
    requires forall v :: v in values ==> Answered(body, v)
    ensures NothingMissing(body, kept, Picked(from, at))
  {
    assert forall k :: 0 <= k < |at| ==> at[k] < |from|;
    hide Accepted, Seen, ComesFrom, Keeps;
    forall i | 0 <= i < |body| && Accepted(body, i) ensures i in Picked(from, at) {
      KeptCall(body, process, from, kept, at, values, i);
    }
    forall i | 0 <= i < |body| && IsComment(body[i]) && body[i].payload.content != [] ensures Seen(body, kept, body[i].payload.content) {
      KeptSeen(body, process, from, kept, at, values, body[i].payload.content);
    }
  }

  lemma AnswerIs(s: State, id: Text, content: Text)
    requires Begun(s) && content != []
    ensures var v := SetStatus(Answer(UNLIMITED, s, id, content), Complete);
      && v.finals == SetFinal(s.finals, id, content) && Current(v).answer == Join(Values(v.finals))
      && Current(v).process == WithoutRepeats(Current(s).process, Values(v.finals))
      && v.calls == s.calls && v.outputs == s.outputs && v.processSequence == s.processSequence
  {}

  lemma LatestIsAnswered(body: seq<Line>, text: Text)
    requires text in LatestContents(AnswersOf(body))
    ensures Answered(body, text)
  {
    var log := AnswersOf(body);
    var k :| 0 <= k < |LatestContents(log)| && LatestContents(log)[k] == text;
    assert Ids(log)[k] in Ids(log);
  }

  /** A line that gives an answer; it is neither a comment nor a call nor an output. */
  lemma AnswerLine(s: State, body: seq<Line>, from: seq<nat>, line: Line, id: Text, content: Text) returns (left: seq<nat>)
    requires Remembers(s, body, from) && content != [] && AnswersOf(body + [line]) == AnswersOf(body) + [Given(id, content)]
    requires !IsComment(line) && !Accepted(body + [line], |body|) && Unheard(body, line)
    ensures Remembers(SetStatus(Answer(UNLIMITED, s, id, content), Complete), body + [line], left)
  {
    hide ComesFrom, NothingMissing, KnowsCalls, PointsAtItems, NumbersDiffer, AnswersOf, LatestContents, Joined, Accepted, Unheard, Holds, Keeps;
    hide Answer, Values, SetFinal, Join, Answered;
    var next, process := body + [line], Current(s).process;
    AnswerIs(s, id, content);
    HoldsNext(s.finals, AnswersOf(body), id, content);
    var finals := SetFinal(s.finals, id, content);
    HeldContents(finals, AnswersOf(next));
    JoinIs(Values(finals));
    var values := Values(finals);
    forall v | v in values ensures Answered(next, v) { LatestIsAnswered(next, v); }
    StillComesFrom(body, process, from, line);
    StillNothingMissing(body, process, from, line);
    StillKnowsCalls(s.calls, s.outputs, body, line);
    StillPoints(s.calls, body, process, from, line);
    var at := FilterKeeps(process, values);
    var kept := WithoutRepeats(process, values);
    KeptInRange(next, process, from, kept, at, values);
    KeptComesFrom(next, process, from, kept, at, values);
    KeptNothingMissing(next, process, from, kept, at, values);
    KeptPoints(s.calls, next, process, from, kept, at, values);
    KeptNumbers(process, kept, at, values, s.processSequence);
    left := Picked(from, at);
  }

  lemma KeptInRange(body: seq<Line>, process: seq<Item>, from: seq<nat>, kept: seq<Item>, at: seq<nat>, values: seq<Text>)
    requires ComesFrom(body, process, from) && Keeps(process, kept, at, values)
    ensures forall k :: 0 <= k < |at| ==> at[k] < |from|
  {}

  // ---- Calls ----

  lemma ToolCallIs(s: State, line: Line)
    requires Begun(s) && IsCall(line)
    ensures var p, v := line.payload, ToolCall(UNLIMITED, s, line.payload); var text := CallText(p);
      if text == [] || (p.callId != [] && p.callId in s.calls) then v == s
      else
        && Current(v).process == Current(s).process + [Item(s.processSequence, Tool, text, false, [])] && Current(v).answer == Current(s).answer
        && v.finals == s.finals && v.outputs == s.outputs && v.processSequence == s.processSequence + 1
        && v.calls == if p.callId == [] then s.calls else s.calls[p.callId := s.processSequence]
  {}

  /** Whether a call is accepted can be told from `calls`. */
  lemma AcceptedByCalls(calls: map<Text, nat>, outputs: set<Text>, body: seq<Line>, line: Line)
    requires KnowsCalls(calls, outputs, body) && IsCall(line)
    ensures var p := line.payload; Accepted(body + [line], |body|) <==> CallText(p) != [] && (p.callId != [] ==> p.callId !in calls)
  {
    hide FirstOutput, CallText;
    var next, p := body + [line], line.payload;
    assert next[|body|] == line && forall j :: 0 <= j < |body| ==> next[j] == body[j];
    if p.callId != [] && p.callId in calls {
      assert Called(body, p.callId);
    }
    if p.callId != [] && p.callId !in calls && CallText(p) != [] {
      forall j | 0 <= j < |body| && IsCall(body[j]) && CallText(body[j].payload) != [] ensures body[j].payload.callId != p.callId {
        FirstOfId(body, j);
      }
    }
  }

  /** In front of each call that says something there is an accepted one of its id, or itself. */
  lemma {:induction false} FirstOfId(body: seq<Line>, j: nat)
    requires j < |body| && IsCall(body[j]) && CallText(body[j].payload) != []
    ensures exists i :: 0 <= i <= j && Accepted(body, i) && body[i].payload.callId == body[j].payload.callId
    decreases j
  {
    hide CallText;
    if !Accepted(body, j) {
      var k :| 0 <= k < j && IsCall(body[k]) && CallText(body[k].payload) != [] && body[k].payload.callId == body[j].payload.callId;
      FirstOfId(body, k);
    }
  }

  lemma CallKnown(calls: map<Text, nat>, outputs: set<Text>, body: seq<Line>, line: Line, number: nat)
    requires KnowsCalls(calls, outputs, body) && Accepted(body + [line], |body|) && line.payload.callId !in calls
    ensures KnowsCalls(if line.payload.callId == [] then calls else calls[line.payload.callId := number], outputs, body + [line])
  {
    hide Called;
    var next, id := body + [line], line.payload.callId;
    assert next[|body|] == line && IsCall(line);
    assert id != [] ==> Called(next, id) by { CalledNow(body, line); }
    forall c | c in calls ensures c != [] && Called(next, c) { StillCalled(body, line, c); }
    forall i | 0 <= i < |next| && Accepted(next, i) && next[i].payload.callId != []
      ensures (next[i].payload.callId in calls || next[i].payload.callId == id)
              && (next[i].payload.callId in outputs <==> FirstOutput(next, i).Some?)
    {
      if i < |body| {
        NextAccepted(body, line, i);
        NextOutput(body, line, i);
        assert next[i] == body[i];
      }
    }
  }

  lemma CalledNow(body: seq<Line>, line: Line)
    requires Accepted(body + [line], |body|)
    ensures Called(body + [line], line.payload.callId)
  {
    assert (body + [line])[|body|] == line;
  }

  /** No call has got a new place, so the older entries still hold. */
  lemma PointsStill(calls: map<Text, nat>, body: seq<Line>, process: seq<Item>, from: seq<nat>, id: Text, number: nat)
    requires PointsAtItems(calls, body, process, from) && id !in calls
    ensures PointsAtItems(calls[id := number], body, process, from)
  {}

  lemma CallComesFrom(body: seq<Line>, process: seq<Item>, from: seq<nat>, line: Line, item: Item)
    requires ComesFrom(body, process, from) && Accepted(body + [line], |body|) && item.kind == Tool && item.text == CallText(line.payload)
    ensures ComesFrom(body + [line], process + [item], from + [|body|])
  {
    var next := body + [line];
    assert next[|body|] == line && Unheard(body, line);
    StillComesFrom(body, process, from, line);
    assert ToolText(next, |body|) == CallText(line.payload);
    hide Accepted, ToolText, CallText;
  }

  /** An accepted call is the next item. */
  lemma CallLine(s: State, body: seq<Line>, from: seq<nat>, line: Line) returns (places: seq<nat>)
    requires Remembers(s, body, from) && IsCall(line)
    ensures Remembers(ToolCall(UNLIMITED, s, line.payload), body + [line], places)
  {
    hide ToolCall, ComesFrom, NothingMissing, KnowsCalls, PointsAtItems, NumbersDiffer, AnswersOf, LatestContents, Joined, Accepted, CallText, Holds;
    var p, process := line.payload, Current(s).process;
    ToolCallIs(s, line);
    AcceptedByCalls(s.calls, s.outputs, body, line);
    SilentLine(body, line);
    if Accepted(body + [line], |body|) {
      var item := Item(s.processSequence, Tool, CallText(p), false, []);
      places := from + [|body|];
      CallComesFrom(body, process, from, line, item);
      AddedNothingMissing(body, process, from, line, item);
      EmptyIsNoCall(s.calls, s.outputs, body);
      CallKnown(s.calls, s.outputs, body, line, s.processSequence);
      CallPoints(s, body, process, from, line, item);
      NumbersNext(process, s.processSequence, item);
    } else {
      places := from;
      assert Unheard(body, line);
      hide Unheard;
      QuietLine(s, s, body, from, line);
    }
  }

  lemma EmptyIsNoCall(calls: map<Text, nat>, outputs: set<Text>, body: seq<Line>)
    requires KnowsCalls(calls, outputs, body)
    ensures [] !in calls
  {}

  lemma CallPoints(s: State, body: seq<Line>, process: seq<Item>, from: seq<nat>, line: Line, item: Item)
    requires PointsAtItems(s.calls, body, process, from) && IsCall(line) && item.number == s.processSequence && line.payload.callId !in s.calls
    ensures PointsAtItems(if line.payload.callId == [] then s.calls else s.calls[line.payload.callId := s.processSequence],
                          body + [line], process + [item], from + [|body|])
  {
    hide PointsAtItems;
    if line.payload.callId == [] {
      AddedPoints(s.calls, body, process, from, line, item);
    } else {
      PointsStill(s.calls, body, process, from, line.payload.callId, s.processSequence);
      AddedPoints(s.calls[line.payload.callId := s.processSequence], body, process, from, line, item);
    }
  }

  // ---- Outputs ----

  predicate IsOutput(line: Line) { line.Line? && line.kind == ResponseItem && line.payload.kind == FunctionCallOutput }

  /** The item that `calls` points at is there, and it is that of the accepted call. */
  lemma ItemOfCall(s: State, body: seq<Line>, from: seq<nat>, id: Text) returns (k: nat)
    requires Remembers(s, body, from) && id in s.calls
    ensures k < |from| == |Current(s).process| && from[k] < |body| && Accepted(body, from[k]) && body[from[k]].payload.callId == id
    ensures Current(s).process[k].kind == Tool && Current(s).process[k].number == s.calls[id] && id != []
    ensures Tells(body, from[k], Current(s).process[k])
  {
    hide AnswersOf, LatestContents, Joined, Holds, ToolText, CallText;
    assert Called(body, id);
    var i :| 0 <= i < |body| && Accepted(body, i) && body[i].payload.callId == id;
    assert i in from;
    k :| 0 <= k < |from| && from[k] == i;
    assert Tells(body, from[k], Current(s).process[k]) && PointsAt(s.calls, body[from[k]], Current(s).process[k]);
  }

  /** One item of one accepted call of an id. */
  lemma OneItem(s: State, body: seq<Line>, from: seq<nat>, j: nat, k: nat)
    requires Remembers(s, body, from) && j < |from| && k < |from| && Current(s).process[j].kind == Tool && Current(s).process[k].kind == Tool
    requires body[from[j]].Line? && body[from[k]].Line? && body[from[j]].payload.callId == body[from[k]].payload.callId != []
    ensures j == k
  {
    hide AnswersOf, LatestContents, Joined, Holds, Tells, NothingMissing, KnowsCalls;
    assert PointsAt(s.calls, body[from[j]], Current(s).process[j]) && PointsAt(s.calls, body[from[k]], Current(s).process[k]);
  }

  /** An output that changes nothing: no call waits for it. */
  lemma LateOutput(s: State, body: seq<Line>, line: Line)
    requires KnowsCalls(s.calls, s.outputs, body) && IsOutput(line)
    requires line.payload.callId !in s.calls || line.payload.callId in s.outputs || OutputText(line.payload) == []
    ensures Unheard(body, line)
  {
    hide Accepted, FirstOutput, Called;
  }

  predicate Attached(process: seq<Item>, k: nat, output: Text, changed: seq<Item>) {
    && k < |process| && |changed| == |process| && (forall j :: 0 <= j < |process| && j != k ==> changed[j] == process[j])
    && changed[k].kind == process[k].kind && changed[k].number == process[k].number
    && changed[k].text == process[k].text + Units("\n\n") + output
  }

  lemma ToolOutputIs(s: State, line: Line, k: nat)
    requires Begun(s) && IsOutput(line) && line.payload.callId in s.calls
    requires NumbersDiffer(Current(s).process, s.processSequence) && k < |Current(s).process| && Current(s).process[k].number == s.calls[line.payload.callId]
    ensures var p, v := line.payload, ToolOutput(UNLIMITED, s, line.payload);
      if p.callId in s.outputs || OutputText(p) == [] then v == s
      else
        && Begun(v) && Attached(Current(s).process, k, OutputText(p), Current(v).process) && Current(v).answer == Current(s).answer
        && v.finals == s.finals && v.calls == s.calls && v.processSequence == s.processSequence && v.outputs == s.outputs + {p.callId}
  {
    assert HasItem(Current(s).process, s.calls[line.payload.callId]);
    assert Find(Current(s).process, s.calls[line.payload.callId]) == k;
    hide Find, NumbersDiffer;
  }

  lemma OutputComesFrom(s: State, body: seq<Line>, from: seq<nat>, line: Line, k: nat, changed: seq<Item>)
    requires Remembers(s, body, from) && IsOutput(line) && k < |from| && Attached(Current(s).process, k, OutputText(line.payload), changed)
    requires Accepted(body, from[k]) && Current(s).process[k].kind == Tool && OutputFor(line, body[from[k]].payload.callId)
    requires FirstOutput(body, from[k]).None?
    ensures ComesFrom(body + [line], changed, from)
  {
    hide AnswersOf, LatestContents, Joined, Holds, NothingMissing, KnowsCalls, FirstOutput, Accepted;
    var next, process := body + [line], Current(s).process;
    assert forall j :: 0 <= j < |from| ==> Tells(body, from[j], process[j]);
    forall j | 0 <= j < |from| ensures Tells(next, from[j], changed[j]) {
      if j == k {
        NextAccepted(body, line, from[k]);
        AcceptedIsLine(body, from[k]);
        NextText(body, line, from[k]);
      } else {
        if process[j].kind == Tool {
          AcceptedIsLine(body, from[j]);
          AcceptedIsLine(body, from[k]);
          if OutputFor(line, body[from[j]].payload.callId) { OneItem(s, body, from, j, k); }
        }
        NextTells(body, line, from[j], process[j]);
      }
    }
    hide Tells;
  }

  lemma OutputNothingMissing(body: seq<Line>, process: seq<Item>, from: seq<nat>, line: Line, k: nat, output: Text, changed: seq<Item>)
    requires ComesFrom(body, process, from) && NothingMissing(body, process, from) && IsOutput(line) && Attached(process, k, output, changed)
    requires process[k].kind == Tool
    ensures NothingMissing(body + [line], changed, from)
  {
    var next := body + [line];
    assert !Accepted(next, |body|);
    forall i | 0 <= i < |next| && Accepted(next, i) ensures i in from {
      NextAccepted(body, line, i);
    }
    hide Accepted, Seen;
    forall i | 0 <= i < |next| && IsComment(next[i]) && next[i].payload.content != [] ensures Seen(next, changed, next[i].payload.content) {
      assert next[i] == body[i];
      var text := body[i].payload.content;
      OutputSeen(body, process, from, k, output, changed, text);
      StillSeen(body, changed, line, text);
    }
  }

  lemma OutputSeen(body: seq<Line>, process: seq<Item>, from: seq<nat>, k: nat, output: Text, changed: seq<Item>, text: Text)
    requires ComesFrom(body, process, from) && Attached(process, k, output, changed) && process[k].kind == Tool && Seen(body, process, text)
    ensures Seen(body, changed, text)
  {
    hide Answered, Accepted, ToolText;
    if HasText(process, text) {
      var j :| 0 <= j < |process| && process[j].text == text;
      if j == k {
        assert Tells(body, from[k], process[k]);
        assert SaidBy(body, text);
        assert body[..|body|] == body;
      } else {
        assert changed[j].text == text;
      }
    }
  }

  lemma OutputKnown(calls: map<Text, nat>, outputs: set<Text>, body: seq<Line>, line: Line)
    requires KnowsCalls(calls, outputs, body) && IsOutput(line) && line.payload.callId in calls && OutputText(line.payload) != []
    ensures KnowsCalls(calls, outputs + {line.payload.callId}, body + [line])
  {
    hide Called;
    var next, id := body + [line], line.payload.callId;
    forall c | c in calls ensures c != [] && Called(next, c) { StillCalled(body, line, c); }
    assert !Accepted(next, |body|);
    forall i | 0 <= i < |next| && Accepted(next, i) && next[i].payload.callId != []
      ensures next[i].payload.callId in calls && (next[i].payload.callId in outputs + {id} <==> FirstOutput(next, i).Some?)
    {
      NextAccepted(body, line, i);
      NextOutput(body, line, i);
      assert next[i] == body[i];
    }
  }

  lemma OutputPoints(calls: map<Text, nat>, body: seq<Line>, process: seq<Item>, from: seq<nat>, k: nat, output: Text, changed: seq<Item>)
    requires PointsAtItems(calls, body, process, from) && Attached(process, k, output, changed)
    ensures PointsAtItems(calls, body, changed, from)
  {
    assert forall j :: 0 <= j < |process| ==> PointsAt(calls, body[from[j]], process[j]);
  }

  /** The first output of an accepted call goes into its item, any other is ignored. */
  lemma OutputLine(s: State, body: seq<Line>, from: seq<nat>, line: Line)
    requires Remembers(s, body, from) && IsOutput(line)
    ensures Remembers(ToolOutput(UNLIMITED, s, line.payload), body + [line], from)
  {
    var p, process, v := line.payload, Current(s).process, ToolOutput(UNLIMITED, s, line.payload);
    SilentLine(body, line);
    assert !Accepted(body + [line], |body|);
    hide ComesFrom, NothingMissing, PointsAtItems, NumbersDiffer, AnswersOf, LatestContents, Joined, Accepted, Unheard, Holds, FirstOutput, Tells;
    if p.callId !in s.calls {
      assert v == s;
      LateOutput(s, body, line);
      QuietLine(s, s, body, from, line);
    } else {
      hide ToolOutput;
      var k := ItemOfCall(s, body, from, p.callId);
      ToolOutputIs(s, line, k);
      if p.callId in s.outputs || OutputText(p) == [] {
        LateOutput(s, body, line);
        QuietLine(s, s, body, from, line);
      } else {
        var changed := Current(v).process;
        OutputComesFrom(s, body, from, line, k, changed);
        OutputNothingMissing(body, process, from, line, k, OutputText(p), changed);
        OutputKnown(s.calls, s.outputs, body, line);
        StillPoints(s.calls, body, process, from, line);
        OutputPoints(s.calls, body + [line], process, from, k, OutputText(p), changed);
        OutputNumbers(process, s.processSequence, k, OutputText(p), changed);
      }
    }
  }

  lemma OutputNumbers(process: seq<Item>, next: nat, k: nat, output: Text, changed: seq<Item>)
    requires NumbersDiffer(process, next) && Attached(process, k, output, changed)
    ensures NumbersDiffer(changed, next)
  {}

  // ---- Any line of the turn ----

  /** Same as before, but for prompt, status and marks. */
  predicate Unmoved(s: State, v: State) {
    && Begun(s) && Begun(v) && Current(v).answer == Current(s).answer && Current(v).process == Current(s).process
    && v.finals == s.finals && v.calls == s.calls && v.outputs == s.outputs && v.processSequence == s.processSequence
  }

  lemma UnmovedLine(s: State, v: State, body: seq<Line>, from: seq<nat>, line: Line)
    requires Remembers(s, body, from) && Unmoved(s, v) && !IsCall(line) && !IsOutput(line) && AnswersOf(body + [line]) == AnswersOf(body)
    requires IsComment(line) && line.payload.content != [] ==> HasText(Current(s).process, line.payload.content)
    ensures Remembers(v, body + [line], from)
  {
    assert !Accepted(body + [line], |body|) && Unheard(body, line);
    hide Remembers, Accepted, Unheard, AnswersOf, HasText, Answered, ToolSaid;
    assert Remembers(s, body, from);
    QuietLine(s, v, body, from, line);
  }

  lemma NotAnItem(body: seq<Line>, line: Line)
    requires !IsCall(line) && !IsOutput(line)
    ensures !Accepted(body + [line], |body|) && Unheard(body, line)
  {}

  /** What a final message or a completion adds. */
  lemma AnswersNext(body: seq<Line>, line: Line)
    ensures AnswersOf(body + [line]) ==
              var log := AnswersOf(body);
              if IsFinal(line) && line.payload.content != [] then
                log + [Given(if line.payload.id != [] then line.payload.id else line.payload.content, line.payload.content)]
              else if IsEvent(line, TaskComplete) && IsNew(log, line.payload.lastMessage) then log + [Given(Units("completion"), line.payload.lastMessage)]
              else log
  {
    assert (body + [line])[..|body|] == body;
  }

  lemma CompletionIs(s: State, body: seq<Line>, from: seq<nat>, p: Payload)
    requires Remembers(s, body, from) && p.kind == TaskComplete
    ensures var v := EventMessage(UNLIMITED, s, p);
      if IsNew(AnswersOf(body), p.lastMessage) then v == SetStatus(Answer(UNLIMITED, s, COMPLETION, p.lastMessage), Complete)
      else v == SetStatus(s, Complete)
  {
    HeldContents(s.finals, AnswersOf(body));
    hide Answer, SetStatus, AnswersOf, LatestContents, Joined, ComesFrom, NothingMissing, Books, Units;
  }

  lemma EventTells(s: State, body: seq<Line>, from: seq<nat>, line: Line) returns (places: seq<nat>)
    requires Begun(s) && Remembers(s, body, from) && Speaks(line) && line.kind == EventMsg
    ensures Remembers(EventMessage(UNLIMITED, s, line.payload), body + [line], places)
  {
    var p := line.payload;
    AnswersNext(body, line);
    NotAnItem(body, line);
    if p.kind == TaskComplete { CompletionIs(s, body, from, p); }
    places := from;
    hide Remembers, AnswersOf, Answer, Accepted, Unheard, Units, IsNew;
    if p.kind == TaskComplete && IsNew(AnswersOf(body), p.lastMessage) {
      NewIsSomething(AnswersOf(body), p.lastMessage);
      places := AnswerLine(s, body, from, line, COMPLETION, p.lastMessage);
    } else {
      EventUnmoved(s, p);
      hide EventMessage, Unmoved, SetStatus;
      UnmovedLine(s, EventMessage(UNLIMITED, s, p), body, from, line);
    }
  }

  lemma EventUnmoved(s: State, p: Payload)
    requires Begun(s) && (p.kind == TaskComplete ==> EventMessage(UNLIMITED, s, p) == SetStatus(s, Complete))
    ensures Unmoved(s, EventMessage(UNLIMITED, s, p))
  {
    hide Answer;
  }

  lemma NewIsSomething(log: seq<Given>, message: Text)
    requires IsNew(log, message)
    ensures message != []
  {}

  lemma AssistantTells(s: State, body: seq<Line>, from: seq<nat>, line: Line) returns (places: seq<nat>)
    requires Begun(s) && Remembers(s, body, from) && FromAssistant(line)
    ensures Remembers(AssistantMessage(UNLIMITED, s, line.payload), body + [line], places)
  {
    hide Remembers, AnswersOf, Units, LatestContents, Joined;
    var p, v := line.payload, AssistantMessage(UNLIMITED, s, line.payload);
    AnswersNext(body, line);
    NotAnItem(body, line);
    places := from;
    if IsFinal(line) && p.content != [] {
      hide Answer;
      places := AnswerLine(s, body, from, line, if p.id != [] then p.id else p.content, p.content);
    } else if IsComment(line) && p.content != [] && LastText(Current(s).process) != Some(p.content) {
      hide AddItem;
      CommentLine(s, body, from, line);
      places := from + [|body|];
    } else {
      assert Unmoved(s, v);
      if IsComment(line) && p.content != [] { assert Current(s).process[|Current(s).process| - 1].text == p.content; }
      hide AssistantMessage, Unmoved;
      UnmovedLine(s, v, body, from, line);
    }
  }

  lemma RemembersBegun(s: State, body: seq<Line>, from: seq<nat>)
    requires Remembers(s, body, from)
    ensures Begun(s)
  {}

  lemma ResponseTells(s: State, body: seq<Line>, from: seq<nat>, line: Line) returns (places: seq<nat>)
    requires Remembers(s, body, from) && Speaks(line) && line.kind == ResponseItem
    ensures Remembers(Response(UNLIMITED, s, line.payload), body + [line], places)
  {
    hide Remembers, AnswersOf, AssistantMessage, ToolCall, ToolOutput;
    RemembersBegun(s, body, from);
    if FromAssistant(line) { places := AssistantTells(s, body, from, line); }
    else if IsCall(line) { places := CallLine(s, body, from, line); }
    else if IsOutput(line) {
      OutputLine(s, body, from, line);
      places := from;
    } else {
      places := from;
      assert Unmoved(s, Response(UNLIMITED, s, line.payload));
      SilentLine(body, line);
      hide Response, Unmoved;
      UnmovedLine(s, Response(UNLIMITED, s, line.payload), body, from, line);
    }
  }

  // ---- All turns of a transcript ----

  /** The earlier turns tell what their lines say, and the parser remembers those of the current one. */
  ghost predicate Told(s: State, sections: seq<Section>, from: seq<nat>) {
    && |s.turns| == |sections| && (forall i :: 0 <= i < |sections| - 1 ==> TurnTells(sections[i].lines, s.turns[i]))
    && (sections != [] ==> Remembers(s, sections[|sections| - 1].lines, from) && Current(s).id == sections[|sections| - 1].id)
  }

  lemma RememberedTells(s: State, body: seq<Line>, from: seq<nat>)
    requires Remembers(s, body, from)
    ensures TurnTells(body, Current(s))
  {
    hide ComesFrom, NothingMissing, AnswersOf, LatestContents, Joined, Books, Holds;
  }

  lemma NewRemembers(s: State, id: Text)
    requires !Begun(s) || Current(s).id != id
    ensures var v := Begin(UNLIMITED, s, id);
      Remembers(v, [], []) && Remembers(Mark(v), [], []) && v.turns == s.turns + [Turn(id, [], [], [], Running, false)]
  {}

  lemma BeginTold(s: State, sections: seq<Section>, from: seq<nat>, id: Text) returns (places: seq<nat>)
    requires Told(s, sections, from)
    ensures var n := |sections| - 1;
      Told(Begin(UNLIMITED, s, id), if sections != [] && sections[n].id == id then sections else sections + [Section(id, [])], places)
  {
    hide Remembers, TurnTells;
    places := from;
    if !(sections != [] && sections[|sections| - 1].id == id) {
      NewRemembers(s, id);
      if sections != [] { RememberedTells(s, sections[|sections| - 1].lines, from); }
      places := [];
    }
  }

  lemma SpeakTold(s: State, sections: seq<Section>, from: seq<nat>, line: Line) returns (places: seq<nat>)
    requires Told(s, sections, from) && sections != [] && Speaks(line)
    requires TurnSays(UNLIMITED, Current(s), sections[|sections| - 1])
    ensures var n := |sections| - 1; var v := InTurn(UNLIMITED, s, line.kind, line.payload);
      Told(v, if ForTurn(line, sections[n].id) then sections[n := sections[n].(lines := sections[n].lines + [line])] else sections, places)
  {
    hide Remembers, TurnTells, EventMessage, Response, StatusIs, PromptKept;
    var n := |sections| - 1;
    places := from;
    if ForTurn(line, sections[n].id) {
      if line.kind == EventMsg { places := EventTells(s, sections[n].lines, from, line); }
      else { places := ResponseTells(s, sections[n].lines, from, line); }
      InTurnSays(UNLIMITED, s, line, sections[n].lines);
    }
  }

  lemma MarkTold(s: State, sections: seq<Section>, from: seq<nat>)
    requires Begun(s) && Told(s, sections, from)
    ensures Told(Mark(s), sections, from)
  {
    hide TurnTells, ComesFrom, NothingMissing, NumbersDiffer, KnowsCalls, PointsAtItems, Holds, AnswersOf, LatestContents, Joined;
  }

  lemma TurnsTold(s: State, sections: seq<Section>, from: seq<nat>)
    requires Told(s, sections, from)
    ensures |s.turns| == |sections| && (s.turns != [] ==> Current(s).id == sections[|sections| - 1].id)
  {}

  lemma StepIs(s: State, line: Line)
    requires !NamesTurn(line)
    ensures Step(UNLIMITED, s, line) ==
              if !Speaks(line) || (!Begun(s) && !FromAssistant(line)) then s
              else InTurn(UNLIMITED, if Begun(s) then s else Mark(Begin(UNLIMITED, s, PARTIAL_TURN)), line.kind, line.payload)
  {
    hide InTurn, Begin, Mark;
  }

  lemma NextSectionsAre(sections: seq<Section>, nameless: nat, line: Line)
    requires !NamesTurn(line)
    ensures var n, id := |sections| - 1, Units("partial-turn");
      NextSections(sections, nameless, line) ==
        if !Speaks(line) || (sections == [] && !FromAssistant(line)) then sections
        else if sections == [] then [Section(id, if ForTurn(line, id) then [line] else [])]
        else if ForTurn(line, sections[n].id) then sections[n := sections[n].(lines := sections[n].lines + [line])] else sections
  {
    hide Units;
  }

  lemma CurrentSays(s: State, sections: seq<Section>)
    requires SaysTurns(UNLIMITED, s.turns, sections)
    ensures (Begun(s) <==> sections != []) && (Begun(s) <==> s.turns != [])
    ensures Begun(s) ==> TurnSays(UNLIMITED, Current(s), sections[|sections| - 1])
  {
    if Begun(s) { LastSays(UNLIMITED, s.turns, sections); }
  }

  lemma StepTold(s: State, sections: seq<Section>, from: seq<nat>, line: Line) returns (places: seq<nat>)
    requires Told(s, sections, from) && SaysTurns(UNLIMITED, s.turns, sections) && !NamesTurn(line)
    ensures Told(Step(UNLIMITED, s, line), NextSections(sections, s.sequence, line), places)
  {
    hide *;
    CurrentSays(s, sections);
    StepIs(s, line);
    NextSectionsAre(sections, s.sequence, line);
    places := from;
    if Speaks(line) && Begun(s) { places := SpeakTold(s, sections, from, line); }
    else if Speaks(line) && FromAssistant(line) { places := FirstTold(s, from, line); }
  }

  lemma FirstTold(s: State, from: seq<nat>, line: Line) returns (places: seq<nat>)
    requires s.turns == [] && Told(s, [], from) && FromAssistant(line)
    ensures var id := Units("partial-turn");
      Told(InTurn(UNLIMITED, Mark(Begin(UNLIMITED, s, PARTIAL_TURN)), line.kind, line.payload),
           [Section(id, if ForTurn(line, id) then [line] else [])], places)
  {
    hide Told, InTurn, Units, TurnSays;
    var first, sections := Begin(UNLIMITED, s, PARTIAL_TURN), [Section(PARTIAL_TURN, [])];
    places := BeginTold(s, [], from, PARTIAL_TURN);
    assert [] + sections == sections;
    FirstTurn(s, PARTIAL_TURN);
    MarkTold(first, sections, places);
    hide Begin, Mark;
    assert [] + [line] == [line];
    assert ForTurn(line, PARTIAL_TURN) ==> sections[0 := sections[0].(lines := sections[0].lines + [line])] == [Section(PARTIAL_TURN, [line])];
    assert !ForTurn(line, PARTIAL_TURN) ==> sections == [Section(PARTIAL_TURN, [])];
    places := SpeakTold(Mark(first), sections, places, line);
  }

  lemma FirstTurn(s: State, id: Text)
    requires s.turns == []
    ensures var first := Begin(UNLIMITED, s, id); Begun(first) && Begun(Mark(first)) && TurnSays(UNLIMITED, Current(Mark(first)), Section(id, []))
  {
    NewSays(UNLIMITED, id);
    var first := Begin(UNLIMITED, s, id);
    assert Current(Mark(first)) == Turn(id, [], [], [], Running, false).(truncated := true);
    hide StatusIs, PromptKept;
  }

  lemma NamedTold(s: State, sections: seq<Section>, from: seq<nat>, line: Line) returns (places: seq<nat>)
    requires Told(s, sections, from) && NamesTurn(line)
    ensures Told(Step(UNLIMITED, s, line), NextSections(sections, s.sequence, line), places)
  {
    hide Told, Begin, Digits, Units;
    SequenceTold(s, sections, from);
    TurnsTold(s, sections, from);
    if Nameless(line) { places := BeginTold(s.(sequence := s.sequence + 1), sections, from, TURN + Digits(s.sequence)); }
    else { places := BeginTold(s, sections, from, line.payload.turnId.value); }
  }

  lemma SequenceTold(s: State, sections: seq<Section>, from: seq<nat>)
    requires Told(s, sections, from)
    ensures Told(s.(sequence := s.sequence + 1), sections, from)
  {
    hide TurnTells, ComesFrom, NothingMissing, NumbersDiffer, KnowsCalls, PointsAtItems, Holds, AnswersOf, LatestContents, Joined;
  }

  lemma {:induction false} ParseTold(lines: seq<Line>) returns (from: seq<nat>)
    ensures Told(Parse(UNLIMITED, lines), Sections(lines), from)
  {
    hide Told, NextSections, Step, SaysTurns;
    from := [];
    if lines == [] {
      NothingTold();
    } else {
      var front, line := lines[..|lines| - 1], lines[|lines| - 1];
      from := ParseTold(front);
      TurnsSay(UNLIMITED, front);
      if NamesTurn(line) { from := NamedTold(Parse(UNLIMITED, front), Sections(front), from, line); }
      else { from := StepTold(Parse(UNLIMITED, front), Sections(front), from, line); }
    }
  }

  lemma NothingTold()
    ensures Told(START, [], [])
  {}

  /** For every transcript: the parser without limits finds its turns, and of each the answer and the items its lines give. */
  lemma {:induction false} TranscriptTells(lines: seq<Line>)
    ensures var turns, sections := Parse(UNLIMITED, lines).turns, Sections(lines);
      |turns| == |sections| && forall i :: 0 <= i < |turns| ==>
        turns[i].id == sections[i].id && TurnTells(sections[i].lines, turns[i])
        && StatusIs(sections[i].lines, turns[i].status) && PromptIs(sections[i].lines, turns[i].prompt)
  {
    var from := ParseTold(lines);
    TurnsSay(UNLIMITED, lines);
    var s, sections := Parse(UNLIMITED, lines), Sections(lines);
    TurnsTold(s, sections, from);
    hide Parse, Sections, Told, SaysTurns, TurnTells, StatusIs, PromptIs;
    forall i | 0 <= i < |s.turns|
      ensures s.turns[i].id == sections[i].id && TurnTells(sections[i].lines, s.turns[i])
              && StatusIs(sections[i].lines, s.turns[i].status) && PromptIs(sections[i].lines, s.turns[i].prompt)
    {
      TurnToldAt(s, sections, from, i);
      TurnSaidAt(s.turns, sections, i);
    }
  }

  lemma TurnToldAt(s: State, sections: seq<Section>, from: seq<nat>, i: nat)
    requires Told(s, sections, from) && i < |sections|
    ensures i < |s.turns| && TurnTells(sections[i].lines, s.turns[i])
  {
    hide TurnTells, Remembers;
    if i == |sections| - 1 { RememberedTells(s, sections[i].lines, from); }
  }

  lemma TurnSaidAt(turns: seq<Turn>, sections: seq<Section>, i: nat)
    requires SaysTurns(UNLIMITED, turns, sections) && i < |sections|
    ensures i < |turns| && turns[i].id == sections[i].id && StatusIs(sections[i].lines, turns[i].status) && PromptIs(sections[i].lines, turns[i].prompt)
  {
    assert TurnSays(UNLIMITED, turns[i], sections[|sections| - |turns| + i]);
    hide StatusIs, PromptIs;
  }

  lemma ParseNext(l: Limits, lines: seq<Line>, line: Line)
    ensures Parse(l, lines + [line]) == Step(l, Parse(l, lines), line)
  {
    assert (lines + [line])[..|lines|] == lines;
  }

  /** A comment that repeats the item before it adds nothing. */
  lemma {:induction false} RepetitionAddsNothing(l: Limits, lines: seq<Line>, line: Line)
    requires Begun(Parse(l, lines)) && ForTurn(line, Current(Parse(l, lines)).id) && IsComment(line)
    requires var process := Current(Parse(l, lines)).process; process != [] && process[|process| - 1].text == line.payload.content
    ensures Parse(l, lines + [line]) == Parse(l, lines)
  {
    ParseNext(l, lines, line);
    hide Parse;
  }

  /** Behind a final message no comment is left that repeats an answer. */
  lemma {:induction false} AnswersAreNotRepeated(lines: seq<Line>, line: Line)
    requires Begun(Parse(UNLIMITED, lines)) && ForTurn(line, Current(Parse(UNLIMITED, lines)).id) && IsFinal(line) && line.payload.content != []
    ensures var t, n := Current(Parse(UNLIMITED, lines + [line])), |Sections(lines + [line])| - 1;
      n >= 0 && forall k :: 0 <= k < |t.process| && t.process[k].kind == Commentary ==>
        t.process[k].text !in LatestContents(AnswersOf(Sections(lines + [line])[n].lines))
  {
    var s, v := Parse(UNLIMITED, lines), Parse(UNLIMITED, lines + [line]);
    ParseNext(UNLIMITED, lines, line);
    FinalStep(s, line);
    var from := ParseTold(lines + [line]);
    hide Parse, Sections;
    ToldFinals(v, Sections(lines + [line]), from);
    hide Told, Step;
    var values := Values(v.finals);
    var at := FilterKeeps(Current(s).process, values);
    NoneRepeats(Current(s).process, Current(v).process, at, values);
  }

  lemma FinalStep(s: State, line: Line)
    requires Begun(s) && ForTurn(line, Current(s).id) && IsFinal(line) && line.payload.content != []
    ensures var v := Step(UNLIMITED, s, line); Begun(v) && Current(v).process == WithoutRepeats(Current(s).process, Values(v.finals))
  {
    AnswerIs(s, if line.payload.id != [] then line.payload.id else line.payload.content, line.payload.content);
    hide Answer, WithoutRepeats, SetStatus;
  }

  lemma ToldFinals(v: State, sections: seq<Section>, from: seq<nat>)
    requires Told(v, sections, from) && Begun(v)
    ensures sections != [] && Values(v.finals) == LatestContents(AnswersOf(sections[|sections| - 1].lines))
  {
    hide TurnTells, ComesFrom, NothingMissing, Books, Holds, AnswersOf, LatestContents, Joined;
    HeldContents(v.finals, AnswersOf(sections[|sections| - 1].lines));
  }

  lemma NoneRepeats(process: seq<Item>, kept: seq<Item>, at: seq<nat>, values: seq<Text>)
    requires Keeps(process, kept, at, values)
    ensures forall k :: 0 <= k < |kept| ==> !Repeats(kept[k], values)
  {
    forall k | 0 <= k < |kept| ensures !Repeats(kept[k], values) {
      assert at[k] in at;
    }
  }
}
