/** What the transcript gives as the answer of a turn, told from its lines and not from the parser
    (src/server/agent-conversation-parser.ts). */
module ConversationAnswers {
  import opened Wrappers
  import opened ConversationTranscript
  import opened ConversationMeaning

  // ---- Answers ----

  /** An answer that was given, under its id. */
  datatype Given = Given(id: Text, content: Text)

  predicate HasId(log: seq<Given>, id: Text) { exists k :: 0 <= k < |log| && log[k].id == id }

  /** The ids in the order of their first appearance. */
  function Ids(log: seq<Given>): (ids: seq<Text>)
    ensures forall id :: id in ids <==> HasId(log, id)
  {
    if log == [] then []
    else
      var before, last := Ids(log[..|log| - 1]), log[|log| - 1];
      assert forall k :: 0 <= k < |log| - 1 ==> log[..|log| - 1][k] == log[k];
      if last.id in before then before else before + [last.id]
  }

  /** The content that was given last for this id. */
  function LatestFor(log: seq<Given>, id: Text): (content: Text)
    requires HasId(log, id)
    ensures exists k :: 0 <= k < |log| && log[k] == Given(id, content) && forall j :: k < j < |log| ==> log[j].id != id
  {
    if log[|log| - 1].id == id then log[|log| - 1].content else LatestFor(log[..|log| - 1], id)
  }

  function LatestContents(log: seq<Given>): (contents: seq<Text>)
    ensures |contents| == |Ids(log)| && forall k :: 0 <= k < |contents| ==> contents[k] == LatestFor(log, Ids(log)[k])
  {
    seq(|Ids(log)|, k requires 0 <= k < |Ids(log)| => assert Ids(log)[k] in Ids(log); LatestFor(log, Ids(log)[k]))
  }

  /** Joined by empty lines. */
  function Joined(contents: seq<Text>): Text {
    if contents == [] then []
    else if |contents| == 1 then contents[0]
    else Joined(contents[..|contents| - 1]) + Units("\n\n") + contents[|contents| - 1]
  }

  /** The answers given by the lines of a turn: its final messages, by their own id or else by their content, and a last
      message of a completion that says something new. */
  function AnswersOf(body: seq<Line>): seq<Given> {
    if body == [] then []
    else
      var log, line := AnswersOf(body[..|body| - 1]), body[|body| - 1];
      if IsFinal(line) && line.payload.content != [] then
        log + [Given(if line.payload.id != [] then line.payload.id else line.payload.content, line.payload.content)]
      else if IsEvent(line, TaskComplete) && IsNew(log, line.payload.lastMessage) then log + [Given(Units("completion"), line.payload.lastMessage)]
      else log
  }

  predicate IsNew(log: seq<Given>, message: Text) {
    message != [] && message != Joined(LatestContents(log)) && message !in LatestContents(log)
  }

  /** The insertion-ordered map of the parser holds the latest contents in the order of first appearance. */
  predicate Holds(finals: seq<(Text, Text)>, log: seq<Given>) {
    |finals| == |Ids(log)| && forall k :: 0 <= k < |finals| ==> finals[k] == (Ids(log)[k], LatestContents(log)[k])
  }

  lemma {:induction false} IdsDiffer(log: seq<Given>)
    ensures forall i, j :: 0 <= i < j < |Ids(log)| ==> Ids(log)[i] != Ids(log)[j]
  {
    if log != [] {
      IdsDiffer(log[..|log| - 1]);
      var before, last := Ids(log[..|log| - 1]), log[|log| - 1];
      if last.id !in before { assert forall i :: 0 <= i < |before| ==> before[i] in before; }
    }
  }

  function PlaceOf(finals: seq<(Text, Text)>, id: Text): (k: nat)
    ensures k <= |finals| && (k < |finals| ==> finals[k].0 == id) && forall j :: 0 <= j < k ==> finals[j].0 != id
  {
    if finals == [] || finals[0].0 == id then 0 else 1 + PlaceOf(finals[1..], id)
  }

  lemma {:induction false} SetFinalIs(finals: seq<(Text, Text)>, id: Text, content: Text)
    ensures var k := PlaceOf(finals, id);
            SetFinal(finals, id, content) == if k < |finals| then finals[k := (id, content)] else finals + [(id, content)]
  {
    if finals != [] && finals[0].0 != id {
      var rest := finals[1..];
      SetFinalIs(rest, id, content);
      Behind(finals[0], rest, PlaceOf(rest, id), (id, content));
      assert finals == [finals[0]] + rest;
    }
  }

  lemma Behind<T>(x: T, rest: seq<T>, k: nat, y: T)
    ensures k < |rest| ==> [x] + rest[k := y] == ([x] + rest)[k + 1 := y]
    ensures [x] + (rest + [y]) == ([x] + rest) + [y]
  {}

  lemma NextIds(log: seq<Given>, id: Text, content: Text)
    ensures var next := log + [Given(id, content)];
            && Ids(next) == (if id in Ids(log) then Ids(log) else Ids(log) + [id])
            && forall x :: x in Ids(next) ==> LatestFor(next, x) == if x == id then content else LatestFor(log, x)
  {
    var next := log + [Given(id, content)];
    assert next[..|log|] == log;
  }

  lemma HoldsNext(finals: seq<(Text, Text)>, log: seq<Given>, id: Text, content: Text)
    requires Holds(finals, log)
    ensures Holds(SetFinal(finals, id, content), log + [Given(id, content)])
  {
    var next := log + [Given(id, content)];
    SetFinalIs(finals, id, content);
    IdsDiffer(log);
    NextIds(log, id, content);
    hide SetFinal, Ids, LatestFor;
    var place := PlaceOf(finals, id);
    assert id in Ids(log) <==> place < |finals| by {
      if id in Ids(log) { var k :| 0 <= k < |Ids(log)| && Ids(log)[k] == id; assert finals[k].0 == id; }
    }
    forall k | 0 <= k < |Ids(next)| ensures SetFinal(finals, id, content)[k] == (Ids(next)[k], LatestContents(next)[k]) {
      assert Ids(next)[k] in Ids(next);
      if k < |Ids(log)| { assert finals[k] == (Ids(log)[k], LatestContents(log)[k]) && Ids(log)[k] in Ids(log); }
    }
  }

  lemma HeldContents(finals: seq<(Text, Text)>, log: seq<Given>)
    requires Holds(finals, log)
    ensures Values(finals) == LatestContents(log)
  {}

  lemma {:induction false} JoinIs(contents: seq<Text>)
    ensures Join(contents) == Joined(contents)
  {
    if |contents| > 1 {
      var n := |contents| - 1;
      JoinIs(contents[..n]);
      JoinLast(contents[..n], contents[n]);
      assert contents[..n] + [contents[n]] == contents;
    }
  }

  lemma {:induction false} JoinLast(front: seq<Text>, last: Text)
    requires front != []
    ensures Join(front + [last]) == Join(front) + BLANK_LINE + last
  {
    hide Units;
    var all := front + [last];
    assert all[1..] == front[1..] + [last];
    if |front| > 1 {
      JoinLast(front[1..], last);
      assert Join(all) == front[0] + BLANK_LINE + (Join(front[1..]) + BLANK_LINE + last);
    } else {
      assert all[1..] == [last];
    }
  }
}
