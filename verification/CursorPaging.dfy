/** Following cursors over numbered logs: the pages of a dispatch's messages
    (src/server/dispatch-message-store.ts) and the events of an external goal
    (src/server/external-goal-store.ts, src/server/external-goal-bridge.ts). */
module CursorPaging {
  import opened Wrappers

  datatype Row = Row(sequence: nat, body: nat)
  type Log = seq<Row>

  predicate Numbered(log: Log) {
    forall k :: 0 <= k < |log| ==> log[k].sequence == k + 1
  }

  /** `COALESCE(MAX(sequence), 0)`. */
  function Latest(log: Log): nat {
    if log == [] then 0
    else
      var before, last := Latest(log[..|log| - 1]), log[|log| - 1].sequence;
      if last > before then last else before
  }

  /** `WHERE sequence > cursor ORDER BY sequence`. */
  function Beyond(log: Log, cursor: nat): Log {
    if log == [] then []
    else
      var rest, last := Beyond(log[..|log| - 1], cursor), log[|log| - 1];
      if last.sequence > cursor then rest + [last] else rest
  }

  /** Inserting an event or a message: it gets the next number. */
  function Append(log: Log, body: nat): Log { log + [Row(Latest(log) + 1, body)] }

  lemma {:induction false} LatestIsLength(log: Log)
    requires Numbered(log)
    ensures Latest(log) == |log|
  {
    if log != [] { LatestIsLength(log[..|log| - 1]); }
  }

  lemma {:induction false} BeyondIsRest(log: Log, cursor: nat)
    requires Numbered(log)
    ensures Beyond(log, cursor) == if cursor <= |log| then log[cursor..] else []
  {
    if log != [] {
      var rest, last := log[..|log| - 1], log[|log| - 1];
      BeyondIsRest(rest, cursor);
      if cursor < |log| { assert rest[cursor..] + [last] == log[cursor..]; }
      else if cursor == |log| { assert log[cursor..] == []; }
    }
  }

  /** An insertion keeps the numbering 1..n. */
  lemma AppendKeeps(log: Log, body: nat)
    requires Numbered(log)
    ensures Numbered(Append(log, body)) && log <= Append(log, body)
  {
    LatestIsLength(log);
  }

  // ---- Pages of messages ----

  datatype Page = Page(rows: Log, next: Option<nat>)

  /** `list`: at most `limit` rows; there is a next cursor while later rows exist. */
  function List(log: Log, after: nat, limit: nat): Page {
    var all := Beyond(log, after);
    var rows := if |all| > limit then all[..limit] else all;
    var last := if rows == [] then after else rows[|rows| - 1].sequence;
    Page(rows, if last < Latest(log) then Some(last) else None)
  }

  /** A walk takes one page after the other, each from the log as it is then, until there is no next cursor. */
  datatype Look = Look(log: Log, limit: nat)
  datatype Walked = Walked(visited: Log, cursor: Option<nat>)

  function Walk(looks: seq<Look>): Walked {
    if looks == [] then Walked([], Some(0)) else NextPage(Walk(looks[..|looks| - 1]), looks[|looks| - 1])
  }

  function NextPage(w: Walked, look: Look): Walked {
    if w.cursor.None? then w
    else
      var page := List(look.log, w.cursor.value, look.limit);
      Walked(w.visited + page.rows, page.next)
  }

  /** Logs are only appended to. */
  predicate Growing(looks: seq<Look>) {
    && (forall i :: 0 <= i < |looks| ==> Numbered(looks[i].log) && looks[i].limit > 0)
    && (forall i, j :: 0 <= i < j < |looks| ==> looks[i].log <= looks[j].log)
  }

  /** The page of a numbered log is a slice of it. */
  lemma ListIsSlice(log: Log, after: nat, limit: nat)
    requires Numbered(log) && after <= |log| && limit > 0
    ensures var page := List(log, after, limit);
      var end := if after + limit < |log| then after + limit else |log|;
      && page.rows == log[after..end] && page.next == (if end < |log| then Some(end) else None)
  {
    BeyondIsRest(log, after);
    LatestIsLength(log);
  }

  lemma NextPageVisits(w: Walked, look: Look)
    requires Numbered(look.log) && look.limit > 0 && w.cursor == Some(|w.visited|) && w.visited <= look.log
    ensures var v := NextPage(w, look);
      v.visited <= look.log && (if v.cursor.Some? then v.cursor.value == |v.visited| else v.visited == look.log)
  {
    var from := w.cursor.value;
    ListIsSlice(look.log, from, look.limit);
    var end := if from + look.limit < |look.log| then from + look.limit else |look.log|;
    assert w.visited == look.log[..from];
    assert look.log[..from] + look.log[from..end] == look.log[..end];
  }

  predicate WholeLog(visited: Log, looks: seq<Look>) {
    exists i :: 0 <= i < |looks| && visited == looks[i].log
  }

  /** What has been visited is exactly the log up to the cursor, each message once and in order; when the walk
      ends, it is the whole log as it was read last. */
  lemma {:induction false} WalkVisitsPrefix(looks: seq<Look>)
    requires Growing(looks)
    ensures var w := Walk(looks);
      && (w.cursor.Some? ==> w.cursor.value == |w.visited|)
      && (if looks != [] then w.visited <= looks[|looks| - 1].log else w.visited == [])
      && (w.cursor.None? ==> WholeLog(w.visited, looks))
  {
    if looks != [] {
      var n := |looks| - 1;
      var rest, look := looks[..n], looks[n];
      WalkVisitsPrefix(rest);
      var before := Walk(rest);
      if rest != [] { assert rest[|rest| - 1].log <= look.log; }
      if before.cursor.Some? {
        NextPageVisits(before, look);
        assert looks[n].log == look.log;
      } else {
        var i :| 0 <= i < |rest| && before.visited == rest[i].log;
        assert before.visited == looks[i].log;
      }
    }
  }

  /** Every page that has a next cursor brings something new, so over a log that no longer grows a walk ends
      after at most one page more than there are messages. */
  lemma {:induction false} WalkEnds(looks: seq<Look>, log: Log)
    requires Growing(looks) && forall i :: 0 <= i < |looks| ==> looks[i].log == log
    ensures Walk(looks).cursor.Some? ==> |Walk(looks).visited| >= |looks|
    ensures |looks| > |log| ==> Walk(looks) == Walked(log, None)
  {
    if looks != [] {
      var rest, look := looks[..|looks| - 1], looks[|looks| - 1];
      WalkEnds(rest, log);
      WalkVisitsPrefix(rest);
      WalkVisitsPrefix(looks);
      var before := Walk(rest);
      if before.cursor.Some? && |before.visited| <= |log| { ListIsSlice(log, before.cursor.value, look.limit); }
    }
  }

  // ---- Waiting for the events of a goal ----

  /** A call of `waitGoal` that found nothing yet; `fired` once its listener was called. */
  datatype Waiter = Waiter(cursor: nat, fired: bool)
  datatype Reply = Reply(events: Log, cursor: nat)
  datatype Goal = Goal(log: Log, waiters: map<nat, Waiter>)

  datatype Step = Happens(body: nat) | Call(caller: nat, cursor: nat) | Resume(caller: nat)

  function Answer(log: Log, cursor: nat): Reply {
    var events := Beyond(log, cursor);
    Reply(events, if events != [] then events[|events| - 1].sequence else if cursor > Latest(log) then cursor else Latest(log))
  }

  /** An append calls every listener; looking at the log and registering the listener is one step. A waiter may
      resume because it was called or because its time is up. */
  function After(g: Goal, s: Step): Goal {
    match s
    case Happens(body) => Goal(Append(g.log, body), map w | w in g.waiters :: g.waiters[w].(fired := true))
    case Call(caller, cursor) =>
      if caller in g.waiters || Beyond(g.log, cursor) != [] then g else g.(waiters := g.waiters[caller := Waiter(cursor, false)])
    case Resume(caller) => g.(waiters := g.waiters - {caller})
  }

  /** What the caller is told at a step, if anything. */
  function Told(g: Goal, s: Step): Option<Reply> {
    match s
    case Happens(_) => None
    case Call(caller, cursor) => if caller in g.waiters || Beyond(g.log, cursor) == [] then None else Some(Answer(g.log, cursor))
    case Resume(caller) => if caller in g.waiters then Some(Answer(g.log, g.waiters[caller].cursor)) else None
  }

  function Run(steps: seq<Step>): Goal {
    if steps == [] then Goal([], map[]) else After(Run(steps[..|steps| - 1]), steps[|steps| - 1])
  }

  predicate Awake(g: Goal) {
    Numbered(g.log) && forall w :: w in g.waiters && !g.waiters[w].fired ==> Beyond(g.log, g.waiters[w].cursor) == []
  }

  lemma AfterKeeps(g: Goal, s: Step)
    requires Awake(g)
    ensures Awake(After(g, s)) && g.log <= After(g, s).log
  {
    if s.Happens? { AppendKeeps(g.log, s.body); }
  }

  /** No wake-up is lost: a waiter beyond whose cursor there is an event has been called. */
  lemma {:induction false} NoLostWakeUp(steps: seq<Step>)
    ensures Awake(Run(steps))
  {
    if steps != [] {
      NoLostWakeUp(steps[..|steps| - 1]);
      AfterKeeps(Run(steps[..|steps| - 1]), steps[|steps| - 1]);
    }
  }

  /** The reply holds exactly the events after the cursor, and the returned cursor is the end of the log: the next reply
      continues there, with no event lost or repeated. A cursor ahead of the log stays where it is. */
  lemma {:induction false} RepliesContinue(steps: seq<Step>, cursor: nat)
    ensures var log, reply := Run(steps).log, Answer(Run(steps).log, cursor);
      if cursor <= |log| then reply == Reply(log[cursor..], |log|) else reply == Reply([], cursor)
  {
    NoLostWakeUp(steps);
    BeyondIsRest(Run(steps).log, cursor);
    LatestIsLength(Run(steps).log);
  }

  /** Replies of one caller that passes each returned cursor on, over a log that grows in between. */
  function Follow(logs: seq<Log>): Reply {
    if logs == [] then Reply([], 0)
    else
      var before := Follow(logs[..|logs| - 1]);
      var reply := Answer(logs[|logs| - 1], before.cursor);
      Reply(before.events + reply.events, reply.cursor)
  }

  /** A caller that follows the returned cursors from 0 sees every event exactly once and in order. */
  lemma {:induction false} FollowSeesEverything(logs: seq<Log>)
    requires forall i :: 0 <= i < |logs| ==> Numbered(logs[i])
    requires forall i, j :: 0 <= i < j < |logs| ==> logs[i] <= logs[j]
    ensures var r := Follow(logs);
      r.cursor == |r.events| && (logs != [] ==> r.events == logs[|logs| - 1])
  {
    hide Answer, Numbered;
    if logs != [] {
      var rest, log := logs[..|logs| - 1], logs[|logs| - 1];
      FollowSeesEverything(rest);
      if rest != [] { assert rest[|rest| - 1] == logs[|rest| - 1] <= log; }
      AnswerGivesRest(log, Follow(rest).events, Follow(rest).cursor);
    }
  }

  /** An answer completes what has been seen of a log. */
  lemma AnswerGivesRest(log: Log, seen: Log, cursor: nat)
    requires Numbered(log) && seen <= log && cursor == |seen|
    ensures seen + Answer(log, cursor).events == log && Answer(log, cursor).cursor == |log|
  {
    BeyondIsRest(log, cursor);
    LatestIsLength(log);
    assert seen + log[cursor..] == log;
  }

  // ---- What one caller is told, over a whole run ----

  predicate HasBeyond(log: Log, cursor: nat) { exists k :: 0 <= k < |log| && log[k].sequence > cursor }

  lemma {:induction false} BeyondIff(log: Log, cursor: nat)
    ensures Beyond(log, cursor) != [] <==> HasBeyond(log, cursor)
  {
    if log != [] {
      var rest := log[..|log| - 1];
      BeyondIff(rest, cursor);
      assert forall k :: 0 <= k < |rest| ==> rest[k] == log[k];
    }
  }

  /** A call is answered at once if and only if there is an event behind its cursor; else it waits, and whenever it resumes
      it is answered. */
  lemma ToldIff(g: Goal, s: Step)
    ensures Told(g, s).Some? <==>
              || (s.Call? && s.caller !in g.waiters && HasBeyond(g.log, s.cursor))
              || (s.Resume? && s.caller in g.waiters)
    ensures s.Call? && s.caller !in g.waiters && !HasBeyond(g.log, s.cursor) ==>
              s.caller in After(g, s).waiters && After(g, s).waiters[s.caller] == Waiter(s.cursor, false)
  {
    if s.Call? { BeyondIff(g.log, s.cursor); }
  }

  function CallerOf(s: Step): Option<nat> {
    match s
    case Happens(_) => None
    case Call(caller, _) => Some(caller)
    case Resume(caller) => Some(caller)
  }

  /** All events the caller has been told, and the cursor it was given last. */
  function Heard(steps: seq<Step>, caller: nat): Reply {
    if steps == [] then Reply([], 0)
    else
      var front, s := steps[..|steps| - 1], steps[|steps| - 1];
      var before, told := Heard(front, caller), Told(Run(front), s);
      if CallerOf(s) == Some(caller) && told.Some? then Reply(before.events + told.value.events, told.value.cursor) else before
  }

  /** The caller always passes on the cursor it was given last. */
  predicate PassesOn(steps: seq<Step>, caller: nat) {
    steps != [] ==>
      && PassesOn(steps[..|steps| - 1], caller)
      && var s := steps[|steps| - 1];
      (s.Call? && s.caller == caller ==> s.cursor == Heard(steps[..|steps| - 1], caller).cursor)
  }

  /** What the caller has heard is the log up to its cursor, from which it waits. */
  predicate HearsAll(g: Goal, heard: Reply, caller: nat) {
    && heard.cursor <= |g.log| && heard.events == g.log[..heard.cursor]
    && (caller in g.waiters ==> g.waiters[caller].cursor == heard.cursor)
  }

  lemma StepHeard(g: Goal, s: Step, heard: Reply, caller: nat)
    requires Awake(g) && HearsAll(g, heard, caller) && (s.Call? && s.caller == caller ==> s.cursor == heard.cursor)
    ensures HearsAll(After(g, s), heard, caller)
    ensures CallerOf(s) == Some(caller) && Told(g, s).Some? ==>
      HearsAll(After(g, s), Reply(heard.events + Told(g, s).value.events, Told(g, s).value.cursor), caller)
  {
    AfterKeeps(g, s);
    assert After(g, s).log[..heard.cursor] == g.log[..heard.cursor];
    AnswerGivesRest(g.log, g.log[..heard.cursor], heard.cursor);
    hide Numbered, Answer, Beyond;
    assert s.Happens? || After(g, s).log == g.log;
    assert g.log[..|g.log|] == g.log;
  }

  /** A caller that passes its cursors on is told every event exactly once and in order, whatever happens between its calls
      and while it waits: what it has heard is the log up to its cursor. */
  lemma {:induction false} HeardEverything(steps: seq<Step>, caller: nat)
    requires PassesOn(steps, caller)
    ensures HearsAll(Run(steps), Heard(steps, caller), caller)
  {
    hide After, Told, Awake;
    if steps != [] {
      hide HearsAll;
      var front, s := steps[..|steps| - 1], steps[|steps| - 1];
      HeardEverything(front, caller);
      NoLostWakeUp(front);
      StepHeard(Run(front), s, Heard(front, caller), caller);
    }
  }
}
