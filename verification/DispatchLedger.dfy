/** The dispatch ledger and its message log (src/server/dispatch-ledger-store.ts,
    src/server/dispatch-message-store.ts), for one workspace, with the deliveries of the messages
    (src/server/team-delivery-runtime.ts). Every exported call is one transaction, so it is one step here; an attempt
    to deliver a message is several. */
module DispatchLedger {
  import opened Wrappers
  import Q = DeliveryQueue

  type Id = nat
  datatype Party = Orchestrator | Worker(number: nat)

  datatype Kind = Note | Question | Answer | Progress
  datatype Message = Message(id: Id, sequence: nat, from: Party, to: Party, kind: Kind, replyTo: Option<Id>)

  datatype Status = Queued | Submitted | Reported | Cancelled
  datatype ReportOutcome = Succeeded | Unsuccessful

  /** A dispatch with its rows of the other tables: its delivery failures, its messages in rowid order and for each
      message the row of its delivery. `acknowledged` remembers the `seen_seq` of the last report, `typed` which
      messages were written to a terminal. */
  datatype Dispatch = Dispatch(
    id: Id, worker: nat, protocol: bool, status: Status, revision: nat, outcome: Option<ReportOutcome>, accepted: Option<int>,
    failure: Option<nat>, log: seq<Message>, deliveries: seq<Q.Row>, acknowledged: nat, typed: seq<nat>
  )

  /** All dispatches in the order of their `sequence` column. */
  type Book = seq<Dispatch>

  predicate Open(d: Dispatch) { d.status == Queued || d.status == Submitted }

  // ---- Queries ----

  function LatestSeq(log: seq<Message>): nat {
    if log == [] then 0
    else
      var before, last := LatestSeq(log[..|log| - 1]), log[|log| - 1].sequence;
      if last > before then last else before
  }

  /** `required_seen_seq`: the highest number addressed to `actor`. */
  function RequiredSeen(log: seq<Message>, actor: Party): nat {
    if log == [] then 0
    else
      var before, last := RequiredSeen(log[..|log| - 1], actor), log[|log| - 1];
      if last.to == actor && last.sequence > before then last.sequence else before
  }

  predicate HasMessage(log: seq<Message>, id: Id) {
    exists k :: 0 <= k < |log| && log[k].id == id
  }

  function Position(log: seq<Message>, id: Id): (k: nat)
    requires HasMessage(log, id)
    ensures k < |log| && log[k].id == id
  {
    if log[|log| - 1].id == id then |log| - 1 else Position(log[..|log| - 1], id)
  }

  /** The first open dispatch of the worker, or the open one with this id. */
  function FindOpen(book: Book, worker: nat, id: Option<Id>): (k: Option<nat>)
    ensures k.Some? ==> k.value < |book| && Open(book[k.value]) && book[k.value].worker == worker
  {
    if book == [] then None
    else
      var before := FindOpen(book[..|book| - 1], worker, id);
      var d := book[|book| - 1];
      if before.Some? then before
      else if Open(d) && d.worker == worker && (id.None? || d.id == id.value) then Some(|book| - 1)
      else None
  }

  // ---- Operations on one dispatch ----

  /** An incoming message of this dispatch: from the recipient of the new message to its author. */
  predicate Answerable(d: Dispatch, actor: Party, kind: Kind, replyTo: Option<Id>) {
    && (replyTo.Some? ==>
          && HasMessage(d.log, replyTo.value)
          && var parent := d.log[Position(d.log, replyTo.value)];
          parent.from == Other(d, actor) && parent.to == actor && (kind == Answer ==> parent.kind == Question))
    && (kind == Answer ==> replyTo.Some?)
  }

  function Other(d: Dispatch, actor: Party): Party {
    if actor == Worker(d.worker) then Orchestrator else Worker(d.worker)
  }

  datatype Refusal = Forbidden | ProtocolRequired | DispatchClosed | BadReply

  /** `create`; the body checks are left out. */
  function CreateMessage(d: Dispatch, actor: Party, id: Id, kind: Kind, replyTo: Option<Id>): Result<Dispatch, Refusal> {
    if actor != Worker(d.worker) && actor != Orchestrator then Failure(Forbidden)
    else if !d.protocol then Failure(ProtocolRequired)
    else if !Open(d) then Failure(DispatchClosed)
    else if HasMessage(d.log, id) || !Answerable(d, actor, kind, replyTo) then Failure(BadReply)
    else
      Success(d.(log := d.log + [Message(id, LatestSeq(d.log) + 1, actor, Other(d, actor), kind, replyTo)],
                 deliveries := d.deliveries + [Q.Row(Mailbox(Other(d, actor)), Q.Pending, 0, false)]))
  }

  /** The recipient as a number. */
  function Mailbox(p: Party): nat { if p.Worker? then p.number + 1 else 0 }

  /** `assertReportSeen`. */
  predicate ReportSeen(d: Dispatch, seen: nat) {
    !d.protocol || RequiredSeen(d.log, Worker(d.worker)) <= seen <= LatestSeq(d.log)
  }

  /** `closePending`: it does not touch a delivery that is being attempted. */
  function ClosePending(rows: seq<Q.Row>): (r: seq<Q.Row>)
    ensures |r| == |rows| && forall k :: 0 <= k < |rows| ==> r[k] == Q.RowAfter(rows[k], Q.Close(k))
  {
    seq(|rows|, k requires 0 <= k < |rows| => Q.RowAfter(rows[k], Q.Close(k)))
  }

  function RecoverRows(rows: seq<Q.Row>): (r: seq<Q.Row>)
    ensures |r| == |rows| && forall k :: 0 <= k < |rows| ==> r[k] == Q.Recovered(rows[k])
  {
    seq(|rows|, k requires 0 <= k < |rows| => Q.Recovered(rows[k]))
  }

  /** A backup restored to a new directory leaves every unfinished delivery to a person. */
  function RestoreRows(rows: seq<Q.Row>): (r: seq<Q.Row>)
    ensures |r| == |rows| && forall k :: 0 <= k < |rows| ==> r[k] == Q.Restored(rows[k])
  {
    seq(|rows|, k requires 0 <= k < |rows| => Q.Restored(rows[k]))
  }

  function Report(d: Dispatch, seen: nat, outcome: Option<ReportOutcome>): Dispatch {
    d.(status := Reported, revision := d.revision + 1, outcome := outcome, accepted := None, failure := None,
       deliveries := ClosePending(d.deliveries), acknowledged := seen)
  }

  function Cancel(d: Dispatch): Dispatch { d.(status := Cancelled, failure := None, deliveries := ClosePending(d.deliveries)) }

  function Reopen(d: Dispatch): Dispatch {
    if d.status != Reported then d else d.(status := Submitted, outcome := None, accepted := None, failure := None)
  }

  function Accept(d: Dispatch, revision: nat, now: int): Dispatch {
    if d.status == Reported && d.revision == revision && (d.outcome.None? || d.outcome == Some(Succeeded))
    then d.(accepted := if d.accepted.Some? then d.accepted else Some(now))
    else d
  }

  /** The two calls without a status check of their own, made for open dispatches. */
  function MarkSubmitted(d: Dispatch): Dispatch { if Open(d) then d.(status := Submitted, failure := None) else d }

  function MarkFailed(d: Dispatch): Dispatch {
    if Open(d) then d.(failure := Some(if d.failure.Some? then d.failure.value + 1 else 1)) else d
  }

  /** A step of the delivery of message `k`: a transition of its row. A claim may also fail because another message
      of the recipient is busy. */
  datatype DeliveryStep =
    | Claim
    | SaveCheckpoint                       // durable, and sets `write_started`
    | CheckInput                           // in front of any input: refused with `dispatch_closed` on a closed dispatch
    | TypeInput                            // sets `write_started`, then makes the same check and writes
    | Arrived(native: bool)                // the input was accepted, or its receipt found
    | Fail(severity: Q.Severity)
    | Confirm
    | Settle(resend: bool)                 // by a person; a closed dispatch cannot be resent

  function Stepped(r: Q.Row, open: bool, step: DeliveryStep): Q.Row {
    match step
    case Claim => if r.state == Q.Pending then Q.RowAfter(r, Q.Claim(0)) else r
    case SaveCheckpoint => Q.RowAfter(r, Q.BeforeWrite(0))
    case CheckInput => if open then r else Q.RowAfter(r, Q.Fail(0, Q.Terminal))
    case TypeInput =>
      var started := Q.RowAfter(r, Q.BeforeWrite(0));
      if open then started else Q.RowAfter(started, Q.Fail(0, Q.Terminal))
    case Arrived(native) => Q.RowAfter(r, Q.Submitted(0, native))
    case Fail(severity) => Q.RowAfter(r, Q.Fail(0, severity))
    case Confirm => Q.RowAfter(r, Q.Confirm(0))
    case Settle(resend) => if resend && !open then r else Q.RowAfter(r, Q.Resolve(0, resend))
  }

  function OnDelivery(d: Dispatch, k: nat, step: DeliveryStep): Dispatch {
    if k >= |d.deliveries| then d
    else
      var writes := step.TypeInput? && Open(d) && d.deliveries[k].state == Q.Attempting;
      d.(deliveries := d.deliveries[k := Stepped(d.deliveries[k], Open(d), step)], typed := if writes then d.typed + [k] else d.typed)
  }

  datatype Operation =
    | Say(actor: Party, message: Id, kind: Kind, replyTo: Option<Id>)
    | CancelIt
    | ReopenIt
    | AcceptIt(revision: nat, now: int)
    | SubmitIt
    | FailIt
    | Deliver(k: nat, step: DeliveryStep)
    | RecoverIt
    | RestoreIt
    | ReportIt(seen: nat, outcome: Option<ReportOutcome>)

  function Apply(d: Dispatch, op: Operation): Dispatch {
    match op
    case Say(actor, message, kind, replyTo) =>
      var r := CreateMessage(d, actor, message, kind, replyTo); if r.Success? then r.value else d
    case CancelIt => if Open(d) then Cancel(d) else d
    case ReopenIt => Reopen(d)
    case AcceptIt(revision, now) => Accept(d, revision, now)
    case SubmitIt => MarkSubmitted(d)
    case FailIt => MarkFailed(d)
    case Deliver(k, step) => OnDelivery(d, k, step)
    case RecoverIt => d.(deliveries := RecoverRows(d.deliveries))
    case RestoreIt => d.(deliveries := RestoreRows(d.deliveries))
    case ReportIt(seen, outcome) => if Open(d) && ReportSeen(d, seen) then Report(d, seen, outcome) else d
  }

  // ---- The ledger ----

  datatype Action =
    | Create(id: Id, worker: nat, protocol: bool)
    | On(id: Id, op: Operation)
    | ReportByWorker(worker: nat, which: Option<Id>, seen: nat, outcome: Option<ReportOutcome>)
    | Delete(id: Id)
    | Restart
    | Restore

  function Fresh(id: Id, worker: nat, protocol: bool): Dispatch {
    Dispatch(id, worker, protocol, Queued, 0, None, None, None, [], [], 0, [])
  }

  function Each(book: Book, id: Id, op: Operation): (r: Book)
    ensures |r| == |book| && forall k :: 0 <= k < |book| ==> r[k] == if book[k].id == id then Apply(book[k], op) else book[k]
  {
    seq(|book|, k requires 0 <= k < |book| => if book[k].id == id then Apply(book[k], op) else book[k])
  }

  function Dropped(book: Book, id: Id): (r: Book)
    ensures forall d :: d in r ==> d in book
  {
    if book == [] then []
    else
      var rest := Dropped(book[..|book| - 1], id);
      if book[|book| - 1].id == id then rest else rest + [book[|book| - 1]]
  }

  predicate Taken(book: Book, id: Id) {
    exists k :: 0 <= k < |book| && book[k].id == id
  }

  function After(book: Book, a: Action): Book {
    match a
    case Create(id, worker, protocol) => if Taken(book, id) then book else book + [Fresh(id, worker, protocol)]
    case On(id, op) => Each(book, id, op)
    case ReportByWorker(worker, which, seen, outcome) =>
      var k := FindOpen(book, worker, which);
      if k.None? then book else book[k.value := Apply(book[k.value], ReportIt(seen, outcome))]
    case Delete(id) => Dropped(book, id)
    case Restart => seq(|book|, k requires 0 <= k < |book| => Apply(book[k], RecoverIt))
    case Restore => seq(|book|, k requires 0 <= k < |book| => Apply(book[k], RestoreIt))
  }

  function Run(actions: seq<Action>): Book {
    if actions == [] then [] else After(Run(actions[..|actions| - 1]), actions[|actions| - 1])
  }

  // ---- The invariant ----

  /** Messages are numbered 1..n without gaps. */
  predicate Numbered(log: seq<Message>) {
    forall k :: 0 <= k < |log| ==> log[k].sequence == k + 1
  }

  /** Message `k` goes between worker and orchestrator, and if it is a reply, it replies to an earlier message
      that the other party sent to its author; an answer replies to a question. */
  predicate Placed(d: Dispatch, k: nat)
    requires k < |d.log|
  {
    var m := d.log[k];
    && (m.from == Worker(d.worker) || m.from == Orchestrator) && m.to == Other(d, m.from)
    && (m.kind == Answer ==> m.replyTo.Some?)
    && (m.replyTo.Some? ==> exists j :: 0 <= j < k && Answers(m, d.log[j]))
  }

  predicate Answers(m: Message, parent: Message) {
    m.replyTo == Some(parent.id) && parent.from == m.to && parent.to == m.from && (m.kind == Answer ==> parent.kind == Question)
  }

  /** The acknowledged number covers every message addressed to the worker, and is a real one. */
  predicate Covered(d: Dispatch) {
    d.acknowledged <= |d.log| && forall k :: 0 <= k < |d.log| && d.log[k].to == Worker(d.worker) ==> d.log[k].sequence <= d.acknowledged
  }

  predicate DistinctIds(log: seq<Message>) {
    forall j, k :: 0 <= j < k < |log| ==> log[j].id != log[k].id
  }

  predicate LogOk(d: Dispatch) {
    Numbered(d.log) && DistinctIds(d.log) && (forall k :: 0 <= k < |d.log| ==> Placed(d, k)) && (!d.protocol ==> d.log == [])
  }

  predicate Ok(d: Dispatch) {
    && LogOk(d)
    && (d.protocol && d.status == Reported ==> Covered(d))
    && (d.accepted.Some? ==> d.status == Reported && d.outcome != Some(Unsuccessful))
    && (d.failure.Some? ==> Open(d))
    && Addressed(d)
  }

  /** Every message has its delivery, to its recipient. */
  predicate Addressed(d: Dispatch) {
    |d.deliveries| == |d.log| && forall k :: 0 <= k < |d.log| ==> d.deliveries[k].recipient == Mailbox(d.log[k].to)
  }

  lemma {:induction false} LatestIsLength(log: seq<Message>)
    requires Numbered(log)
    ensures LatestSeq(log) == |log|
  {
    if log != [] { LatestIsLength(log[..|log| - 1]); }
  }

  lemma {:induction false} RequiredCovers(log: seq<Message>, actor: Party)
    ensures forall k :: 0 <= k < |log| && log[k].to == actor ==> log[k].sequence <= RequiredSeen(log, actor)
    ensures RequiredSeen(log, actor) == 0 || exists k :: 0 <= k < |log| && log[k].to == actor && log[k].sequence == RequiredSeen(log, actor)
  {
    if log != [] {
      var rest := log[..|log| - 1];
      RequiredCovers(rest, actor);
      forall k | 0 <= k < |rest| ensures rest[k] == log[k] {}
      if RequiredSeen(rest, actor) != 0 {
        var k :| 0 <= k < |rest| && rest[k].to == actor && rest[k].sequence == RequiredSeen(rest, actor);
        assert log[k] == rest[k];
      }
    }
  }

  lemma SayKeeps(d: Dispatch, actor: Party, id: Id, kind: Kind, replyTo: Option<Id>)
    requires Ok(d)
    ensures Ok(Apply(d, Say(actor, id, kind, replyTo)))
  {
    var r := CreateMessage(d, actor, id, kind, replyTo);
    if r.Success? {
      LatestIsLength(d.log);
      var v, n := r.value, |d.log|;
      assert DistinctIds(v.log);
      forall k | 0 <= k < |v.log| ensures Placed(v, k) {
        if k < n {
          assert Placed(d, k);
          if d.log[k].replyTo.Some? {
            var j :| 0 <= j < k && Answers(d.log[k], d.log[j]);
            assert Answers(v.log[k], v.log[j]);
          }
        } else if replyTo.Some? {
          var j := Position(d.log, replyTo.value);
          assert Answers(v.log[k], v.log[j]);
        }
      }
    }
  }

  lemma SameLogKeeps(d: Dispatch, v: Dispatch)
    requires LogOk(d) && v.log == d.log && v.worker == d.worker && v.protocol == d.protocol
    ensures LogOk(v) && (v.acknowledged == d.acknowledged && Covered(d) ==> Covered(v))
  {
    forall k | 0 <= k < |v.log| ensures Placed(v, k) { assert Placed(d, k); }
  }

  lemma SteppedKeepsRecipient(r: Q.Row, open: bool, step: DeliveryStep)
    ensures Stepped(r, open, step).recipient == r.recipient
  {}

  lemma DeliveryKeeps(d: Dispatch, op: Operation)
    requires Ok(d) && (op.Deliver? || op.RecoverIt? || op.RestoreIt?)
    ensures Ok(Apply(d, op)) && Apply(d, op).id == d.id && Apply(d, op).worker == d.worker
  {
    hide LogOk, Covered, Stepped;
    SameLogKeeps(d, Apply(d, op));
    if op.Deliver? && op.k < |d.deliveries| { SteppedKeepsRecipient(d.deliveries[op.k], Open(d), op.step); }
  }

  lemma ApplyKeeps(d: Dispatch, op: Operation)
    requires Ok(d)
    ensures Ok(Apply(d, op)) && Apply(d, op).id == d.id && Apply(d, op).worker == d.worker
  {
    if op.Say? {
      SayKeeps(d, op.actor, op.message, op.kind, op.replyTo);
    } else if op.Deliver? || op.RecoverIt? || op.RestoreIt? {
      DeliveryKeeps(d, op);
    } else if op.ReportIt? && d.protocol {
      ReportKeeps(d, op.seen, op.outcome);
    } else {
      hide LogOk, Covered, ReportSeen, OnDelivery, RecoverRows, RestoreRows, CreateMessage;
      SameLogKeeps(d, Apply(d, op));
    }
  }

  lemma ReportKeeps(d: Dispatch, seen: nat, outcome: Option<ReportOutcome>)
    requires Ok(d)
    ensures Ok(Apply(d, ReportIt(seen, outcome)))
  {
    var v := Apply(d, ReportIt(seen, outcome));
    SameLogKeeps(d, v);
    LatestIsLength(d.log);
    RequiredCovers(d.log, Worker(d.worker));
  }

  predicate AllOk(book: Book) {
    forall k :: 0 <= k < |book| ==> Ok(book[k])
  }

  lemma AfterKeeps(book: Book, a: Action)
    requires AllOk(book)
    ensures AllOk(After(book, a))
  {
    match a
    case Create(_, _, _) =>
    case On(id, op) =>
      forall k | 0 <= k < |book| ensures Ok(After(book, a)[k]) { ApplyKeeps(book[k], op); }
    case ReportByWorker(worker, which, seen, outcome) =>
      var k := FindOpen(book, worker, which);
      if k.Some? { ApplyKeeps(book[k.value], ReportIt(seen, outcome)); }
    case Delete(id) =>
      forall k | 0 <= k < |Dropped(book, id)| ensures Ok(Dropped(book, id)[k]) { assert Dropped(book, id)[k] in book; }
    case Restart =>
      forall k | 0 <= k < |book| ensures Ok(After(book, a)[k]) { ApplyKeeps(book[k], RecoverIt); }
    case Restore =>
      forall k | 0 <= k < |book| ensures Ok(After(book, a)[k]) { ApplyKeeps(book[k], RestoreIt); }
  }

  lemma {:induction false} RunKeeps(actions: seq<Action>)
    ensures AllOk(Run(actions))
  {
    if actions != [] {
      RunKeeps(actions[..|actions| - 1]);
      AfterKeeps(Run(actions[..|actions| - 1]), actions[|actions| - 1]);
    }
  }

  // ---- Whole-run theorems ----

  /** In every reachable state the messages of a dispatch are numbered 1..n without gaps, and every reply is to
      an earlier message from the other party; an answer is to a question. */
  lemma {:induction false} MessagesWellFormed(actions: seq<Action>, i: nat, k: nat)
    requires i < |Run(actions)| && k < |Run(actions)[i].log|
    ensures Run(actions)[i].log[k].sequence == k + 1 && Placed(Run(actions)[i], k)
  {
    RunKeeps(actions);
    assert Ok(Run(actions)[i]);
  }

  /** While a dispatch with the message protocol is `reported`, the number the worker acknowledged covers every
      message addressed to it. */
  lemma {:induction false} ReportedMeansRead(actions: seq<Action>, i: nat)
    requires i < |Run(actions)|
    ensures var d := Run(actions)[i]; d.protocol && d.status == Reported ==> Covered(d)
  {
    RunKeeps(actions);
    assert Ok(Run(actions)[i]);
  }

  /** In every reachable state each message has one delivery, to its recipient. */
  lemma {:induction false} DeliveriesMatchMessages(actions: seq<Action>, i: nat)
    requires i < |Run(actions)|
    ensures Addressed(Run(actions)[i])
  {
    RunKeeps(actions);
    assert Ok(Run(actions)[i]);
  }

  /** A delivery failure belongs to an open dispatch, so `failed` never hides a report; an acceptance belongs to
      a report that stands and did not fail. */
  lemma {:induction false} FailedMeansOpen(actions: seq<Action>, i: nat)
    requires i < |Run(actions)|
    ensures var d := Run(actions)[i];
      (d.failure.Some? ==> Open(d)) && (d.accepted.Some? ==> d.status == Reported && d.outcome != Some(Unsuccessful))
  {
    RunKeeps(actions);
    assert Ok(Run(actions)[i]);
  }

  /** A report goes through exactly when the worker has an open dispatch and `seen_seq` lies between the last
      message addressed to it and the last message of the dispatch; for a dispatch without the protocol, always. */
  lemma {:induction false} ReportSeenIff(actions: seq<Action>, i: nat, seen: nat)
    requires i < |Run(actions)|
    ensures var d := Run(actions)[i];
      ReportSeen(d, seen) <==>
        || !d.protocol
        || (seen <= |d.log| && forall k :: 0 <= k < |d.log| && d.log[k].to == Worker(d.worker) ==> k + 1 <= seen)
  {
    RunKeeps(actions);
    var d := Run(actions)[i];
    assert Ok(d);
    LatestIsLength(d.log);
    RequiredCovers(d.log, Worker(d.worker));
  }

  // ---- Deliveries behind a close ----

  function ApplyAll(d: Dispatch, ops: seq<Operation>): Dispatch {
    if ops == [] then d else Apply(ApplyAll(d, ops[..|ops| - 1]), ops[|ops| - 1])
  }

  predicate Closes(d: Dispatch, op: Operation) { Open(d) && !Open(Apply(d, op)) }

  /** Nobody reopens the dispatch meanwhile. */
  predicate StaysClosed(d: Dispatch, ops: seq<Operation>) {
    !Open(ApplyAll(d, ops)) && (ops != [] ==> StaysClosed(d, ops[..|ops| - 1]))
  }

  function RowOf(d: Dispatch, k: nat): Q.Row {
    if k < |d.deliveries| then d.deliveries[k] else Q.Row(0, Q.Resolved, 0, false)
  }

  /** The attempt under way ends before its first write, in an error that is tried again or with the process. */
  predicate GivesBack(r: Q.Row, op: Operation, k: nat) {
    && r.state == Q.Attempting && !r.writeStarted
    && (op == RecoverIt || (op == Deliver(k, Fail(Q.Retryable)) && r.attempt < Q.MAX_ATTEMPTS))
  }

  /** It is claimed, confirmed, settled by a person, or left to one by the restore of a backup. */
  predicate TakesUp(op: Operation, k: nat) {
    op == RestoreIt || op == Deliver(k, Claim) || op == Deliver(k, Confirm) || op == Deliver(k, Settle(false))
  }

  predicate Unwritten(r: Q.Row) { (r.state == Q.Pending || r.state == Q.Attempting) && !r.writeStarted }

  lemma RowBehindClose(r: Q.Row, step: DeliveryStep, k: nat)
    ensures var v := Stepped(r, false, step);
            && (v.state == Q.Pending <==> GivesBack(r, Deliver(k, step), k) || (r.state == Q.Pending && !TakesUp(Deliver(k, step), k)))
            && (Unwritten(v) ==> Unwritten(r)) && ((r.state == Q.Pending ==> !r.writeStarted) && v.state == Q.Pending ==> !v.writeStarted)
  {}

  lemma StepBehindClose(d: Dispatch, op: Operation, k: nat)
    requires !Open(d) && !Open(Apply(d, op)) && k < |d.deliveries|
    ensures |Apply(d, op).deliveries| == |d.deliveries| && Apply(d, op).typed == d.typed
    ensures var r, v := RowOf(d, k), RowOf(Apply(d, op), k);
            && (v.state == Q.Pending <==> GivesBack(r, op, k) || (r.state == Q.Pending && !TakesUp(op, k)))
            && (Unwritten(v) ==> Unwritten(r)) && ((r.state == Q.Pending ==> !r.writeStarted) && v.state == Q.Pending ==> !v.writeStarted)
  {
    hide Stepped;
    if op.Deliver? && op.k == k { RowBehindClose(d.deliveries[k], op.step, k); }
  }

  /** Behind the close the delivery was given back, and has been left alone since. */
  ghost predicate GivenBack(d: Dispatch, ops: seq<Operation>, k: nat) {
    exists i :: 0 <= i < |ops| && GivesBack(RowOf(ApplyAll(d, ops[..i]), k), ops[i], k) && LeftAlone(ops, i + 1, k)
  }

  predicate LeftAlone(ops: seq<Operation>, from: nat, k: nat) {
    forall j :: from <= j < |ops| ==> !TakesUp(ops[j], k)
  }

  lemma GivenBackNext(d: Dispatch, ops: seq<Operation>, k: nat)
    requires ops != []
    ensures var front, last := ops[..|ops| - 1], ops[|ops| - 1];
            GivenBack(d, ops, k) <==> GivesBack(RowOf(ApplyAll(d, front), k), last, k) || (GivenBack(d, front, k) && !TakesUp(last, k))
  {
    hide ApplyAll, GivesBack, TakesUp, RowOf;
    var n := |ops| - 1;
    var front := ops[..n];
    assert forall i :: 0 <= i <= n ==> front[..i] == ops[..i];
    if GivenBack(d, ops, k) {
      var i :| 0 <= i < |ops| && GivesBack(RowOf(ApplyAll(d, ops[..i]), k), ops[i], k) && LeftAlone(ops, i + 1, k);
      if i < n { assert GivesBack(RowOf(ApplyAll(d, front[..i]), k), front[i], k) && LeftAlone(front, i + 1, k); }
    }
    if GivesBack(RowOf(ApplyAll(d, front), k), ops[n], k) {
      assert LeftAlone(ops, n + 1, k);
    }
    if GivenBack(d, front, k) && !TakesUp(ops[n], k) {
      var i :| 0 <= i < |front| && GivesBack(RowOf(ApplyAll(d, front[..i]), k), front[i], k) && LeftAlone(front, i + 1, k);
      assert LeftAlone(ops, i + 1, k);
    }
  }

  lemma {:induction false} RunBehindClose(d: Dispatch, ops: seq<Operation>, k: nat)
    requires StaysClosed(d, ops) && k < |d.deliveries| && d.deliveries[k].state != Q.Pending
    ensures var v := ApplyAll(d, ops);
            && |v.deliveries| == |d.deliveries| && v.typed == d.typed
            && (RowOf(v, k).state == Q.Pending <==> GivenBack(d, ops, k)) && (RowOf(v, k).state == Q.Pending ==> !RowOf(v, k).writeStarted)
            && (Unwritten(RowOf(v, k)) ==> Unwritten(RowOf(d, k)))
  {
    hide Apply, Open, Unwritten, GivesBack, TakesUp, GivenBack;
    if ops == [] {
      NothingGivenBack(d, k);
    } else {
      var front := ops[..|ops| - 1];
      RunBehindClose(d, front, k);
      assert !Open(ApplyAll(d, front));
      StepBehindClose(ApplyAll(d, front), ops[|ops| - 1], k);
      GivenBackNext(d, ops, k);
    }
  }

  lemma NothingGivenBack(d: Dispatch, k: nat)
    ensures !GivenBack(d, [], k)
  {}

  /** A close resolves what is pending and leaves what is being attempted. */
  lemma CloseRows(d: Dispatch, op: Operation, k: nat)
    requires Closes(d, op) && k < |d.deliveries|
    ensures var v := Apply(d, op);
            && |v.deliveries| == |d.deliveries| && v.typed == d.typed && RowOf(v, k).state != Q.Pending
            && (Unwritten(RowOf(v, k)) <==> d.deliveries[k].state == Q.Attempting && !d.deliveries[k].writeStarted)
  {}

  /** While a dispatch stays closed, the delivery of a message is pending if and only if its attempt was given back
      since the close and nobody has taken it up again; it must have been under way and unwritten at the close. And
      no message is typed. */
  lemma {:induction false} PendingBehindClose(d: Dispatch, op: Operation, ops: seq<Operation>, k: nat)
    requires Closes(d, op) && StaysClosed(Apply(d, op), ops) && k < |d.deliveries|
    ensures var v := ApplyAll(Apply(d, op), ops);
            && v.typed == d.typed
            && (RowOf(v, k).state == Q.Pending <==> GivenBack(Apply(d, op), ops, k))
            && (RowOf(v, k).state == Q.Pending ==> d.deliveries[k].state == Q.Attempting && !d.deliveries[k].writeStarted)
  {
    hide Apply, ApplyAll, StaysClosed, Closes, GivenBack;
    CloseRows(d, op, k);
    RunBehindClose(Apply(d, op), ops, k);
  }

  /** Some course of events in which the dispatch stays closed makes the delivery pending. */
  ghost predicate MayBePending(d: Dispatch, k: nat) {
    exists ops :: StaysClosed(d, ops) && RowOf(ApplyAll(d, ops), k).state == Q.Pending
  }

  lemma RestartGivesBack(d: Dispatch, k: nat)
    requires !Open(d) && k < |d.deliveries| && Unwritten(d.deliveries[k])
    ensures MayBePending(d, k)
  {
    var ops := [RecoverIt];
    assert ops[..0] == [] && StaysClosed(d, []);
    assert ApplyAll(d, ops) == Apply(d, RecoverIt);
    assert StaysClosed(d, ops) && RowOf(ApplyAll(d, ops), k).state == Q.Pending;
  }

  /** So at the close it can be told which deliveries may ever be pending for the closed dispatch: exactly those under
      way without a write. */
  lemma MayBePendingBehindClose(d: Dispatch, op: Operation, k: nat)
    requires Closes(d, op) && k < |d.deliveries|
    ensures MayBePending(Apply(d, op), k) <==> d.deliveries[k].state == Q.Attempting && !d.deliveries[k].writeStarted
  {
    hide Apply, ApplyAll, StaysClosed;
    CloseRows(d, op, k);
    if MayBePending(Apply(d, op), k) {
      var ops :| StaysClosed(Apply(d, op), ops) && RowOf(ApplyAll(Apply(d, op), ops), k).state == Q.Pending;
      PendingBehindClose(d, op, ops, k);
    }
    if d.deliveries[k].state == Q.Attempting && !d.deliveries[k].writeStarted { RestartGivesBack(Apply(d, op), k); }
  }

  /** The next input of such an attempt is refused: it is resolved, unless a checkpoint or the write itself was
      announced first. Then it is uncertain although nothing was typed. */
  lemma ClosedInputIsRefused(d: Dispatch, k: nat)
    requires !Open(d) && k < |d.deliveries| && d.deliveries[k].state == Q.Attempting
    ensures var checked, typed := Apply(d, Deliver(k, CheckInput)), Apply(d, Deliver(k, TypeInput));
            && checked.deliveries[k].state == (if d.deliveries[k].writeStarted then Q.Unknown else Q.Resolved)
            && typed.deliveries[k].state == Q.Unknown && checked.typed == typed.typed == d.typed
  {}

  /** A dispatch with one message to the worker, whose delivery is under way. */
  function UnderWay(): Dispatch {
    var asked := Apply(Fresh(1, 7, true), Say(Orchestrator, 100, Note, None));
    Apply(asked, Deliver(0, Claim))
  }

  lemma UnderWayIs()
    ensures UnderWay() == Fresh(1, 7, true).(log := [Message(100, 1, Orchestrator, Worker(7), Note, None)],
                                             deliveries := [Q.Row(8, Q.Attempting, 1, false)])
  {}

  lemma ReportedUnderWay()
    ensures var d := UnderWay();
            Apply(d, ReportIt(1, None)) == d.(status := Reported, revision := 1, acknowledged := 1)
  {
    UnderWayIs();
    var d := UnderWay();
    assert RequiredSeen(d.log, Worker(7)) == LatestSeq(d.log) == 1 by { assert d.log[..0] == []; }
    assert ClosePending(d.deliveries) == d.deliveries;
  }

  lemma RunNext(actions: seq<Action>, a: Action)
    ensures Run(actions + [a]) == After(Run(actions), a)
  {
    assert (actions + [a])[..|actions|] == actions;
  }

  lemma OneDispatch(d: Dispatch, op: Operation)
    ensures After([d], On(d.id, op)) == [Apply(d, op)]
  {}

  /** The run up to this dispatch. */
  const UNDER_WAY: seq<Action> :=
    [Create(1, 7, true)] + [On(1, Say(Orchestrator, 100, Note, None))] + [On(1, Deliver(0, Claim))]

  lemma RunUnderWay()
    ensures Run(UNDER_WAY) == [UnderWay()] && UnderWay().id == 1
  {
    hide Apply;
    UnderWayIs();
    assert Run([]) == [] && [] + [Create(1, 7, true)] == [Create(1, 7, true)];
    RunNext([], Create(1, 7, true));
    RunNext([Create(1, 7, true)], On(1, Say(Orchestrator, 100, Note, None)));
    OneDispatch(Fresh(1, 7, true), Say(Orchestrator, 100, Note, None));
    RunNext([Create(1, 7, true)] + [On(1, Say(Orchestrator, 100, Note, None))], On(1, Deliver(0, Claim)));
    SayKeepsId(Fresh(1, 7, true), Orchestrator, 100);
    OneDispatch(Apply(Fresh(1, 7, true), Say(Orchestrator, 100, Note, None)), Deliver(0, Claim));
  }

  lemma SayKeepsId(d: Dispatch, actor: Party, id: Id)
    ensures Apply(d, Say(actor, id, Note, None)).id == d.id
  {}

  /** A run: the worker reports while the delivery waits for the composer, and the wait times out. */
  lemma PendingBehindReportExample()
    ensures var run := UNDER_WAY + [ReportByWorker(7, None, 1, None)] + [On(1, Deliver(0, Fail(Q.Retryable)))];
            |Run(run)| == 1 && Run(run)[0].status == Reported && Run(run)[0].deliveries == [Q.Row(8, Q.Pending, 1, false)]
  {
    ReportedRun();
    var reported := Apply(UnderWay(), ReportIt(1, None));
    RunNext(UNDER_WAY + [ReportByWorker(7, None, 1, None)], On(1, Deliver(0, Fail(Q.Retryable))));
    hide UnderWay, Report, Run, Apply, After;
    OneDispatch(reported, Deliver(0, Fail(Q.Retryable)));
    FailedBehindReport(reported);
  }

  lemma FailedBehindReport(d: Dispatch)
    requires d.status == Reported && d.deliveries == [Q.Row(8, Q.Attempting, 1, false)]
    ensures var v := Apply(d, Deliver(0, Fail(Q.Retryable)));
            v.status == Reported && v.deliveries == [Q.Row(8, Q.Pending, 1, false)]
  {}

  lemma ReportedRun()
    ensures var reported := Apply(UnderWay(), ReportIt(1, None));
            && Run(UNDER_WAY + [ReportByWorker(7, None, 1, None)]) == [reported] && reported.id == 1
            && reported.status == Reported && reported.typed == [] && reported.deliveries == [Q.Row(8, Q.Attempting, 1, false)]
  {
    hide Apply, UnderWay, Run;
    RunUnderWay();
    UnderWayIs();
    ReportedUnderWay();
    RunNext(UNDER_WAY, ReportByWorker(7, None, 1, None));
    var d := UnderWay();
    assert FindOpen([d], 7, None) == Some(0) by { assert [d][..0] == []; }
    assert [d][0 := Apply(d, ReportIt(1, None))] == [Apply(d, ReportIt(1, None))];
  }

  /** A run: the worker reports in front of the checkpoint of the paste. The refused paste leaves the message uncertain,
      and its recipient waiting for a person, although nothing was ever typed. */
  lemma UnknownThoughNeverTypedExample()
    ensures var run := UNDER_WAY + [ReportByWorker(7, None, 1, None)] + [On(1, Deliver(0, SaveCheckpoint))] + [On(1, Deliver(0, TypeInput))];
            |Run(run)| == 1 && Run(run)[0].status == Reported && Run(run)[0].typed == []
            && Run(run)[0].deliveries == [Q.Row(8, Q.Unknown, 1, true)]
  {
    ReportedRun();
    var reported := Apply(UnderWay(), ReportIt(1, None));
    var before := UNDER_WAY + [ReportByWorker(7, None, 1, None)];
    RunNext(before, On(1, Deliver(0, SaveCheckpoint)));
    RunNext(before + [On(1, Deliver(0, SaveCheckpoint))], On(1, Deliver(0, TypeInput)));
    hide UnderWay, Report, Run;
    OneDispatch(reported, Deliver(0, SaveCheckpoint));
    OneDispatch(Apply(reported, Deliver(0, SaveCheckpoint)), Deliver(0, TypeInput));
  }

  // ---- What the operations mean ----

  /** The dispatch a report may be for: an open one of this worker, and the one with this id if an id is given. */
  predicate Asked(d: Dispatch, worker: nat, which: Option<Id>) {
    d.worker == worker && (d.status == Queued || d.status == Submitted) && (which.Some? ==> d.id == which.value)
  }

  predicate FirstAsked(book: Book, k: nat, worker: nat, which: Option<Id>) {
    k < |book| && Asked(book[k], worker, which) && forall j :: 0 <= j < k ==> !Asked(book[j], worker, which)
  }

  lemma {:induction false} FindOpenIsFirst(book: Book, worker: nat, which: Option<Id>)
    ensures var k := FindOpen(book, worker, which);
            if k.Some? then FirstAsked(book, k.value, worker, which) else forall j :: 0 <= j < |book| ==> !Asked(book[j], worker, which)
  {
    if book != [] {
      var front := book[..|book| - 1];
      FindOpenIsFirst(front, worker, which);
      assert forall j :: 0 <= j < |front| ==> front[j] == book[j];
    }
  }

  /** A message that this one may reply to. */
  predicate MayAnswer(d: Dispatch, parent: Message, actor: Party, kind: Kind, replyTo: Id) {
    parent.id == replyTo && parent.to == actor && parent.from != actor && (parent.from == Orchestrator || parent.from == Worker(d.worker))
    && (kind == Answer ==> parent.kind == Question)
  }

  /** When a message is accepted, and what is added for it. */
  lemma SayIff(d: Dispatch, actor: Party, id: Id, kind: Kind, replyTo: Option<Id>)
    requires LogOk(d)
    ensures var r := CreateMessage(d, actor, id, kind, replyTo);
            var other := if actor == Orchestrator then Worker(d.worker) else Orchestrator;
            && (r.Success? <==>
                  && (actor == Worker(d.worker) || actor == Orchestrator) && d.protocol && (d.status == Queued || d.status == Submitted)
                  && (forall k :: 0 <= k < |d.log| ==> d.log[k].id != id) && (kind == Answer ==> replyTo.Some?)
                  && (replyTo.Some? ==> exists k :: 0 <= k < |d.log| && MayAnswer(d, d.log[k], actor, kind, replyTo.value)))
            && (r.Success? ==> r.value == d.(log := d.log + [Message(id, |d.log| + 1, actor, other, kind, replyTo)],
                                             deliveries := d.deliveries + [Q.Row(if other.Worker? then other.number + 1 else 0, Q.Pending, 0, false)]))
  {
    LatestIsLength(d.log);
    if replyTo.Some? && HasMessage(d.log, replyTo.value) {
      var k := Position(d.log, replyTo.value);
      assert Placed(d, k);
      assert forall j :: 0 <= j < |d.log| && d.log[j].id == replyTo.value ==> j == k;
    }
  }

  /** No delivery is left pending, and nothing else about the deliveries changes. */
  predicate PendingResolved(before: seq<Q.Row>, after: seq<Q.Row>) {
    |after| == |before| && forall k :: 0 <= k < |before| ==>
      after[k] == if before[k].state == Q.Pending then before[k].(state := Q.Resolved) else before[k]
  }

  /** Exactly this about a dispatch changes with a report. */
  predicate IsReported(d: Dispatch, v: Dispatch, seen: nat, outcome: Option<ReportOutcome>) {
    && PendingResolved(d.deliveries, v.deliveries)
    && v == Dispatch(d.id, d.worker, d.protocol, Reported, d.revision + 1, outcome, None, None, d.log, v.deliveries, seen, d.typed)
  }

  /** Of all rows only `k` has changed. */
  predicate OnlyRow(before: Book, after: Book, k: nat) {
    |after| == |before| && forall j :: 0 <= j < |before| && j != k ==> after[j] == before[j]
  }

  /** Exactly this about a dispatch changes when it is cancelled, or reopened. */
  predicate IsCancelled(d: Dispatch, v: Dispatch) {
    PendingResolved(d.deliveries, v.deliveries) && v == d.(status := Cancelled, failure := None, deliveries := v.deliveries)
  }

  predicate IsReopened(d: Dispatch, v: Dispatch) { v == d.(status := Submitted, outcome := None, accepted := None, failure := None) }

  /** The calls on one dispatch that have a condition, each with its condition and its whole effect. An acceptance keeps
      its first time. */
  lemma ConditionalCalls(d: Dispatch, revision: nat, now: int)
    ensures var v := Apply(d, CancelIt); if d.status == Queued || d.status == Submitted then IsCancelled(d, v) else v == d
    ensures var v := Apply(d, ReopenIt); if d.status == Reported then IsReopened(d, v) else v == d
    ensures var v := Apply(d, AcceptIt(revision, now));
            if d.status == Reported && d.revision == revision && d.outcome != Some(Unsuccessful)
            then v == d.(accepted := if d.accepted.Some? then d.accepted else Some(now)) else v == d
    ensures var v := Apply(d, SubmitIt); if d.status == Queued || d.status == Submitted then v == d.(status := Submitted, failure := None) else v == d
    ensures var v := Apply(d, FailIt);
            if d.status == Queued || d.status == Submitted
            then v == d.(failure := Some(if d.failure.Some? then d.failure.value + 1 else 1)) else v == d
  {
    assert d.outcome.None? || d.outcome.value == Succeeded || d.outcome.value == Unsuccessful;
  }

  /** A person may send a message again if and only if its dispatch is open and its delivery uncertain or left to a person;
      without sending it again it may be settled for a closed dispatch as well. */
  lemma SettledIff(d: Dispatch, k: nat)
    requires k < |d.deliveries| && d.deliveries[k].state != Q.Pending && d.deliveries[k].state != Q.Resolved
    ensures var uncertain := d.deliveries[k].state == Q.Unknown || d.deliveries[k].state == Q.Manual;
      && (Apply(d, Deliver(k, Settle(true))).deliveries[k].state == Q.Pending <==> uncertain && (d.status == Queued || d.status == Submitted))
      && (Apply(d, Deliver(k, Settle(false))).deliveries[k].state == Q.Resolved <==> uncertain)
  {}

  /** Only the dispatch with this id is deleted. */
  lemma {:induction false} DroppedIs(book: Book, id: Id)
    ensures forall d :: d in Dropped(book, id) <==> d in book && d.id != id
  {
    if book != [] {
      DroppedIs(book[..|book| - 1], id);
      assert book == book[..|book| - 1] + [book[|book| - 1]];
    }
  }

  /** Which dispatch a report closes: with an id the worker's open dispatch of that id, without one its first open one. */
  lemma ReportedIsTheOneAsked(book: Book, worker: nat, which: Option<Id>, seen: nat, outcome: Option<ReportOutcome>, k: nat)
    requires FirstAsked(book, k, worker, which)
    ensures var v := After(book, ReportByWorker(worker, which, seen, outcome));
            && OnlyRow(book, v, k)
            && if ReportSeen(book[k], seen) then IsReported(book[k], v[k], seen, outcome) else v[k] == book[k]
  {
    FindOpenIsFirst(book, worker, which);
  }

  // ---- Counting ----

  function OpenCount(book: Book, worker: nat): nat {
    if book == [] then 0
    else OpenCount(book[..|book| - 1], worker) + (if book[|book| - 1].worker == worker && Open(book[|book| - 1]) then 1 else 0)
  }

  function OpenRows(book: Book, worker: nat): set<nat> {
    set k: nat | k < |book| && book[k].worker == worker && (book[k].status == Queued || book[k].status == Submitted)
  }

  /** The count is that of the worker's open dispatches. */
  lemma {:induction false} OpenCountIs(book: Book, worker: nat)
    ensures OpenCount(book, worker) == |OpenRows(book, worker)|
  {
    if book != [] {
      var front, n := book[..|book| - 1], |book| - 1;
      OpenCountIs(front, worker);
      assert OpenRows(book, worker) == OpenRows(front, worker) + if book[n].worker == worker && Open(book[n]) then {n} else {};
    }
  }

  /** `countPendingByWorker`: the rows it counts are open or failed, which is to say open. */
  method CountPendingByWorker(book: Book) returns (counts: map<nat, nat>)
    requires AllOk(book)
    ensures forall w :: OpenCount(book, w) == if w in counts then counts[w] else 0
    ensures forall w :: w in counts ==> counts[w] > 0
  {
    counts := map[];
    var i := 0;
    while i < |book|
      invariant 0 <= i <= |book|
      invariant forall w :: OpenCount(book[..i], w) == if w in counts then counts[w] else 0
      invariant forall w :: w in counts ==> counts[w] > 0
    {
      var d := book[i];
      assert book[..i + 1][..i] == book[..i];
      assert Ok(d);
      if Open(d) || d.failure.Some? {
        counts := counts[d.worker := (if d.worker in counts then counts[d.worker] else 0) + 1];
      }
      i := i + 1;
    }
    assert book[..i] == book;
  }

  // ---- The code ----

  datatype ReportResult = NoOpenDispatch | NotSeen | Done(id: Id, revision: nat)

  class Ledger {
    var book: Book

    constructor ()
      ensures book == Run([])
    {
      book := [];
    }

    method CreateDispatch(id: Id, worker: nat, protocol: bool)
      modifies this
      ensures book == After(old(book), Create(id, worker, protocol))
    {
      if Taken(book, id) { return; }
      book := book + [Fresh(id, worker, protocol)];
    }

    /** `create` of the message store, for the dispatch in row `k`. */
    method CreateDispatchMessage(k: nat, actor: Party, id: Id, kind: Kind, replyTo: Option<Id>) returns (sequence: Result<nat, Refusal>)
      requires k < |book|
      modifies this
      ensures book == old(book)[k := Apply(old(book)[k], Say(actor, id, kind, replyTo))]
      ensures sequence == var r := CreateMessage(old(book)[k], actor, id, kind, replyTo);
        if r.Success? then Result.Success(LatestSeq(old(book)[k].log) + 1) else Result.Failure(r.error)
    {
      var d := book[k];
      if actor != Worker(d.worker) && actor != Orchestrator { return Failure(Forbidden); }
      if !d.protocol { return Failure(ProtocolRequired); }
      if d.status == Reported || d.status == Cancelled { return Failure(DispatchClosed); }
      var recipient := if actor == Worker(d.worker) then Orchestrator else Worker(d.worker);
      if HasMessage(d.log, id) { return Failure(BadReply); }
      if replyTo.Some? {
        if !HasMessage(d.log, replyTo.value) { return Failure(BadReply); }
        var parent := d.log[Position(d.log, replyTo.value)];
        if parent.from != recipient || parent.to != actor { return Failure(BadReply); }
        if kind == Answer && parent.kind != Question { return Failure(BadReply); }
      } else if kind == Answer {
        return Failure(BadReply);
      }
      var next := LatestSeq(d.log) + 1;
      book := book[k := d.(log := d.log + [Message(id, next, actor, recipient, kind, replyTo)])];
      book := book[k := book[k].(deliveries := book[k].deliveries + [Q.Row(Mailbox(recipient), Q.Pending, 0, false)])];
      return Success(next);
    }

    method DeleteFailure(k: nat)
      requires k < |book|
      modifies this
      ensures book == old(book)[k := old(book)[k].(failure := None)]
    {
      book := book[k := book[k].(failure := None)];
    }

    method CloseDeliveries(k: nat)
      requires k < |book|
      modifies this
      ensures book == old(book)[k := old(book)[k].(deliveries := ClosePending(old(book)[k].deliveries))]
    {
      var rows := book[k].deliveries;
      var i := 0;
      while i < |rows|
        invariant 0 <= i <= |rows| == |book[k].deliveries| && book == old(book)
        invariant forall j :: 0 <= j < |rows| ==>
                    rows[j] == if j < i then Q.RowAfter(book[k].deliveries[j], Q.Close(j)) else book[k].deliveries[j]
      {
        if rows[i].state == Q.Pending { rows := rows[i := rows[i].(state := Q.Resolved)]; }
        i := i + 1;
      }
      assert rows == ClosePending(book[k].deliveries);
      book := book[k := book[k].(deliveries := rows)];
    }

    method MarkReportedByWorker(worker: nat, which: Option<Id>, seen: nat, outcome: Option<ReportOutcome>) returns (r: ReportResult)
      modifies this
      ensures book == After(old(book), ReportByWorker(worker, which, seen, outcome))
      ensures r.NoOpenDispatch? <==> forall k :: 0 <= k < |old(book)| ==> !Asked(old(book)[k], worker, which)
      ensures forall k: nat :: FirstAsked(old(book), k, worker, which) ==>
                && (r.Done? <==> ReportSeen(old(book)[k], seen)) && (r.NotSeen? <==> !ReportSeen(old(book)[k], seen)) && OnlyRow(old(book), book, k)
                && if r.Done? then IsReported(old(book)[k], book[k], seen, outcome) && r.id == book[k].id && r.revision == book[k].revision
                   else book[k] == old(book)[k]
      ensures !r.Done? ==> book == old(book)
    {
      FindOpenIsFirst(book, worker, which);
      ghost var was := book;
      var found := FindOpen(book, worker, which);
      if found.None? { return NoOpenDispatch; }
      var k := found.value;
      ReportedIsTheOneAsked(was, worker, which, seen, outcome, k);
      assert forall j: nat :: FirstAsked(was, j, worker, which) ==> j == k;
      if book[k].protocol {
        if seen > LatestSeq(book[k].log) || seen < RequiredSeen(book[k].log, Worker(book[k].worker)) { return NotSeen; }
      }
      book := book[k := book[k].(status := Reported, revision := book[k].revision + 1, outcome := outcome, accepted := None, acknowledged := seen)];
      DeleteFailure(k);
      CloseDeliveries(k);
      return Done(book[k].id, book[k].revision);
    }

    method MarkCancelled(k: nat) returns (ok: bool)
      requires k < |book|
      modifies this
      ensures ok == Open(old(book)[k]) && book == old(book)[k := Apply(old(book)[k], CancelIt)]
    {
      if !Open(book[k]) { return false; }
      book := book[k := book[k].(status := Cancelled)];
      DeleteFailure(k);
      CloseDeliveries(k);
      return true;
    }

    method ReopenReportedDispatch(k: nat) returns (ok: bool)
      requires k < |book|
      modifies this
      ensures ok == (old(book)[k].status == Reported) && book == old(book)[k := Apply(old(book)[k], ReopenIt)]
    {
      if book[k].status != Reported { return false; }
      book := book[k := book[k].(status := Submitted, outcome := None, accepted := None)];
      DeleteFailure(k);
      return true;
    }
  }
}
