/** The table of message deliveries: which message of a recipient may be attempted
    (src/server/message-delivery-store.ts). `MessageDelivery` follows one message; here are all of them. */
module DeliveryQueue {
  import opened Wrappers

  datatype State = Pending | Attempting | Unknown | Manual | Confirmed | Resolved

  datatype Row = Row(recipient: nat, state: State, attempt: nat, writeStarted: bool)

  /** Rows in rowid order. */
  type Table = seq<Row>

  const MAX_ATTEMPTS: nat := 5

  /** The states of a recipient whose composer may hold input. */
  predicate Busy(state: State) { state == Attempting || state == Unknown || state == Manual }

  predicate Done(state: State) { state == Confirmed || state == Resolved }

  /** Row `b` blocks row `k`. */
  predicate Blocks(t: Table, b: nat, k: nat)
    requires b < |t| && k < |t|
  {
    b != k && t[b].recipient == t[k].recipient && (Busy(t[b].state) || (t[b].state == Pending && b < k))
  }

  /** `unblockedRecipient`. */
  predicate Unblocked(t: Table, k: nat)
    requires k < |t|
  {
    forall b :: 0 <= b < |t| ==> !Blocks(t, b, k)
  }

  datatype Severity = Retryable | NeedsReview | Terminal

  datatype Action =
    | Insert(recipient: nat)
    | Claim(k: nat)
    | BeforeWrite(k: nat)
    | AwaitReceipt(k: nat)
    | Submitted(k: nat, native: bool)
    | Confirm(k: nat)
    | Fail(k: nat, severity: Severity)
    | Resolve(k: nat, resend: bool)
    | Close(k: nat)
    | Supersede(k: nat)
    | Recover
    | Restore

  function FailedState(r: Row, severity: Severity): State {
    if r.writeStarted then Unknown
    else match severity
      case NeedsReview => Manual
      case Terminal => Resolved
      case Retryable => if r.attempt >= MAX_ATTEMPTS then Manual else Pending
  }

  function Recovered(r: Row): Row {
    if r.state == Attempting then r.(state := if r.writeStarted then Unknown else Pending) else r
  }

  /** A backup restored to a new directory leaves everything unfinished to a person. */
  function Restored(r: Row): Row {
    if r.state == Pending || r.state == Attempting || r.state == Unknown then r.(state := Manual) else r
  }

  /** What a call does to its own row. `Close` and `Supersede` come from the dispatch's message log and from the
      report outbox, which replaces the report of an unwritten delivery. */
  function RowAfter(r: Row, a: Action): Row {
    match a
    case Claim(_) => r.(state := Attempting, attempt := r.attempt + 1)
    case BeforeWrite(_) => if r.state == Attempting then r.(writeStarted := true) else r
    case AwaitReceipt(_) => if r.state == Attempting then r.(state := Unknown) else r
    case Submitted(_, native) => if r.state == Attempting then r.(state := if native then Confirmed else Unknown) else r
    case Confirm(_) => if Done(r.state) then r else r.(state := Confirmed)
    case Fail(_, severity) => if r.state == Attempting then r.(state := FailedState(r, severity)) else r
    case Resolve(_, resend) =>
      if r.state == Attempting || Done(r.state) then r
      else if resend then r.(state := Pending, writeStarted := false) else r.(state := Resolved)
    case Close(_) => if r.state == Pending then r.(state := Resolved) else r
    case Supersede(_) => if (r.state == Pending || r.state == Attempting) && !r.writeStarted then r.(state := Resolved) else r
    case _ => r
  }

  function After(t: Table, a: Action): Table {
    match a
    case Insert(recipient) => t + [Row(recipient, Pending, 0, false)]
    case Recover => seq(|t|, i requires 0 <= i < |t| => Recovered(t[i]))
    case Restore => seq(|t|, i requires 0 <= i < |t| => Restored(t[i]))
    case Claim(k) => if k < |t| && t[k].state == Pending && Unblocked(t, k) then t[k := RowAfter(t[k], a)] else t
    case _ => if a.k < |t| then t[a.k := RowAfter(t[a.k], a)] else t
  }

  function Run(actions: seq<Action>): Table {
    if actions == [] then [] else After(Run(actions[..|actions| - 1]), actions[|actions| - 1])
  }

  /** Next to a row that is being attempted no other row of its recipient is busy, and only finished rows stand before
      one that was ever attempted. */
  predicate PairOk(t: Table, i: nat, j: nat)
    requires i < j < |t|
  {
    t[i].recipient == t[j].recipient ==>
      && !(t[i].state == Attempting && Busy(t[j].state)) && !(Busy(t[i].state) && t[j].state == Attempting)
      && (t[j].attempt > 0 ==> Done(t[i].state))
  }

  predicate Ok(t: Table) {
    forall i, j :: 0 <= i < j < |t| ==> PairOk(t, i, j)
  }

  /** No two busy rows of one recipient, and none that was never attempted. */
  predicate Single(t: Table) {
    && (forall i :: 0 <= i < |t| && Busy(t[i].state) ==> t[i].attempt > 0)
    && forall i, j :: 0 <= i < j < |t| ==> OneBusy(t, i, j)
  }

  predicate OneBusy(t: Table, i: nat, j: nat)
    requires i < j < |t|
  {
    t[i].recipient == t[j].recipient ==> !(Busy(t[i].state) && Busy(t[j].state))
  }

  lemma ClaimKeeps(t: Table, k: nat)
    requires Ok(t) && k < |t| && t[k].state == Pending && Unblocked(t, k)
    ensures Ok(After(t, Claim(k))) && (Single(t) ==> Single(After(t, Claim(k))))
  {
    var v := After(t, Claim(k));
    forall i, j | 0 <= i < j < |v| ensures PairOk(v, i, j) && (OneBusy(t, i, j) ==> OneBusy(v, i, j)) {
      assert PairOk(t, i, j);
      assert !Blocks(t, i, k) && !Blocks(t, j, k);
    }
  }

  /** What any other call may do to a row: only a restore makes a row busy that was not. */
  lemma RowKeeps(t: Table, a: Action, i: nat)
    requires !a.Claim? && i < |t|
    ensures |After(t, a)| >= |t| && var r, v := t[i], After(t, a)[i];
      && v.recipient == r.recipient && v.attempt == r.attempt
      && (v.state == Attempting ==> r.state == Attempting && a != Restore)
      && (Done(r.state) ==> Done(v.state)) && (Busy(v.state) ==> Busy(r.state) || a == Restore)
  {}

  lemma AfterKeeps(t: Table, a: Action)
    requires Ok(t)
    ensures Ok(After(t, a)) && (Single(t) && a != Restore ==> Single(After(t, a)))
  {
    if a.Claim? {
      if a.k < |t| && t[a.k].state == Pending && Unblocked(t, a.k) { ClaimKeeps(t, a.k); }
    } else {
      var v := After(t, a);
      assert a.Insert? ==> v == t + [Row(a.recipient, Pending, 0, false)];
      assert !a.Insert? ==> |v| == |t|;
      hide After, Busy, Done;
      forall i | 0 <= i < |t| ensures Single(t) && a != Restore && Busy(v[i].state) ==> v[i].attempt > 0 {
        RowKeeps(t, a, i);
      }
      forall i, j | 0 <= i < j < |v| ensures PairOk(v, i, j) && (Single(t) && a != Restore ==> OneBusy(v, i, j)) {
        if j < |t| {
          RowKeeps(t, a, i);
          RowKeeps(t, a, j);
          assert PairOk(t, i, j);
        } else {
          PendingIsQuiet(v, i, j);
        }
      }
      if a.Insert? { PendingIsQuiet(v, |v|, |v| - 1); }
    }
  }

  lemma PendingIsQuiet(t: Table, i: nat, j: nat)
    requires j < |t| && t[j].state == Pending && t[j].attempt == 0
    ensures !Busy(t[j].state) && (i < j ==> PairOk(t, i, j) && OneBusy(t, i, j))
  {}

  lemma {:induction false} RunKeeps(actions: seq<Action>)
    ensures Ok(Run(actions)) && (Restore !in actions ==> Single(Run(actions)))
  {
    if actions != [] {
      RunKeeps(actions[..|actions| - 1]);
      AfterKeeps(Run(actions[..|actions| - 1]), actions[|actions| - 1]);
    }
  }

  /** In every reachable state a message that is being attempted is its recipient's only busy one: nothing is typed
      into a composer that may hold other input. */
  lemma {:induction false} AttemptedAlone(actions: seq<Action>, i: nat, j: nat)
    requires i < |Run(actions)| && j < |Run(actions)| && i != j && Run(actions)[i].recipient == Run(actions)[j].recipient
    requires Run(actions)[i].state == Attempting
    ensures !Busy(Run(actions)[j].state)
  {
    RunKeeps(actions);
    if i < j { assert PairOk(Run(actions), i, j); } else { assert PairOk(Run(actions), j, i); }
  }

  /** Until a backup is restored, at most one message of a recipient is being attempted, uncertain or waiting for a
      person: an uncertain composer blocks its recipient. */
  lemma {:induction false} OneBusyPerRecipient(actions: seq<Action>, i: nat, j: nat)
    requires Restore !in actions
    requires i < |Run(actions)| && j < |Run(actions)| && i != j && Run(actions)[i].recipient == Run(actions)[j].recipient
    ensures !(Busy(Run(actions)[i].state) && Busy(Run(actions)[j].state))
  {
    RunKeeps(actions);
    if i < j { assert OneBusy(Run(actions), i, j); } else { assert OneBusy(Run(actions), j, i); }
  }

  /** A restore leaves every unfinished message to a person, so several of one recipient can be busy behind it. */
  lemma RestoreMakesManyBusy()
    ensures var t := Run([Insert(7), Insert(7), Restore]); |t| == 2 && t[0].state == t[1].state == Manual && t[0].recipient == t[1].recipient
  {
    var actions := [Insert(7), Insert(7), Restore];
    assert actions[..2] == [Insert(7), Insert(7)] && actions[..2][..1] == [Insert(7)] && actions[..2][..1][..0] == [];
    assert Run(actions[..2][..1]) == [Row(7, Pending, 0, false)];
    assert Run(actions[..2]) == [Row(7, Pending, 0, false), Row(7, Pending, 0, false)];
  }

  /** Messages reach a recipient in order: one that has ever been attempted has only confirmed or resolved
      messages before it, through every failure, recovery, resend and restore. */
  lemma {:induction false} InOrderPerRecipient(actions: seq<Action>, i: nat, j: nat)
    requires i < j < |Run(actions)| && Run(actions)[i].recipient == Run(actions)[j].recipient && Run(actions)[j].attempt > 0
    ensures Done(Run(actions)[i].state)
  {
    RunKeeps(actions);
    assert PairOk(Run(actions), i, j);
  }

  /** A recipient is never stuck for good: without a busy row its first pending row may be claimed. */
  lemma FirstPendingMayBeClaimed(t: Table, k: nat)
    requires k < |t| && t[k].state == Pending
    requires forall i :: 0 <= i < |t| && t[i].recipient == t[k].recipient ==> !Busy(t[i].state)
    requires forall i :: 0 <= i < k && t[i].recipient == t[k].recipient ==> t[i].state != Pending
    ensures After(t, Claim(k))[k].state == Attempting
  {
  }

  // ---- How a row gets into each state ----

  predicate Was(r: Row, state: State, written: bool) { r.state == state && r.writeStarted == written }

  /** For each state all the calls that lead into it, and from where. Nothing uncertain becomes pending but by a resend, and
      nothing that has begun to write is given up, retried or superseded. */
  lemma EntersState(t: Table, a: Action, k: nat)
    requires k < |t| && After(t, a)[k].state != t[k].state
    ensures var r, v := t[k], After(t, a)[k];
      && (v.state == Attempting <==> a == Claim(k))
      && (v.state == Pending <==>
            || (a == Resolve(k, true) && (r.state == Unknown || r.state == Manual)) || (a == Recover && Was(r, Attempting, false))
            || (a == Fail(k, Retryable) && Was(r, Attempting, false) && r.attempt < 5))
      && (v.state == Unknown <==>
            && r.state == Attempting
            && (a == AwaitReceipt(k) || a == Submitted(k, false) || (r.writeStarted && (a == Recover || (a.Fail? && a.k == k)))))
      && (v.state == Manual <==>
            || (a == Restore && !Done(r.state))
            || (Was(r, Attempting, false) && (a == Fail(k, NeedsReview) || (a == Fail(k, Retryable) && r.attempt >= 5))))
      && (v.state == Confirmed <==> (a == Confirm(k) && !Done(r.state)) || (a == Submitted(k, true) && r.state == Attempting))
      && (v.state == Resolved <==>
            || (a == Resolve(k, false) && r.state != Attempting && !Done(r.state)) || (a == Close(k) && r.state == Pending)
            || (a == Fail(k, Terminal) && Was(r, Attempting, false))
            || (a == Supersede(k) && !r.writeStarted && (r.state == Pending || r.state == Attempting)))
  {}

  /** And each of these calls does lead there; only claims count attempts, only an attempt sets `write_started`, and only a
      resend clears it. */
  lemma CallsTakeEffect(t: Table, a: Action, k: nat)
    requires k < |t|
    ensures var r, v := t[k], After(t, a)[k];
      && (a == Fail(k, Retryable) && Was(r, Attempting, false) ==> v.state == if r.attempt < 5 then Pending else Manual)
      && (a == Fail(k, NeedsReview) && Was(r, Attempting, false) ==> v.state == Manual)
      && (a == Fail(k, Terminal) && Was(r, Attempting, false) ==> v.state == Resolved)
      && (((a.Fail? && a.k == k) || a == Recover) && Was(r, Attempting, true) ==> v.state == Unknown)
      && (a == Recover && Was(r, Attempting, false) ==> v.state == Pending) && (a == Restore && !Done(r.state) ==> v.state == Manual)
      && (a == Confirm(k) && !Done(r.state) ==> v.state == Confirmed) && (a == Close(k) && r.state == Pending ==> v.state == Resolved)
      && (a.Resolve? && a.k == k && (r.state == Unknown || r.state == Manual) ==> v.state == if a.resend then Pending else Resolved)
      && (v.attempt == if a == Claim(k) && v.state == Attempting && r.state == Pending then r.attempt + 1 else r.attempt)
      && (v.writeStarted <==>
            && (r.writeStarted || (a == BeforeWrite(k) && r.state == Attempting))
            && !(a == Resolve(k, true) && r.state != Attempting && !Done(r.state)))
      && v.recipient == r.recipient
  {}

  /** A claim succeeds if and only if the row is pending, nothing of its recipient is busy, and no earlier message of the
      recipient is pending. */
  lemma ClaimedIff(t: Table, k: nat)
    requires k < |t|
    ensures (t[k].state == Pending && After(t, Claim(k))[k].state == Attempting) <==>
      && t[k].state == Pending
      && forall b :: 0 <= b < |t| && t[b].recipient == t[k].recipient && b != k ==>
           t[b].state != Attempting && t[b].state != Unknown && t[b].state != Manual && (b < k ==> t[b].state != Pending)
  {
    if Unblocked(t, k) {
      forall b | 0 <= b < |t| && t[b].recipient == t[k].recipient && b != k
        ensures t[b].state != Attempting && t[b].state != Unknown && t[b].state != Manual && (b < k ==> t[b].state != Pending)
      {
        assert !Blocks(t, b, k);
      }
    } else {
      var b :| 0 <= b < |t| && Blocks(t, b, k);
      assert t[b].recipient == t[k].recipient && b != k;
    }
  }

  // ---- The code ----

  class Deliveries {
    var rows: Table

    method ClaimRow(k: nat) returns (ok: bool)
      modifies this
      ensures rows == After(old(rows), Claim(k))
      ensures ok == (k < |old(rows)| && old(rows)[k].state == Pending && Unblocked(old(rows), k))
    {
      if k >= |rows| || rows[k].state != Pending { return false; }
      var b := 0;
      while b < |rows|
        invariant 0 <= b <= |rows| && rows == old(rows)
        invariant forall i :: 0 <= i < b ==> !Blocks(rows, i, k)
      {
        if Blocks(rows, b, k) { return false; }
        b := b + 1;
      }
      rows := rows[k := rows[k].(state := Attempting, attempt := rows[k].attempt + 1)];
      return true;
    }

    method RecoverRows()
      modifies this
      ensures rows == After(old(rows), Recover)
    {
      var i := 0;
      while i < |rows|
        invariant 0 <= i <= |rows| == |old(rows)|
        invariant forall j :: 0 <= j < |rows| ==> rows[j] == if j < i then Recovered(old(rows)[j]) else old(rows)[j]
      {
        if rows[i].state == Attempting {
          rows := rows[i := rows[i].(state := if rows[i].writeStarted then Unknown else Pending)];
        }
        i := i + 1;
      }
    }

    method FailRow(k: nat, severity: Severity)
      modifies this
      ensures rows == After(old(rows), Fail(k, severity))
    {
      if k >= |rows| || rows[k].state != Attempting { return; }
      var row := rows[k];
      var state := if row.writeStarted then Unknown
                   else if severity == NeedsReview then Manual
                   else if severity == Terminal then Resolved
                   else if row.attempt >= MAX_ATTEMPTS then Manual else Pending;
      rows := rows[k := row.(state := state)];
    }

    /** The update of the report outbox. */
    method SupersedeRow(k: nat)
      modifies this
      ensures rows == After(old(rows), Supersede(k))
    {
      if k < |rows| && !rows[k].writeStarted && (rows[k].state == Pending || rows[k].state == Attempting) {
        rows := rows[k := rows[k].(state := Resolved)];
      }
    }

    method ResolveRow(k: nat, resend: bool) returns (ok: bool)
      modifies this
      ensures rows == After(old(rows), Resolve(k, resend))
      ensures ok == (k < |old(rows)| && (Busy(old(rows)[k].state) || old(rows)[k].state == Pending) && old(rows)[k].state != Attempting)
    {
      if k >= |rows| || rows[k].state == Attempting || rows[k].state == Confirmed || rows[k].state == Resolved { return false; }
      rows := rows[k := rows[k].(state := if resend then Pending else Resolved)];
      if resend { rows := rows[k := rows[k].(writeStarted := false)]; }
      return true;
    }
  }
}
