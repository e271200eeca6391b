/** Reconciling an uncertain message with the journal of its session, without touching the terminal
    (src/server/team-delivery-runtime.ts, src/server/codex-receipt-session.ts). */
module DeliveryRecheck {
  import opened Wrappers
  import opened CodexReportDelivery
  import opened J = CodexReportJournal

  const MAX_READS: nat := 32

  type LineTest = seq<Byte> -> LineKind

  /** What one read meets: the journal, of which `length` bytes are delivered and which has `grown` when its size is
      taken again; `fails`: the bytes could not be read, `sizeFails`: that size could not be taken. */
  datatype Observed = Observed(journal: seq<Byte>, length: nat, grown: nat, fails: bool, sizeFails: bool)

  /** The reader kept between two rechecks of one checkpoint. `skipped` is what it has read up to the last malformed
      record, `seen` what it has read since. */
  datatype Kept = Kept(checkpoint: Checkpoint, skipped: seq<Byte>, seen: seq<Byte>, found: bool)

  datatype Answer = Receives | CaughtUp | More | Throws

  function FreshReader(cp: Checkpoint): Kept { Kept(cp, [], [], false) }

  /** The checkpoint with its session, if that is known or has been captured since. */
  function BoundCheckpoint(cp: Checkpoint, binding: Binding): Option<Checkpoint> {
    if cp.session.Some? then Some(cp)
    else if !binding.BoundTo? || !cp.captured then None
    else Some(Bind(cp, binding.session))
  }

  /** What is left behind the first line that decides. */
  function Behind(s: seq<Byte>, kind: LineTest): (rest: seq<Byte>)
    ensures |rest| <= |s| && rest == s[|s| - |rest|..]
    ensures |rest| == |s| || s[|s| - |rest| - 1] == NEWLINE
    decreases |s|
  {
    match IndexOfNewline(s)
    case None => s
    case Some(end) =>
      var rest := s[end + 1..];
      if kind(s[..end]) == Receipt || kind(s[..end]) == Malformed then rest else Behind(rest, kind)
  }

  function SkipMalformed(k: Kept, kind: LineTest): (r: Kept)
    ensures r.checkpoint == k.checkpoint && r.found == k.found
  {
    var rest := Behind(k.seen, kind);
    k.(skipped := k.skipped + k.seen[..|k.seen| - |rest|], seen := rest)
  }

  function ReaderOf(k: Kept): Reader { Reader(k.checkpoint.offset + |k.skipped|, k.seen) }

  function ReadOnce(k: Kept, o: Observed, kind: LineTest): (Kept, Answer) {
    if k.found then (k, Receives)
    else if o.fails then (k, Throws)
    else
      var look := LookAt(ReaderOf(k), o.journal, o.length, |o.journal| + o.grown, kind);
      var next := k.(seen := look.reader.seen);
      match look.reading
      case Failure(error) =>
        (if error == MalformedRecord then SkipMalformed(next, kind) else next, Throws)
      case Success(reading) =>
        if reading.found then (next.(found := true), Receives)
        else (next, if o.sizeFails then Throws else if reading.caughtUp then CaughtUp else More)
  }

  /** At most 32 reads, the first `i` of which have been made. */
  function ReadOn(k: Kept, looks: nat -> Observed, kind: LineTest, i: nat): (Kept, Answer)
    requires i <= MAX_READS
    decreases MAX_READS - i
  {
    if i == MAX_READS then (k, More)
    else
      var (next, answer) := ReadOnce(k, looks(i), kind);
      if answer == More then ReadOn(next, looks, kind, i + 1) else (next, answer)
  }

  // ---- What a found receipt means ----

  /** A receipt stands among the complete lines behind this offset. */
  ghost predicate HasReceipt(journal: seq<Byte>, offset: nat, kind: LineTest) {
    offset <= |journal| && exists i :: 0 <= i < |Lines(journal[offset..])| && kind(Lines(journal[offset..])[i]) == Receipt
  }

  /** What was skipped are complete lines, and a remembered receipt stands in what was read since. */
  ghost predicate KeptOk(k: Kept, kind: LineTest) {
    Tail(k.skipped) == [] && (k.found ==> Judge(Lines(k.seen), kind) == Verdict.Found)
  }

  ghost function Position(k: Kept): nat { k.checkpoint.offset + |k.skipped + k.seen| }

  /** Everything the reader has read stands in this journal, behind the checkpoint's offset. */
  ghost predicate StandsIn(k: Kept, journal: seq<Byte>) {
    k.skipped + k.seen == [] || (Position(k) <= |journal| && journal[k.checkpoint.offset..Position(k)] == k.skipped + k.seen)
  }

  /** The journal only grows while it is read. */
  ghost predicate Grows(looks: nat -> Observed) {
    forall i, j :: 0 <= i <= j ==> looks(i).journal <= looks(j).journal
  }

  lemma StandsLonger(k: Kept, journal: seq<Byte>, later: seq<Byte>)
    requires StandsIn(k, journal) && journal <= later
    ensures StandsIn(k, later)
  {
    if k.skipped + k.seen != [] { assert later[k.checkpoint.offset..Position(k)] == journal[k.checkpoint.offset..Position(k)]; }
  }

  lemma LineEnd(s: seq<Byte>, n: nat)
    requires n <= |s| && (n == 0 || s[n - 1] == NEWLINE)
    ensures Tail(s[..n]) == []
  {
  }

  lemma NoTail(a: seq<Byte>, b: seq<Byte>)
    requires Tail(a) == [] && Tail(b) == []
    ensures Tail(a + b) == []
  {
    TailConcat(a, b);
    assert Tail(a) + b == b;
  }

  lemma LookStands(k: Kept, o: Observed, kind: LineTest)
    requires StandsIn(k, o.journal)
    ensures var look := LookAt(ReaderOf(k), o.journal, o.length, |o.journal| + o.grown, kind);
      && StandsIn(k.(seen := look.reader.seen), o.journal)
      && (look.reading.Success? && look.reading.value.found ==> Judge(Lines(look.reader.seen), kind) == Verdict.Found)
  {
    hide Judge, Lines, Tail, Chunk, StandsIn;
    if Position(k) <= |o.journal| { ChunkStands(k, o.journal, Chunk(ReaderOf(k), o.journal, o.length)); }
  }

  lemma Regroup(a: seq<Byte>, b: seq<Byte>, c: seq<Byte>, s: seq<Byte>)
    requires |b| + |c| == |s| && b == s[..|b|] && c == s[|b|..]
    ensures (a + b) + c == a + s
  {
    assert b + c == s;
  }

  /** Whatever stands behind the malformed line is kept. */
  lemma SkipKeeps(k: Kept, kind: LineTest)
    requires Tail(k.skipped) == []
    ensures var next := SkipMalformed(k, kind); KeptOk(next.(found := false), kind) && next.skipped + next.seen == k.skipped + k.seen
  {
    hide Behind, Tail, Judge, Lines;
    var rest := Behind(k.seen, kind);
    var head := k.seen[..|k.seen| - |rest|];
    LineEnd(k.seen, |head|);
    NoTail(k.skipped, head);
    Regroup(k.skipped, head, rest, k.seen);
  }

  /** One read keeps what the reader stands for. */
  lemma ReadOnceKeeps(k: Kept, o: Observed, kind: LineTest)
    requires KeptOk(k, kind) && StandsIn(k, o.journal)
    ensures var (next, answer) := ReadOnce(k, o, kind);
      KeptOk(next, kind) && StandsIn(next, o.journal) && next.checkpoint == k.checkpoint && (answer == Receives ==> next.found)
  {
    hide LookAt, Judge, Lines, Tail, SkipMalformed;
    if !k.found && !o.fails {
      var next := k.(seen := LookAt(ReaderOf(k), o.journal, o.length, |o.journal| + o.grown, kind).reader.seen);
      LookStands(k, o, kind);
      SkipKeeps(next, kind);
    }
  }

  lemma ChunkStands(k: Kept, journal: seq<Byte>, chunk: seq<Byte>)
    requires StandsIn(k, journal) && Position(k) + |chunk| <= |journal| && chunk == journal[Position(k)..Position(k) + |chunk|]
    ensures StandsIn(k.(seen := k.seen + chunk), journal)
  {
    assert journal[k.checkpoint.offset..Position(k) + |chunk|] == journal[k.checkpoint.offset..Position(k)] + chunk;
    assert k.skipped + (k.seen + chunk) == (k.skipped + k.seen) + chunk;
  }

  lemma FoundStands(k: Kept, journal: seq<Byte>, kind: LineTest)
    requires KeptOk(k, kind) && k.found && StandsIn(k, journal)
    ensures HasReceipt(journal, k.checkpoint.offset, kind)
  {
    hide Lines, Tail;
    NothingDecides(kind);
    JudgeFound(Lines(k.seen), kind);
    var i :| 0 <= i < |Lines(k.seen)| && kind(Lines(k.seen)[i]) == Receipt;
    TailConcat(k.skipped, k.seen);
    assert Tail(k.skipped) + k.seen == k.seen;
    var read, rest := k.skipped + k.seen, journal[Position(k)..];
    assert journal[k.checkpoint.offset..] == read + rest;
    TailConcat(read, rest);
    assert kind(Lines(journal[k.checkpoint.offset..])[|Lines(k.skipped)| + i]) == Receipt;
  }

  /** A recheck that finds its receipt has it in the journal as one of its reads met it, behind the checkpoint's offset. */
  lemma {:induction false} ReadOnFinds(k: Kept, looks: nat -> Observed, kind: LineTest, i: nat)
    requires i <= MAX_READS && KeptOk(k, kind) && Grows(looks) && StandsIn(k, looks(i).journal)
    ensures var (next, answer) := ReadOn(k, looks, kind, i);
      && KeptOk(next, kind) && next.checkpoint == k.checkpoint
      && (answer == Receives ==> exists n :: i <= n < MAX_READS && HasReceipt(looks(n).journal, k.checkpoint.offset, kind))
    decreases MAX_READS - i
  {
    hide ReadOnce, KeptOk, StandsIn, HasReceipt;
    if i < MAX_READS {
      ReadOnceKeeps(k, looks(i), kind);
      var (next, answer) := ReadOnce(k, looks(i), kind);
      if answer == More {
        StandsLonger(next, looks(i).journal, looks(i + 1).journal);
        ReadOnFinds(next, looks, kind, i + 1);
      } else if answer == Receives {
        FoundStands(next, looks(i).journal, kind);
      }
    }
  }
}
