/** Receipt journal: the incremental reader and its starting offset
    (src/server/codex-report-journal.ts). */
module CodexReportJournal {
  import opened Wrappers

  /** Only the newline's value matters to the reader. */
  type Byte = int

  const NEWLINE: Byte := 10
  const OFFSET_WINDOW: nat := 64 * 1024
  const READ_LIMIT: nat := 256 * 1024
  const RECORD_LIMIT: nat := 8 * 1024 * 1024

  /** What `JSON.parse` and `isUserReceipt` make of one decoded and trimmed line. */
  datatype LineKind = Blank | OtherRecord | Receipt | Malformed

  datatype ReadError = Truncated | MalformedRecord | RecordTooLong | NoCompleteRecord

  datatype Reading = Reading(found: bool, caughtUp: bool)

  datatype Verdict = Pending | Found | Broken

  // ---- The whole-file specification ----

  /** The bytes behind the last newline. */
  function Tail(s: seq<Byte>): seq<Byte> {
    if s == [] then []
    else
      var n := |s| - 1;
      if s[n] == NEWLINE then [] else Tail(s[..n]) + [s[n]]
  }

  /** The complete lines, without their newlines. */
  function Lines(s: seq<Byte>): seq<seq<Byte>> {
    if s == [] then []
    else
      var n := |s| - 1;
      if s[n] == NEWLINE then Lines(s[..n]) + [Tail(s[..n])] else Lines(s[..n])
  }

  /** The first record that decides: a matching receipt, or one that cannot be parsed. */
  function Judge(lines: seq<seq<Byte>>, kind: seq<Byte> -> LineKind): Verdict {
    if lines == [] then Pending
    else match kind(lines[0])
      case Receipt => Found
      case Malformed => Broken
      case _ => Judge(lines[1..], kind)
  }

  lemma {:induction false} JudgeConcat(a: seq<seq<Byte>>, b: seq<seq<Byte>>, kind: seq<Byte> -> LineKind)
    ensures Judge(a + b, kind) == if Judge(a, kind) == Pending then Judge(b, kind) else Judge(a, kind)
  {
    if a == [] {
      assert a + b == b;
    } else {
      assert (a + b)[1..] == a[1..] + b;
      JudgeConcat(a[1..], b, kind);
    }
  }

  /** Found means: a receipt line with no malformed line before it. */
  lemma {:induction false} JudgeFound(lines: seq<seq<Byte>>, kind: seq<Byte> -> LineKind)
    ensures Judge(lines, kind) == Found <==>
            exists i :: 0 <= i < |lines| && kind(lines[i]) == Receipt
                        && forall j :: 0 <= j < i ==> kind(lines[j]) != Malformed
    ensures Judge(lines, kind) == Pending <==>
            forall i :: 0 <= i < |lines| ==> kind(lines[i]) == Blank || kind(lines[i]) == OtherRecord
  {
    if lines != [] {
      var rest := lines[1..];
      JudgeFound(rest, kind);
      assert forall i :: 0 <= i < |rest| ==> rest[i] == lines[i + 1];
      if Judge(lines, kind) == Found {
        if kind(lines[0]) != Receipt {
          var i :| 0 <= i < |rest| && kind(rest[i]) == Receipt && forall j :: 0 <= j < i ==> kind(rest[j]) != Malformed;
          assert kind(lines[i + 1]) == Receipt;
          assert forall j :: 1 <= j < i + 1 ==> lines[j] == rest[j - 1];
        }
      }
    }
  }

  // ---- How lines behave under concatenation ----

  lemma OneMoreByte(s: seq<Byte>, byte: Byte)
    ensures Lines(s + [byte]) == Lines(s) + if byte == NEWLINE then [Tail(s)] else []
    ensures Tail(s + [byte]) == if byte == NEWLINE then [] else Tail(s) + [byte]
  {
    assert (s + [byte])[..|s|] == s;
  }

  lemma {:induction false} TailConcat(a: seq<Byte>, b: seq<Byte>)
    ensures Lines(a + b) == Lines(a) + Lines(Tail(a) + b)
    ensures Tail(a + b) == Tail(Tail(a) + b)
    decreases |b|
  {
    hide Lines, Tail;
    if b == [] {
      TailAlone(a);
      assert a + b == a && Tail(a) + b == Tail(a);
    } else {
      var front, last := b[..|b| - 1], b[|b| - 1];
      assert a + b == (a + front) + [last];
      assert Tail(a) + b == (Tail(a) + front) + [last];
      TailConcat(a, front);
      OneMoreByte(a + front, last);
      OneMoreByte(Tail(a) + front, last);
    }
  }

  lemma TailAlone(s: seq<Byte>)
    ensures Lines(Tail(s)) == [] && Tail(Tail(s)) == Tail(s)
  {
    NoNewlineInTail(s);
    WithoutNewline(Tail(s));
  }

  lemma {:induction false} NoNewlineInTail(s: seq<Byte>)
    ensures NEWLINE !in Tail(s)
  {
    if s != [] { NoNewlineInTail(s[..|s| - 1]); }
  }

  lemma {:induction false} WithoutNewline(s: seq<Byte>)
    requires NEWLINE !in s
    ensures Lines(s) == [] && Tail(s) == s
  {
    if s != [] {
      WithoutNewline(s[..|s| - 1]);
      assert s[..|s| - 1] + [s[|s| - 1]] == s;
    }
  }

  lemma {:induction false} FirstLine(line: seq<Byte>, rest: seq<Byte>)
    requires NEWLINE !in line
    ensures Lines(line + [NEWLINE] + rest) == [line] + Lines(rest)
    ensures Tail(line + [NEWLINE] + rest) == Tail(rest)
  {
    var head := line + [NEWLINE];
    assert head[..|head| - 1] == line;
    WithoutNewline(line);
    TailConcat(head, rest);
    assert Tail(head) + rest == rest;
  }

  // ---- Starting offset ----

  /** No newline in this stretch. */
  predicate Unbroken(s: seq<Byte>, lo: nat, hi: nat)
    requires lo <= hi <= |s|
  {
    forall i :: lo <= i < hi ==> s[i] != NEWLINE
  }

  /** `lastIndexOf(10)` in the stretch. */
  function LastNewline(s: seq<Byte>, lo: nat, hi: nat): (index: Option<nat>)
    requires lo <= hi <= |s|
    ensures index.Some? ==> lo <= index.value < hi && s[index.value] == NEWLINE && Unbroken(s, index.value + 1, hi)
    ensures index.None? ==> Unbroken(s, lo, hi)
    decreases hi
  {
    if lo == hi then None else if s[hi - 1] == NEWLINE then Some(hi - 1) else LastNewline(s, lo, hi - 1)
  }

  /** `Math.min(size, 64 * 1024)`: the bytes asked for. */
  function FullRead(file: seq<Byte>): (n: nat)
    ensures n <= |file|
  {
    if |file| < OFFSET_WINDOW then |file| else OFFSET_WINDOW
  }

  /** `read` is how many bytes `readSync` delivered of the window it was asked for. */
  function ReportJournalOffset(file: seq<Byte>, read: nat): (offset: Result<nat, ReadError>)
    requires read <= FullRead(file)
    ensures offset.Success? ==> 0 < offset.value <= |file| && file[offset.value - 1] == NEWLINE
  {
    var start := |file| - FullRead(file);
    match LastNewline(file, start, start + read)
    case None => Failure(NoCompleteRecord)
    case Some(index) => Success(index + 1)
  }

  /** With a full read, the offset is where the unfinished last record starts: it follows a newline
      and no newline follows it. It fails exactly when the window holds no newline at all. */
  lemma OffsetIsLastBoundary(file: seq<Byte>)
    ensures var offset := ReportJournalOffset(file, FullRead(file));
            if offset.Success?
            then file[offset.value..] == Tail(file) && Unbroken(file, offset.value, |file|)
            else Unbroken(file, |file| - FullRead(file), |file|)
  {
    hide Tail, FullRead, Unbroken;
    var offset := ReportJournalOffset(file, FullRead(file));
    if offset.Success? { BehindLastNewline(file, offset.value); }
  }

  lemma {:induction false} BehindLastNewline(s: seq<Byte>, at: nat)
    requires 0 < at <= |s| && s[at - 1] == NEWLINE && Unbroken(s, at, |s|)
    ensures s[at..] == Tail(s) && Lines(s) == Lines(s[..at]) && Tail(s[..at]) == []
  {
    var n := |s| - 1;
    if at <= n {
      BehindLastNewline(s[..n], at);
      OneMoreByte(s[..n], s[n]);
      assert s[..n] + [s[n]] == s;
      assert s[at..] == s[..n][at..] + [s[n]];
      assert s[..n][..at] == s[..at];
    } else {
      assert s[..at] == s;
    }
  }

  /** A reader that starts at the offset sees exactly the records completed after it was taken. */
  lemma OffsetSkipsOldRecords(before: seq<Byte>, after: seq<Byte>, offset: nat)
    requires before <= after
    requires ReportJournalOffset(before, FullRead(before)) == Success(offset)
    ensures offset <= |after| && Lines(after) == Lines(before) + Lines(after[offset..])
  {
    hide Lines, Tail, Unbroken;
    OffsetIsLastBoundary(before);
    BoundarySkips(before, after, offset);
  }

  lemma BoundarySkips(before: seq<Byte>, after: seq<Byte>, at: nat)
    requires before <= after && 0 < at <= |before| && before[at - 1] == NEWLINE && Unbroken(before, at, |before|)
    ensures Lines(after) == Lines(before) + Lines(after[at..])
  {
    hide Lines, Tail, Unbroken;
    BehindLastNewline(before, at);
    assert after == before[..at] + after[at..];
    TailConcat(before[..at], after[at..]);
    assert Tail(before[..at]) + after[at..] == after[at..];
  }

  // ---- The reader ----

  /** A reader by what it has read behind its offset. */
  datatype Reader = Reader(offset: nat, seen: seq<Byte>)

  datatype Look = Look(reader: Reader, reading: Result<Reading, ReadError>)

  /** The bytes one `readSync` delivers at the reader's position, of `length` offered. */
  function Chunk(r: Reader, journal: seq<Byte>, length: nat): (chunk: seq<Byte>)
    requires r.offset + |r.seen| <= |journal|
    ensures |chunk| <= READ_LIMIT && r.offset + |r.seen| + |chunk| <= |journal|
    ensures chunk == journal[r.offset + |r.seen|..r.offset + |r.seen| + |chunk|]
  {
    var position := r.offset + |r.seen|;
    var left := |journal| - position;
    var asked := if length < READ_LIMIT then length else READ_LIMIT;
    journal[position..position + if left < asked then left else asked]
  }

  /** One poll of a reader that has not found its record, by the whole of what it has read: `sizeAfter` is the
      second `statSync` result. */
  function LookAt(r: Reader, journal: seq<Byte>, length: nat, sizeAfter: nat, kind: seq<Byte> -> LineKind): Look {
    var position := r.offset + |r.seen|;
    if |journal| < position then Look(r, Failure(Truncated))
    else
      var next := Reader(r.offset, r.seen + Chunk(r, journal, length));
      match Judge(Lines(next.seen), kind)
      case Found => Look(next, Success(Reading(true, true)))
      case Broken => Look(next, Failure(MalformedRecord))
      case Pending =>
        var rest := Tail(next.seen);
        Look(next, if |rest| > RECORD_LIMIT then Failure(RecordTooLong)
                   else Success(Reading(false, next.offset + |next.seen| >= sizeAfter && rest == [])))
  }

  /** What one poll of an unfinished search says: an error if the file is shorter than what was read, a complete line cannot
      be parsed, or the unfinished line exceeds 8 MiB; else whether a receipt was found, and whether the end was reached on a
      line boundary. It never reads more than 256 KiB, and keeps everything else it has read. */
  lemma LookIs(r: Reader, journal: seq<Byte>, length: nat, sizeAfter: nat, kind: seq<Byte> -> LineKind)
    ensures var look := LookAt(r, journal, length, sizeAfter, kind); var seen := look.reader.seen; var verdict := Judge(Lines(seen), kind);
      && look.reader.offset == r.offset
      && (look.reading == Failure(Truncated) <==> |journal| < r.offset + |r.seen|)
      && (if |journal| < r.offset + |r.seen| then seen == r.seen
          else
            && (var at, n := r.offset + |r.seen|, |seen| - |r.seen|;
                && 0 <= n <= 262144 && n <= length && at + n <= |journal| && (n == length || n == 262144 || at + n == |journal|)
                && seen == r.seen + journal[at..at + n])
            && (look.reading == Failure(MalformedRecord) <==> verdict == Broken)
            && (look.reading == Failure(RecordTooLong) <==> verdict == Pending && |Tail(seen)| > 8388608)
            && (look.reading.Success? && look.reading.value.found <==> verdict == Found)
            && (look.reading == Success(Reading(false, true)) <==>
                  verdict == Pending && |Tail(seen)| == 0 && r.offset + |seen| >= sizeAfter))
  {
    hide Judge, Lines, Tail;
    if r.offset + |r.seen| <= |journal| {
      var n := |Chunk(r, journal, length)|;
      assert journal[r.offset + |r.seen|..r.offset + |r.seen| + n] == Chunk(r, journal, length);
    }
  }

  class ReportJournalReader {
    const kind: seq<Byte> -> LineKind
    var position: nat
    var partial: seq<Byte>
    var found: bool
    /** Where the current clean scan began: the given offset, or just behind a malformed record. */
    ghost var base: nat
    /** The complete lines read since `base` that are no longer buffered. */
    ghost var passed: seq<Byte>

    /** The reader buffers a suffix of what it has read; everything before the buffer is complete
        lines that decide nothing. After a receipt only the verdict remains. */
    ghost predicate Refines(file: seq<Byte>)
      reads this
    {
      && base <= position <= |file|
      && if found then Judge(Lines(file[base..position]), kind) == Found
         else file[base..position] == passed + partial && Undecided(passed, kind)
    }

    /** Appends leave what was read untouched. */
    lemma RefinesLonger(file: seq<Byte>, longer: seq<Byte>)
      requires Refines(file) && file <= longer
      ensures Refines(longer)
    {
      assert longer[base..position] == file[base..position];
    }

    constructor (offset: nat, kind: seq<Byte> -> LineKind)
      ensures this.kind == kind && position == offset && base == offset && partial == [] && !found
      ensures Reads(Reader(offset, [])) && forall file: seq<Byte> :: offset <= |file| ==> Refines(file)
    {
      this.kind := kind;
      position, partial, found, base, passed := offset, [], false, offset, [];
    }

    /** One poll. `size` and `sizeAfter` are the two `statSync` results and `chunk` what `readSync`
        delivered in between from the append-only `file`. */
    method Poll(size: nat, chunk: seq<Byte>, sizeAfter: nat, ghost file: seq<Byte>) returns (r: Result<Reading, ReadError>)
      requires Refines(file) && |chunk| <= READ_LIMIT
      requires position <= size ==> position + |chunk| <= |file| && file[position..position + |chunk|] == chunk
      modifies this
      ensures Refines(file)
      ensures old(found) ==> r == Success(Reading(true, true)) && unchanged(this)
      ensures !old(found) && size < old(position) ==> r == Failure(Truncated) && unchanged(this)
      ensures !old(found) && old(position) <= size ==>
                && position == old(position) + |chunk|
                && match Judge(Lines(file[old(base)..position]), kind)
                   case Found => r == Success(Reading(true, true)) && found && base == old(base)
                   case Broken => r == Failure(MalformedRecord) && !found && base > old(base)
                   case Pending =>
                     && !found && base == old(base) && partial == Tail(file[base..position])
                     && r == if |partial| > RECORD_LIMIT then Failure(RecordTooLong)
                             else Success(Reading(false, position >= sizeAfter && partial == []))
    {
      if found {
        return Success(Reading(true, true));
      }
      if size < position {
        return Failure(Truncated);
      }
      var verdict := Absorb(chunk, file);
      match verdict {
        case Found => return Success(Reading(true, true));
        case Broken => return Failure(MalformedRecord);
        case Pending =>
      }
      if |partial| > RECORD_LIMIT {
        return Failure(RecordTooLong);
      }
      return Success(Reading(false, position >= sizeAfter && partial == []));
    }

    /** The reader as a value, while it has found nothing. */
    ghost function Value(): Reader
      reads this
    {
      Reader(base, passed + partial)
    }

    ghost predicate Reads(r: Reader)
      reads this
    {
      !found && Value() == r && position == base + |r.seen| && Undecided(passed, kind)
    }

    /** The same poll for a journal of which nothing else is known: it may have been replaced. */
    method Read(journal: seq<Byte>, length: nat, sizeAfter: nat, ghost r: Reader) returns (reading: Result<Reading, ReadError>)
      requires Reads(r)
      modifies this
      ensures var look := LookAt(r, journal, length, sizeAfter, kind);
              reading == look.reading && (reading.Success? && !reading.value.found ==> Reads(look.reader))
    {
      hide Judge, Lines, Tail, Undecided;
      if |journal| < position {
        return Failure(Truncated);
      }
      var left := |journal| - position;
      var asked := if length < READ_LIMIT then length else READ_LIMIT;
      var chunk := journal[position..position + if left < asked then left else asked];
      ghost var file := seq(base, i => NEWLINE) + r.seen + chunk;
      assert file[base..position] == passed + partial;
      assert file[position..position + |chunk|] == chunk;
      assert file[base..position + |chunk|] == r.seen + chunk;
      reading := Poll(|journal|, chunk, sizeAfter, file);
    }

    /** Buffers one chunk and judges the lines it completes. */
    method Absorb(chunk: seq<Byte>, ghost file: seq<Byte>) returns (verdict: Verdict)
      requires Refines(file) && !found
      requires position + |chunk| <= |file| && file[position..position + |chunk|] == chunk
      modifies this
      ensures Refines(file) && position == old(position) + |chunk|
      ensures verdict == Judge(Lines(file[old(base)..position]), kind)
      ensures found <==> verdict == Found
      ensures if verdict == Broken then base > old(base) else base == old(base)
      ensures verdict == Pending ==> partial == Tail(file[base..position])
    {
      hide Judge, Lines, Tail, Undecided, IndexOfNewline;
      NothingDecides(kind);
      ghost var seen := ReadMore(file, base, position, chunk, passed, partial, kind);
      var buffer := partial + chunk;
      var rest;
      ghost var lines;
      verdict, rest, lines := Scan(buffer, kind);
      position, partial, found := position + |chunk|, rest, verdict == Found;
      ghost var clean := passed + lines;
      Advance(passed, buffer, lines, rest, kind);
      if verdict == Broken {
        LastBytes(file, base, position, clean, rest);
        base, passed := base + |clean|, [];
      } else {
        passed := clean;
      }
    }
  }

  lemma ReadMore(file: seq<Byte>, base: nat, position: nat, chunk: seq<Byte>, passed: seq<Byte>, partial: seq<Byte>, kind: seq<Byte> -> LineKind)
    returns (seen: seq<Byte>)
    requires base <= position && position + |chunk| <= |file| && file[position..position + |chunk|] == chunk
    requires file[base..position] == passed + partial && Undecided(passed, kind)
    ensures seen == file[base..position + |chunk|] == passed + (partial + chunk)
    ensures Judge(Lines(seen), kind) == Judge(Lines(partial + chunk), kind)
    ensures Tail(seen) == Tail(partial + chunk)
  {
    seen := file[base..position + |chunk|];
    assert seen == file[base..position] + chunk == passed + (partial + chunk);
    Appended(passed, partial + chunk, kind);
  }

  lemma Advance(passed: seq<Byte>, buffer: seq<Byte>, lines: seq<Byte>, rest: seq<Byte>, kind: seq<Byte> -> LineKind)
    requires Undecided(passed, kind) && buffer == lines + rest
    ensures passed + buffer == (passed + lines) + rest
    ensures Undecided(lines, kind) ==> Undecided(passed + lines, kind)
    ensures lines != [] ==> |passed + lines| > 0
  {
    Appended(passed, lines, kind);
  }

  lemma LastBytes(file: seq<Byte>, base: nat, position: nat, front: seq<Byte>, rest: seq<Byte>)
    requires base <= position <= |file| && file[base..position] == front + rest
    ensures base + |front| <= position && file[base + |front|..position] == [] + rest
  {
    assert file[base..position][|front|..] == file[base + |front|..position];
  }

  /** Complete lines only, none of which decides. */
  ghost predicate Undecided(s: seq<Byte>, kind: seq<Byte> -> LineKind) {
    Tail(s) == [] && Judge(Lines(s), kind) == Pending
  }

  lemma FirstRecord(line: seq<Byte>, behind: seq<Byte>, kind: seq<Byte> -> LineKind)
    requires NEWLINE !in line
    ensures var rest := line + [NEWLINE] + behind;
            && Tail(rest) == Tail(behind)
            && Judge(Lines(rest), kind) == if kind(line) == Receipt then Found
                                           else if kind(line) == Malformed then Broken
                                           else Judge(Lines(behind), kind)
  {
    FirstLine(line, behind);
    assert ([line] + Lines(behind))[1..] == Lines(behind);
  }

  lemma NothingDecides(kind: seq<Byte> -> LineKind)
    ensures Undecided([], kind) && Lines([]) == [] && Judge([], kind) == Pending
  {}

  /** The line loop of one poll: stops behind the first record that decides, or at the last newline. */
  method Scan(buffer: seq<Byte>, kind: seq<Byte> -> LineKind)
    returns (verdict: Verdict, rest: seq<Byte>, ghost lines: seq<Byte>)
    ensures verdict == Judge(Lines(buffer), kind)
    ensures buffer == lines + rest
    ensures verdict == Broken ==> lines != []
    ensures verdict == Pending ==> rest == Tail(buffer) && NEWLINE !in rest && Undecided(lines, kind)
  {
    hide Judge, Lines, Tail, Undecided, IndexOfNewline;
    NothingDecides(kind);
    rest, lines := buffer, [];
    var end := IndexOfNewline(rest);
    while end.Some?
      invariant end == IndexOfNewline(rest)
      invariant buffer == lines + rest && Undecided(lines, kind)
      invariant Judge(Lines(buffer), kind) == Judge(Lines(rest), kind) && Tail(buffer) == Tail(rest)
      decreases |rest|
    {
      var line, behind := rest[..end.value], rest[end.value + 1..];
      assert rest == line + [NEWLINE] + behind;
      FirstRecord(line, behind, kind);
      ghost var next := lines + (line + [NEWLINE]);
      assert buffer == next + behind;
      rest := behind;
      match kind(line) {
        case Receipt => return Found, rest, next;
        case Malformed => return Broken, rest, next;
        case _ => OneMoreLine(lines, line, kind);
      }
      lines := next;
      end := IndexOfNewline(rest);
    }
    WithoutNewline(rest);
    return Pending, rest, lines;
  }

  lemma OneMoreLine(done: seq<Byte>, line: seq<Byte>, kind: seq<Byte> -> LineKind)
    requires Undecided(done, kind) && NEWLINE !in line
    requires kind(line) == Blank || kind(line) == OtherRecord
    ensures Undecided(done + (line + [NEWLINE]), kind)
  {
    FirstLine(line, []);
    assert line + [NEWLINE] + [] == line + [NEWLINE];
    Appended(done, line + [NEWLINE], kind);
  }

  /** Behind complete lines that decide nothing, the verdict is that of the remainder. */
  lemma Appended(a: seq<Byte>, b: seq<Byte>, kind: seq<Byte> -> LineKind)
    requires Undecided(a, kind)
    ensures Judge(Lines(a + b), kind) == Judge(Lines(b), kind) && Tail(a + b) == Tail(b)
  {
    TailConcat(a, b);
    assert Tail(a) + b == b;
    JudgeConcat(Lines(a), Lines(b), kind);
  }

  function Flatten(chunks: seq<seq<Byte>>): seq<Byte> {
    if chunks == [] then [] else Flatten(chunks[..|chunks| - 1]) + chunks[|chunks| - 1]
  }

  ghost predicate SomeRecordTooLong(chunks: seq<seq<Byte>>) {
    exists n :: 0 <= n <= |chunks| && |Tail(Flatten(chunks[..n]))| > RECORD_LIMIT
  }

  lemma NothingFlat()
    ensures Flatten([]) == []
  {}

  lemma TooLongAt(chunks: seq<seq<Byte>>, n: nat)
    requires n <= |chunks| && |Tail(Flatten(chunks[..n]))| > RECORD_LIMIT
    ensures SomeRecordTooLong(chunks)
  {}

  /** Any appends, any chunking: a fresh reader that is polled until it decides, fails on an
      oversized record or runs out of bytes gives the verdict of the whole file behind its offset. */
  method Follow(before: seq<Byte>, chunks: seq<seq<Byte>>, kind: seq<Byte> -> LineKind)
    returns (verdict: Verdict, oversized: bool)
    requires forall i :: 0 <= i < |chunks| ==> |chunks[i]| <= READ_LIMIT
    ensures !oversized ==> verdict == Judge(Lines(Flatten(chunks)), kind)
    ensures oversized ==> verdict == Pending && SomeRecordTooLong(chunks)
  {
    hide *;
    NothingDecides(kind);
    NothingFlat();
    var reader := new ReportJournalReader(|before|, kind);
    var file := before;
    ghost var read := [];
    var i := 0;
    while i < |chunks|
      invariant 0 <= i <= |chunks| && reader.kind == kind
      invariant reader.Refines(file) && !reader.found && reader.base == |before| && reader.position == |file|
      invariant read == Flatten(chunks[..i]) && file == before + read
      invariant Judge(Lines(read), kind) == Pending
    {
      ghost var shorter := file;
      file := Append(before, read, file, chunks[i]);
      reader.RefinesLonger(shorter, file);
      FlattenNext(chunks, i);
      read := read + chunks[i];
      var r := reader.Poll(|file|, chunks[i], |file|, file);
      i := i + 1;
      match r {
        case Success(reading) =>
          if reading.found {
            FlattenSplit(chunks, i);
            DecidedStays(read, Flatten(chunks[i..]), kind);
            return Found, false;
          }
        case Failure(error) =>
          if error == RecordTooLong {
            TooLongAt(chunks, i);
            return Pending, true;
          }
          FlattenSplit(chunks, i);
          DecidedStays(read, Flatten(chunks[i..]), kind);
          return Broken, false;
      }
    }
    assert chunks[..i] == chunks;
    return Pending, false;
  }

  method Append(ghost before: seq<Byte>, ghost read: seq<Byte>, file: seq<Byte>, chunk: seq<Byte>) returns (longer: seq<Byte>)
    requires file == before + read
    ensures longer == file + chunk == before + (read + chunk)
    ensures longer[|before|..|longer|] == read + chunk
    ensures longer[|file|..|file| + |chunk|] == chunk
  {
    longer := file + chunk;
  }

  lemma FlattenNext(chunks: seq<seq<Byte>>, i: nat)
    requires i < |chunks|
    ensures Flatten(chunks[..i + 1]) == Flatten(chunks[..i]) + chunks[i]
  {
    assert chunks[..i + 1][..i] == chunks[..i];
  }

  lemma {:induction false} FlattenSplit(chunks: seq<seq<Byte>>, i: nat)
    requires i <= |chunks|
    ensures Flatten(chunks) == Flatten(chunks[..i]) + Flatten(chunks[i..])
  {
    if i == |chunks| {
      assert chunks[..i] == chunks && chunks[i..] == [];
    } else {
      var n := |chunks| - 1;
      FlattenSplit(chunks[..n], i);
      assert chunks[..n][..i] == chunks[..i] && chunks[..n][i..] == chunks[i..][..n - i];
    }
  }

  lemma DecidedStays(a: seq<Byte>, b: seq<Byte>, kind: seq<Byte> -> LineKind)
    requires Judge(Lines(a), kind) != Pending
    ensures Judge(Lines(a + b), kind) == Judge(Lines(a), kind)
  {
    TailConcat(a, b);
    JudgeConcat(Lines(a), Lines(Tail(a) + b), kind);
  }

  function IndexOfNewline(s: seq<Byte>): (index: Option<nat>)
    ensures index.Some? ==> index.value < |s| && s[index.value] == NEWLINE && NEWLINE !in s[..index.value]
    ensures index.None? ==> NEWLINE !in s
  {
    if s == [] then None
    else if s[0] == NEWLINE then Some(0)
    else
      assert s == [s[0]] + s[1..];
      match IndexOfNewline(s[1..])
      case None => None
      case Some(i) =>
        assert s[..i + 1] == [s[0]] + s[1..][..i];
        Some(i + 1)
  }
}
