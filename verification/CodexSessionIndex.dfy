/** Reading session files (src/server/codex-session-index.ts): the first line in pieces of any size, and a
    bounded cache validated by the file's fingerprint. */
module CodexSessionIndex {
  import opened Wrappers

  // ---- The first line ----

  type Byte = int
  const NEWLINE: Byte := 10
  const RETURN: Byte := 13
  const CHUNK: nat := 4096

  function IndexOf(s: seq<Byte>): (i: Option<nat>)
    ensures i.Some? ==> i.value < |s| && s[i.value] == NEWLINE && forall j :: 0 <= j < i.value ==> s[j] != NEWLINE
    ensures i.None? ==> forall j :: 0 <= j < |s| ==> s[j] != NEWLINE
  {
    if s == [] then None
    else
      var before := IndexOf(s[..|s| - 1]);
      if before.Some? then before else if s[|s| - 1] == NEWLINE then Some(|s| - 1) else None
  }

  function Strip(line: seq<Byte>): seq<Byte> {
    if line != [] && line[|line| - 1] == RETURN then line[..|line| - 1] else line
  }

  /** The bytes before the first newline; the whole file if it has none and ends before the limit; else nothing. */
  ghost predicate IsFirstLine(file: seq<Byte>, limit: nat, r: Option<seq<Byte>>) {
    if exists n: nat :: n < |file| && n < limit && EndsAt(file, n)
    then exists n: nat :: n < |file| && n < limit && EndsAt(file, n) && IsLine(r, file[..n])
    else if |file| < limit then IsLine(r, file) else r == None
  }

  /** The line without its carriage return, if it ends with one. */
  predicate IsLine(r: Option<seq<Byte>>, line: seq<Byte>) {
    r == Some(if |line| > 0 && line[|line| - 1] == 13 then line[..|line| - 1] else line)
  }

  /** The first newline is at `n`. */
  predicate EndsAt(file: seq<Byte>, n: nat)
    requires n < |file|
  {
    file[n] == 10 && forall j :: 0 <= j < n ==> file[j] != 10
  }

  function Min(a: nat, b: nat): nat { if a < b then a else b }

  lemma FirstLineAt(file: seq<Byte>, limit: nat, n: nat)
    requires n < |file| && n < limit && EndsAt(file, n)
    ensures IsFirstLine(file, limit, Some(Strip(file[..n])))
  {
    assert IsLine(Some(Strip(file[..n])), file[..n]);
  }

  lemma NoNewline(file: seq<Byte>, limit: nat)
    requires |file| < limit && forall j :: 0 <= j < |file| ==> file[j] != NEWLINE
    ensures IsFirstLine(file, limit, Some(Strip(file)))
  {}

  /** `sizes` says how much each read delivers: anything from one byte to what was asked for and is there. */
  method ReadFirstLine(file: seq<Byte>, limit: nat, sizes: nat -> nat) returns (line: Option<seq<Byte>>)
    ensures IsFirstLine(file, limit, line)
  {
    hide Strip;
    var chunks: seq<Byte>, position := [], 0;
    while position < limit
      invariant 0 <= position <= |file| && position <= limit && chunks == file[..position]
      invariant forall j :: 0 <= j < position ==> file[j] != NEWLINE
      decreases limit - position
    {
      var there := Min(Min(CHUNK, limit - position), |file| - position);
      if there == 0 {
        assert chunks == file;
        NoNewline(file, limit);
        return Some(Strip(chunks));
      }
      var count := Min(if sizes(position) == 0 then 1 else sizes(position), there);
      var slice := file[position..position + count];
      var newline := IndexOf(slice);
      assert forall j :: 0 <= j < count ==> slice[j] == file[position + j];
      if newline.Some? {
        chunks := chunks + slice[..newline.value];
        assert chunks == file[..position + newline.value];
        FirstLineAt(file, limit, position + newline.value);
        return Some(Strip(chunks));
      }
      chunks := chunks + slice;
      position := position + count;
    }
    return None;
  }

  // ---- The cache ----

  type Path = nat
  /** A parsed header or a prefix. */
  type Value = nat

  /** `version` stands for the fingerprint of a file, which never returns to an earlier value. A cache lists its
      entries in the insertion order of the map, the oldest first. */
  datatype Entry = Entry(path: Path, version: nat, value: Value)

  predicate Has(cache: seq<Entry>, path: Path, version: nat) {
    exists i :: 0 <= i < |cache| && cache[i].path == path && cache[i].version == version
  }

  function Find(cache: seq<Entry>, path: Path, version: nat): (e: Entry)
    requires Has(cache, path, version)
    ensures e in cache && e.path == path && e.version == version
  {
    if cache[0].path == path && cache[0].version == version then cache[0]
    else
      assert exists i :: 0 <= i < |cache[1..]| && cache[1..][i].path == path && cache[1..][i].version == version by {
        var i :| 0 <= i < |cache| && cache[i].path == path && cache[i].version == version;
        assert cache[1..][i - 1] == cache[i];
      }
      Find(cache[1..], path, version)
  }

  /** `cache.delete(path)`. */
  function Drop(cache: seq<Entry>, path: Path): (r: seq<Entry>)
    ensures |r| <= |cache|
    ensures forall e :: e in r <==> e in cache && e.path != path
  {
    if cache == [] then [] else if cache[0].path == path then Drop(cache[1..], path) else [cache[0]] + Drop(cache[1..], path)
  }

  function Newest(cache: seq<Entry>, limit: nat): (r: seq<Entry>)
    ensures |r| <= limit && forall e :: e in r ==> e in cache
  {
    if |cache| > limit then cache[|cache| - limit..] else cache
  }

  /** What one call returns, and the cache it leaves. */
  datatype Result = Result(value: Option<Value>, cache: seq<Entry>)

  /** `content(path, version)` is what reading that version gives, `None` where it throws. The file may change between the fingerprint and
      the read, to version `later`. */
  function CachedRead(cache: seq<Entry>, limit: nat, path: Path, version: nat, later: nat, content: (Path, nat) -> Option<Value>): Result {
    if Has(cache, path, version) then
      var value := Find(cache, path, version).value;
      Result(Some(value), Newest(Drop(cache, path) + [Entry(path, version, value)], limit))
    else
      var read := content(path, later);
      if read.None? then Result(None, cache)
      else Result(read, Newest(Drop(cache, path) + [Entry(path, version, read.value)], limit))
  }

  /** An entry whose file is still at its version holds what that version holds. */
  ghost predicate Valid(cache: seq<Entry>, versions: Path -> nat, content: (Path, nat) -> Option<Value>) {
    forall e :: e in cache ==>
      e.version <= versions(e.path) && (e.version == versions(e.path) ==> content(e.path, e.version) == Some(e.value))
  }

  predicate OnePerPath(cache: seq<Entry>) {
    forall i, j :: 0 <= i < j < |cache| ==> cache[i].path != cache[j].path
  }

  /** A call that starts at version `versions(path)` and ends with the files at `after`. */
  lemma CachedReadIsDirectRead(cache: seq<Entry>, limit: nat, path: Path, versions: Path -> nat, after: Path -> nat,
                                        content: (Path, nat) -> Option<Value>)
    requires Valid(cache, versions, content) && Later(versions, after)
    ensures var r := CachedRead(cache, limit, path, versions(path), after(path), content);
      && Valid(r.cache, after, content)
      && |r.cache| <= (if |cache| > limit then |cache| else limit)
      && (r.value == content(path, versions(path)) || r.value == content(path, after(path)))
      && (versions(path) == after(path) ==> r.value == content(path, versions(path)))
  {
  }

  lemma {:induction false} DropKeepsOne(cache: seq<Entry>, path: Path)
    requires OnePerPath(cache)
    ensures OnePerPath(Drop(cache, path))
  {
    if cache != [] {
      var rest := cache[1..];
      assert forall i :: 0 <= i < |rest| ==> rest[i] == cache[i + 1];
      DropKeepsOne(rest, path);
      if cache[0].path != path {
        var kept := Drop(rest, path);
        forall j | 0 <= j < |kept| ensures kept[j].path != cache[0].path {
          assert kept[j] in rest;
        }
      }
    }
  }

  lemma OneMore(cache: seq<Entry>, e: Entry, limit: nat)
    requires OnePerPath(cache) && forall x :: x in cache ==> x.path != e.path
    ensures OnePerPath(Newest(cache + [e], limit))
  {
    forall i | 0 <= i < |cache| ensures cache[i].path != e.path { assert cache[i] in cache; }
  }

  lemma ReadKeepsOne(cache: seq<Entry>, limit: nat, path: Path, version: nat, later: nat, content: (Path, nat) -> Option<Value>)
    requires OnePerPath(cache) && |cache| <= limit
    ensures var r := CachedRead(cache, limit, path, version, later, content); OnePerPath(r.cache) && |r.cache| <= limit
  {
    DropKeepsOne(cache, path);
    var r := CachedRead(cache, limit, path, version, later, content);
    if r.value.Some? { OneMore(Drop(cache, path), Entry(path, version, r.value.value), limit); }
  }

  // ---- Any sequence of calls and changes ----

  /** Before each call some files may have changed; during it some may change again. */
  datatype Access = Access(path: Path, before: Path -> nat, after: Path -> nat)

  /** The versions when all these calls are over. */
  function Now(start: Path -> nat, calls: seq<Access>): Path -> nat {
    if calls == [] then start else calls[|calls| - 1].after
  }

  ghost predicate Later(a: Path -> nat, b: Path -> nat) {
    forall p :: a(p) <= b(p)
  }

  /** Fingerprints never return to an earlier value. */
  ghost predicate Monotone(start: Path -> nat, calls: seq<Access>) {
    calls != [] ==>
      && Monotone(start, calls[..|calls| - 1])
      && Later(Now(start, calls[..|calls| - 1]), calls[|calls| - 1].before)
      && Later(calls[|calls| - 1].before, calls[|calls| - 1].after)
  }

  function CacheAfter(limit: nat, calls: seq<Access>, content: (Path, nat) -> Option<Value>): seq<Entry> {
    if calls == [] then []
    else
      var c := calls[|calls| - 1];
      CachedRead(CacheAfter(limit, calls[..|calls| - 1], content), limit, c.path, c.before(c.path), c.after(c.path), content).cache
  }

  lemma ValidLater(cache: seq<Entry>, versions: Path -> nat, later: Path -> nat, content: (Path, nat) -> Option<Value>)
    requires Valid(cache, versions, content) && Later(versions, later)
    ensures Valid(cache, later, content)
  {
  }

  lemma {:induction false} CacheStaysValid(start: Path -> nat, limit: nat, calls: seq<Access>, content: (Path, nat) -> Option<Value>)
    requires Monotone(start, calls)
    ensures var cache := CacheAfter(limit, calls, content);
      && Valid(cache, Now(start, calls), content)
      && OnePerPath(cache) && |cache| <= limit
  {
    if calls != [] {
      var n := |calls| - 1;
      var rest, c := calls[..n], calls[n];
      CacheStaysValid(start, limit, rest, content);
      var cache := CacheAfter(limit, rest, content);
      ValidLater(cache, Now(start, rest), c.before, content);
      CachedReadIsDirectRead(cache, limit, c.path, c.before, c.after, content);
      ReadKeepsOne(cache, limit, c.path, c.before(c.path), c.after(c.path), content);
    }
  }

  /** Over any sequence of calls, with any changes of the files between and within them, a call returns what a
      direct read would have returned at its start or at its end; when the file does not change during the call,
      exactly that. The cache never outgrows its limit. */
  lemma {:induction false} CacheIsTransparent(start: Path -> nat, limit: nat, calls: seq<Access>, content: (Path, nat) -> Option<Value>)
    requires Monotone(start, calls) && calls != []
    ensures var c := calls[|calls| - 1];
      var before := CacheAfter(limit, calls[..|calls| - 1], content);
      var r := CachedRead(before, limit, c.path, c.before(c.path), c.after(c.path), content);
      && (r.value == content(c.path, c.before(c.path)) || r.value == content(c.path, c.after(c.path)))
      && (c.before(c.path) == c.after(c.path) ==> r.value == content(c.path, c.before(c.path)))
      && |r.cache| <= limit
  {
    var n := |calls| - 1;
    var rest, c := calls[..n], calls[n];
    CacheStaysValid(start, limit, rest, content);
    var cache := CacheAfter(limit, rest, content);
    ValidLater(cache, Now(start, rest), c.before, content);
    CachedReadIsDirectRead(cache, limit, c.path, c.before, c.after, content);
  }

  // ---- The code ----

  class FileCache {
    var entries: seq<Entry>

    constructor ()
      ensures entries == []
    {
      entries := [];
    }

    method Read(limit: nat, path: Path, version: nat, later: nat, content: (Path, nat) -> Option<Value>) returns (value: Option<Value>)
      modifies this
      ensures Result(value, entries) == CachedRead(old(entries), limit, path, version, later, content)
    {
      if Has(entries, path, version) {
        value := Some(Find(entries, path, version).value);
      } else {
        value := content(path, later);
        if value.None? { return; }
      }
      entries := Drop(entries, path);
      entries := entries + [Entry(path, version, value.value)];
      ghost var all := entries;
      while |entries| > limit
        invariant |entries| <= |all| && entries == all[|all| - |entries|..] && (|entries| < |all| ==> |entries| >= limit)
      {
        entries := entries[1..];
      }
      assert entries == Newest(all, limit);
    }
  }
}
