/** The controlled commit of a worker's checkout (src/server/execution-policy-git.ts): one call builds a
    tree behind the index lock, moves the branch by compare-and-swap, and cleans up on every exit.

    Other processes may change the branch, the index or the lock file between any two steps, and every
    command may fail. */
module ControlledCommit {
  import opened Wrappers
  import opened ControlledCommitTree

  type Sha = int
  /** A file as `lstat` identifies it. */
  type FileId = int

  datatype Commit = Commit(tree: Tree, parent: Sha)

  /** `moves` records the branch updates that this call's Git process made, from and to. */
  datatype World = World(
    branch: Sha, commits: map<Sha, Commit>, index: Option<FileId>, lock: Option<FileId>, temporary: bool, moves: seq<(Sha, Sha)>
  )

  /** What other processes have done since the previous step. */
  datatype Foreign = Foreign(branch: Option<Sha>, index: Option<Option<FileId>>, lock: Option<Option<FileId>>)

  /** `git update-ref`: its exit status is seen (0 when it could lock the ref and the old value matched), or `runGit`
      gives up without one, possibly after the update took effect: the process was killed at the time limit or by
      a signal, its output exceeded the buffer, or writing its input failed. */
  datatype RefUpdate = Exits(lockable: bool) | NoStatus(applied: bool)

  datatype Env = Env(
    valid: bool, prepared: bool, input: Input, own: FileId, opens: bool, stats: bool, sha: Sha, writes: bool, intact: bool,
    update: RefUpdate, renames: bool, closes: bool, removable: bool, temporaryRemovable: bool,
    atLock: Foreign, atCheck: Foreign, atRef: Foreign, atRename: Foreign, atCleanup: Foreign
  )

  /** The local variables that `cleanup` reads; `committed` holds whether the index still must be synced. */
  datatype Flags = Flags(held: bool, identified: bool, installed: bool, committed: Option<bool>)

  datatype Outcome = Returned(sha: Sha, indexSync: bool, cleanupRequired: bool) | Threw

  function Meddle(w: World, f: Foreign): World {
    w.(branch := if f.branch.Some? then f.branch.value else w.branch,
       index := if f.index.Some? then f.index.value else w.index,
       lock := if f.lock.Some? then f.lock.value else w.lock)
  }

  const NOTHING := Flags(false, false, false, None)

  // ---- The call, step by step ----

  /** The files of the checkout cannot be listed as ordinary blobs, so nothing is locked. */
  ghost predicate Listable(x: Input) {
    forall p :: p in x.base ==> x.base[p].mode != Special
  }

  ghost function Body(w: World, head: Sha, env: Env): (World, Flags) {
    if !env.prepared || w.branch != head || !Listable(env.input) then (w, NOTHING)
    else
      var seen := Meddle(w, env.atLock);
      if seen.lock.Some? || !env.opens then (seen, NOTHING)
      else
        var locked := seen.(lock := Some(env.own));
        if !env.stats then (locked, NOTHING.(held := true)) else Locked(locked, head, env)
  }

  ghost function Locked(w: World, head: Sha, env: Env): (World, Flags) {
    var flags := NOTHING.(held := true, identified := true);
    if !Buildable(env.input) || Overlay(env.input) == env.input.base then (w, flags)
    else
      var made := w.(commits := w.commits[env.sha := Commit(Overlay(env.input), head)]);
      var seen := Meddle(made, env.atCheck);
      if !env.writes || seen.lock != Some(env.own) || !env.intact || seen.index != w.index then (seen, flags)
      else Publish(Meddle(seen, env.atRef), head, env)
  }

  ghost function Publish(w: World, head: Sha, env: Env): (World, Flags) {
    var flags := NOTHING.(held := true, identified := true);
    var moved := w.(branch := env.sha, moves := w.moves + [(head, env.sha)]);
    if env.update.NoStatus? then (if env.update.applied && w.branch == head then moved else w, flags)
    else if !env.update.lockable || w.branch != head then (w, flags)
    else
      var seen := Meddle(moved, env.atRename);
      if env.renames && seen.lock.Some?
      then (seen.(index := seen.lock, lock := None), flags.(installed := true, committed := Some(false)))
      else (seen, flags.(committed := Some(true)))
  }

  /** `cleanup`, and whether it got through. */
  ghost function Cleanup(w: World, f: Flags, env: Env): (World, bool) {
    if f.held && !env.closes then (w, false)
    else if f.held && !f.installed && f.identified && w.lock.Some? then
      if w.lock != Some(env.own) || !env.removable then (w, false) else DropTemporary(w.(lock := None), env)
    else DropTemporary(w, env)
  }

  ghost function DropTemporary(w: World, env: Env): (World, bool) {
    if env.temporaryRemovable then (w.(temporary := false), true) else (w, false)
  }

  ghost function Call(w: World, head: Sha, env: Env): (World, Outcome) {
    if !env.valid then (w, Threw)
    else
      var (done, flags) := Body(w.(temporary := true), head, env);
      var (clean, ok) := Cleanup(Meddle(done, env.atCleanup), flags, env);
      (clean, if flags.committed.Some? then Returned(env.sha, flags.committed.value, !ok) else Threw)
  }

  // ---- The commit point ----

  predicate BranchKept(f: Foreign) { f.branch.None? }

  /** No other process moves the branch during the call. */
  predicate BranchUndisturbed(env: Env) {
    BranchKept(env.atLock) && BranchKept(env.atCheck) && BranchKept(env.atRef) && BranchKept(env.atRename) && BranchKept(env.atCleanup)
  }

  /** What `Body` says about the branch. */
  ghost predicate CommitPoint(w: World, v: World, f: Flags, head: Sha, env: Env) {
    && (v.moves == w.moves || v.moves == w.moves + [(head, env.sha)])
    && (f.committed.Some? <==> v.moves != w.moves && env.update.Exits?)
    && (v.moves != w.moves ==>
          env.sha in v.commits && v.commits[env.sha] == Commit(Overlay(env.input), head) && Overlay(env.input) != env.input.base)
    && (BranchUndisturbed(env) ==> v.branch == (if v.moves == w.moves then w.branch else env.sha) && (v.moves != w.moves ==> w.branch == head))
  }

  lemma BodyCommits(w: World, head: Sha, env: Env)
    ensures var (v, f) := Body(w, head, env); CommitPoint(w, v, f, head, env)
  {
    assert w.moves + [(head, env.sha)] != w.moves;
  }

  /** The call returns exactly when its Git process moved the branch from the expected head to the new
      commit and its exit status was seen; that commit has the overlay tree and the expected head as its parent. If
      no status was seen although the update took effect, the call throws although the branch has moved: this is
      the only way the two differ. */
  lemma ReturnsIffMoved(w: World, head: Sha, env: Env)
    ensures var (v, out) := Call(w, head, env);
      && (v.moves == w.moves || v.moves == w.moves + [(head, env.sha)])
      && (out.Returned? <==> v.moves != w.moves && env.update.Exits?)
      && (out.Threw? && v.moves != w.moves ==> env.update == NoStatus(true))
      && (out.Returned? ==> out.sha == env.sha)
      && (v.moves != w.moves ==>
            env.sha in v.commits && v.commits[env.sha] == Commit(Overlay(env.input), head) && Overlay(env.input) != env.input.base)
  {
    BodyCommits(w.(temporary := true), head, env);
  }

  /** On every error the branch is where it was, unless `git update-ref` took effect without a status. */
  lemma ErrorsLeaveBranch(w: World, head: Sha, env: Env)
    requires BranchUndisturbed(env)
    ensures var (v, out) := Call(w, head, env);
      && (out.Threw? && env.update != NoStatus(true) ==> v.branch == w.branch)
      && (out.Returned? ==> w.branch == head && v.branch == env.sha)
  {
    BodyCommits(w.(temporary := true), head, env);
  }

  /** What the published commit holds, path by path: `.hive`, denied roots and everything below them as in the baseline,
      every other path as on disk. */
  lemma PublishedOverlaysDisk(w: World, head: Sha, env: Env)
    ensures var v := Call(w, head, env).0;
      v.moves != w.moves ==> env.sha in v.commits && OverlaysDisk(env.input, v.commits[env.sha].tree) && v.commits[env.sha].parent == head
  {
    ReturnsIffMoved(w, head, env);
    OverlayMeans(env.input);
  }

  /** Nobody has changed it, or it is `x` again. */
  predicate Still<T(==)>(change: Option<T>, x: T) { change.None? || change.value == x }

  /** The branch moves only behind all of these: nobody holds the index, the files can be read, there is something to
      commit, the lock file is still the own one, the checkout is intact, and the index is what it was. */
  lemma MovedBehindChecks(w: World, head: Sha, env: Env)
    ensures var v := Call(w, head, env).0;
      v.moves != w.moves ==>
        && env.valid && env.prepared && w.branch == head && env.opens && env.stats && Readable(env.input) && env.writes && env.intact
        && Overlay(env.input) != env.input.base
        && (if env.atLock.lock.Some? then env.atLock.lock.value else w.lock).None? && Still(env.atCheck.lock, Some(env.own))
        && Still(env.atCheck.index, if env.atLock.index.Some? then env.atLock.index.value else w.index)
  {
    hide Overlay, Buildable, Readable;
    OverlayMeans(env.input);
  }

  // ---- Concrete calls that do less than they promise ----

  /** A checkout with one new file on top of an empty baseline. */
  function OneNewFile(): Input {
    Input(map[], [], ["a"], [], false, p => File([], false), c => 0, true)
  }

  lemma OneNewFileChanges()
    ensures Listable(OneNewFile()) && Buildable(OneNewFile()) && "a" in Overlay(OneNewFile())
  {
    assert "a"[0] != ".hive"[0];
    assert Considered(OneNewFile(), "a");
  }

  const QUIET := Foreign(None, None, None)
  const START := World(7, map[], Some(1), None, false, [])

  function Undisturbed(stats: bool, update: RefUpdate): Env {
    Env(true, true, OneNewFile(), 5, true, stats, 9, true, true, update, true, true, true, true, QUIET, QUIET, QUIET, QUIET, QUIET)
  }

  /** The update of the branch took effect, but no status was seen: the call throws behind a moved branch. */
  lemma ThrewBehindMoveExample()
    ensures var (v, out) := Call(START, 7, Undisturbed(true, NoStatus(true))); out.Threw? && START.branch == 7 && v.branch == 9
  {
    OneNewFileChanges();
    hide Overlay, Buildable, Listable;
  }

  /** `stat` fails once behind the creation of the lock, and nothing else ever does: the call throws and leaves its
      lock to stand in the way of every later Git command. */
  lemma LockLeftExample()
    ensures var (v, out) := Call(START, 7, Undisturbed(false, Exits(true))); out.Threw? && v.lock == Some(5)
  {
    OneNewFileChanges();
    hide Overlay, Buildable, Listable;
  }

  // ---- Any number of calls ----

  datatype Attempt = Attempt(head: Sha, env: Env)

  ghost function CallAll(w: World, attempts: seq<Attempt>): World {
    if attempts == [] then w
    else
      var last := attempts[|attempts| - 1];
      Call(CallAll(w, attempts[..|attempts| - 1]), last.head, last.env).0
  }

  /** From branch position `start`: each published commit starts where the one before it ended, has that
      commit as its parent, and the branch is at the last of them. */
  predicate Linear(start: Sha, v: World) {
    && (forall i, j :: 0 <= i < |v.moves| && j == i + 1 && j < |v.moves| ==> v.moves[j].0 == v.moves[i].1)
    && (v.moves != [] ==> v.moves[0].0 == start)
    && v.branch == (if v.moves == [] then start else v.moves[|v.moves| - 1].1)
    && (forall i :: 0 <= i < |v.moves| ==> v.moves[i].1 in v.commits && v.commits[v.moves[i].1].parent == v.moves[i].0)
  }

  /** The commit ids of the moves are among those of the attempts. */
  predicate Owned(v: World, attempts: seq<Attempt>) {
    forall i :: 0 <= i < |v.moves| ==> Tried(attempts, v.moves[i].1)
  }

  predicate Tried(attempts: seq<Attempt>, sha: Sha) {
    exists i :: 0 <= i < |attempts| && attempts[i].env.sha == sha
  }

  predicate Grown(w: World, v: World, sha: Sha) {
    forall s :: s in w.commits && s != sha ==> s in v.commits && v.commits[s] == w.commits[s]
  }

  lemma PublishKeepsCommits(w: World, head: Sha, env: Env)
    ensures Publish(w, head, env).0.commits == w.commits
  {
  }

  lemma CommitsGrow(w: World, head: Sha, env: Env)
    ensures Grown(w, Call(w, head, env).0, env.sha)
  {
    hide Publish, Overlay, Buildable, Listable;
    if env.valid {
      var start := w.(temporary := true);
      var locked := Meddle(start, env.atLock).(lock := Some(env.own));
      var made := locked.(commits := locked.commits[env.sha := Commit(Overlay(env.input), head)]);
      PublishKeepsCommits(Meddle(Meddle(made, env.atCheck), env.atRef), head, env);
      assert Grown(w, Body(start, head, env).0, env.sha);
    }
  }

  /** One call: nothing, or one more commit on top of the branch. */
  predicate Extends(w: World, v: World, sha: Sha) {
    && (if v.moves == w.moves then v.branch == w.branch
        else v.moves == w.moves + [(w.branch, sha)] && v.branch == sha && sha in v.commits && v.commits[sha].parent == w.branch)
    && Grown(w, v, sha)
  }

  lemma ExtensionIsLinear(start: Sha, w: World, v: World, sha: Sha)
    requires Linear(start, w) && Extends(w, v, sha) && forall i :: 0 <= i < |w.moves| ==> w.moves[i].1 != sha
    ensures Linear(start, v)
  {
    assert forall i :: 0 <= i < |w.moves| ==> v.moves[i] == w.moves[i];
  }

  lemma {:induction false} ExtensionIsOwned(w: World, v: World, attempts: seq<Attempt>)
    requires attempts != [] && Owned(w, attempts[..|attempts| - 1]) && Extends(w, v, attempts[|attempts| - 1].env.sha)
    ensures Owned(v, attempts)
  {
    var n := |attempts| - 1;
    forall i | 0 <= i < |v.moves| ensures Tried(attempts, v.moves[i].1) {
      if i < |w.moves| {
        var k :| 0 <= k < n && attempts[..n][k].env.sha == w.moves[i].1;
        assert attempts[k].env.sha == v.moves[i].1;
      } else {
        assert attempts[n].env.sha == v.moves[i].1;
      }
    }
  }

  predicate FreshIds(attempts: seq<Attempt>) {
    forall i, j :: 0 <= i < j < |attempts| ==> attempts[i].env.sha != attempts[j].env.sha
  }

  lemma {:induction false} LastIsFresh(v: World, attempts: seq<Attempt>)
    requires attempts != [] && FreshIds(attempts) && Owned(v, attempts[..|attempts| - 1])
    ensures forall i :: 0 <= i < |v.moves| ==> v.moves[i].1 != attempts[|attempts| - 1].env.sha
  {
    forall i | 0 <= i < |v.moves| ensures v.moves[i].1 != attempts[|attempts| - 1].env.sha {
      var k :| 0 <= k < |attempts| - 1 && attempts[..|attempts| - 1][k].env.sha == v.moves[i].1;
      assert attempts[k].env.sha == v.moves[i].1;
    }
  }

  /** Over any number of calls, whatever fails in them, the branch is a linear history of the commits that were
      published: none of them is lost or overtaken, and each has its predecessor as its parent. Commit ids are
      new, and nobody else moves the branch. */
  lemma {:induction false} HistoryIsLinear(w: World, attempts: seq<Attempt>)
    requires w.moves == [] && FreshIds(attempts)
    requires forall i :: 0 <= i < |attempts| ==> BranchUndisturbed(attempts[i].env)
    ensures Linear(w.branch, CallAll(w, attempts)) && Owned(CallAll(w, attempts), attempts)
  {
    if attempts != [] {
      hide Call, BranchUndisturbed;
      var n := |attempts| - 1;
      HistoryIsLinear(w, attempts[..n]);
      var before := CallAll(w, attempts[..n]);
      CallExtends(before, attempts[n].head, attempts[n].env);
      LastIsFresh(before, attempts);
      ExtensionIsLinear(w.branch, before, CallAll(w, attempts), attempts[n].env.sha);
      ExtensionIsOwned(before, CallAll(w, attempts), attempts);
    }
  }

  lemma CallExtends(w: World, head: Sha, env: Env)
    requires BranchUndisturbed(env)
    ensures Extends(w, Call(w, head, env).0, env.sha)
  {
    BodyCommits(w.(temporary := true), head, env);
    CommitsGrow(w, head, env);
  }

  /** The baseline of a call is the tree of the commit it expects, once for each of them. */
  ghost predicate Based(w: World, attempts: seq<Attempt>) {
    attempts != [] ==>
      && Based(w, attempts[..|attempts| - 1])
      && var before, last := CallAll(w, attempts[..|attempts| - 1]), attempts[|attempts| - 1];
      (last.head in before.commits ==> last.env.input.base == before.commits[last.head].tree)
  }

  /** Published commit `i` is that of call `k`, whose files lie over the tree of its parent. */
  ghost predicate LiesOver(v: World, i: nat, a: Attempt)
    requires i < |v.moves|
  {
    var (parent, sha) := v.moves[i];
    && a.env.sha == sha && parent in v.commits && sha in v.commits && v.commits[sha].parent == parent
    && a.env.input.base == v.commits[parent].tree && v.commits[sha].tree == Overlay(a.env.input) != v.commits[parent].tree
  }

  ghost predicate Stacked(v: World, attempts: seq<Attempt>) {
    forall i :: 0 <= i < |v.moves| ==> LiesOverOne(v, i, attempts)
  }

  ghost predicate LiesOverOne(v: World, i: nat, attempts: seq<Attempt>)
    requires i < |v.moves|
  {
    exists k :: 0 <= k < |attempts| && LiesOver(v, i, attempts[k])
  }

  lemma {:induction false} CommitsKnown(w: World, attempts: seq<Attempt>, s: Sha)
    ensures s in w.commits && !Tried(attempts, s) ==> s in CallAll(w, attempts).commits && CallAll(w, attempts).commits[s] == w.commits[s]
    ensures s in CallAll(w, attempts).commits ==> s in w.commits || Tried(attempts, s)
  {
    if attempts != [] {
      hide Call;
      var n := |attempts| - 1;
      CommitsKnown(w, attempts[..n], s);
      var before := CallAll(w, attempts[..n]);
      CommitsGrow(before, attempts[n].head, attempts[n].env);
      OnlyOwnCommit(before, attempts[n].head, attempts[n].env, s);
      TriedNext(attempts, s);
    }
  }

  lemma TriedNext(attempts: seq<Attempt>, s: Sha)
    requires attempts != []
    ensures Tried(attempts, s) <==> Tried(attempts[..|attempts| - 1], s) || attempts[|attempts| - 1].env.sha == s
  {
    var n := |attempts| - 1;
    if Tried(attempts[..n], s) {
      var k :| 0 <= k < n && attempts[..n][k].env.sha == s;
      assert attempts[k].env.sha == s;
    }
    if Tried(attempts, s) && attempts[n].env.sha != s {
      var k :| 0 <= k < |attempts| && attempts[k].env.sha == s;
      assert attempts[..n][k].env.sha == s;
    }
  }

  lemma OnlyOwnCommit(w: World, head: Sha, env: Env, s: Sha)
    ensures s in Call(w, head, env).0.commits ==> s in w.commits || s == env.sha
  {
    hide Overlay, Buildable, Listable;
  }

  lemma {:induction false} StackNext(w: World, v: World, attempts: seq<Attempt>, a: Attempt)
    requires attempts != [] && a == attempts[|attempts| - 1] && Stacked(w, attempts[..|attempts| - 1]) && |w.moves| <= |v.moves|
    requires (forall i :: 0 <= i < |w.moves| ==> v.moves[i] == w.moves[i]) && (forall s :: s in w.commits ==> s in v.commits && v.commits[s] == w.commits[s])
    requires forall i :: |w.moves| <= i < |v.moves| ==> LiesOver(v, i, a)
    ensures Stacked(v, attempts)
  {
    hide Overlay;
    var n := |attempts| - 1;
    forall i | 0 <= i < |v.moves| ensures LiesOverOne(v, i, attempts) {
      if i < |w.moves| {
        assert LiesOverOne(w, i, attempts[..n]);
        var k :| 0 <= k < n && LiesOver(w, i, attempts[..n][k]);
        assert LiesOver(v, i, attempts[k]);
      } else {
        assert LiesOver(v, i, attempts[n]);
      }
    }
  }

  /** And what each published commit holds is the overlay of its worker's files on the tree of its predecessor, so no
      published change is undone but by the files themselves. */
  lemma {:induction false} TreesStack(w: World, attempts: seq<Attempt>)
    requires w.moves == [] && w.branch in w.commits && FreshIds(attempts) && Based(w, attempts)
    requires forall i :: 0 <= i < |attempts| ==> BranchUndisturbed(attempts[i].env) && attempts[i].env.sha !in w.commits
    ensures Stacked(CallAll(w, attempts), attempts)
  {
    if attempts != [] {
      hide Call, BranchUndisturbed, Overlay, LiesOver, Stacked;
      var n := |attempts| - 1;
      var a := attempts[n];
      TreesStack(w, attempts[..n]);
      HistoryIsLinear(w, attempts[..n]);
      var before := CallAll(w, attempts[..n]);
      BranchIsCommit(w, attempts[..n]);
      CommitsKnown(w, attempts[..n], a.env.sha);
      forall k | 0 <= k < n ensures attempts[..n][k].env.sha != a.env.sha {
        assert attempts[..n][k] == attempts[k];
      }
      CallLiesOver(before, a);
      StackNext(before, CallAll(w, attempts), attempts, a);
    } else {
      assert Stacked(w, attempts);
    }
  }

  lemma BranchIsCommit(w: World, attempts: seq<Attempt>)
    requires w.branch in w.commits && Linear(w.branch, CallAll(w, attempts)) && forall i :: 0 <= i < |attempts| ==> attempts[i].env.sha !in w.commits
    ensures CallAll(w, attempts).branch in CallAll(w, attempts).commits
  {
    CommitsKnown(w, attempts, w.branch);
  }

  lemma CallLiesOver(w: World, a: Attempt)
    requires w.branch in w.commits && a.env.sha !in w.commits && BranchUndisturbed(a.env)
    requires a.head in w.commits ==> a.env.input.base == w.commits[a.head].tree
    ensures var v := Call(w, a.head, a.env).0;
            && |w.moves| <= |v.moves| && (forall i :: 0 <= i < |w.moves| ==> v.moves[i] == w.moves[i])
            && (forall s :: s in w.commits ==> s in v.commits && v.commits[s] == w.commits[s])
            && forall i :: |w.moves| <= i < |v.moves| ==> LiesOver(v, i, a)
  {
    hide Call, Overlay;
    ReturnsIffMoved(w, a.head, a.env);
    CallExtends(w, a.head, a.env);
  }

  // ---- The index lock ----

  predicate OwnUnforged(f: Foreign, own: FileId) {
    (f.index.Some? ==> f.index.value != Some(own)) && (f.lock.Some? ==> f.lock.value != Some(own))
  }

  /** The identity of the lock file this call creates is new: no other process makes a file with it. */
  predicate OwnIsNew(w: World, env: Env) {
    && w.lock != Some(env.own) && w.index != Some(env.own)
    && OwnUnforged(env.atLock, env.own) && OwnUnforged(env.atCheck, env.own) && OwnUnforged(env.atRef, env.own)
    && OwnUnforged(env.atRename, env.own) && OwnUnforged(env.atCleanup, env.own)
  }

  lemma BodyLocks(w: World, head: Sha, env: Env)
    requires OwnIsNew(w, env)
    ensures var (v, f) := Body(w, head, env);
      && (!f.held || f.installed ==> v.lock != Some(env.own))
      && (f.held && !f.identified ==> !env.stats)
      && (f.installed <==> f.committed == Some(false))
      && (v.index == Some(env.own) ==> f.installed)
  {
  }

  /** After every exit the call's own index lock is gone: it was removed or it became the index. The only
      exceptions are faults of the file system on the lock itself: `stat` failing right after the file was
      created, or the lock being impossible to close or remove. */
  lemma LockNeverLeft(w: World, head: Sha, env: Env)
    requires OwnIsNew(w, env) && env.stats && env.closes && env.removable
    ensures Call(w, head, env).0.lock != Some(env.own)
  {
    BodyLocks(w.(temporary := true), head, env);
  }

  predicate Quiet(f: Foreign) { f == Foreign(None, None, None) }

  predicate NobodyElse(env: Env) {
    Quiet(env.atLock) && Quiet(env.atCheck) && Quiet(env.atRef) && Quiet(env.atRename) && Quiet(env.atCleanup)
  }

  /** Undisturbed, a commit is made and returned if and only if nothing on the way to it fails, nobody holds the index, all
      files can be read, and there is something to commit. */
  lemma ReturnsIff(w: World, head: Sha, env: Env)
    requires NobodyElse(env)
    ensures Call(w, head, env).1.Returned? <==>
      && env.valid && env.prepared && w.branch == head && w.lock.None? && env.opens && env.stats && Readable(env.input)
      && Overlay(env.input) != env.input.base && env.writes && env.intact && env.update == Exits(true)
  {
    hide Overlay, Buildable, Readable;
    OverlayMeans(env.input);
    ReadableIsListable(env.input);
  }

  lemma ReadableIsListable(x: Input)
    ensures Readable(x) ==> Listable(x)
  {}

  /** The call gets as far as creating the lock file. */
  ghost predicate Creates(w: World, head: Sha, env: Env) {
    env.valid && env.prepared && w.branch == head && Listable(env.input) && w.lock.None? && env.opens
  }

  /** Undisturbed, the lock stays behind if and only if it was created, did not become the index, and one of
      the three operations on it failed. In particular `stat` failing once leaks it. */
  lemma LockLeftIff(w: World, head: Sha, env: Env)
    requires OwnIsNew(w, env) && NobodyElse(env)
    ensures var (v, out) := Call(w, head, env);
      v.lock == Some(env.own) <==>
        Creates(w, head, env) && !(out.Returned? && !out.indexSync) && !(env.stats && env.closes && env.removable)
  {
    BodyLocks(w.(temporary := true), head, env);
  }

  /** A lock file that another process put there is never removed by the cleanup. */
  lemma ForeignLockKept(w: World, f: Flags, env: Env)
    requires w.lock.Some? && w.lock != Some(env.own)
    ensures Cleanup(w, f, env).0.lock == w.lock
  {
  }

  /** What a normal return says: without `index_sync_required` the index is the one built for the commit;
      without `temporary_cleanup_required` neither the lock nor the temporary directory is left. */
  lemma ReturnFlagsHonest(w: World, head: Sha, env: Env)
    requires OwnIsNew(w, env) && NobodyElse(env)
    ensures var (v, out) := Call(w, head, env);
      out.Returned? ==>
        && (!out.indexSync <==> v.index == Some(env.own))
        && (out.indexSync ==> v.index == w.index)
        && (!out.cleanupRequired <==> v.lock.None? && !v.temporary)
  {
    BodyLocks(w.(temporary := true), head, env);
  }

  // ---- The code ----

  /** One call over the registered checkout. The fields are the files and refs; the flags of the call are
      kept beside them, as the `finally` block reads them. */
  class Checkout {
    var branch: Sha
    var commits: map<Sha, Commit>
    var index: Option<FileId>
    var lock: Option<FileId>
    var temporary: bool
    var moves: seq<(Sha, Sha)>

    ghost function Value(): World
      reads this
    {
      World(branch, commits, index, lock, temporary, moves)
    }

    method Disturb(f: Foreign)
      modifies this
      ensures Value() == Meddle(old(Value()), f)
    {
      if f.branch.Some? { branch := f.branch.value; }
      if f.index.Some? { index := f.index.value; }
      if f.lock.Some? { lock := f.lock.value; }
    }

    method CommitRestrictedWorkerChanges(head: Sha, env: Env) returns (out: Outcome)
      requires Listed(env.input)
      modifies this
      ensures (Value(), out) == Call(old(Value()), head, env)
      ensures out.Returned? ==> out.sha in commits && OverlaysDisk(env.input, commits[out.sha].tree) && commits[out.sha].parent == head
    {
      PublishedOverlaysDisk(Value(), head, env);
      ReturnsIffMoved(Value(), head, env);
      if !env.valid { return Threw; }
      temporary := true;
      var flags := TryCommit(head, env);
      Disturb(env.atCleanup);
      var ok := CleanUp(flags, env);
      out := if flags.committed.Some? then Returned(env.sha, flags.committed.value, !ok) else Threw;
    }

    /** The `try` block up to taking the lock. */
    method TryCommit(head: Sha, env: Env) returns (flags: Flags)
      requires Listed(env.input)
      modifies this
      ensures (Value(), flags) == Body(old(Value()), head, env)
    {
      flags := NOTHING;
      if !env.prepared || branch != head { return; }
      var entries := CollectEntries(env.input);
      if entries.None? { return; }
      Disturb(env.atLock);
      if lock.Some? || !env.opens { return; }
      lock := Some(env.own);
      flags := flags.(held := true);
      if !env.stats { return; }
      flags := BuildAndPublish(head, env, entries.value);
    }

    method BuildAndPublish(head: Sha, env: Env, entries: seq<Path>) returns (flags: Flags)
      requires Listable(env.input) && forall p :: p in entries <==> p in env.input.base || p in env.input.untracked
      modifies this
      ensures (Value(), flags) == Locked(old(Value()), head, env)
    {
      flags := NOTHING.(held := true, identified := true);
      var originalIndex := index;
      var updates := CollectUpdates(env.input, entries);
      if updates.None? { return; }
      OverlayReached(env.input, updates.value);
      var tree := Apply(env.input.base, updates.value);
      if tree == env.input.base { return; }
      commits := commits[env.sha := Commit(tree, head)];
      Disturb(env.atCheck);
      if !env.writes || lock != Some(env.own) || !env.intact || index != originalIndex { return; }
      Disturb(env.atRef);
      flags := UpdateRef(head, env);
    }

    method UpdateRef(head: Sha, env: Env) returns (flags: Flags)
      modifies this
      ensures (Value(), flags) == Publish(old(Value()), head, env)
    {
      flags := NOTHING.(held := true, identified := true);
      var takes := branch == head && (if env.update.NoStatus? then env.update.applied else env.update.lockable);
      if takes {
        branch := env.sha;
        moves := moves + [(head, env.sha)];
      }
      if env.update.NoStatus? || !takes { return; }
      flags := flags.(committed := Some(true));
      Disturb(env.atRename);
      if env.renames && lock.Some? {
        index, lock := lock, None;
        flags := flags.(installed := true, committed := Some(false));
      }
    }

    /** The `finally` block: false when it stopped with an error of its own. */
    method CleanUp(flags: Flags, env: Env) returns (ok: bool)
      modifies this
      ensures (Value(), ok) == Cleanup(old(Value()), flags, env)
    {
      if flags.held {
        if !env.closes { return false; }
        if !flags.installed && flags.identified && lock.Some? {
          if lock != Some(env.own) || !env.removable { return false; }
          lock := None;
        }
      }
      if !env.temporaryRemovable { return false; }
      temporary := false;
      return true;
    }
  }
}
