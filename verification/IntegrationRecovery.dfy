/** How one integration call ends, and that integration survives crashes and failures between its steps. */
module IntegrationRecovery {
  import opened Wrappers
  import opened IntegrationCandidates

  // ---- The outcome of one call ----

  /** The checks of `finishCandidateCheckout`, and `git read-tree` while the index is still the old one. */
  predicate Finishable(o: Objects, c: Candidate, r: Repo, env: Env)
    requires c.candidateSha.Some?
  {
    Inspected(o, c, r) && (r.index == o.tree(c.targetSha) && !StopsInReadTree(env.stop) ==> env.readTree)
  }

  /** A command behind the branch update, the store or the closing view throws, or the update itself takes effect
      without a status; `unread`: the index is still that of the target, so that `git read-tree` is run. */
  predicate ThrowsBehindMove(stop: Stop, unread: bool) {
    stop.At? && !stop.dies && (stop.point == AfterRef || stop.point == AfterIndex || stop.point == AfterMark || (unread && stop.point.InReadTree?))
  }

  /** Why a call fails although the branch is at the candidate commit, told from the checkout it finds there. */
  predicate FailsBehindMove(o: Objects, c: Candidate, found: Repo, env: Env)
    requires c.candidateSha.Some?
  {
    || ThrowsBehindMove(env.stop, found.index == o.tree(c.targetSha))
    || (!StopsAt(env.stop, AfterRef) && !Finishable(o, c, found, env))
  }

  /** The checkout a call finds behind its move. */
  function Found(w: World, env: Env): Repo {
    if env.beforeFinish.Some? then env.beforeFinish.value else Meddled(w, env.beforeRef).repo
  }

  /** The checkout is on the target branch and its index and files are those of commit `sha`. */
  predicate CheckedOut(o: Objects, c: Candidate, r: Repo, sha: Sha) {
    r.head == Some(c.branch) && DiffFilesQuiet(r) && r.index == o.tree(sha)
  }

  /** The integration was recorded in this call, over a finished checkout. */
  predicate Recorded(o: Objects, w: World, v: World, id: Id, sha: Sha) {
    && id in v.candidates && v.candidates[id].state == Integrated && v.candidates[id].candidateSha == Some(sha)
    && CheckedOut(o, v.candidates[id], v.repo, sha) && v.marks == w.marks + [id]
  }

  /** What a call says about its outcome. */
  predicate Explained(o: Objects, w: World, v: World, out: Outcome, id: Id, sha: Sha, env: Env) {
    && (out == Done && (id in w.candidates ==> w.candidates[id].state != Integrated) ==> Recorded(o, w, v, id, sha))
    && (v.marks != w.marks ==> Recorded(o, w, v, id, sha) && (out == Done || (StopsAt(env.stop, AfterMark) && out == Ended(env.stop))))
    && (v.moves != w.moves ==>
          && id in w.candidates && w.candidates[id].candidateSha == Some(sha) && id in v.candidates
          && |v.moves| == |w.moves| + 1 && v.moves[..|w.moves|] == w.moves
          && (out == Refused <==> FailsBehindMove(o, w.candidates[id], Found(w, env), env))
          && (out == Refused ==> v.candidates[id].state == if v.marks == w.marks then Integrating else Integrated))
  }

  lemma FinishExplained(o: Objects, w: World, id: Id, env: Env)
    requires id in w.candidates && w.candidates[id].candidateSha.Some?
    ensures var (v, out) := FinishAndMark(o, w, id, env);
      && v.moves == w.moves && v.repo.refs == w.repo.refs
      && (out == Refused <==> FailsBehindMove(o, w.candidates[id], w.repo, env))
      && (v.marks == w.marks ==> v.candidates == w.candidates && out != Done)
      && (v.marks != w.marks ==>
            Recorded(o, w, v, id, w.candidates[id].candidateSha.value) && (out == Done || (StopsAt(env.stop, AfterMark) && out == Ended(env.stop))))
  {
    var c := w.candidates[id];
    assert w.marks + [id] != w.marks;
  }

  lemma InstallExplained(o: Objects, w: World, id: Id, env: Env)
    requires id in w.candidates && w.candidates[id].candidateSha.Some? && w.candidates[id].state == Integrating
    ensures var (v, out) := Install(o, w, id, env); Explained(o, w, v, out, id, w.candidates[id].candidateSha.value, env)
  {
    hide FinishAndMark, FailsBehindMove, CheckedOut;
    var c, seen := w.candidates[id], Meddled(w, env.beforeRef);
    if c.branch in seen.repo.refs && seen.repo.refs[c.branch] == c.targetSha {
      var moved := Meddled(Moved(seen, id, c), env.beforeFinish);
      FinishExplained(o, moved, id, env);
      SameFound(o, c, moved.repo, Found(w, env), env);
    }
  }

  /** The branches are not among the checks. */
  lemma SameFound(o: Objects, c: Candidate, r: Repo, found: Repo, env: Env)
    requires c.candidateSha.Some? && r == found.(refs := r.refs)
    ensures FailsBehindMove(o, c, r, env) <==> FailsBehindMove(o, c, found, env)
  {
  }

  /** Nor is the state of the candidate. */
  lemma SameCandidate(o: Objects, c: Candidate, d: Candidate, r: Repo, env: Env)
    requires c.candidateSha.Some? && d == c.(state := d.state)
    ensures FailsBehindMove(o, c, r, env) <==> FailsBehindMove(o, d, r, env)
  {
  }

  lemma AcceptedExplained(o: Objects, w: World, id: Id, sha: Sha, target: Sha, run: Id, env: Env)
    requires id in w.candidates
    ensures var (v, out) := IntegrateAccepted(o, w, id, sha, target, run, env); Explained(o, w, v, out, id, sha, env)
  {
    hide CanIntegrate, Install, FailsBehindMove, CheckedOut;
    var c := w.candidates[id];
    if c.candidateSha == Some(sha) {
      InstallExplained(o, Save(w, id, c.(state := Integrating)), id, env);
      SameCandidate(o, c, c.(state := Integrating), Found(w, env), env);
    }
  }

  /** A call that returns leaves the target checked out at the candidate commit and recorded once; one that does not
      return has recorded something only if it was stopped behind the record. A call that has moved the branch fails
      if and only if the checkout it finds behind the move fails the checks or `git read-tree`, or something behind the
      update throws; the candidate then stays `integrating`, unless the record was already made. */
  lemma IntegrateExplained(o: Objects, w: World, id: Id, sha: Sha, target: Sha, run: Id, env: Env)
    ensures var (v, out) := Integrate(o, w, id, sha, target, run, env); Explained(o, w, v, out, id, sha, env)
  {
    hide IntegrateAccepted, FinishAndMark, CanIntegrate, FailsBehindMove, CheckedOut;
    if id in w.candidates {
      var c := w.candidates[id];
      if c.state != Integrating {
        AcceptedExplained(o, w, id, sha, target, run, env);
      } else if c.candidateSha == Some(sha) {
        FinishExplained(o, Meddled(w, env.beforeFinish), id, env);
        AcceptedExplained(o, Save(w, id, c.(state := Prepared)), id, sha, target, run, env);
        SameCandidate(o, c, c.(state := Prepared), Found(w, env), env);
      }
    }
  }

  // ---- Calls without interference ----

  /** Nobody touches the repository during the call, `git read-tree` does not refuse, and everything behind the branch
      update works. */
  predicate Smooth(env: Env) {
    env.beforeRef.None? && env.beforeFinish.None? && env.readTree && !ThrowsBehindMove(env.stop, true)
  }

  /** Nothing keeps a clean checkout from being finished: no file was touched, and nobody holds the index. */
  predicate Untouched(r: Repo) { r.statClean && !r.locked }

  lemma FinishQuiet(o: Objects, w: World, id: Id, env: Env)
    requires id in w.candidates && w.candidates[id].candidateSha.Some? && Smooth(env)
    ensures var (v, out) := FinishAndMark(o, w, id, env); out == Refused ==> v == w
  {
  }

  lemma InstallQuiet(o: Objects, w: World, id: Id, env: Env)
    requires id in w.candidates && w.candidates[id].candidateSha.Some? && w.candidates[id].state == Integrating
    requires Smooth(env) && Untouched(w.repo)
    requires w.repo.head == Some(w.candidates[id].branch) && HeadSha(w.repo) == Some(w.candidates[id].targetSha) && !TargetDirty(o, w.repo)
    ensures var (v, out) := Install(o, w, id, env); out == Refused ==> v == w
  {
  }

  lemma AcceptedQuiet(o: Objects, w: World, id: Id, sha: Sha, target: Sha, run: Id, env: Env)
    requires id in w.candidates && Smooth(env) && Untouched(w.repo)
    ensures var (v, out) := IntegrateAccepted(o, w, id, sha, target, run, env);
      out == Refused ==> v.repo == w.repo && v.moves == w.moves && v.marks == w.marks
  {
    hide Install, CanIntegrate;
    var c := w.candidates[id];
    if c.candidateSha == Some(sha) && c.targetSha == target && HeadSha(w.repo) == Some(target) && !TargetDirty(o, w.repo) && w.repo.head == Some(c.branch) {
      InstallQuiet(o, Save(w, id, c.(state := Integrating)), id, env);
    }
  }

  /** Without a foreign change inside the call, over files nobody has touched and an index nobody holds, and with
      commands that work behind the branch update, a call that fails has not touched the target at all. */
  lemma RefusalLeavesTarget(o: Objects, w: World, id: Id, sha: Sha, target: Sha, run: Id, env: Env)
    requires Smooth(env) && Untouched(w.repo)
    ensures var (v, out) := Integrate(o, w, id, sha, target, run, env);
      out == Refused ==> v.repo == w.repo && v.moves == w.moves && v.marks == w.marks
  {
    hide IntegrateAccepted, FinishAndMark;
    if id in w.candidates {
      var c := w.candidates[id];
      AcceptedQuiet(o, w, id, sha, target, run, env);
      AcceptedQuiet(o, Save(w, id, c.(state := Prepared)), id, sha, target, run, env);
      if c.candidateSha.Some? { FinishQuiet(o, w, id, env); }
    }
  }

  // ---- Calls that stay blocked ----

  /** A candidate between branch and checkout: the branch is at its commit, and the checkout fails the checks. */
  predicate Blocked(o: Objects, w: World, id: Id, c: Candidate) {
    && c.candidateSha.Some? && c.verification.Some? && c.state == Integrating && id in w.candidates && w.candidates[id] == c
    && HeadSha(w.repo) == c.candidateSha && !Inspected(o, c, w.repo)
  }

  function Attempts(o: Objects, w: World, id: Id, c: Candidate, envs: seq<Env>): (World, Outcome)
    requires c.candidateSha.Some? && c.verification.Some?
  {
    if envs == [] then (w, Died)
    else
      var (before, _) := Attempts(o, w, id, c, envs[..|envs| - 1]);
      Integrate(o, before, id, c.candidateSha.value, c.targetSha, c.verification.value, envs[|envs| - 1])
  }

  /** Then no attempt with the same versions succeeds or changes anything, however often it is repeated, until somebody
      else changes the checkout: the calls read the index, and never refresh or unlock it. */
  lemma {:induction false} BlockedUntilChanged(o: Objects, w: World, id: Id, c: Candidate, envs: seq<Env>)
    requires Blocked(o, w, id, c) && forall i :: 0 <= i < |envs| ==> envs[i].beforeFinish.None?
    ensures var (v, out) := Attempts(o, w, id, c, envs); v == w && out != Done
  {
    if envs != [] {
      assert forall i :: 0 <= i < |envs| - 1 ==> envs[..|envs| - 1][i] == envs[i];
      BlockedUntilChanged(o, w, id, c, envs[..|envs| - 1]);
      hide Inspected, IntegrateAccepted;
    }
  }

  // ---- Concrete calls that fail behind the move ----

  const OBJECTS := Objects(s => s, (a, b) => true)
  const ACCEPTED := Candidate(1, 6, 7, 0, 1, 2, 2, Some(8), Prepared, Some(3), Some(8), Some(1), Some(1), None)

  const HALFWAY := At(InReadTree(Left(false, false, false, true)), true)

  /** An accepted candidate whose target is clean as far as `git status` tells. */
  function Start(statClean: bool): World {
    World(map[0 := ACCEPTED], map[0 := [Verification(3, 8, 1, Passed)]],
          Repo(Some(0), map[0 := 7], 7, true, statClean, false, false, false), [], [])
  }

  function Quiet(readTree: bool, stop: Stop): Env {
    Env(Facts(true, false, 1, 6, 1, 7, true, Some(2), Some(Review(2, true, true))), Checkout(8, false, false, None, true, 8),
        true, 1, None, None, readTree, stop)
  }

  const UNDERWAY := ACCEPTED.(state := Integrating)

  /** The branch is at the commit, the candidate `integrating`, nothing is recorded, and the checkout is as it is left. */
  function BehindMove(index: Tree, filesMatch: bool, statClean: bool, locked: bool): World {
    World(map[0 := UNDERWAY], map[0 := [Verification(3, 8, 1, Passed)]],
          Repo(Some(0), map[0 := 8], index, filesMatch, statClean, locked, false, false),
          [Move(0, UNDERWAY, map[0 := 7], 7, 8)], [])
  }

  lemma StartInstalls(statClean: bool, env: Env)
    requires env == Quiet(env.readTree, env.stop) && !StopsAt(env.stop, InFront) && !StopsAt(env.stop, AfterIntegrating)
    ensures Integrate(OBJECTS, Start(statClean), 0, 8, 7, 3, env) == FinishAndMark(OBJECTS, BehindMove(7, true, statClean, false), 0, env)
  {
    hide FinishAndMark;
    var w := Start(statClean);
    assert CanIntegrate(w, 0, ACCEPTED, env.facts, env.checkout);
    assert w.candidates[0 := UNDERWAY] == map[0 := UNDERWAY] && w.repo.refs[0 := 8] == map[0 := 8];
    assert Moved(Save(w, 0, UNDERWAY), 0, UNDERWAY) == BehindMove(7, true, statClean, false);
  }

  /** `git read-tree -u` refuses, for example over an ignored file, behind the move. */
  lemma RefusedAfterMoveExample()
    ensures Integrate(OBJECTS, Start(true), 0, 8, 7, 3, Quiet(false, Nowhere)) == (BehindMove(7, true, true, false), Refused)
  {
    StartInstalls(true, Quiet(false, Nowhere));
    hide Integrate;
  }

  /** A tracked file was touched, or saved again with the same content: `git status` calls the target clean, the branch
      moves, `git diff-files` does not agree, and every retry is refused as well. */
  lemma {:induction false} TouchedFileExample(envs: seq<Env>)
    requires forall i :: 0 <= i < |envs| ==> envs[i].beforeFinish.None?
    ensures !TargetDirty(OBJECTS, Start(false).repo)
    ensures Integrate(OBJECTS, Start(false), 0, 8, 7, 3, Quiet(true, Nowhere)) == (BehindMove(7, true, false, false), Refused)
    ensures var (v, out) := Attempts(OBJECTS, BehindMove(7, true, false, false), 0, UNDERWAY, envs);
      v == BehindMove(7, true, false, false) && out != Done
  {
    StartInstalls(false, Quiet(true, Nowhere));
    hide Integrate, Attempts;
    BlockedUntilChanged(OBJECTS, BehindMove(7, true, false, false), 0, UNDERWAY, envs);
  }

  /** The process dies inside `git read-tree`, which leaves its lock: retries are refused until somebody removes it. */
  lemma {:induction false} DiedInReadTreeExample(envs: seq<Env>)
    requires forall i :: 0 <= i < |envs| ==> envs[i].beforeFinish.None?
    ensures Integrate(OBJECTS, Start(true), 0, 8, 7, 3, Quiet(true, HALFWAY)) == (BehindMove(7, false, false, true), Died)
    ensures var (v, out) := Attempts(OBJECTS, BehindMove(7, false, false, true), 0, UNDERWAY, envs);
      v == BehindMove(7, false, false, true) && out != Done
  {
    StartInstalls(true, Quiet(true, HALFWAY));
    hide Integrate, Attempts;
    BlockedUntilChanged(OBJECTS, BehindMove(7, false, false, true), 0, UNDERWAY, envs);
  }

  // ---- Crashes and failures ----

  /** What an accepted candidate and its target must be for integration to start; `c` is `prepared`. */
  predicate Ready(o: Objects, w: World, id: Id, c: Candidate) {
    && id in w.candidates && w.candidates[id] == c && c.state == Prepared && c.candidateSha.Some? && c.verification.Some?
    && o.ancestor(c.targetSha, c.candidateSha.value)
    && Steady(w.repo, c) && w.repo.refs[c.branch] == c.targetSha && w.repo.index == o.tree(c.targetSha)
  }

  predicate Steady(r: Repo, c: Candidate) {
    r.head == Some(c.branch) && DiffFilesQuiet(r) && !r.locked && !r.untracked && !r.merging && c.branch in r.refs
  }

  function TheMove(start: World, id: Id, c: Candidate): Move
    requires c.candidateSha.Some?
  {
    Move(id, c.(state := Integrating), start.repo.refs, c.targetSha, c.candidateSha.value)
  }

  /** Every state a crash or a failure can leave: before the branch moved, between the branch and the index, before
      the record, or after it. */
  predicate Underway(o: Objects, start: World, w: World, id: Id, c: Candidate)
    requires c.candidateSha.Some?
  {
    && id in w.candidates && Steady(w.repo, c) && w.runs == start.runs
    && (BeforeMove(o, start, w, id, c) || AfterMove(o, start, w, id, c) || Finished(o, start, w, id, c))
  }

  predicate BeforeMove(o: Objects, start: World, w: World, id: Id, c: Candidate) {
    && id in w.candidates && (w.candidates[id] == c || w.candidates[id] == c.(state := Integrating))
    && w.repo == start.repo && w.moves == start.moves && w.marks == start.marks
  }

  predicate AfterMove(o: Objects, start: World, w: World, id: Id, c: Candidate)
    requires c.candidateSha.Some?
  {
    && id in w.candidates && w.candidates[id] == c.(state := Integrating)
    && w.repo.refs == start.repo.refs[c.branch := c.candidateSha.value]
    && (w.repo.index == o.tree(c.targetSha) || w.repo.index == o.tree(c.candidateSha.value))
    && w.marks == start.marks
    && (w.moves == start.moves + [TheMove(start, id, c)] || (c.candidateSha == Some(c.targetSha) && w.moves == start.moves))
  }

  /** The end: integrated, recorded once, the branch at the candidate commit, the index its tree, and the
      branch moved once (not at all for a candidate whose commit is the target itself). */
  predicate Finished(o: Objects, start: World, w: World, id: Id, c: Candidate)
    requires c.candidateSha.Some?
  {
    && id in w.candidates && w.candidates[id].integratedAt.Some?
    && w.candidates[id] == c.(state := Integrated, integratedAt := w.candidates[id].integratedAt)
    && w.repo.refs == start.repo.refs[c.branch := c.candidateSha.value]
    && CheckedOut(o, c, w.repo, c.candidateSha.value)
    && w.marks == start.marks + [id]
    && (w.moves == start.moves + [TheMove(start, id, c)] || (c.candidateSha == Some(c.targetSha) && w.moves == start.moves))
  }

  predicate AtTarget(w: World, id: Id, c: Candidate) {
    id in w.candidates && w.candidates[id].state != Integrated && HeadSha(w.repo) == Some(c.targetSha)
  }

  /** Nobody else touches the target during the call, and `git read-tree` does not refuse; the call may be cut short
      anywhere, but inside `git read-tree` only so that files and index stay clean. While the branch is still at the
      target, what the call sees of source and candidate is what was accepted. */
  predicate Undisturbed(w: World, env: Env, id: Id, c: Candidate) {
    && env.idle && env.readTree && env.beforeRef.None? && env.beforeFinish.None?
    && (StopsInReadTree(env.stop) ==> CleanLeft(env.stop.point.left))
    && (AtTarget(w, id, c) ==> CanIntegrate(w, id, c, env.facts, env.checkout))
  }

  predicate CleanLeft(left: Left) { left.filesMatch && left.statClean && !left.locked }

  /** How an attempt ends: it returns and is finished, or it was cut short. */
  predicate Survives(o: Objects, start: World, v: World, out: Outcome, id: Id, c: Candidate, env: Env)
    requires c.candidateSha.Some?
  {
    && Underway(o, start, v, id, c) && (out == Done ==> Finished(o, start, v, id, c))
    && (out != Done ==> env.stop.At? && out == Ended(env.stop))
  }

  lemma RecordStep(o: Objects, start: World, w: World, id: Id, c: Candidate, env: Env)
    requires c.candidateSha.Some? && Steady(w.repo, c) && w.runs == start.runs
    requires AfterMove(o, start, w, id, c) && w.repo.index == o.tree(c.candidateSha.value)
    ensures var (v, out) := Record(w, id, env); Survives(o, start, v, out, id, c, env)
  {
  }

  lemma FinishStep(o: Objects, start: World, w: World, id: Id, c: Candidate, env: Env)
    requires c.candidateSha.Some? && Steady(w.repo, c) && w.runs == start.runs && env.readTree
    requires AfterMove(o, start, w, id, c) && (StopsInReadTree(env.stop) ==> CleanLeft(env.stop.point.left))
    ensures var (v, out) := FinishAndMark(o, w, id, env); Survives(o, start, v, out, id, c, env)
  {
    hide Record;
    if !StopsAt(env.stop, AfterRef) {
      if w.repo.index != o.tree(c.targetSha) {
        RecordStep(o, start, w, id, c, env);
      } else if !StopsInReadTree(env.stop) {
        RecordStep(o, start, w.(repo := w.repo.(index := o.tree(c.candidateSha.value))), id, c, env);
      }
    }
  }

  lemma InstallStep(o: Objects, start: World, w: World, id: Id, c: Candidate, env: Env)
    requires Ready(o, start, id, c) && w.runs == start.runs && Undisturbed(w, env, id, c)
    requires BeforeMove(o, start, w, id, c) && w.candidates[id].state == Integrating
    ensures var (v, out) := Install(o, w, id, env); Survives(o, start, v, out, id, c, env)
  {
    hide FinishAndMark;
    if !StopsAt(env.stop, AfterIntegrating) {
      var moved := Moved(w, id, w.candidates[id]);
      assert AfterMove(o, start, moved, id, c);
      FinishStep(o, start, moved, id, c, env);
    }
  }

  lemma AcceptedStep(o: Objects, start: World, w: World, id: Id, c: Candidate, env: Env)
    requires Ready(o, start, id, c) && w.runs == start.runs && Undisturbed(w, env, id, c)
    requires BeforeMove(o, start, w, id, c) && w.candidates[id].state == Prepared
    ensures var (v, out) := IntegrateAccepted(o, w, id, c.candidateSha.value, c.targetSha, c.verification.value, env);
      Survives(o, start, v, out, id, c, env)
  {
    hide Install;
    var saved := Save(w, id, c.(state := Integrating));
    assert BeforeMove(o, start, saved, id, c);
    InstallStep(o, start, saved, id, c, env);
  }

  lemma IntegratingStep(o: Objects, start: World, w: World, id: Id, c: Candidate, env: Env)
    requires Ready(o, start, id, c) && Underway(o, start, w, id, c) && Undisturbed(w, env, id, c) && w.candidates[id].state == Integrating
    requires !StopsAt(env.stop, InFront)
    ensures var (v, out) := Integrate(o, w, id, c.candidateSha.value, c.targetSha, c.verification.value, env);
      Survives(o, start, v, out, id, c, env)
  {
    hide IntegrateAccepted, FinishAndMark;
    if HeadSha(w.repo) == c.candidateSha {
      assert AfterMove(o, start, w, id, c) by {
        if BeforeMove(o, start, w, id, c) { assert start.repo.refs[c.branch := c.targetSha] == start.repo.refs; }
      }
      FinishStep(o, start, w, id, c, env);
    } else {
      var prepared := Save(w, id, c);
      assert BeforeMove(o, start, prepared, id, c);
      if !StopsAt(env.stop, AfterPrepared) { AcceptedStep(o, start, prepared, id, c, env); }
    }
  }

  /** One attempt with the same versions, from any state a crash or a failure can leave: it ends in such a state again,
      and unless it was cut short itself it returns and the candidate is integrated. */
  lemma AttemptStep(o: Objects, start: World, w: World, id: Id, c: Candidate, env: Env)
    requires Ready(o, start, id, c) && Underway(o, start, w, id, c) && Undisturbed(w, env, id, c)
    ensures var (v, out) := Integrate(o, w, id, c.candidateSha.value, c.targetSha, c.verification.value, env);
      Survives(o, start, v, out, id, c, env)
  {
    if !StopsAt(env.stop, InFront) {
      if w.candidates[id].state == Integrating { IntegratingStep(o, start, w, id, c, env); }
      else if w.candidates[id].state == Prepared { AcceptedStep(o, start, w, id, c, env); }
    }
  }

  // ---- Any number of crashes and failures ----

  predicate AllUndisturbed(o: Objects, w: World, id: Id, c: Candidate, envs: seq<Env>)
    requires c.candidateSha.Some? && c.verification.Some?
  {
    envs != [] ==>
      && AllUndisturbed(o, w, id, c, envs[..|envs| - 1])
      && Undisturbed(Attempts(o, w, id, c, envs[..|envs| - 1]).0, envs[|envs| - 1], id, c)
  }

  /** Integration survives any number of crashes and failing commands between its steps: as soon as an attempt with the
      same versions is not cut short the candidate is integrated, recorded once, the branch is at its commit, the
      index is its tree, and the branch was moved once over all attempts. The process may also die inside `git
      read-tree` if that leaves files and index clean; otherwise see `DiedInReadTreeExample`. */
  lemma {:induction false} CrashesAreSurvived(o: Objects, w: World, id: Id, c: Candidate, envs: seq<Env>)
    requires Ready(o, w, id, c) && AllUndisturbed(o, w, id, c, envs)
    ensures var (v, out) := Attempts(o, w, id, c, envs);
      && Underway(o, w, v, id, c) && (out == Done ==> Finished(o, w, v, id, c))
      && (envs != [] && envs[|envs| - 1].stop == Nowhere ==> out == Done)
  {
    hide Integrate;
    if envs != [] {
      var rest := envs[..|envs| - 1];
      CrashesAreSurvived(o, w, id, c, rest);
      AttemptStep(o, w, Attempts(o, w, id, c, rest).0, id, c, envs[|envs| - 1]);
    }
  }
}
