/** The runtime as written: each operation saves changed records and runs Git commands step by step.
    Every method is proved to produce exactly the state its specification function gives. */
module IntegrationRuntime {
  import opened Wrappers
  import opened IntegrationCandidates

  class Runtime {
    const objects: Objects
    var candidates: map<Id, Candidate>
    var runs: map<Id, seq<Verification>>
    var repo: Repo
    var moves: seq<Move>
    var marks: seq<Id>

    ghost function Value(): World
      reads this
    {
      World(candidates, runs, repo, moves, marks)
    }

    /** Starting the runtime: a preparation that was interrupted becomes a failed one. */
    constructor (o: Objects, stored: map<Id, Candidate>, storedRuns: map<Id, seq<Verification>>, r: Repo, history: seq<Move>, recorded: seq<Id>)
      ensures objects == o && Value() == After(o, World(stored, storedRuns, r, history, recorded), Restart)
    {
      objects, candidates, runs, repo, moves, marks := o, stored, storedRuns, r, history, recorded;
      new;
      FailInterrupted();
    }

    method FailInterrupted()
      modifies this`candidates
      ensures candidates == map id | id in old(candidates) :: Interrupted(old(candidates)[id])
    {
      ghost var stored := candidates;
      var table, left := candidates, candidates.Keys;
      while left != {}
        invariant left <= stored.Keys && table.Keys == stored.Keys
        invariant forall id :: id in stored ==> table[id] == if id in left then stored[id] else Interrupted(stored[id])
        decreases |left|
      {
        var id :| id in left;
        if table[id].state == Preparing { table := table[id := table[id].(state := Failed)]; }
        left := left - {id};
      }
      candidates := table;
    }

    method Store(id: Id, c: Candidate)
      modifies this`candidates
      ensures Value() == Save(old(Value()), id, c)
    {
      candidates := candidates[id := c];
    }

    method Prepare(id: Id, f: Facts, merge: MergeResult, dies: bool)
      modifies this`candidates
      ensures Value() == Handle(objects, old(Value()), id, f, merge, dies)
    {
      if id !in candidates || candidates[id].state != Queued { return; }
      var c := candidates[id];
      if !Fresh(c, f) {
        Store(id, c.(state := Stale));
        return;
      }
      Store(id, c.(state := Preparing));
      if dies { return; }
      var conflicted, sha := false, None;
      if merge.MergeConflicts? {
        conflicted := true;
      } else if merge.Merged? {
        sha := FinishCandidate(c, merge.k);
      }
      if conflicted {
        Store(id, c.(state := Conflicted, candidateSha := None));
      } else if sha.Some? {
        Store(id, c.(state := Prepared, candidateSha := sha));
      } else {
        Store(id, c.(state := Failed));
      }
    }

    method FinishCandidate(c: Candidate, k: Checkout) returns (sha: Option<Sha>)
      ensures sha == FinishGit(objects, c, k)
    {
      if k.conflicts { return None; }
      var head := k.head;
      if k.mergeHead.Some? {
        if k.mergeHead.value != c.sourceSha || k.head != c.targetSha || !k.commits { return None; }
        head := k.headAfter;
      }
      var parents, i := [c.sourceSha, c.targetSha], 0;
      while i < |parents|
        invariant 0 <= i <= 2
        invariant forall j :: 0 <= j < i ==> objects.ancestor(parents[j], head)
      {
        if !objects.ancestor(parents[i], head) { return None; }
        i := i + 1;
      }
      assert objects.ancestor(parents[0], head) && objects.ancestor(parents[1], head);
      return Some(head);
    }

    method ContinueCandidate(id: Id, f: Facts, k: Checkout)
      modifies this`candidates
      ensures Value() == Continue(objects, old(Value()), id, f, k)
    {
      if id !in candidates { return; }
      var c := candidates[id];
      if (c.state != Conflicted && c.state != Failed) || !Fresh(c, f) { return; }
      var sha := FinishCandidate(c, k);
      if sha.Some? {
        Store(id, c.(state := Prepared, candidateSha := sha, acceptedAt := None, reviewSha := None, reviewedAt := None, verification := None));
      }
    }

    method Review(id: Id, sha: Sha, f: Facts, k: Checkout, now: nat)
      modifies this`candidates
      ensures Value() == ReviewCandidate(old(Value()), id, sha, f, k, now)
    {
      if id !in candidates { return; }
      var c := candidates[id];
      if c.candidateSha != Some(sha) || c.state != Prepared || !Fresh(c, f) || CheckoutDirty(c, k) { return; }
      Store(id, c.(reviewSha := Some(sha), reviewedAt := Some(now), acceptedAt := None));
    }

    /** `view`: whether the candidate can be accepted and integrated, and its newest verification. */
    method View(id: Id, f: Facts, k: Checkout) returns (accept: bool, integrate: bool, run: Option<Id>)
      requires id in candidates
      ensures accept == (Eligible(Value(), id, candidates[id], f, k) && candidates[id].acceptedAt.None?)
      ensures integrate == CanIntegrate(Value(), id, candidates[id], f, k)
      ensures run == if Latest(Value(), id).Some? then Some(Latest(Value(), id).value.id) else None
    {
      var c := candidates[id];
      var newest := if id in runs && runs[id] != [] then Some(runs[id][0]) else None;
      var eligible := c.state == Prepared && Fresh(c, f) && !CheckoutDirty(c, k) && c.candidateSha.Some? && newest.Some?
        && newest.value.state == Passed && Some(newest.value.headSha) == c.candidateSha && newest.value.revision == c.revision
        && c.reviewSha == c.candidateSha && c.reviewedAt.Some?;
      accept := eligible && c.acceptedAt.None?;
      integrate := eligible && c.acceptedAt.Some? && c.verification == Some(newest.value.id);
      run := if newest.Some? then Some(newest.value.id) else None;
    }

    method AcceptCandidate(id: Id, sha: Sha, run: Id, f: Facts, k: Checkout, now: nat)
      modifies this`candidates
      ensures Value() == Accept(old(Value()), id, sha, run, f, k, now)
    {
      if id !in candidates { return; }
      var c := candidates[id];
      var canAccept, canIntegrate, newest := View(id, f, k);
      if c.candidateSha != Some(sha) || (!canAccept && !canIntegrate) || newest != Some(run) { return; }
      Store(id, c.(verification := Some(run), acceptedAt := if c.acceptedAt.Some? then c.acceptedAt else Some(now)));
    }

    /** `finishCandidateCheckout`; `Done` when it returns. */
    method FinishTarget(c: Candidate, env: Env) returns (out: Outcome)
      requires c.candidateSha.Some?
      modifies this`repo
      ensures var r := old(repo);
        if StopsAt(env.stop, AfterRef) then out == Ended(env.stop) && repo == r
        else if !Inspected(objects, c, r) then out == Refused && repo == r
        else if r.index != objects.tree(c.targetSha) then out == Done && repo == r
        else if StopsInReadTree(env.stop) then out == Ended(env.stop) && repo == LeftBy(objects, c, r, env.stop.point.left)
        else if !env.readTree then out == Refused && repo == r
        else out == Done && repo == r.(index := objects.tree(c.candidateSha.value))
    {
      if StopsAt(env.stop, AfterRef) { return Ended(env.stop); }
      if repo.head != Some(c.branch) { return Refused; }
      if repo.locked { return Refused; }
      var before, after := objects.tree(c.targetSha), objects.tree(c.candidateSha.value);
      if repo.index != before && repo.index != after { return Refused; }
      if !repo.filesMatch || !repo.statClean { return Refused; }
      if repo.index == before {
        if StopsInReadTree(env.stop) {
          repo := LeftBy(objects, c, repo, env.stop.point.left);
          return Ended(env.stop);
        }
        if !env.readTree { return Refused; }
        repo := repo.(index := after);
      }
      return Done;
    }

    method Mark(id: Id, now: nat)
      requires id in candidates
      modifies this`candidates, this`marks
      ensures Value() == MarkIntegrated(old(Value()), id, now)
    {
      Store(id, candidates[id].(state := Integrated, integratedAt := Some(now)));
      marks := marks + [id];
    }

    method Meddle(foreign: Option<Repo>)
      modifies this`repo
      ensures Value() == Meddled(old(Value()), foreign)
    {
      if foreign.Some? { repo := foreign.value; }
    }

    method FinishThenMark(id: Id, env: Env) returns (out: Outcome)
      requires id in candidates && candidates[id].candidateSha.Some?
      modifies this`candidates, this`repo, this`marks
      ensures (Value(), out) == FinishAndMark(objects, old(Value()), id, env)
    {
      out := FinishTarget(candidates[id], env);
      if out != Done { return; }
      if StopsAt(env.stop, AfterIndex) { return Ended(env.stop); }
      Mark(id, env.now);
      if StopsAt(env.stop, AfterMark) { return Ended(env.stop); }
    }

    method InstallCandidate(id: Id, env: Env) returns (out: Outcome)
      requires id in candidates && candidates[id].candidateSha.Some?
      modifies this`candidates, this`repo, this`moves, this`marks
      ensures (Value(), out) == Install(objects, old(Value()), id, env)
    {
      var c := candidates[id];
      Meddle(env.beforeRef);
      if StopsAt(env.stop, AfterIntegrating) { return Ended(env.stop); }
      if !objects.ancestor(c.targetSha, c.candidateSha.value) { return Refused; }
      if c.branch !in repo.refs || repo.refs[c.branch] != c.targetSha { return Refused; }
      moves := moves + [Move(id, c, repo.refs, c.targetSha, c.candidateSha.value)];
      repo := repo.(refs := repo.refs[c.branch := c.candidateSha.value]);
      Meddle(env.beforeFinish);
      out := FinishThenMark(id, env);
    }

    method IntegrateVersion(id: Id, sha: Sha, target: Sha, run: Id, env: Env) returns (out: Outcome)
      modifies this`candidates, this`repo, this`moves, this`marks
      ensures (Value(), out) == Integrate(objects, old(Value()), id, sha, target, run, env)
    {
      if StopsAt(env.stop, InFront) { return Ended(env.stop); }
      if id !in candidates { return Refused; }
      var recovering := candidates[id];
      if recovering.state == Integrating {
        if !env.idle || recovering.candidateSha != Some(sha) { return Refused; }
        if recovering.targetSha != target || recovering.verification != Some(run) { return Refused; }
        if repo.merging || repo.head != Some(recovering.branch) { return Refused; }
        if HeadSha(repo) == Some(sha) {
          Meddle(env.beforeFinish);
          out := FinishThenMark(id, env);
          return;
        }
        if HeadSha(repo) != Some(target) || TargetDirty(objects, repo) { return Refused; }
        Store(id, recovering.(state := Prepared));
        if StopsAt(env.stop, AfterPrepared) { return Ended(env.stop); }
      }
      out := IntegrateNow(id, sha, target, run, env);
    }

    method IntegrateNow(id: Id, sha: Sha, target: Sha, run: Id, env: Env) returns (out: Outcome)
      requires id in candidates
      modifies this`candidates, this`repo, this`moves, this`marks
      ensures (Value(), out) == IntegrateAccepted(objects, old(Value()), id, sha, target, run, env)
    {
      var c := candidates[id];
      var canAccept, canIntegrate, newest := View(id, env.facts, env.checkout);
      if c.candidateSha != Some(sha) { return Refused; }
      if c.state == Integrated && c.targetSha == target && c.verification == Some(run) { return Done; }
      if !canIntegrate || c.targetSha != target || c.verification != Some(run) { return Refused; }
      if !env.idle { return Refused; }
      if HeadSha(repo) != Some(target) || TargetDirty(objects, repo) || repo.head != Some(c.branch) { return Refused; }
      Store(id, c.(state := Integrating));
      out := InstallCandidate(id, env);
    }

    method AbandonCandidate(id: Id)
      modifies this`candidates
      ensures Value() == Abandon(old(Value()), id)
    {
      if id !in candidates { return; }
      var i := 0;
      while id in runs && i < |runs[id]|
        invariant id in runs ==> 0 <= i <= |runs[id]| && forall j :: 0 <= j < i ==> runs[id][j].state != Running
        invariant candidates == old(candidates)
      {
        if runs[id][i].state == Running { return; }
        i := i + 1;
      }
      if candidates[id].state in {Preparing, Integrating, Integrated} { return; }
      Store(id, candidates[id].(state := Abandoned));
    }
  }
}
