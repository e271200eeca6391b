/** What holds in every reachable state of the integration candidates, whatever the actions,
    crashes and foreign changes of the target were. */
module IntegrationSafety {
  import opened Wrappers
  import opened IntegrationCandidates

  function RunsOf(w: World, id: Id): seq<Verification> {
    if id in w.runs then w.runs[id] else []
  }

  /** Run `run` passed for exactly this commit and report revision. */
  predicate PassedFor(run: Verification, c: Candidate) {
    run.state == Passed && Some(run.id) == c.verification && Some(run.headSha) == c.candidateSha && run.revision == c.revision
  }

  /** The evidence integration needs: a review of exactly the candidate commit, an acceptance, and the
      id of a verification that passed for that commit. */
  predicate Proven(c: Candidate, runs: seq<Verification>) {
    && c.candidateSha.Some? && c.reviewSha == c.candidateSha && c.reviewedAt.Some? && c.acceptedAt.Some?
    && exists i :: 0 <= i < |runs| && PassedFor(runs[i], c)
  }

  predicate Descends(o: Objects, c: Candidate) {
    c.candidateSha.Some? ==> o.ancestor(c.sourceSha, c.candidateSha.value) && o.ancestor(c.targetSha, c.candidateSha.value)
  }

  predicate Sound(o: Objects, c: Candidate, runs: seq<Verification>, marks: seq<Id>, id: Id) {
    && Descends(o, c)
    && (c.state == Integrating || c.state == Integrated ==> Proven(c, runs))
    && (c.state == Integrated <==> id in marks)
  }

  /** A move went from the recorded target to the candidate commit, over a branch that still was at
      the target, for a candidate whose evidence was complete at that moment. */
  predicate Justified(o: Objects, m: Move, runs: seq<Verification>) {
    && m.candidate.state == Integrating && Descends(o, m.candidate) && Proven(m.candidate, runs)
    && m.from == m.candidate.targetSha && Some(m.to) == m.candidate.candidateSha
    && m.candidate.branch in m.refs && m.refs[m.candidate.branch] == m.from
  }

  predicate Unique(marks: seq<Id>) {
    forall i, j :: 0 <= i < j < |marks| ==> marks[i] != marks[j]
  }

  predicate Good(o: Objects, w: World) {
    && (forall id :: id in w.candidates ==> Sound(o, w.candidates[id], RunsOf(w, id), w.marks, id))
    && (forall k :: 0 <= k < |w.moves| ==> Justified(o, w.moves[k], RunsOf(w, w.moves[k].id)))
    && Unique(w.marks)
    && (forall id :: id in w.marks ==> id in w.candidates)
  }

  // ---- Keeping the invariant ----

  lemma SaveKeeps(o: Objects, w: World, id: Id, c: Candidate)
    requires Good(o, w) && Sound(o, c, RunsOf(w, id), w.marks, id)
    ensures Good(o, Save(w, id, c))
  {
    var v := Save(w, id, c);
    forall x | x in v.candidates ensures Sound(o, v.candidates[x], RunsOf(v, x), v.marks, x) {}
    forall k | 0 <= k < |v.moves| ensures Justified(o, v.moves[k], RunsOf(v, v.moves[k].id)) {
      assert Justified(o, w.moves[k], RunsOf(w, w.moves[k].id));
    }
  }

  lemma RepoIrrelevant(o: Objects, w: World, repo: Repo)
    requires Good(o, w)
    ensures Good(o, w.(repo := repo))
  {
    var v := w.(repo := repo);
    forall x | x in v.candidates ensures Sound(o, v.candidates[x], RunsOf(v, x), v.marks, x) {
      assert Sound(o, w.candidates[x], RunsOf(w, x), w.marks, x);
    }
    forall k | 0 <= k < |v.moves| ensures Justified(o, v.moves[k], RunsOf(v, v.moves[k].id)) {
      assert Justified(o, w.moves[k], RunsOf(w, w.moves[k].id));
    }
  }

  /** Verification histories only grow; a run that has passed stays in them as it is. */
  predicate Grows(before: seq<Verification>, after: seq<Verification>) {
    forall i :: 0 <= i < |before| && before[i].state == Passed ==> before[i] in after
  }

  lemma ProvenStays(c: Candidate, before: seq<Verification>, after: seq<Verification>)
    requires Proven(c, before) && Grows(before, after)
    ensures Proven(c, after)
  {
    var i :| 0 <= i < |before| && PassedFor(before[i], c);
    assert before[i] in after;
    var j :| 0 <= j < |after| && after[j] == before[i];
    assert PassedFor(after[j], c);
  }

  lemma RunsKeep(o: Objects, w: World, id: Id, runs: seq<Verification>)
    requires Good(o, w) && Grows(RunsOf(w, id), runs)
    ensures Good(o, w.(runs := w.runs[id := runs]))
  {
    var v := w.(runs := w.runs[id := runs]);
    forall x | x in v.candidates ensures Sound(o, v.candidates[x], RunsOf(v, x), v.marks, x) {
      var c := w.candidates[x];
      assert Sound(o, c, RunsOf(w, x), w.marks, x);
      if x == id && Proven(c, RunsOf(w, x)) { ProvenStays(c, RunsOf(w, x), runs); }
    }
    forall k | 0 <= k < |v.moves| ensures Justified(o, v.moves[k], RunsOf(v, v.moves[k].id)) {
      var m := w.moves[k];
      assert Justified(o, m, RunsOf(w, m.id));
      if m.id == id { ProvenStays(m.candidate, RunsOf(w, m.id), runs); }
    }
  }

  lemma RestartKeeps(o: Objects, w: World)
    requires Good(o, w)
    ensures Good(o, After(o, w, Restart))
  {
    var v := After(o, w, Restart);
    forall x | x in v.candidates ensures Sound(o, v.candidates[x], RunsOf(v, x), v.marks, x) {
      assert Sound(o, w.candidates[x], RunsOf(w, x), w.marks, x);
    }
    forall k | 0 <= k < |v.moves| ensures Justified(o, v.moves[k], RunsOf(v, v.moves[k].id)) {
      assert Justified(o, w.moves[k], RunsOf(w, w.moves[k].id));
    }
  }

  lemma MoveKeeps(o: Objects, w: World, id: Id)
    requires Good(o, w) && id in w.candidates && w.candidates[id].candidateSha.Some? && w.candidates[id].state == Integrating
    requires w.candidates[id].branch in w.repo.refs && w.repo.refs[w.candidates[id].branch] == w.candidates[id].targetSha
    ensures Good(o, Moved(w, id, w.candidates[id]))
  {
    var v := Moved(w, id, w.candidates[id]);
    assert Sound(o, w.candidates[id], RunsOf(w, id), w.marks, id);
    forall x | x in v.candidates ensures Sound(o, v.candidates[x], RunsOf(v, x), v.marks, x) {
      assert Sound(o, w.candidates[x], RunsOf(w, x), w.marks, x);
    }
    forall k | 0 <= k < |v.moves| ensures Justified(o, v.moves[k], RunsOf(v, v.moves[k].id)) {
      if k < |w.moves| { assert Justified(o, w.moves[k], RunsOf(w, w.moves[k].id)); }
    }
  }

  lemma MarkKeeps(o: Objects, w: World, id: Id, now: nat)
    requires Good(o, w) && id in w.candidates && w.candidates[id].state == Integrating
    ensures Good(o, MarkIntegrated(w, id, now))
  {
    var v := MarkIntegrated(w, id, now);
    assert Sound(o, w.candidates[id], RunsOf(w, id), w.marks, id);
    forall x | x in v.candidates ensures Sound(o, v.candidates[x], RunsOf(v, x), v.marks, x) {
      assert Sound(o, w.candidates[x], RunsOf(w, x), w.marks, x);
      assert RunsOf(v, x) == RunsOf(w, x);
      if x == id {
        assert v.marks[|w.marks|] == id;
        var i :| 0 <= i < |RunsOf(w, x)| && PassedFor(RunsOf(w, x)[i], w.candidates[x]);
        assert PassedFor(RunsOf(w, x)[i], v.candidates[x]);
      }
    }
    forall k | 0 <= k < |v.moves| ensures Justified(o, v.moves[k], RunsOf(v, v.moves[k].id)) {
      assert Justified(o, w.moves[k], RunsOf(w, w.moves[k].id));
    }
  }

  // ---- The operations keep it ----

  lemma HandleKeeps(o: Objects, w: World, id: Id, f: Facts, merge: MergeResult, dies: bool)
    requires Good(o, w)
    ensures Good(o, Handle(o, w, id, f, merge, dies))
  {
    if id in w.candidates {
      assert Sound(o, w.candidates[id], RunsOf(w, id), w.marks, id);
      var v := Handle(o, w, id, f, merge, dies);
      SaveKeeps(o, w, id, v.candidates[id]);
      assert w.candidates[id := w.candidates[id]] == w.candidates;
    }
  }

  lemma EvidenceKeeps(o: Objects, w: World, id: Id, c: Candidate)
    requires Good(o, w) && id in w.candidates && Descends(o, c)
    requires w.candidates[id].state !in {Integrating, Integrated} && c.state !in {Integrating, Integrated}
    ensures Good(o, Save(w, id, c))
  {
    assert Sound(o, w.candidates[id], RunsOf(w, id), w.marks, id);
    SaveKeeps(o, w, id, c);
  }

  /** Continuing, reviewing, accepting and abandoning: the record changes within the states before integration,
      and continuing drops the evidence with the old commit. */
  lemma EvidenceActionsKeep(o: Objects, w: World, a: Action)
    requires Good(o, w) && (a.ContinueRecovery? || a.AddReview? || a.AcceptVersion? || a.AbandonCandidate?)
    ensures Good(o, After(o, w, a))
  {
    var v := After(o, w, a);
    if v != w {
      assert Sound(o, w.candidates[a.id], RunsOf(w, a.id), w.marks, a.id);
      EvidenceKeeps(o, w, a.id, v.candidates[a.id]);
    }
  }

  lemma MeddledKeeps(o: Objects, w: World, repo: Option<Repo>)
    requires Good(o, w)
    ensures Good(o, Meddled(w, repo))
  {
    if repo.Some? { RepoIrrelevant(o, w, repo.value); }
  }

  lemma RecordKeeps(o: Objects, w: World, id: Id, env: Env)
    requires Good(o, w) && id in w.candidates && w.candidates[id].candidateSha.Some? && w.candidates[id].state == Integrating
    ensures Good(o, Record(w, id, env).0)
  {
    MarkKeeps(o, w, id, env.now);
  }

  lemma FinishAndMarkKeeps(o: Objects, w: World, id: Id, env: Env)
    requires Good(o, w) && id in w.candidates && w.candidates[id].candidateSha.Some? && w.candidates[id].state == Integrating
    ensures Good(o, FinishAndMark(o, w, id, env).0)
  {
    hide Good, Record;
    var c, r := w.candidates[id], w.repo;
    RecordKeeps(o, w, id, env);
    if StopsInReadTree(env.stop) { RepoIrrelevant(o, w, LeftBy(o, c, r, env.stop.point.left)); }
    var read := r.(index := o.tree(c.candidateSha.value));
    RepoIrrelevant(o, w, read);
    RecordKeeps(o, w.(repo := read), id, env);
  }

  lemma InstallKeeps(o: Objects, w: World, id: Id, env: Env)
    requires Good(o, w) && id in w.candidates && w.candidates[id].candidateSha.Some? && w.candidates[id].state == Integrating
    ensures Good(o, Install(o, w, id, env).0)
  {
    var c := w.candidates[id];
    var seen := Meddled(w, env.beforeRef);
    MeddledKeeps(o, w, env.beforeRef);
    if o.ancestor(c.targetSha, c.candidateSha.value) && c.branch in seen.repo.refs && seen.repo.refs[c.branch] == c.targetSha {
      var moved := Moved(seen, id, c);
      MoveKeeps(o, seen, id);
      MeddledKeeps(o, moved, env.beforeFinish);
      FinishAndMarkKeeps(o, Meddled(moved, env.beforeFinish), id, env);
    }
  }

  /** The gate of integration is what establishes the evidence. */
  lemma GateProves(w: World, id: Id, c: Candidate, f: Facts, k: Checkout)
    requires CanIntegrate(w, id, c, f, k)
    ensures Proven(c.(state := Integrating), RunsOf(w, id))
  {
    assert PassedFor(RunsOf(w, id)[0], c.(state := Integrating));
  }

  lemma IntegrateAcceptedKeeps(o: Objects, w: World, id: Id, sha: Sha, target: Sha, run: Id, env: Env)
    requires Good(o, w) && id in w.candidates
    ensures Good(o, IntegrateAccepted(o, w, id, sha, target, run, env).0)
  {
    var c := w.candidates[id];
    if CanIntegrate(w, id, c, env.facts, env.checkout) {
      GateProves(w, id, c, env.facts, env.checkout);
      assert Sound(o, c, RunsOf(w, id), w.marks, id);
      SaveKeeps(o, w, id, c.(state := Integrating));
      InstallKeeps(o, Save(w, id, c.(state := Integrating)), id, env);
    }
  }

  lemma IntegrateKeeps(o: Objects, w: World, id: Id, sha: Sha, target: Sha, run: Id, env: Env)
    requires Good(o, w)
    ensures Good(o, Integrate(o, w, id, sha, target, run, env).0)
  {
    if id in w.candidates {
      var c := w.candidates[id];
      assert Sound(o, c, RunsOf(w, id), w.marks, id);
      if c.state != Integrating {
        IntegrateAcceptedKeeps(o, w, id, sha, target, run, env);
      } else if c.candidateSha == Some(sha) {
        MeddledKeeps(o, w, env.beforeFinish);
        FinishAndMarkKeeps(o, Meddled(w, env.beforeFinish), id, env);
        SaveKeeps(o, w, id, c.(state := Prepared));
        IntegrateAcceptedKeeps(o, Save(w, id, c.(state := Prepared)), id, sha, target, run, env);
      }
    }
  }

  lemma SmallActionsKeep(o: Objects, w: World, a: Action)
    requires Good(o, w) && (a.Insert? || a.CancelQueued? || a.PreparationFailed? || a.StartVerification? || a.EndVerification?)
    ensures Good(o, After(o, w, a))
  {
    if a.StartVerification? {
      RunsKeep(o, w, a.id, [a.started.(state := Running)] + RunsOf(w, a.id));
    } else if a.EndVerification? {
      if Latest(w, a.id).Some? && Latest(w, a.id).value.state == Running {
        var runs := w.runs[a.id][0 := w.runs[a.id][0].(state := if a.passed then Passed else NotPassed)];
        forall i | 0 <= i < |w.runs[a.id]| && w.runs[a.id][i].state == Passed ensures w.runs[a.id][i] in runs {
          assert runs[i] == w.runs[a.id][i];
        }
        RunsKeep(o, w, a.id, runs);
      }
    } else if a.Insert? {
      if a.newId !in w.candidates { SaveKeeps(o, w, a.newId, After(o, w, a).candidates[a.newId]); }
    } else if a.id in w.candidates && After(o, w, a) != w {
      assert Sound(o, w.candidates[a.id], RunsOf(w, a.id), w.marks, a.id);
      EvidenceKeeps(o, w, a.id, After(o, w, a).candidates[a.id]);
    }
  }

  lemma AfterKeeps(o: Objects, w: World, a: Action)
    requires Good(o, w)
    ensures Good(o, After(o, w, a))
  {
    match a
    case RunHandler(id, facts, merge, dies) => HandleKeeps(o, w, id, facts, merge, dies);
    case IntegrateVersion(id, sha, target, run, env) => IntegrateKeeps(o, w, id, sha, target, run, env);
    case ChangeTarget(repo) => RepoIrrelevant(o, w, repo);
    case Restart => RestartKeeps(o, w);
    case _ => if a.ContinueRecovery? || a.AddReview? || a.AcceptVersion? || a.AbandonCandidate? { EvidenceActionsKeep(o, w, a); } else { SmallActionsKeep(o, w, a); }
  }

  lemma {:induction false} RunKeeps(o: Objects, repo: Repo, actions: seq<Action>)
    ensures Good(o, Run(o, repo, actions))
  {
    if actions != [] {
      RunKeeps(o, repo, actions[..|actions| - 1]);
      AfterKeeps(o, Run(o, repo, actions[..|actions| - 1]), actions[|actions| - 1]);
    }
  }

  // ---- Whole-run theorems ----

  /** In every reachable state a candidate that is integrating or integrated carries a review of exactly
      its commit, an acceptance, and the id of a verification that passed for it; and both the reviewed
      source and the recorded target are ancestors of that commit. */
  lemma {:induction false} EvidenceInEveryState(o: Objects, repo: Repo, actions: seq<Action>, id: Id)
    requires id in Run(o, repo, actions).candidates
    requires Run(o, repo, actions).candidates[id].state in {Integrating, Integrated}
    ensures var w := Run(o, repo, actions);
      var c := w.candidates[id];
      Proven(c, RunsOf(w, id)) && o.ancestor(c.sourceSha, c.candidateSha.value) && o.ancestor(c.targetSha, c.candidateSha.value)
  {
    RunKeeps(o, repo, actions);
    var w := Run(o, repo, actions);
    assert Sound(o, w.candidates[id], RunsOf(w, id), w.marks, id);
  }

  /** Every branch update ever made by the runtime was a compare-and-swap from the candidate's recorded
      target to its commit, with the evidence complete, and both parents below the new head. */
  lemma {:induction false} EveryMoveJustified(o: Objects, repo: Repo, actions: seq<Action>, k: nat)
    requires k < |Run(o, repo, actions).moves|
    ensures var w := Run(o, repo, actions);
      var m := w.moves[k];
      Justified(o, m, RunsOf(w, m.id)) && o.ancestor(m.from, m.to) && o.ancestor(m.candidate.sourceSha, m.to)
  {
    RunKeeps(o, repo, actions);
    var w := Run(o, repo, actions);
    assert Justified(o, w.moves[k], RunsOf(w, w.moves[k].id));
  }

  /** An integration is recorded at most once for a candidate, and exactly for the integrated ones. */
  lemma {:induction false} RecordedOnce(o: Objects, repo: Repo, actions: seq<Action>, id: Id)
    ensures var w := Run(o, repo, actions);
      && (multiset(w.marks)[id] == 1 <==> id in w.candidates && w.candidates[id].state == Integrated)
      && multiset(w.marks)[id] <= 1
  {
    RunKeeps(o, repo, actions);
    var w := Run(o, repo, actions);
    if id in w.candidates { assert Sound(o, w.candidates[id], RunsOf(w, id), w.marks, id); }
    UniqueCount(w.marks, id);
  }

  lemma {:induction false} UniqueCount(marks: seq<Id>, id: Id)
    requires Unique(marks)
    ensures multiset(marks)[id] == if id in marks then 1 else 0
  {
    if marks != [] {
      var rest := marks[..|marks| - 1];
      UniqueCount(rest, id);
      assert marks == rest + [marks[|marks| - 1]];
    }
  }

  /** `integrated` is final: no action changes anything about an integrated candidate. */
  lemma IntegratedIsFinal(o: Objects, w: World, a: Action, id: Id)
    requires id in w.candidates && w.candidates[id].state == Integrated
    ensures id in After(o, w, a).candidates && After(o, w, a).candidates[id] == w.candidates[id]
  {
    match a
    case IntegrateVersion(x, sha, target, run, env) =>
      if x in w.candidates && x != id { OthersUntouched(o, w, x, sha, target, run, env); }
    case _ =>
  }

  predicate OthersKept(w: World, v: World, id: Id) {
    forall x :: x in w.candidates && x != id ==> x in v.candidates && v.candidates[x] == w.candidates[x]
  }

  lemma FinishKeepsOthers(o: Objects, w: World, id: Id, env: Env)
    requires id in w.candidates && w.candidates[id].candidateSha.Some?
    ensures OthersKept(w, FinishAndMark(o, w, id, env).0, id)
  {
  }

  lemma AcceptedKeepsOthers(o: Objects, w: World, id: Id, sha: Sha, target: Sha, run: Id, env: Env)
    requires id in w.candidates
    ensures OthersKept(w, IntegrateAccepted(o, w, id, sha, target, run, env).0, id)
  {
    var c := w.candidates[id];
    if CanIntegrate(w, id, c, env.facts, env.checkout) {
      var saved := Save(w, id, c.(state := Integrating));
      InstallKeepsOthers(o, saved, id, env);
      assert OthersKept(w, saved, id);
    }
  }

  lemma InstallKeepsOthers(o: Objects, w: World, id: Id, env: Env)
    requires id in w.candidates && w.candidates[id].candidateSha.Some?
    ensures OthersKept(w, Install(o, w, id, env).0, id)
  {
    var c, seen := w.candidates[id], Meddled(w, env.beforeRef);
    if c.branch in seen.repo.refs && seen.repo.refs[c.branch] == c.targetSha {
      var moved := Moved(seen, id, c);
      FinishKeepsOthers(o, Meddled(moved, env.beforeFinish), id, env);
    }
  }

  lemma OthersUntouched(o: Objects, w: World, id: Id, sha: Sha, target: Sha, run: Id, env: Env)
    ensures OthersKept(w, Integrate(o, w, id, sha, target, run, env).0, id)
  {
    hide IntegrateAccepted, FinishAndMark;
    if id in w.candidates && w.candidates[id].state == Integrating && w.candidates[id].candidateSha == Some(sha) {
      FinishKeepsOthers(o, Meddled(w, env.beforeFinish), id, env);
      AcceptedKeepsOthers(o, Save(w, id, w.candidates[id].(state := Prepared)), id, sha, target, run, env);
    } else if id in w.candidates {
      AcceptedKeepsOthers(o, w, id, sha, target, run, env);
    }
  }

  /** Branches and the record of moves, before and after: nothing, or one move of this candidate. */
  predicate Advances(w: World, v: World, id: Id, target: Sha, sha: Sha) {
    if v.moves == w.moves then v.repo.refs == w.repo.refs
    else
      && |v.moves| > 0
      && var m := v.moves[|v.moves| - 1];
      && v.moves == w.moves + [m] && m.id == id && m.refs == w.repo.refs && m.from == target && m.to == sha
      && m.candidate.branch in m.refs && m.refs[m.candidate.branch] == target
      && v.repo.refs == w.repo.refs[m.candidate.branch := sha]
  }

  lemma FinishLeavesBranches(o: Objects, w: World, id: Id, env: Env)
    requires id in w.candidates && w.candidates[id].candidateSha.Some?
    ensures var v := FinishAndMark(o, w, id, env).0; v.moves == w.moves && v.repo.refs == w.repo.refs
  {
  }

  lemma InstallAdvances(o: Objects, w: World, id: Id, env: Env)
    requires id in w.candidates && w.candidates[id].candidateSha.Some? && env.beforeRef.None? && env.beforeFinish.None?
    ensures Advances(w, Install(o, w, id, env).0, id, w.candidates[id].targetSha, w.candidates[id].candidateSha.value)
  {
    var c := w.candidates[id];
    if c.branch in w.repo.refs && w.repo.refs[c.branch] == c.targetSha { FinishLeavesBranches(o, Moved(w, id, c), id, env); }
  }

  lemma AcceptedAdvances(o: Objects, w: World, id: Id, sha: Sha, target: Sha, run: Id, env: Env)
    requires id in w.candidates && env.beforeRef.None? && env.beforeFinish.None?
    ensures Advances(w, IntegrateAccepted(o, w, id, sha, target, run, env).0, id, target, sha)
  {
    var c := w.candidates[id];
    if c.candidateSha == Some(sha) { InstallAdvances(o, Save(w, id, c.(state := Integrating)), id, env); }
  }

  /** With no foreign change inside the call, integration alters the branches only by one
      compare-and-swap of this candidate, from the requested target to the requested commit. */
  lemma OnlyMovesMoveBranches(o: Objects, w: World, id: Id, sha: Sha, target: Sha, run: Id, env: Env)
    requires env.beforeRef.None? && env.beforeFinish.None?
    ensures Advances(w, Integrate(o, w, id, sha, target, run, env).0, id, target, sha)
  {
    hide IntegrateAccepted, FinishAndMark;
    if id in w.candidates {
      var c := w.candidates[id];
      if c.state != Integrating {
        AcceptedAdvances(o, w, id, sha, target, run, env);
      } else if c.candidateSha == Some(sha) {
        FinishLeavesBranches(o, w, id, env);
        AcceptedAdvances(o, Save(w, id, c.(state := Prepared)), id, sha, target, run, env);
      }
    }
  }
}
