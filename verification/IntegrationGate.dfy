/** What the calls on an integration candidate require of the source, the evidence and the target, field by field, in both
    directions (src/server/integration-candidate-runtime.ts). */
module IntegrationGate {
  import opened Wrappers
  import opened IntegrationCandidates
  import opened IntegrationRecovery

  /** The source is still the one the candidate was made from: nothing uncommitted, the same repository, commit, report and
      target, still accepted with the recorded verification, and its newest review is the recorded, approving one. */
  predicate SourceUnchanged(c: Candidate, f: Facts) {
    && f.available && !f.dirty
    && f.repository == c.repository && f.sourceSha == c.sourceSha && f.revision == c.revision && f.baseSha == c.targetSha
    && f.sourceAccepted && f.latestRun == Some(c.sourceVerification)
    && f.latestReview == Some(Review(c.sourceReview, true, true))
  }

  /** The candidate's directory is clean and at its commit. */
  predicate DirectoryClean(c: Candidate, k: Checkout) { !k.dirty && c.candidateSha == Some(k.head) }

  /** The newest verification passed for exactly this commit and report, and the commit was reviewed. */
  predicate VerifiedAndReviewed(w: World, id: Id, c: Candidate) {
    && c.candidateSha.Some? && c.reviewSha == c.candidateSha && c.reviewedAt.Some?
    && id in w.runs && |w.runs[id]| > 0 && w.runs[id][0].state == Passed
    && Some(w.runs[id][0].headSha) == c.candidateSha && w.runs[id][0].revision == c.revision
  }

  /** The acceptance is for that verification. */
  predicate AcceptedForIt(w: World, id: Id, c: Candidate) {
    VerifiedAndReviewed(w, id, c) && c.acceptedAt.Some? && c.verification == Some(w.runs[id][0].id)
  }

  /** The target is checked out at the recorded commit, with nothing changed in it. */
  predicate TargetUnchanged(o: Objects, c: Candidate, r: Repo) {
    && r.head == Some(c.branch) && c.branch in r.refs && r.refs[c.branch] == c.targetSha
    && r.filesMatch && !r.untracked && r.index == o.tree(c.targetSha)
  }

  /** The versions that the caller names are those of the candidate. */
  predicate Named(c: Candidate, sha: Sha, target: Sha, run: Id) {
    c.candidateSha == Some(sha) && c.targetSha == target && c.verification == Some(run)
  }

  lemma FreshIs(c: Candidate, f: Facts)
    requires c.state != Integrated
    ensures Fresh(c, f) <==> SourceUnchanged(c, f)
  {
    if f.latestReview.Some? { assert f.latestReview.value == Review(f.latestReview.value.id, f.latestReview.value.accepted, f.latestReview.value.approves); }
  }

  lemma EligibleIs(w: World, id: Id, c: Candidate, f: Facts, k: Checkout)
    ensures Eligible(w, id, c, f, k) <==> c.state == Prepared && SourceUnchanged(c, f) && DirectoryClean(c, k) && VerifiedAndReviewed(w, id, c)
    ensures CanIntegrate(w, id, c, f, k) <==> c.state == Prepared && SourceUnchanged(c, f) && DirectoryClean(c, k) && AcceptedForIt(w, id, c)
  {
    hide Fresh, SourceUnchanged;
    if c.state == Prepared { FreshIs(c, f); }
  }

  /** A call that finds the candidate prepared does something if and only if all of this holds; then it saves
      `integrating` before anything else. */
  lemma IntegrationStartsIff(o: Objects, w: World, id: Id, sha: Sha, target: Sha, run: Id, env: Env)
    requires id in w.candidates && w.candidates[id].state == Prepared
    ensures var c, v := w.candidates[id], Integrate(o, w, id, sha, target, run, env).0;
      && (v != w <==>
            && !StopsAt(env.stop, InFront) && Named(c, sha, target, run) && env.idle
            && SourceUnchanged(c, env.facts) && DirectoryClean(c, env.checkout) && AcceptedForIt(w, id, c) && TargetUnchanged(o, c, w.repo))
      && (v != w ==> id in v.candidates && (v.candidates[id].state == Integrating || v.candidates[id].state == Integrated))
  {
    hide Install, CanIntegrate, SourceUnchanged, DirectoryClean, AcceptedForIt;
    var c := w.candidates[id];
    EligibleIs(w, id, c, env.facts, env.checkout);
    if c.candidateSha.Some? { InstallStates(o, Save(w, id, c.(state := Integrating)), id, env); }
  }

  lemma InstallStates(o: Objects, w: World, id: Id, env: Env)
    requires id in w.candidates && w.candidates[id].candidateSha.Some? && w.candidates[id].state == Integrating
    ensures var v := Install(o, w, id, env).0; id in v.candidates && (v.candidates[id].state == Integrating || v.candidates[id].state == Integrated)
  {
    hide FinishAndMark;
    FinishStates(o, id, env);
  }

  lemma FinishStates(o: Objects, id: Id, env: Env)
    ensures forall w: World :: id in w.candidates && w.candidates[id].candidateSha.Some? && w.candidates[id].state == Integrating ==>
              var v := FinishAndMark(o, w, id, env).0; id in v.candidates && (v.candidates[id].state == Integrating || v.candidates[id].state == Integrated)
  {}

  /** A branch update of ours never rests on older facts: the same holds for a call that takes up an interrupted one. */
  lemma MoveNeedsFacts(o: Objects, w: World, id: Id, sha: Sha, target: Sha, run: Id, env: Env)
    requires Integrate(o, w, id, sha, target, run, env).0.moves != w.moves
    ensures id in w.candidates && (w.candidates[id].state == Prepared || w.candidates[id].state == Integrating)
    ensures var c := w.candidates[id];
      && Named(c, sha, target, run) && env.idle && SourceUnchanged(c, env.facts) && DirectoryClean(c, env.checkout)
      && AcceptedForIt(w, id, c) && TargetUnchanged(o, c, w.repo) && o.ancestor(target, sha)
  {
    hide CanIntegrate, SourceUnchanged, DirectoryClean, FinishAndMark;
    var c := w.candidates[id];
    EligibleIs(w, id, c, env.facts, env.checkout);
    EligibleIs(Save(w, id, c.(state := Prepared)), id, c.(state := Prepared), env.facts, env.checkout);
    SameEvidence(w, id, c, env);
    FinishMoves(o, id, env);
  }

  lemma SameEvidence(w: World, id: Id, c: Candidate, env: Env)
    ensures var d := c.(state := Prepared);
      && (SourceUnchanged(d, env.facts) <==> SourceUnchanged(c, env.facts)) && (DirectoryClean(d, env.checkout) <==> DirectoryClean(c, env.checkout))
      && (AcceptedForIt(Save(w, id, d), id, d) <==> AcceptedForIt(w, id, c))
  {}

  lemma FinishMoves(o: Objects, id: Id, env: Env)
    ensures forall v: World :: id in v.candidates && v.candidates[id].candidateSha.Some? ==> FinishAndMark(o, v, id, env).0.moves == v.moves
  {}

  /** An integration is recorded only in a call that moves the branch, or takes up one that has. */
  lemma RecordNeedsMove(o: Objects, w: World, id: Id, sha: Sha, target: Sha, run: Id, env: Env)
    requires Integrate(o, w, id, sha, target, run, env).0.marks != w.marks
    ensures || Integrate(o, w, id, sha, target, run, env).0.moves != w.moves
            || (id in w.candidates && w.candidates[id].state == Integrating && Named(w.candidates[id], sha, target, run) && env.idle
                && !w.repo.merging && w.repo.head == Some(w.candidates[id].branch) && HeadSha(w.repo) == Some(sha))
  {
    hide CanIntegrate, FinishAndMark;
    FinishMoves(o, id, env);
  }

  /** The checkout can be finished: on its branch, nobody holds the index, no file was changed or touched since the index
      was written, and that is the index of the target or of the candidate. */
  predicate CheckoutReady(o: Objects, c: Candidate, r: Repo) {
    && r.head == Some(c.branch) && !r.locked && r.filesMatch && r.statClean && c.candidateSha.Some?
    && (r.index == o.tree(c.targetSha) || r.index == o.tree(c.candidateSha.value))
  }

  lemma FinishRecords(o: Objects, w: World, id: Id, env: Env)
    requires id in w.candidates && w.candidates[id].candidateSha.Some?
    ensures var (v, out) := FinishAndMark(o, w, id, env);
      && (v.marks != w.marks ==> CheckoutReady(o, w.candidates[id], w.repo))
      && (CheckoutReady(o, w.candidates[id], w.repo) && env.stop == Nowhere && env.readTree ==> out == Done && v.marks == w.marks + [id])
  {
    assert w.marks + [id] != w.marks;
  }

  lemma InstallRecords(o: Objects, w: World, id: Id, env: Env)
    requires id in w.candidates && w.candidates[id].candidateSha.Some?
    ensures Install(o, w, id, env).0.marks != w.marks ==> CheckoutReady(o, w.candidates[id], Found(w, env))
  {
    hide FinishAndMark;
    var c, seen := w.candidates[id], Meddled(w, env.beforeRef);
    if c.branch in seen.repo.refs && seen.repo.refs[c.branch] == c.targetSha {
      FinishRecords(o, Meddled(Moved(seen, id, c), env.beforeFinish), id, env);
    }
  }

  /** No integration is recorded over a checkout that could not be finished, as the call finds it then. */
  lemma RecordNeedsCheckout(o: Objects, w: World, id: Id, sha: Sha, target: Sha, run: Id, env: Env)
    requires Integrate(o, w, id, sha, target, run, env).0.marks != w.marks
    ensures id in w.candidates && (CheckoutReady(o, w.candidates[id], Found(w, env)) || CheckoutReady(o, w.candidates[id], Meddled(w, env.beforeFinish).repo))
  {
    hide CanIntegrate, FinishAndMark, Install;
    if id in w.candidates && w.candidates[id].candidateSha.Some? {
      var c := w.candidates[id];
      FinishRecords(o, Meddled(w, env.beforeFinish), id, env);
      InstallRecords(o, Save(w, id, c.(state := Integrating)), id, env);
      InstallRecords(o, Save(Save(w, id, c.(state := Prepared)), id, c.(state := Integrating)), id, env);
    }
  }

  /** And with all of it the call goes through: undisturbed and not cut short, it integrates the candidate. */
  lemma GateOpens(o: Objects, w: World, id: Id, sha: Sha, target: Sha, run: Id, env: Env)
    requires id in w.candidates && w.candidates[id].state == Prepared
    requires var c := w.candidates[id];
      && Named(c, sha, target, run) && SourceUnchanged(c, env.facts) && DirectoryClean(c, env.checkout) && AcceptedForIt(w, id, c)
      && TargetUnchanged(o, c, w.repo) && Untouched(w.repo) && !w.repo.merging && o.ancestor(target, sha)
      && env == Env(env.facts, env.checkout, true, env.now, None, None, true, Nowhere)
    ensures var c, (v, out) := w.candidates[id], Integrate(o, w, id, sha, target, run, env);
      && out == Done && id in v.candidates && v.candidates[id] == c.(state := Integrated, integratedAt := Some(env.now))
      && v.repo == w.repo.(refs := w.repo.refs[c.branch := sha], index := o.tree(sha)) && v.marks == w.marks + [id]
  {
    hide SourceUnchanged, DirectoryClean, AcceptedForIt, CanIntegrate;
    EligibleIs(w, id, w.candidates[id], env.facts, env.checkout);
  }

  // ---- Preparation ----

  /** The merge can be finished: no conflicts, and either it is committed or it is the merge of exactly this source into
      exactly this target; `sha` is then a commit behind both. */
  predicate MergeFinished(o: Objects, c: Candidate, k: Checkout, sha: Sha) {
    && !k.conflicts && o.ancestor(c.sourceSha, sha) && o.ancestor(c.targetSha, sha)
    && (if k.mergeHead.None? then sha == k.head
        else k.mergeHead == Some(c.sourceSha) && k.head == c.targetSha && k.commits && sha == k.headAfter)
  }

  predicate Finishes(o: Objects, c: Candidate, k: Checkout) {
    MergeFinished(o, c, k, if k.mergeHead.None? then k.head else k.headAfter)
  }

  lemma FinishGitIs(o: Objects, c: Candidate, k: Checkout)
    ensures FinishGit(o, c, k) == if Finishes(o, c, k) then Some(if k.mergeHead.None? then k.head else k.headAfter) else None
  {}

  /** What becomes of a queued candidate: stale if and only if the source has changed; else prepared, with the commit of the
      merge, if and only if the merge was finished. */
  lemma PreparationIs(o: Objects, w: World, id: Id, f: Facts, merge: MergeResult, dies: bool)
    requires id in w.candidates && w.candidates[id].state == Queued
    ensures var c, v := w.candidates[id], Handle(o, w, id, f, merge, dies);
      && id in v.candidates && v == w.(candidates := w.candidates[id := v.candidates[id]])
      && (v.candidates[id].state == Stale <==> !SourceUnchanged(c, f))
      && (v.candidates[id].state == Preparing <==> SourceUnchanged(c, f) && dies)
      && (v.candidates[id].state == Conflicted <==> SourceUnchanged(c, f) && !dies && merge == MergeConflicts)
      && (v.candidates[id].state == Prepared <==> SourceUnchanged(c, f) && !dies && merge.Merged? && Finishes(o, c, merge.k))
      && (v.candidates[id].state == Prepared ==>
            v.candidates[id].candidateSha.Some? && MergeFinished(o, c, merge.k, v.candidates[id].candidateSha.value))
      && (v.candidates[id].state != Prepared ==> v.candidates[id].candidateSha == if v.candidates[id].state == Conflicted then None else c.candidateSha)
      && v.candidates[id] == c.(state := v.candidates[id].state, candidateSha := v.candidates[id].candidateSha)
      && v.candidates[id].state in {Stale, Preparing, Conflicted, Prepared, Failed}
  {
    hide Fresh, SourceUnchanged, FinishGit;
    FreshIs(w.candidates[id], f);
    if merge.Merged? { FinishGitIs(o, w.candidates[id], merge.k); }
  }

  /** A failed or conflicted candidate is continued if and only if the source is unchanged and its merge is finished; it
      starts without evidence. */
  lemma ContinueIs(o: Objects, w: World, id: Id, f: Facts, k: Checkout)
    requires id in w.candidates
    ensures var c, v := w.candidates[id], Continue(o, w, id, f, k);
      if (c.state == Conflicted || c.state == Failed) && SourceUnchanged(c, f) && Finishes(o, c, k)
      then v == w.(candidates := w.candidates[id := Candidate(
                  c.repository, c.sourceSha, c.targetSha, c.branch, c.revision, c.sourceVerification, c.sourceReview,
                  Some(if k.mergeHead.None? then k.head else k.headAfter), Prepared, None, None, None, None, c.integratedAt)])
      else v == w
  {
    hide Fresh, SourceUnchanged, FinishGit;
    if w.candidates[id].state != Integrated { FreshIs(w.candidates[id], f); }
    FinishGitIs(o, w.candidates[id], k);
  }

  // ---- Evidence ----

  /** A review is saved if and only if it is for the commit of a prepared candidate whose source is unchanged and whose
      directory is clean. It takes the acceptance away. */
  lemma ReviewIs(w: World, id: Id, sha: Sha, f: Facts, k: Checkout, now: nat)
    requires id in w.candidates
    ensures var c, v := w.candidates[id], ReviewCandidate(w, id, sha, f, k, now);
      if c.state == Prepared && c.candidateSha == Some(sha) && SourceUnchanged(c, f) && DirectoryClean(c, k)
      then v == w.(candidates := w.candidates[id := c.(reviewSha := Some(sha), reviewedAt := Some(now), acceptedAt := None)])
      else v == w
  {
    hide Fresh, SourceUnchanged;
    if w.candidates[id].state != Integrated { FreshIs(w.candidates[id], f); }
  }

  /** An acceptance is saved if and only if it is for the commit and the newest verification of a prepared, verified and
      reviewed candidate whose source is unchanged and whose directory is clean, and it is not accepted for another run. */
  lemma AcceptIs(w: World, id: Id, sha: Sha, run: Id, f: Facts, k: Checkout, now: nat)
    requires id in w.candidates
    ensures var c, v := w.candidates[id], Accept(w, id, sha, run, f, k, now);
      if c.state == Prepared && c.candidateSha == Some(sha) && SourceUnchanged(c, f) && DirectoryClean(c, k) && VerifiedAndReviewed(w, id, c)
         && w.runs[id][0].id == run && (c.acceptedAt.None? || c.verification == Some(run))
      then v == w.(candidates := w.candidates[id := c.(verification := Some(run), acceptedAt := if c.acceptedAt.None? then Some(now) else c.acceptedAt)])
      else v == w
  {
    hide Eligible, CanIntegrate, SourceUnchanged, DirectoryClean;
    EligibleIs(w, id, w.candidates[id], f, k);
  }

  /** A candidate is abandoned if and only if it is neither being prepared nor integrating nor integrated, and none of its
      verifications runs. */
  lemma AbandonIs(w: World, id: Id)
    requires id in w.candidates
    ensures var c, v := w.candidates[id], Abandon(w, id);
      if c.state != Preparing && c.state != Integrating && c.state != Integrated
         && (id in w.runs ==> forall i :: 0 <= i < |w.runs[id]| ==> w.runs[id][i].state != Running)
      then v == w.(candidates := w.candidates[id := c.(state := Abandoned)])
      else v == w
  {}

  /** A new candidate starts queued and without any evidence, whatever is passed in. */
  lemma InsertIs(o: Objects, w: World, id: Id, c: Candidate)
    requires id !in w.candidates
    ensures After(o, w, Insert(id, c)) == w.(candidates := w.candidates[id := Candidate(
              c.repository, c.sourceSha, c.targetSha, c.branch, c.revision, c.sourceVerification, c.sourceReview,
              None, Queued, None, None, None, None, None)])
  {}

  /** An integrated candidate answers exactly the calls that name its own versions, and nothing happens again. */
  lemma IntegratedAnswers(o: Objects, w: World, id: Id, sha: Sha, target: Sha, run: Id, env: Env)
    requires id in w.candidates && w.candidates[id].state == Integrated && env.stop == Nowhere
    ensures Integrate(o, w, id, sha, target, run, env) == (w, if Named(w.candidates[id], sha, target, run) then Done else Refused)
  {
    hide Install, Fresh;
  }
}
