/** Integration candidates: preparation, review, acceptance and the crash-safe update of the target
    branch (src/server/integration-candidate-runtime.ts, src/server/integration-candidate-git.ts).

    Git objects are content-addressed, so the tree and the ancestors of a commit are fixed
    functions; what changes is the store, the target repository and the verification runs. */
module IntegrationCandidates {
  import opened Wrappers

  type Sha = nat
  type Tree = nat
  type Branch = nat
  type Id = nat

  /** `ancestor(a, b)` is the answer of `git merge-base --is-ancestor a b`. */
  datatype Objects = Objects(tree: Sha -> Tree, ancestor: (Sha, Sha) -> bool)

  datatype State = Queued | Preparing | Conflicted | Prepared | Failed | Stale | Integrating | Integrated | Abandoned

  datatype Candidate = Candidate(
    repository: nat,
    sourceSha: Sha,
    targetSha: Sha,
    branch: Branch,
    revision: nat,
    sourceVerification: Id,
    sourceReview: Id,
    candidateSha: Option<Sha>,
    state: State,
    verification: Option<Id>,
    reviewSha: Option<Sha>,
    reviewedAt: Option<nat>,
    acceptedAt: Option<nat>,
    integratedAt: Option<nat>
  )

  datatype RunState = Running | Passed | NotPassed
  datatype Verification = Verification(id: Id, headSha: Sha, revision: nat, state: RunState)

  /** The target checkout: its symbolic HEAD, branches and index. `filesMatch`: the files have the content the index
      names, which is what `git status` compares; `statClean`: they also have the times and sizes it remembers, which
      `git diff-files` needs besides; `locked`: `index.lock` exists. */
  datatype Repo = Repo(
    head: Option<Branch>, refs: map<Branch, Sha>, index: Tree, filesMatch: bool, statClean: bool, locked: bool, untracked: bool, merging: bool
  )

  /** A branch update of ours, with the candidate as stored and the branches just before it. */
  datatype Move = Move(id: Id, candidate: Candidate, refs: map<Branch, Sha>, from: Sha, to: Sha)

  /** `runs` lists verification runs newest first; `moves` and `marks` are what has happened. */
  datatype World = World(
    candidates: map<Id, Candidate>,
    runs: map<Id, seq<Verification>>,
    repo: Repo,
    moves: seq<Move>,
    marks: seq<Id>
  )

  datatype Review = Review(id: Id, accepted: bool, approves: bool)

  /** The source view and the source verification that `staleReason` reads. */
  datatype Facts = Facts(
    available: bool, dirty: bool, repository: nat, sourceSha: Sha, revision: nat, baseSha: Sha,
    sourceAccepted: bool, latestRun: Option<Id>, latestReview: Option<Review>
  )

  /** The candidate's own directory. */
  datatype Checkout = Checkout(
    head: Sha, dirty: bool, conflicts: bool, mergeHead: Option<Sha>, commits: bool, headAfter: Sha
  )

  /** A call returns, throws, or ends with its process. */
  datatype Outcome = Done | Refused | Died

  // ---- Views ----

  predicate Fresh(c: Candidate, f: Facts) {
    && f.available && !f.dirty
    && f.repository == c.repository && f.sourceSha == c.sourceSha && f.revision == c.revision
    && (f.baseSha == c.targetSha || (c.state == Integrated && c.candidateSha == Some(f.baseSha)))
    && f.sourceAccepted && f.latestRun == Some(c.sourceVerification)
    && f.latestReview.Some? && f.latestReview.value.id == c.sourceReview
    && f.latestReview.value.accepted && f.latestReview.value.approves
  }

  function Latest(w: World, id: Id): Option<Verification> {
    if id in w.runs && w.runs[id] != [] then Some(w.runs[id][0]) else None
  }

  predicate CheckoutDirty(c: Candidate, k: Checkout) {
    (c.candidateSha.Some? || c.state == Conflicted) && (k.dirty || c.candidateSha != Some(k.head))
  }

  predicate Eligible(w: World, id: Id, c: Candidate, f: Facts, k: Checkout) {
    && c.state == Prepared && Fresh(c, f) && !CheckoutDirty(c, k) && c.candidateSha.Some?
    && var run := Latest(w, id);
    && run.Some? && run.value.state == Passed && Some(run.value.headSha) == c.candidateSha
    && run.value.revision == c.revision && c.reviewSha == c.candidateSha && c.reviewedAt.Some?
  }

  predicate CanIntegrate(w: World, id: Id, c: Candidate, f: Facts, k: Checkout) {
    && Eligible(w, id, c, f, k) && c.acceptedAt.Some?
    && c.verification == Some(Latest(w, id).value.id)
  }

  function HeadSha(r: Repo): Option<Sha> {
    if r.head.Some? && r.head.value in r.refs then Some(r.refs[r.head.value]) else None
  }

  predicate TargetDirty(o: Objects, r: Repo) {
    !r.filesMatch || r.untracked || HeadSha(r).None? || r.index != o.tree(HeadSha(r).value)
  }

  // ---- Preparation ----

  function Save(w: World, id: Id, c: Candidate): World {
    w.(candidates := w.candidates[id := c])
  }

  /** `finishCandidateGit`: commits the merge if there is one, then requires both parents. */
  function FinishGit(o: Objects, c: Candidate, k: Checkout): Option<Sha> {
    if k.conflicts then None
    else if k.mergeHead.Some? && (k.mergeHead.value != c.sourceSha || k.head != c.targetSha || !k.commits) then None
    else
      var sha := if k.mergeHead.Some? then k.headAfter else k.head;
      if o.ancestor(c.sourceSha, sha) && o.ancestor(c.targetSha, sha) then Some(sha) else None
  }

  /** How the merge of `prepareCandidateGit` ended: with conflicts, cleanly, or with an error. */
  datatype MergeResult = MergeConflicts | Merged(k: Checkout) | MergeThrows

  function Handle(o: Objects, w: World, id: Id, f: Facts, merge: MergeResult, dies: bool): World {
    if id !in w.candidates || w.candidates[id].state != Queued then w
    else
      var c := w.candidates[id];
      if !Fresh(c, f) then Save(w, id, c.(state := Stale))
      else if dies then Save(w, id, c.(state := Preparing))
      else match merge
        case MergeConflicts => Save(w, id, c.(state := Conflicted, candidateSha := None))
        case MergeThrows => Save(w, id, c.(state := Failed))
        case Merged(k) =>
          match FinishGit(o, c, k)
          case None => Save(w, id, c.(state := Failed))
          case Some(sha) => Save(w, id, c.(state := Prepared, candidateSha := Some(sha)))
  }

  function Continue(o: Objects, w: World, id: Id, f: Facts, k: Checkout): World {
    if id !in w.candidates then w
    else
      var c := w.candidates[id];
      if (c.state != Conflicted && c.state != Failed) || !Fresh(c, f) then w
      else match FinishGit(o, c, k)
        case None => w
        case Some(sha) =>
          Save(w, id, c.(state := Prepared, candidateSha := Some(sha), acceptedAt := None, reviewSha := None, reviewedAt := None, verification := None))
  }

  // ---- Evidence ----

  function ReviewCandidate(w: World, id: Id, sha: Sha, f: Facts, k: Checkout, now: nat): World {
    if id !in w.candidates then w
    else
      var c := w.candidates[id];
      if c.candidateSha != Some(sha) || c.state != Prepared || !Fresh(c, f) || CheckoutDirty(c, k) then w
      else Save(w, id, c.(reviewSha := Some(sha), reviewedAt := Some(now), acceptedAt := None))
  }

  function Accept(w: World, id: Id, sha: Sha, run: Id, f: Facts, k: Checkout, now: nat): World {
    if id !in w.candidates then w
    else
      var c := w.candidates[id];
      var eligible := Eligible(w, id, c, f, k);
      if c.candidateSha != Some(sha)
         || !((eligible && c.acceptedAt.None?) || CanIntegrate(w, id, c, f, k))
         || Latest(w, id).value.id != run
      then w
      else Save(w, id, c.(verification := Some(run), acceptedAt := if c.acceptedAt.Some? then c.acceptedAt else Some(now)))
  }

  function Abandon(w: World, id: Id): World {
    if id !in w.candidates || w.candidates[id].state in {Preparing, Integrating, Integrated}
       || (id in w.runs && exists i :: 0 <= i < |w.runs[id]| && w.runs[id][i].state == Running)
    then w
    else Save(w, id, w.candidates[id].(state := Abandoned))
  }

  // ---- Integration ----

  /** What a `git read-tree` that did not succeed leaves of index and files. */
  datatype Left = Left(switched: bool, filesMatch: bool, statClean: bool, locked: bool)

  /** Where a call can be cut short, named after the last thing that took effect. */
  datatype Point =
    | InFront            // nothing has
    | AfterPrepared      // a recovery has saved `prepared`
    | AfterIntegrating   // `integrating` is saved; the branch has not moved
    | AfterRef           // the branch has moved; the checkout has not been looked at to the end
    | InReadTree(left: Left)
    | AfterIndex         // index and files are the candidate's
    | AfterMark          // the integration is recorded

  /** The process dies, or the call throws because a command was not permitted, failed or was killed before its status
      was seen, or because the store or the closing view threw. The first stop ends the call. */
  datatype Stop = Nowhere | At(point: Point, dies: bool)

  predicate StopsAt(stop: Stop, point: Point) { stop.At? && stop.point == point }

  predicate StopsInReadTree(stop: Stop) { stop.At? && stop.point.InReadTree? }

  function Ended(stop: Stop): Outcome
    requires stop.At?
  {
    if stop.dies then Died else Refused
  }

  /** What one call observes. Others may have replaced the repository's state just before the ref
      update and just before the checkout is finished; `readTree`: `git read-tree` does not refuse. */
  datatype Env = Env(
    facts: Facts, checkout: Checkout, idle: bool, now: nat,
    beforeRef: Option<Repo>, beforeFinish: Option<Repo>, readTree: bool, stop: Stop
  )

  function Meddled(w: World, repo: Option<Repo>): World {
    if repo.Some? then w.(repo := repo.value) else w
  }

  /** `git diff-files --quiet` exits with status 0. */
  predicate DiffFilesQuiet(r: Repo) { r.filesMatch && r.statClean }

  /** The checks of `finishCandidateCheckout`; `git write-tree` takes the index lock. */
  predicate Inspected(o: Objects, c: Candidate, r: Repo)
    requires c.candidateSha.Some?
  {
    && r.head == Some(c.branch) && !r.locked && DiffFilesQuiet(r)
    && (r.index == o.tree(c.targetSha) || r.index == o.tree(c.candidateSha.value))
  }

  function LeftBy(o: Objects, c: Candidate, r: Repo, left: Left): Repo
    requires c.candidateSha.Some?
  {
    r.(index := if left.switched then o.tree(c.candidateSha.value) else r.index,
       filesMatch := left.filesMatch, statClean := left.statClean, locked := left.locked)
  }

  function MarkIntegrated(w: World, id: Id, now: nat): World
    requires id in w.candidates
  {
    Save(w, id, w.candidates[id].(state := Integrated, integratedAt := Some(now))).(marks := w.marks + [id])
  }

  /** The record, and the view that is returned. */
  function Record(w: World, id: Id, env: Env): (World, Outcome)
    requires id in w.candidates
  {
    if StopsAt(env.stop, AfterIndex) then (w, Ended(env.stop))
    else (MarkIntegrated(w, id, env.now), if StopsAt(env.stop, AfterMark) then Ended(env.stop) else Done)
  }

  function FinishAndMark(o: Objects, w: World, id: Id, env: Env): (World, Outcome)
    requires id in w.candidates && w.candidates[id].candidateSha.Some?
  {
    var c, r := w.candidates[id], w.repo;
    if StopsAt(env.stop, AfterRef) then (w, Ended(env.stop))
    else if !Inspected(o, c, r) then (w, Refused)
    else if r.index != o.tree(c.targetSha) then Record(w, id, env)
    else if StopsInReadTree(env.stop) then (w.(repo := LeftBy(o, c, r, env.stop.point.left)), Ended(env.stop))
    else if !env.readTree then (w, Refused)
    else Record(w.(repo := r.(index := o.tree(c.candidateSha.value))), id, env)
  }

  /** `git update-ref <branch> <commit> <target>` has taken effect. */
  function Moved(w: World, id: Id, c: Candidate): World
    requires c.candidateSha.Some?
  {
    w.(repo := w.repo.(refs := w.repo.refs[c.branch := c.candidateSha.value]),
       moves := w.moves + [Move(id, c, w.repo.refs, c.targetSha, c.candidateSha.value)])
  }

  function Install(o: Objects, w: World, id: Id, env: Env): (World, Outcome)
    requires id in w.candidates && w.candidates[id].candidateSha.Some?
  {
    var c := w.candidates[id];
    var sha := c.candidateSha.value;
    var seen := Meddled(w, env.beforeRef);
    if StopsAt(env.stop, AfterIntegrating) then (seen, Ended(env.stop))
    else if !o.ancestor(c.targetSha, sha) then (seen, Refused)
    else if c.branch !in seen.repo.refs || seen.repo.refs[c.branch] != c.targetSha then (seen, Refused)
    else FinishAndMark(o, Meddled(Moved(seen, id, c), env.beforeFinish), id, env)
  }

  function IntegrateAccepted(o: Objects, w: World, id: Id, sha: Sha, target: Sha, run: Id, env: Env): (World, Outcome)
    requires id in w.candidates
  {
    var c := w.candidates[id];
    if c.candidateSha != Some(sha) then (w, Refused)
    else if c.state == Integrated && c.targetSha == target && c.verification == Some(run) then (w, Done)
    else if !CanIntegrate(w, id, c, env.facts, env.checkout) || c.targetSha != target || c.verification != Some(run) then (w, Refused)
    else if !env.idle || HeadSha(w.repo) != Some(target) || TargetDirty(o, w.repo) || w.repo.head != Some(c.branch) then (w, Refused)
    else Install(o, Save(w, id, c.(state := Integrating)), id, env)
  }

  function Integrate(o: Objects, w: World, id: Id, sha: Sha, target: Sha, run: Id, env: Env): (World, Outcome) {
    if StopsAt(env.stop, InFront) then (w, Ended(env.stop))
    else if id !in w.candidates then (w, Refused)
    else
      var c := w.candidates[id];
      if c.state != Integrating then IntegrateAccepted(o, w, id, sha, target, run, env)
      else if !env.idle || c.candidateSha != Some(sha) || c.targetSha != target || c.verification != Some(run) then (w, Refused)
      else if w.repo.merging || w.repo.head != Some(c.branch) then (w, Refused)
      else if HeadSha(w.repo) == Some(sha) then FinishAndMark(o, Meddled(w, env.beforeFinish), id, env)
      else if HeadSha(w.repo) != Some(target) || TargetDirty(o, w.repo) then (w, Refused)
      else
        var prepared := Save(w, id, c.(state := Prepared));
        if StopsAt(env.stop, AfterPrepared) then (prepared, Ended(env.stop))
        else IntegrateAccepted(o, prepared, id, sha, target, run, env)
  }

  // ---- All actions ----

  datatype Action =
    | Insert(newId: Id, candidate: Candidate)
    | RunHandler(id: Id, facts: Facts, merge: MergeResult, dies: bool)
    | ContinueRecovery(id: Id, facts: Facts, checkout: Checkout)
    | AddReview(id: Id, sha: Sha, facts: Facts, checkout: Checkout, now: nat)
    | AcceptVersion(id: Id, sha: Sha, run: Id, facts: Facts, checkout: Checkout, now: nat)
    | IntegrateVersion(id: Id, sha: Sha, target: Sha, run: Id, env: Env)
    | AbandonCandidate(id: Id)
    | CancelQueued(id: Id)
    | PreparationFailed(id: Id)
    | StartVerification(id: Id, started: Verification)
    | EndVerification(id: Id, passed: bool)
    | ChangeTarget(repo: Repo)
    | Restart

  function Interrupted(c: Candidate): Candidate {
    if c.state == Preparing then c.(state := Failed) else c
  }

  function After(o: Objects, w: World, a: Action): World {
    match a
    case Insert(id, c) =>
      if id in w.candidates then w
      else Save(w, id, c.(state := Queued, candidateSha := None, verification := None, reviewSha := None, reviewedAt := None,
                          acceptedAt := None, integratedAt := None))
    case RunHandler(id, facts, merge, dies) => Handle(o, w, id, facts, merge, dies)
    case ContinueRecovery(id, facts, checkout) => Continue(o, w, id, facts, checkout)
    case AddReview(id, sha, facts, checkout, now) => ReviewCandidate(w, id, sha, facts, checkout, now)
    case AcceptVersion(id, sha, run, facts, checkout, now) => Accept(w, id, sha, run, facts, checkout, now)
    case IntegrateVersion(id, sha, target, run, env) => Integrate(o, w, id, sha, target, run, env).0
    case AbandonCandidate(id) => Abandon(w, id)
    case CancelQueued(id) =>
      if id in w.candidates && w.candidates[id].state == Queued then Save(w, id, w.candidates[id].(state := Abandoned)) else w
    case PreparationFailed(id) =>
      if id in w.candidates && w.candidates[id].state in {Queued, Preparing}
      then Save(w, id, w.candidates[id].(state := Failed)) else w
    case StartVerification(id, run) =>
      w.(runs := w.runs[id := [run.(state := Running)] + (if id in w.runs then w.runs[id] else [])])
    case EndVerification(id, passed) =>
      if Latest(w, id).Some? && Latest(w, id).value.state == Running
      then w.(runs := w.runs[id := w.runs[id][0 := w.runs[id][0].(state := if passed then Passed else NotPassed)]])
      else w
    case ChangeTarget(repo) => w.(repo := repo)
    case Restart => w.(candidates := map id | id in w.candidates :: Interrupted(w.candidates[id]))
  }

  function Run(o: Objects, repo: Repo, actions: seq<Action>): World {
    if actions == [] then World(map[], map[], repo, [], [])
    else After(o, Run(o, repo, actions[..|actions| - 1]), actions[|actions| - 1])
  }
}
