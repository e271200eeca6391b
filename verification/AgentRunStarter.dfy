/** The run starter as written: the token registry is a map; the live-run registry, the closure of the start
    and the table row of one run are the fields of one object, since every access goes by the run's own id.
    Every method is proved to be a step of `RunLifecycle`. */
module AgentRunStarter {
  import opened Wrappers
  import opened RunLifecycle

  class AgentTokenRegistry {
    var tokens: map<Agent, RunId>

    constructor ()
      ensures tokens == map[]
    {
      tokens := map[];
    }

    method Issue(agent: Agent, token: RunId)
      modifies this
      ensures tokens == old(tokens)[agent := token]
    {
      tokens := tokens[agent := token];
    }

    method RevokeIfMatches(agent: Agent, token: RunId)
      modifies this
      ensures tokens == Revoke(old(tokens), agent, token)
    {
      if agent in tokens && tokens[agent] == token { tokens := tokens - {agent}; }
    }

    predicate Validate(agent: Agent, token: Option<RunId>)
      reads this
    {
      token.Some? && agent in tokens && tokens[agent] == token.value
    }
  }

  class AgentRun {
    const id: RunId
    const agent: Agent
    const registry: AgentTokenRegistry
    var phase: Phase
    var exit: Option<Code>
    var live: Option<Status>
    var pendingExitCode: Option<Code>
    var exitEntry: Option<bool>
    var handled: bool
    var aborted: bool
    var deferred: Option<Code>
    var row: Option<Row>
    var notices: nat
    var early: bool
    var broken: bool

    ghost function Value(): Record
      reads this
    {
      Record(agent, phase, exit, live, pendingExitCode, exitEntry, handled, aborted, deferred, row, notices, early, broken)
    }

    ghost function Tokens(): map<Agent, RunId>
      reads registry
    {
      registry.tokens
    }

    /** What a change leaves of the tokens. */
    ghost function TokensAfter(before: map<Agent, RunId>, change: Change): map<Agent, RunId> {
      if change.revokes then Revoke(before, agent, id) else before
    }

    constructor (run: RunId, owner: Agent, tokens: AgentTokenRegistry)
      modifies tokens
      ensures id == run && agent == owner && registry == tokens
      ensures Value() == Fresh(owner) && Tokens() == old(tokens.tokens)[owner := run]
    {
      id, agent, registry := run, owner, tokens;
      phase, exit, live, pendingExitCode, exitEntry := Starting, None, None, None, None;
      handled, aborted, deferred, row, notices, early, broken := false, false, None, None, 0, false, false;
      new;
      tokens.Issue(owner, run);
    }

    /** `handleAgentRunExit`: true when it completed the run, false also when it threw. */
    method HandleAgentRunExit(code: Code, stored: bool) returns (completed: bool)
      modifies this, registry
      ensures var change := HandleExit(old(Value()), code, stored);
        Value() == change.run && completed == change.completed && Tokens() == TokensAfter(old(Tokens()), change)
    {
      hide Revoke, Final;
      pendingExitCode := Some(code);
      if live.None? {
        registry.RevokeIfMatches(agent, id);
        return false;
      }
      if handled {
        pendingExitCode := None;
        return false;
      }
      var ok := CompleteLiveRun(code, stored);
      if !ok { return false; }
      handled := true;
      registry.RevokeIfMatches(agent, id);
      AnnounceExit();
      return true;
    }

    /** `completeLiveRun`: false when the table update threw. */
    method CompleteLiveRun(code: Code, stored: bool) returns (ok: bool)
      modifies this`live, this`row, this`broken
      ensures ok == stored && live == Some(Final(code)) && broken == !stored
      ensures row == if stored then Some(Row(Final(code), code, true)) else old(row)
    {
      live := Some(Final(code));
      if stored { row := Some(Row(Final(code), code, true)); }
      broken := !stored;
      return stored;
    }

    /** The member is told, the exit entry resolved and the pending code cleared. */
    method AnnounceExit()
      modifies this`notices, this`exitEntry, this`pendingExitCode
      ensures notices == old(notices) + 1 && pendingExitCode == None
      ensures exitEntry == if old(exitEntry).Some? then Some(true) else None
    {
      notices := notices + 1;
      if exitEntry.Some? { exitEntry := Some(true); }
      pendingExitCode := None;
    }

    /** The callback given to the process manager, which calls it once. */
    method OnProcessExit(code: Code, stored: bool)
      requires exit.None?
      modifies this, registry
      ensures var change := OnExit(old(Value()), code, stored);
        Value() == change.run && Tokens() == TokensAfter(old(Tokens()), change)
    {
      hide Revoke, HandleExit;
      exit, early := Some(code), live.None?;
      var completed := HandleAgentRunExit(code, stored);
      if !completed && aborted { pendingExitCode := None; }
    }

    method LaunchThrew()
      requires phase == Starting
      modifies this, registry
      ensures var change := Step(old(Value()), LaunchThrows(id)); Value() == change.run && Tokens() == TokensAfter(old(Tokens()), change)
    {
      phase := Failed;
      registry.RevokeIfMatches(agent, id);
    }

    method LaunchReturned()
      requires phase == Starting
      modifies this
      ensures Value() == Step(old(Value()), LaunchReturns(id)).run
    {
      phase := Launched(exit.Some? && exit.value != Some(0));
    }

    /** What follows the launch in one go: the row, the registry, and either the report of a failed launch or
        the look at the pending exit code. */
    method FinishStart(stored: bool, rolledBack: bool)
      requires phase.Launched?
      modifies this, registry
      ensures var registered := Step(Step(old(Value()), Insert(id)).run, Register(id)).run;
        var change := Step(registered, if old(phase).error then ErrorReturn(id, stored, rolledBack) else CheckPending(id));
        Value() == change.run && Tokens() == TokensAfter(old(Tokens()), change)
    {
      var error := phase.error;
      InsertRow();
      RegisterRun();
      if error { ReportFailedLaunch(stored, rolledBack); } else { LookForPendingExit(); }
    }

    method InsertRow()
      requires phase.Launched?
      modifies this
      ensures phase == Recorded(old(phase).error) && Value() == Step(old(Value()), Insert(id)).run
    {
      row := Some(if phase.error then Row(Error, if exit.Some? then exit.value else None, false) else Row(Active, None, false));
      phase := Recorded(phase.error);
    }

    method RegisterRun()
      requires phase.Recorded?
      modifies this
      ensures phase == Registered(old(phase).error) && Value() == Step(old(Value()), Register(id)).run
    {
      exitEntry := Some(false);
      live := Some(if phase.error then Error else Active);
      phase := Registered(phase.error);
    }

    method ReportFailedLaunch(stored: bool, rolledBack: bool)
      requires phase == Registered(true) && exitEntry.Some?
      modifies this, registry
      ensures var change := Step(old(Value()), ErrorReturn(id, stored, rolledBack)); Value() == change.run && Tokens() == TokensAfter(old(Tokens()), change)
    {
      hide Revoke;
      if !stored {
        phase, broken := Failed, true;
        return;
      }
      row := Some(Row(Error, if exit.Some? then exit.value else None, true));
      registry.RevokeIfMatches(agent, id);
      AnnounceExit();
      phase := if rolledBack then Returned else Failed;
    }

    method LookForPendingExit()
      requires phase == Registered(false)
      modifies this
      ensures Value() == Step(old(Value()), CheckPending(id)).run
    {
      deferred := pendingExitCode;
      phase := Returned;
    }

    method InsertThrew(inserted: bool)
      requires phase.Launched?
      modifies this, registry
      ensures var change := Step(old(Value()), InsertThrows(id, inserted)); Value() == change.run && Tokens() == TokensAfter(old(Tokens()), change)
    {
      row := if inserted then Some(Row(Active, None, false)) else None;
      aborted := true;
      pendingExitCode := None;
      registry.RevokeIfMatches(agent, id);
      phase := Aborting;
    }

    /** After the stopped process has exited: the row is closed and then the member told. */
    method AbortEnded(stored: bool)
      requires phase == Aborting
      modifies this
      ensures Value() == Step(old(Value()), AbortEnds(id, stored)).run
    {
      if !stored {
        phase, broken := Failed, true;
        return;
      }
      if row.Some? { row := Some(Row(Error, None, true)); }
      notices := notices + 1;
      phase := Failed;
    }

    method RunMicrotask(stored: bool)
      requires deferred.Some?
      modifies this, registry
      ensures var change := Step(old(Value()), RunDeferred(id, stored)); Value() == change.run && Tokens() == TokensAfter(old(Tokens()), change)
    {
      var code := deferred.value;
      deferred := None;
      var _ := HandleAgentRunExit(code, stored);
    }
  }
}
