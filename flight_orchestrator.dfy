/**
 * The stateful owner of a session. It holds the current state and the audit
 * log; `Dispatch` is the only way the state changes, and every dispatch
 * appends exactly one entry linked to its predecessor. `Replay` re-runs the
 * accepted actions of a log from the canonical initial state and compares
 * state hashes.
 *
 * The injected collaborators are a parameter of the orchestrator: the clock
 * and the identifier generator are given as the values they return on their
 * k-th call (the orchestrator calls each once per entry, so the entry at index
 * k is stamped with the k-th values), and the state and entry hashes stand
 * for the package's SHA-256 digests.
 */
module Orchestrator {
  import opened Wrappers
  import opened VectorCore
  import opened Text
  import opened FlightStates
  import opened FlightActions
  import opened FlightReducer
  import opened EventLog

  type Entry = AuditEvent<FlightAction>

  type Log = seq<Entry>

  /** A dispatched action with the agent it is attributed to. */
  type Command = ActionRecord<FlightAction>

  /** A reducer as the orchestrator uses it: `reduce(state:action:)`. */
  type Reduction = (FlightState, FlightAction) -> ReducerResult<FlightState>

  /**
   * What the orchestrator is constructed with besides its initial state: the
   * reducer, the clock and identifier generator (as their k-th values), and
   * the two digests.
   */
  datatype Collaborators = Collaborators(
    reducer: Reduction,
    clock: nat -> Date,
    uuidGenerator: nat -> Uuid,
    stateHash: FlightState -> Digest,
    entryHash: Entry -> Digest)

  /** The outcome of `replay(log:)`. */
  datatype ReplayResult = ReplayResult(
    succeeded: bool,
    finalState: FlightState,
    expectedHash: Digest,
    actualHash: Digest,
    failureReason: Option<string>)

  const ChainFailurePrefix: string := "hash chain verification failed: "
  const ReplayMismatch: string := "state hash mismatch after replay"

  // ---------------------------------------------------------------------
  // Specification functions
  // ---------------------------------------------------------------------

  /** The actions of a sequence of commands, in order. */
  function Actions(cs: seq<Command>): (xs: seq<FlightAction>)
    ensures |xs| == |cs|
    ensures forall i | 0 <= i < |cs| :: xs[i] == cs[i].action
  {
    if cs == [] then [] else Actions(cs[..|cs| - 1]) + [cs[|cs| - 1].action]
  }

  /** The state reached from `s` by reducing `actions` in order and keeping each new state. */
  function Run(reducer: Reduction, s: FlightState, actions: seq<FlightAction>): FlightState {
    if actions == [] then s
    else reducer(Run(reducer, s, actions[..|actions| - 1]), actions[|actions| - 1]).newState
  }

  /** The commands, among `cs` dispatched in order from `s`, that the reducer accepted. */
  function AppliedCommands(reducer: Reduction, s: FlightState, cs: seq<Command>): (r: seq<Command>)
    ensures |r| <= |cs|
  {
    if cs == [] then []
    else
      var p, c := cs[..|cs| - 1], cs[|cs| - 1];
      AppliedCommands(reducer, s, p) + (if reducer(Run(reducer, s, Actions(p)), c.action).applied then [c] else [])
  }

  /** The initialization entry written by the constructor. */
  function GenesisEntry(env: Collaborators, initialState: FlightState): Entry {
    AuditEvent(env.uuidGenerator(0), env.clock(0), Initialization(env.stateHash(initialState)), None)
  }

  /** The entry a dispatch of `c` from state `s` appends to `log`. */
  function DispatchEntry(env: Collaborators, log: Log, s: FlightState, c: Command): Entry {
    var r := env.reducer(s, c.action);
    var event :=
      if r.applied then AcceptedTransition(c.action, c.agentID, env.stateHash(s), env.stateHash(r.newState), r.rationale)
      else RejectedTransition(c.action, c.agentID, env.stateHash(s), r.rationale);
    AuditEvent(env.uuidGenerator(|log|), env.clock(|log|), event, LastEntryHash(log, env.entryHash))
  }

  /** The audit log after constructing from `initialState` and dispatching `cs` in order. */
  function Trail(env: Collaborators, initialState: FlightState, cs: seq<Command>): (log: Log)
    ensures |log| == |cs| + 1
  {
    if cs == [] then [GenesisEntry(env, initialState)]
    else
      var p := cs[..|cs| - 1];
      var before := Trail(env, initialState, p);
      before + [DispatchEntry(env, before, Run(env.reducer, initialState, Actions(p)), cs[|cs| - 1])]
  }

  /** `replay(log:)` as a function of the log. */
  function ReplayOutcome(env: Collaborators, log: Log): (r: ReplayResult)
    ensures r.succeeded <==> r.failureReason.None?
    ensures r.succeeded ==> r.expectedHash == r.actualHash
    ensures r.actualHash == env.stateHash(r.finalState)
  {
    var chain := Verify(log, env.entryHash);
    if !chain.isValid then
      ReplayResult(false, Initial, CurrentStateHash(log).GetOr(""), env.stateHash(Initial),
        Some(ChainFailurePrefix + chain.failureReason.GetOr("unknown")))
    else
      var finalState := Run(env.reducer, Initial, Actions(AcceptedActions(log)));
      var actualHash := env.stateHash(finalState);
      var expectedHash := CurrentStateHash(log).GetOr(actualHash);
      var succeeded := actualHash == expectedHash;
      ReplayResult(succeeded, finalState, expectedHash, actualHash, if succeeded then None else Some(ReplayMismatch))
  }

  // ---------------------------------------------------------------------
  // The orchestrator
  // ---------------------------------------------------------------------

  class FlightOrchestrator {
    /** The current, authoritative state. */
    var state: FlightState
    /** Every transition since construction, hash-linked. */
    var auditLog: Log
    const env: Collaborators
    /** How the flight reducer renders the Doubles it interpolates into rationales. */
    const showDouble: real -> string
    ghost const initialState: FlightState
    /** The commands dispatched so far, oldest first. */
    ghost var commands: seq<Command>

    /** The reducer the session was constructed with is the flight reducer. */
    ghost predicate UsesFlightReducer() {
      env.reducer == AsReducer(showDouble)
    }

    ghost predicate Valid()
      reads this
    {
      KeepsStateOnRejection(env.reducer)
      && state == Run(env.reducer, initialState, Actions(commands))
      && auditLog == Trail(env, initialState, commands)
    }

    /** `init`: adopts the initial state, the flight reducer and the collaborators, and records the initialization entry. */
    constructor(initialState: FlightState, showDouble: real -> string, clock: nat -> Date, uuidGenerator: nat -> Uuid,
                stateHash: FlightState -> Digest, entryHash: Entry -> Digest)
      ensures Valid() && UsesFlightReducer()
      ensures this.initialState == initialState && commands == []
      ensures env == Collaborators(AsReducer(showDouble), clock, uuidGenerator, stateHash, entryHash)
      ensures state == initialState
      ensures auditLog == [GenesisEntry(env, initialState)]
    {
      this.state := initialState;
      this.showDouble := showDouble;
      this.env := Collaborators(AsReducer(showDouble), clock, uuidGenerator, stateHash, entryHash);
      this.initialState := initialState;
      this.commands := [];
      this.auditLog := [AuditEvent(uuidGenerator(0), clock(0), Initialization(stateHash(initialState)), None)];
      FlightReducerKeepsStateOnRejection(showDouble);
    }

    /** `dispatch(_:agentID:)`: reduce, adopt the new state, append one linked entry. */
    method Dispatch(action: FlightAction, agentID: string) returns (result: ReducerResult<FlightState>)
      requires Valid()
      modifies this
      ensures Valid()
      ensures result == env.reducer(old(state), action)
      ensures state == result.newState
      ensures !result.applied ==> state == old(state)
      ensures commands == old(commands) + [ActionRecord(action, agentID)]
      ensures auditLog == old(auditLog) + [DispatchEntry(env, old(auditLog), old(state), ActionRecord(action, agentID))]
    {
      var hashBefore := env.stateHash(state);
      result := env.reducer(state, action);
      state := result.newState;
      var hashAfter := env.stateHash(state);
      var previousHash := LastEntryHash(auditLog, env.entryHash);
      var k := |auditLog|;
      ghost var entry := DispatchEntry(env, auditLog, old(state), ActionRecord(action, agentID));
      if result.applied {
        auditLog := auditLog + [AuditEvent(env.uuidGenerator(k), env.clock(k),
          AcceptedTransition(action, agentID, hashBefore, hashAfter, result.rationale), previousHash)];
      } else {
        auditLog := auditLog + [AuditEvent(env.uuidGenerator(k), env.clock(k),
          RejectedTransition(action, agentID, hashBefore, result.rationale), previousHash)];
      }
      assert auditLog == old(auditLog) + [entry];
      TrailSnoc(env, initialState, commands, ActionRecord(action, agentID));
      commands := commands + [ActionRecord(action, agentID)];
    }

    /** `currentState()`. */
    method CurrentState() returns (s: FlightState)
      ensures s == state
    {
      s := state;
    }

    /** `getAuditLog()`: a snapshot of the log. */
    method GetAuditLog() returns (log: Log)
      ensures log == auditLog
    {
      log := auditLog;
    }

    /** `replay(log:)`: check the chain, fold the accepted actions from the initial state, compare hashes. */
    method Replay(log: Log) returns (r: ReplayResult)
      ensures r == ReplayOutcome(env, log)
    {
      var chainVerification := Verify(log, env.entryHash);
      if !chainVerification.isValid {
        return ReplayResult(false, Initial, CurrentStateHash(log).GetOr(""), env.stateHash(Initial),
          Some(ChainFailurePrefix + chainVerification.failureReason.GetOr("unknown")));
      }
      var acceptedActions := AcceptedActions(log);
      var replayState := Initial;
      var i := 0;
      while i < |acceptedActions|
        invariant 0 <= i <= |acceptedActions|
        invariant replayState == Run(env.reducer, Initial, Actions(acceptedActions[..i]))
      {
        var result := env.reducer(replayState, acceptedActions[i].action);
        replayState := result.newState;
        RunPrefixStep(env.reducer, Initial, acceptedActions, i);
        i := i + 1;
      }
      assert acceptedActions[..i] == acceptedActions;
      var actualHash := env.stateHash(replayState);
      var expectedHash := CurrentStateHash(log).GetOr(env.stateHash(replayState));
      var succeeded := actualHash == expectedHash;
      r := ReplayResult(succeeded, replayState, expectedHash, actualHash,
        if succeeded then None else Some(ReplayMismatch));
    }
  }

  // ---------------------------------------------------------------------
  // Lemmas
  // ---------------------------------------------------------------------

  /** Reducing one more command takes one more step from where the prefix left off. */
  lemma RunSnoc(reducer: Reduction, s: FlightState, cs: seq<Command>, c: Command)
    ensures Actions(cs + [c]) == Actions(cs) + [c.action]
    ensures Run(reducer, s, Actions(cs + [c])) == reducer(Run(reducer, s, Actions(cs)), c.action).newState
  {
    assert (cs + [c])[..|cs|] == cs;
    assert (Actions(cs) + [c.action])[..|cs|] == Actions(cs);
  }

  /** Running one more element of `cs` takes one more step from where the shorter prefix left off. */
  lemma RunPrefixStep(reducer: Reduction, s: FlightState, cs: seq<Command>, i: nat)
    requires i < |cs|
    ensures Run(reducer, s, Actions(cs[..i + 1])) == reducer(Run(reducer, s, Actions(cs[..i])), cs[i].action).newState
  {
    assert cs[..i + 1] == cs[..i] + [cs[i]];
    RunSnoc(reducer, s, cs[..i], cs[i]);
  }

  /** One more dispatch appends exactly its own entry to the trail. */
  lemma TrailSnoc(env: Collaborators, initialState: FlightState, cs: seq<Command>, c: Command)
    ensures Trail(env, initialState, cs + [c])
      == Trail(env, initialState, cs) + [DispatchEntry(env, Trail(env, initialState, cs), Run(env.reducer, initialState, Actions(cs)), c)]
    ensures Run(env.reducer, initialState, Actions(cs + [c]))
      == env.reducer(Run(env.reducer, initialState, Actions(cs)), c.action).newState
  {
    assert (cs + [c])[..|cs|] == cs;
    RunSnoc(env.reducer, initialState, cs, c);
  }

  /** The trail opens with the initialization entry, and entry k carries the k-th identifier and timestamp. */
  lemma {:induction false} TrailEntries(env: Collaborators, initialState: FlightState, cs: seq<Command>)
    ensures Trail(env, initialState, cs)[0] == GenesisEntry(env, initialState)
    ensures forall k | 0 <= k < |cs| + 1 ::
      Trail(env, initialState, cs)[k].id == env.uuidGenerator(k) && Trail(env, initialState, cs)[k].timestamp == env.clock(k)
  {
    if cs != [] {
      TrailEntries(env, initialState, cs[..|cs| - 1]);
    }
  }

  /** Every trail is hash-linked, so it passes chain verification. */
  lemma {:induction false} TrailLinked(env: Collaborators, initialState: FlightState, cs: seq<Command>)
    ensures Linked(Trail(env, initialState, cs), env.entryHash)
    ensures Verify(Trail(env, initialState, cs), env.entryHash).isValid
  {
    if cs != [] {
      var p := cs[..|cs| - 1];
      var before := Trail(env, initialState, p);
      TrailLinked(env, initialState, p);
      AppendLinked(before, env.entryHash, DispatchEntry(env, before, Run(env.reducer, initialState, Actions(p)), cs[|cs| - 1]));
    }
  }

  /** The accepted actions a trail records are exactly the commands the reducer accepted, in order. */
  lemma {:induction false} TrailAcceptedActions(env: Collaborators, initialState: FlightState, cs: seq<Command>)
    ensures AcceptedActions(Trail(env, initialState, cs)) == AppliedCommands(env.reducer, initialState, cs)
  {
    var log := Trail(env, initialState, cs);
    if cs == [] {
      assert log[..0] == [];
    } else {
      var p := cs[..|cs| - 1];
      TrailAcceptedActions(env, initialState, p);
      assert log[..|log| - 1] == Trail(env, initialState, p);
    }
  }

  /** Under the reducer law, reducing only the accepted commands reaches the same state as reducing all of them. */
  lemma {:induction false} RejectionsDoNotMatter(reducer: Reduction, s: FlightState, cs: seq<Command>)
    requires KeepsStateOnRejection(reducer)
    ensures Run(reducer, s, Actions(AppliedCommands(reducer, s, cs))) == Run(reducer, s, Actions(cs))
  {
    if cs != [] {
      var p, c := cs[..|cs| - 1], cs[|cs| - 1];
      assert cs == p + [c];
      var applied := AppliedCommands(reducer, s, p);
      RejectionsDoNotMatter(reducer, s, p);
      RunSnoc(reducer, s, p, c);
      if reducer(Run(reducer, s, Actions(p)), c.action).applied {
        RunSnoc(reducer, s, applied, c);
      } else {
        assert AppliedCommands(reducer, s, cs) == applied;
      }
    }
  }

  /** Under the reducer law, a dispatch entry records the hash of the state the reducer leaves. */
  lemma DispatchEntryRecordsNewState(env: Collaborators, log: Log, s: FlightState, c: Command)
    requires KeepsStateOnRejection(env.reducer)
    ensures DispatchEntry(env, log, s, c).eventType.PostStateHash() == env.stateHash(env.reducer(s, c.action).newState)
  {
  }

  /** Under the reducer law, a trail ends on the hash of the state its commands reach. */
  lemma TrailEndsOnRunState(env: Collaborators, initialState: FlightState, cs: seq<Command>)
    requires KeepsStateOnRejection(env.reducer)
    ensures CurrentStateHash(Trail(env, initialState, cs)) == Some(env.stateHash(Run(env.reducer, initialState, Actions(cs))))
  {
    if cs != [] {
      var p, c := cs[..|cs| - 1], cs[|cs| - 1];
      assert cs == p + [c];
      TrailSnoc(env, initialState, p, c);
      DispatchEntryRecordsNewState(env, Trail(env, initialState, p), Run(env.reducer, initialState, Actions(p)), c);
    }
  }

  /** A trail recorded from the canonical initial state replays to the state its session reached. */
  lemma ReplayOfTrail(env: Collaborators, cs: seq<Command>)
    requires KeepsStateOnRejection(env.reducer)
    ensures ReplayOutcome(env, Trail(env, Initial, cs)).succeeded
    ensures ReplayOutcome(env, Trail(env, Initial, cs)).finalState == Run(env.reducer, Initial, Actions(cs))
  {
    TrailLinked(env, Initial, cs);
    TrailAcceptedActions(env, Initial, cs);
    RejectionsDoNotMatter(env.reducer, Initial, cs);
    TrailEndsOnRunState(env, Initial, cs);
  }

  /** An empty log replays to the initial state. */
  lemma EmptyLogReplaysToInitial(env: Collaborators)
    ensures ReplayOutcome(env, []).succeeded && ReplayOutcome(env, []).finalState == Initial
  {
    assert Actions([]) == [];
  }

  /** A log with a broken link is refused before any action is replayed. */
  lemma ReplayRejectsBrokenChain(env: Collaborators, log: Log, i: nat)
    requires 0 < i < |log| && !LinkedAt(log, env.entryHash, i)
    ensures !ReplayOutcome(env, log).succeeded
    ensures ReplayOutcome(env, log).finalState == Initial
    ensures ChainFailurePrefix + BrokenLinkReason <= ReplayOutcome(env, log).failureReason.value
  {
    TamperedLinkIsDetected(log, env.entryHash, i);
  }

  /**
   * A linked log whose final entry claims the state `claimed` replays
   * successfully exactly when re-running its accepted actions from the
   * initial state reaches `claimed`, provided the state hash does not make
   * the replayed state collide with the claimed one.
   */
  lemma ReplayDetectsForgedOutcome(env: Collaborators, log: Log, claimed: FlightState)
    requires Linked(log, env.entryHash)
    requires var replayed := Run(env.reducer, Initial, Actions(AcceptedActions(log)));
      env.stateHash(replayed) == env.stateHash(claimed) ==> replayed == claimed
    requires CurrentStateHash(log) == Some(env.stateHash(claimed))
    ensures ReplayOutcome(env, log).succeeded <==> claimed == Run(env.reducer, Initial, Actions(AcceptedActions(log)))
    ensures !ReplayOutcome(env, log).succeeded ==> ReplayOutcome(env, log).failureReason == Some(ReplayMismatch)
  {
  }

  /** Reducing with the flight reducer keeps "takingOff implies armed". */
  lemma {:induction false} RunKeepsTakeoffIsArmed(showDouble: real -> string, s: FlightState, actions: seq<FlightAction>)
    requires TakeoffIsArmed(s)
    ensures TakeoffIsArmed(Run(AsReducer(showDouble), s, actions))
  {
    if actions != [] {
      var p := actions[..|actions| - 1];
      RunKeepsTakeoffIsArmed(showDouble, s, p);
      TakeoffIsArmedPreserved(Run(AsReducer(showDouble), s, p), actions[|actions| - 1], showDouble);
    }
  }

  /** The log of a live session started from the canonical initial state replays to its current state. */
  lemma LiveSessionReplays(o: FlightOrchestrator)
    requires o.Valid() && o.initialState == Initial
    ensures ReplayOutcome(o.env, o.auditLog).succeeded
    ensures ReplayOutcome(o.env, o.auditLog).finalState == o.state
  {
    ReplayOfTrail(o.env, o.commands);
  }

  /** A live session never reaches takingOff while disarmed, if it did not start there. */
  lemma LiveSessionKeepsTakeoffIsArmed(o: FlightOrchestrator)
    requires o.Valid() && o.UsesFlightReducer() && TakeoffIsArmed(o.initialState)
    ensures TakeoffIsArmed(o.state)
  {
    RunKeepsTakeoffIsArmed(o.showDouble, o.initialState, Actions(o.commands));
  }
}
