/**
 * The hash-chained audit log that the orchestrator writes and replays. The
 * log type comes from the SwiftVectorCore package, which is not part of this
 * model: what is written here is the behaviour the flight core relies on
 * (entries appended in order, each naming the hash of its predecessor, a
 * verification walk over the links, the accepted actions in order, and the
 * state hash the log ends on), stated as definitions. The entry hash itself
 * is a parameter.
 */
module EventLog {
  import opened Wrappers
  import opened VectorCore
  import opened Text

  /** What an entry records. */
  datatype EventType<A> =
    | Initialization(initialStateHash: Digest)
    | AcceptedTransition(action: A, agentID: string, stateHashBefore: Digest, stateHashAfter: Digest, rationale: string)
    | RejectedTransition(action: A, agentID: string, stateHash: Digest, rationale: string)
  {
    /** The hash of the state this entry leaves the session in. */
    function PostStateHash(): Digest {
      match this
      case Initialization(h) => h
      case AcceptedTransition(_, _, _, after, _) => after
      case RejectedTransition(_, _, h, _) => h
    }
  }

  /** One audit entry: identity, time, what happened, and the link to its predecessor. */
  datatype AuditEvent<A> = AuditEvent(
    id: Uuid,
    timestamp: Date,
    eventType: EventType<A>,
    previousEntryHash: Option<Digest>)

  /** An action together with the agent that dispatched it, as `acceptedActions()` lists them. */
  datatype ActionRecord<A> = ActionRecord(action: A, agentID: string)

  /** `lastEntryHash`: the hash of the newest entry, `None` for an empty log. */
  function LastEntryHash<A>(log: seq<AuditEvent<A>>, entryHash: AuditEvent<A> -> Digest): (h: Option<Digest>)
    ensures h.None? <==> log == []
    ensures h.Some? ==> h.value == entryHash(log[|log| - 1])
  {
    if log == [] then None else Some(entryHash(log[|log| - 1]))
  }

  /** Entry `i` names the hash of entry `i - 1`. */
  predicate LinkedAt<A>(log: seq<AuditEvent<A>>, entryHash: AuditEvent<A> -> Digest, i: int)
    requires 0 < i < |log|
  {
    log[i].previousEntryHash == Some(entryHash(log[i - 1]))
  }

  /** Every entry after the first names the hash of its predecessor. */
  ghost predicate Linked<A>(log: seq<AuditEvent<A>>, entryHash: AuditEvent<A> -> Digest) {
    forall i | 0 < i < |log| :: LinkedAt(log, entryHash, i)
  }

  /** The first index from `from` on whose link does not hold. */
  function FirstBrokenLink<A>(log: seq<AuditEvent<A>>, entryHash: AuditEvent<A> -> Digest, from: nat): (r: Option<nat>)
    requires 0 < from
    ensures r.None? <==> forall i | from <= i < |log| :: LinkedAt(log, entryHash, i)
    ensures r.Some? ==> from <= r.value < |log| && !LinkedAt(log, entryHash, r.value)
    ensures r.Some? ==> forall j | from <= j < r.value :: LinkedAt(log, entryHash, j)
    decreases |log| - from
  {
    if from >= |log| then None
    else if !LinkedAt(log, entryHash, from) then Some(from)
    else FirstBrokenLink(log, entryHash, from + 1)
  }

  /** The outcome of `verify()`. */
  datatype Verification = Verification(isValid: bool, brokenAtIndex: Option<nat>, failureReason: Option<string>)

  const BrokenLinkReason: string := "previousEntryHash mismatch at index "

  /**
   * `verify()`: walks the entries in order and reports the first broken link.
   * An empty log and a log holding only its first entry are valid.
   */
  function Verify<A>(log: seq<AuditEvent<A>>, entryHash: AuditEvent<A> -> Digest): (v: Verification)
    ensures v.isValid <==> Linked(log, entryHash)
    ensures v.isValid <==> v.brokenAtIndex.None?
    ensures v.isValid <==> v.failureReason.None?
    ensures v.brokenAtIndex.Some? ==>
      0 < v.brokenAtIndex.value < |log| && !LinkedAt(log, entryHash, v.brokenAtIndex.value)
      && forall j | 0 < j < v.brokenAtIndex.value :: LinkedAt(log, entryHash, j)
  {
    match FirstBrokenLink(log, entryHash, 1)
    case None => Verification(true, None, None)
    case Some(i) => Verification(false, Some(i), Some(BrokenLinkReason + DecimalString(i)))
  }

  /** The actions an entry contributes to `acceptedActions()`: its own, if it was accepted. */
  function AcceptedIn<A>(e: AuditEvent<A>): seq<ActionRecord<A>> {
    match e.eventType
    case AcceptedTransition(action, agentID, _, _, _) => [ActionRecord(action, agentID)]
    case _ => []
  }

  /** `acceptedActions()`: the accepted actions, oldest first, with their agents. */
  function AcceptedActions<A>(log: seq<AuditEvent<A>>): (r: seq<ActionRecord<A>>)
    ensures |r| <= |log|
  {
    if log == [] then [] else AcceptedActions(log[..|log| - 1]) + AcceptedIn(log[|log| - 1])
  }

  /** `currentStateHash`: the state hash the newest entry leaves the session in. */
  function CurrentStateHash<A>(log: seq<AuditEvent<A>>): (h: Option<Digest>)
    ensures h.None? <==> log == []
  {
    if log == [] then None else Some(log[|log| - 1].eventType.PostStateHash())
  }

  /** A log in which some entry's link is wrong fails verification at the first such entry. */
  lemma TamperedLinkIsDetected<A>(log: seq<AuditEvent<A>>, entryHash: AuditEvent<A> -> Digest, i: nat)
    requires 0 < i < |log| && !LinkedAt(log, entryHash, i)
    ensures !Verify(log, entryHash).isValid
    ensures Verify(log, entryHash).brokenAtIndex.value <= i
  {
  }

  /** Appending an entry that names the hash of the last one keeps a linked log linked. */
  lemma AppendLinked<A>(log: seq<AuditEvent<A>>, entryHash: AuditEvent<A> -> Digest, e: AuditEvent<A>)
    requires Linked(log, entryHash)
    requires e.previousEntryHash == LastEntryHash(log, entryHash)
    ensures Linked(log + [e], entryHash)
  {
    var log' := log + [e];
    forall i | 0 < i < |log'| ensures LinkedAt(log', entryHash, i) {
      if i < |log| {
        assert LinkedAt(log, entryHash, i);
      }
    }
  }
}
