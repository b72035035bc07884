/**
 * The thermal reducer: enabling is accepted only while detection is off,
 * disabling only while it is on; a rejection hands back the state it was
 * given.
 */
module ThermalReducer {
  import opened VectorCore
  import opened ThermalStates
  import opened ThermalActions

  const EnableRejected: string := "enableDetection rejected: thermal detection already enabled"
  const EnableAccepted: string := "thermal detection enabled"
  const DisableRejected: string := "disableDetection rejected: thermal detection already disabled"
  const DisableAccepted: string := "thermal detection disabled"

  /** `reduce(state:action:)`. */
  function Reduce(s: ThermalState, a: ThermalAction): (r: ReducerResult<ThermalState>)
    ensures r.applied <==> a.EnableDetection? != s.isEnabled
    ensures r.newState.isEnabled == a.EnableDetection?
    ensures !r.applied ==> r.newState == s
    ensures r.applied <==> r.newState != s
    ensures |r.rationale| > 0
  {
    match a
    case EnableDetection(_) =>
      if s.isEnabled then Rejected(s, EnableRejected)
      else Accepted(ThermalState(true), EnableAccepted)
    case DisableDetection(_) =>
      if !s.isEnabled then Rejected(s, DisableRejected)
      else Accepted(ThermalState(false), DisableAccepted)
  }

  /** The thermal reducer keeps the reducer law. */
  lemma ThermalReducerKeepsStateOnRejection()
    ensures KeepsStateOnRejection(Reduce)
  {
  }

  /** Reducing the same action twice: the second is always rejected and changes nothing. */
  lemma SecondToggleIsRejected(s: ThermalState, a: ThermalAction)
    ensures !Reduce(Reduce(s, a).newState, a).applied
    ensures Reduce(Reduce(s, a).newState, a).newState == Reduce(s, a).newState
  {
  }

  /** Enabling then disabling from the initial state returns to the initial state, both accepted. */
  lemma EnableThenDisableRoundTrip(x: Uuid, y: Uuid)
    ensures Reduce(Initial, EnableDetection(x)).applied
    ensures Reduce(Reduce(Initial, EnableDetection(x)).newState, DisableDetection(y)).applied
    ensures Reduce(Reduce(Initial, EnableDetection(x)).newState, DisableDetection(y)).newState == Initial
  {
  }
}
