/**
 * The thermal-detection state: a single flag, off at the start of every
 * session.
 */
module ThermalStates {
  import opened VectorCore

  datatype ThermalState = ThermalState(isEnabled: bool)

  /** The canonical starting state: detection disabled. */
  const Initial := ThermalState(false)

  /** The state has one field, so two states are equal exactly when their flags are. */
  lemma EqualityIsFlagEquality(s: ThermalState, t: ThermalState)
    ensures s == t <==> s.isEnabled == t.isEnabled
  {
  }

  /** The initial state is the disabled one, and there are only two states. */
  lemma InitialIsDisabled(s: ThermalState)
    ensures !Initial.isEnabled
    ensures s == Initial || s == ThermalState(true)
  {
  }

  /**
   * The state hash is a function of the value: the initial state hashes as
   * the disabled one, and a digest that tells the two flags apart tells
   * every pair of states apart.
   */
  lemma StateHashSeparatesFlag(stateHash: ThermalState -> Digest, s: ThermalState, t: ThermalState)
    requires stateHash(ThermalState(true)) != stateHash(ThermalState(false))
    ensures stateHash(Initial) == stateHash(ThermalState(false))
    ensures stateHash(s) == stateHash(t) <==> s == t
  {
  }
}
