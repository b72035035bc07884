# FlightworksControl core, modelled in Dafny

This project models the deterministic core of the FlightworksControl ground
control station. All session state lives in one immutable `FlightState` value,
and the only way it changes is through a typed `FlightAction`. A pure
`FlightReducer` answers every action with a `ReducerResult`: the new state if
accepted, or the unchanged state if rejected, with a rationale either way. A
`FlightOrchestrator` owns the live state and a hash-chained audit log. It
records one entry per dispatch and can replay a log to check that re-running
its accepted actions reproduces the hash the log ends on. A small thermal
toggle (state, actions, reducer) follows the same pattern.

Modules, one per source file:
- `SupportingTypes` covers the link, arming, flight-mode and GPS-fix enumerations, with their raw strings, and the sensor, mission and geofence records.
- `FlightStates` covers `FlightState`, `FlightState.initial` and `with(...)`.
- `FlightActions` covers the 17 commands, `actionDescription` and `correlationID`.
- `FlightReducer` covers `reduce(state:action:)` and the arm, disarm and flight-mode guard helpers.
- `Orchestrator` holds the class `FlightOrchestrator`: `init`, `dispatch`, `currentState`, `getAuditLog` and `replay`.
- `ThermalStates`, `ThermalActions` and `ThermalReducer` cover the thermal toggle.

Supporting modules:
- `Wrappers` provides `Option`.
- `Text` provides substring containment and the decimal rendering of integers.
- `VectorCore` provides identifiers, dates, `ReducerResult` and the reducer law (a rejection hands back its input state).
- `EventLog` is the audit log from the SwiftVectorCore package, which is not part of this model. It states the behaviour the flight core relies on: entries in order, each naming its predecessor's hash, a verification walk over the links, the accepted actions in order, and the state hash the log ends on. These are definitions, not facts proved about that package.

The external collaborators are parameters:
- The state and entry digests (SHA-256 in the package).
- The clock and the identifier generator, given as the values they return on their k-th call. The orchestrator calls each exactly once per entry, so entry k carries the k-th values.
- The rendering of a Swift `Double` in string interpolation (`showDouble`).

The orchestrator receives the reducer as a function value, as the Swift
initialiser takes a `reducer` argument. Its invariant `Valid()` states three
things:
- The reducer keeps the reducer law.
- The state is the fold of that reducer over the commands dispatched so far.
- The log is the trail those dispatches write.

The constructor installs the flight reducer (`UsesFlightReducer()`). The replay
results need only the reducer law, so they hold for any reducer that keeps it.

## Model

| member | source | states |
|---|---|---|
| `SupportingTypes.ParseConnectionStatus` | FlightworksControl/FlightworksControl/Core/State/SupportingTypes.swift:28-34 | The case a raw string names has exactly that raw value. When no case is found, no case has that raw value. |
| `SupportingTypes.ParseArmingState` | FlightworksControl/FlightworksControl/Core/State/SupportingTypes.swift:42-45 | The same for "disarmed"/"armed". |
| `SupportingTypes.ParseFlightMode` | FlightworksControl/FlightworksControl/Core/State/SupportingTypes.swift:53-68 | The same for the seven flight-mode raw values. |
| `SupportingTypes.ParseGPSFixType` | FlightworksControl/FlightworksControl/Core/State/SupportingTypes.swift:76-83 | The same for "noFix"/"fix2D"/"fix3D". |
| `SupportingTypes.RawValuesRoundTrip` | FlightworksControl/FlightworksControl/Core/State/SupportingTypes.swift:28-83 | Parsing any case's raw value gives back that case, for all four enumerations. |
| `SupportingTypes.RawValuesInjective` | FlightworksControl/FlightworksControl/Core/State/SupportingTypes.swift:28-68 | Two link states, or two flight modes, with the same raw value are the same case. |
| `SupportingTypes.PositionsCompareFieldwise` | FlightworksControl/FlightworksControl/Core/State/SupportingTypes.swift:99-106 | Two positions are equal iff latitude, longitude and altitude are all equal. |
| `SupportingTypes.PortIsSixteenBit` | FlightworksControl/FlightworksControl/Core/State/SupportingTypes.swift:195-198 | A connection port lies in 0..65535. |
| `FlightStates.InitialIsCanonical` | FlightworksControl/FlightworksControl/Core/State/FlightState.swift:138-152 | The initial state is disconnected, idle and disarmed. Nothing is known, both calibrations are false, and the timestamp is the epoch. |
| `FlightStates.With` | FlightworksControl/FlightworksControl/Core/State/FlightState.swift:173-203 | Without a `lastUpdated` argument the timestamp is kept, and with no arguments the state is returned unchanged. |
| `FlightStates.WithSetsOneField` | FlightworksControl/FlightworksControl/Core/State/FlightState.swift:188-202 | Setting one non-optional field changes that field and leaves every other field as it was. |
| `FlightStates.WithOptionalFieldForms` | FlightworksControl/FlightworksControl/Core/State/FlightState.swift:164-200 | For each optional field (telemetry, position, attitude, battery, gpsInfo, activeMission, activeGeofence), an absent argument leaves it alone, `.some(nil)` clears it and `.some(x)` sets it to `x`. |
| `FlightStates.WithIdempotent` | FlightworksControl/FlightworksControl/Core/State/FlightState.swift:188-202 | Applying the same update twice gives the same state as applying it once. |
| `FlightActions.FlightAction.ActionDescription` | FlightworksControl/FlightworksControl/Core/Actions/FlightAction.swift:192-215 | Every description is non-empty. |
| `FlightActions.FlightAction.CorrelationID` | FlightworksControl/FlightworksControl/Core/Actions/FlightAction.swift:226-246 | Every one of the 17 variants returns the identifier it carries. |
| `FlightActions.PlainDescriptionIsCaseName` | FlightworksControl/FlightworksControl/Core/Actions/FlightAction.swift:194-213 | A variant that shows no payload is described by exactly its case name. |
| `FlightActions.StatusChangeDescription` | FlightworksControl/FlightworksControl/Core/Actions/FlightAction.swift:196-197 | A status report's description contains the status's raw value. |
| `FlightActions.CalibrationDescription` | FlightworksControl/FlightworksControl/Core/Actions/FlightAction.swift:199-200 | A calibration report's description contains `imu:<b>` and `compass:<b>`. |
| `FlightActions.TakeoffDescription` | FlightworksControl/FlightworksControl/Core/Actions/FlightAction.swift:203 | A takeoff's description contains its rendered altitude. |
| `FlightActions.FlightModeDescription` | FlightworksControl/FlightworksControl/Core/Actions/FlightAction.swift:206 | A mode change's description contains the mode's raw value. |
| `FlightActions.LoadMissionDescription` | FlightworksControl/FlightworksControl/Core/Actions/FlightAction.swift:207 | A mission load's description contains the mission name. |
| `FlightActions.GeofenceDescription` | FlightworksControl/FlightworksControl/Core/Actions/FlightAction.swift:211-212 | A geofence activation's description contains its rendered radius. |
| `FlightActions.ActionsCompareByPayloadAndIdentifier` | FlightworksControl/FlightworksControl/Core/Actions/FlightAction.swift:54-181 | Actions with different correlation IDs are unequal, and two takeoffs are equal only with equal altitudes. |
| `FlightReducer.FirstFailing` | FlightworksControl/FlightworksControl/Core/Reducers/FlightReducer.swift:298-323 | As a reference reading of a guard chain, it returns the index of a failing check, and every check before it passes. It returns none iff all checks pass. |
| `FlightReducer.ArmRejectionRationale` | FlightworksControl/FlightworksControl/Core/Reducers/FlightReducer.swift:298-323 | There is no rationale iff all seven arming preconditions hold. Any rationale is non-empty. |
| `FlightReducer.CanArm` | FlightworksControl/FlightworksControl/Core/Reducers/FlightReducer.swift:292-294 | It holds iff the vehicle is connected and disarmed, the GPS fix is 3D, the IMU and compass are calibrated, a battery reports at least 20% and a geofence is active. |
| `FlightReducer.ArmRejectionReportsFirstFailure` | FlightworksControl/FlightworksControl/Core/Reducers/FlightReducer.swift:298-323 | The rationale reports exactly the first failing check, in the order connection, already armed, GPS, IMU, compass, battery, geofence. |
| `FlightReducer.ArmRejectionNamesCheck` | FlightworksControl/FlightworksControl/Core/Reducers/FlightReducer.swift:299-320 | That rationale contains the failing check's keyword ("not connected", "already", "GPS", "IMU", "compass", "battery", "no active geofence"). |
| `FlightReducer.DisarmRejectionRationale` | FlightworksControl/FlightworksControl/Core/Reducers/FlightReducer.swift:328-336 | There is no rationale iff the vehicle is armed and idle or hovering. When not armed, the rationale contains "not armed". When armed in an unsafe mode, it contains that mode's raw value. |
| `FlightReducer.FlightModeRejectionRationale` | FlightworksControl/FlightworksControl/Core/Reducers/FlightReducer.swift:343-361 | There is no rationale iff neither the current mode nor the requested mode is takingOff or landing. During takeoff the rationale contains "takeoff", and during landing it contains "landing". A request for takingOff contains "takeoff", and a request for landing contains "land". |
| `FlightReducer.Reduce` | FlightworksControl/FlightworksControl/Core/Reducers/FlightReducer.swift:75-269 | On every command, a rejection returns the input state, `lastUpdated` is never changed and the rationale is never empty. |
| `FlightReducer.FlightReducerKeepsStateOnRejection` | FlightworksControl/FlightworksControl/Core/Reducers/FlightReducer.swift:75-269 | The flight reducer keeps the reducer law for every state and every action. |
| `FlightReducer.ConnectGuard` | FlightworksControl/FlightworksControl/Core/Reducers/FlightReducer.swift:80-88 | `connect` is accepted iff the link is disconnected or lost, and it then only sets connecting. |
| `FlightReducer.DisconnectClearsFlightData` | FlightworksControl/FlightworksControl/Core/Reducers/FlightReducer.swift:90-104 | `disconnect` is accepted iff the link is not disconnected. It then clears exactly telemetry, position, attitude, battery and GPS. |
| `FlightReducer.StatusReportApplies` | FlightworksControl/FlightworksControl/Core/Reducers/FlightReducer.swift:106-110 | A status report is always accepted and sets only the link status. |
| `FlightReducer.TelemetryApplies` | FlightworksControl/FlightworksControl/Core/Reducers/FlightReducer.swift:114-125 | Telemetry is always accepted and overwrites exactly the telemetry-derived fields. |
| `FlightReducer.CalibrationApplies` | FlightworksControl/FlightworksControl/Core/Reducers/FlightReducer.swift:127-134 | A calibration report is always accepted and sets exactly the two flags. |
| `FlightReducer.ArmFollowsInterlock` | FlightworksControl/FlightworksControl/Core/Reducers/FlightReducer.swift:138-145 | `arm` is accepted iff `CanArm` holds, and it then changes only the arming state. A rejection carries the interlock's rationale. |
| `FlightReducer.DisarmOnlyWhenSafe` | FlightworksControl/FlightworksControl/Core/Reducers/FlightReducer.swift:147-154 | `disarm` is accepted iff the vehicle is armed and idle or hovering, and it then only disarms. A rejection carries the disarm guard's rationale. |
| `FlightReducer.NoInFlightDisarm` | FlightworksControl/FlightworksControl/Core/Reducers/FlightReducer.swift:75-269 | No command at all disarms an armed vehicle that is not idle or hovering. |
| `FlightReducer.TakeoffGuards` | FlightworksControl/FlightworksControl/Core/Reducers/FlightReducer.swift:158-171 | `takeoff` is accepted iff the vehicle is armed and idle and the altitude is above 0, and it then enters takingOff. The rationale reports the first failing check in the order armed, idle, altitude. The not-armed text contains "not armed". The altitude text shows the altitude and contains "positive". |
| `FlightReducer.LandGuard` | FlightworksControl/FlightworksControl/Core/Reducers/FlightReducer.swift:173-180 | `land` is accepted iff the vehicle is flying or hovering, and it then enters landing. A rejection names the current mode and contains "flying". |
| `FlightReducer.ReturnToLaunchGuard` | FlightworksControl/FlightworksControl/Core/Reducers/FlightReducer.swift:182-189 | `returnToLaunch` is accepted iff the vehicle is armed, and it then enters returningToLaunch. A rejection contains "not armed". |
| `FlightReducer.SetFlightModeGuards` | FlightworksControl/FlightworksControl/Core/Reducers/FlightReducer.swift:191-198 | `setFlightMode` is accepted iff the guard allows it, and it then sets the mode. A rejection carries the guard's rationale. It never enters or leaves takingOff or landing. |
| `FlightReducer.LoadMissionGuard` | FlightworksControl/FlightworksControl/Core/Reducers/FlightReducer.swift:202-212 | `loadMission` is accepted iff a geofence is active, and it then stores the mission. A rejection contains "geofence". |
| `FlightReducer.StartMissionGuard` | FlightworksControl/FlightworksControl/Core/Reducers/FlightReducer.swift:214-224 | `startMission` is accepted iff the vehicle is armed and a mission is loaded, and it then enters flying. Armed is checked first, and its rejection contains "not armed". |
| `FlightReducer.PauseMissionGuard` | FlightworksControl/FlightworksControl/Core/Reducers/FlightReducer.swift:226-236 | `pauseMission` is accepted iff a mission is loaded and the vehicle is flying, and it then enters hovering. The mission is checked first. |
| `FlightReducer.ClearMissionGuard` | FlightworksControl/FlightworksControl/Core/Reducers/FlightReducer.swift:238-247 | `clearMission` is accepted iff a mission is loaded, and it then removes the mission. |
| `FlightReducer.SetGeofenceGuard` | FlightworksControl/FlightworksControl/Core/Reducers/FlightReducer.swift:249-256 | `setGeofence` is accepted iff the radius is above 0, and it then installs the geofence. A rejection shows the radius and contains "positive". |
| `FlightReducer.ClearGeofenceGuard` | FlightworksControl/FlightworksControl/Core/Reducers/FlightReducer.swift:258-267 | `clearGeofence` is accepted iff a geofence is active, and it then removes it. A rejection contains "geofence". |
| `FlightReducer.EnteringTakeoff` | FlightworksControl/FlightworksControl/Core/Reducers/FlightReducer.swift:158-198 | The only way into takingOff is an accepted `takeoff` from armed and idle with a positive altitude. |
| `FlightReducer.EnteringLanding` | FlightworksControl/FlightworksControl/Core/Reducers/FlightReducer.swift:173-198 | The only way into landing is `land` from flying or hovering. |
| `FlightReducer.TakeoffIsArmedPreserved` | FlightworksControl/FlightworksControl/Core/Reducers/FlightReducer.swift:75-269 | No command leads to a disarmed vehicle in takingOff. |
| `FlightReducer.BatteryThresholdIsInclusive` | FlightworksControl/FlightworksControl/Core/Reducers/FlightReducer.swift:315 | On a ready-to-arm state, 85% and exactly 20% arm, but 19.9% does not. |
| `FlightReducer.LowBatteryRejectionNamesBattery` | FlightworksControl/FlightworksControl/Core/Reducers/FlightReducer.swift:315-317 | At 19.9% with everything else ready, the rejection rationale names the battery. |
| `EventLog.LastEntryHash` | FlightworksControl/FlightworksControl/Core/Orchestrator/FlightOrchestrator.swift:142 | It is absent iff the log is empty, and otherwise it is the hash of the newest entry. |
| `EventLog.Verify` | FlightworksControl/FlightworksControl/Core/Orchestrator/FlightOrchestrator.swift:202-203 | A log is valid iff every entry after the first names its predecessor's hash, and iff no broken index or reason is reported. The reported index is the first broken link. |
| `EventLog.AcceptedActions` | FlightworksControl/FlightworksControl/Core/Orchestrator/FlightOrchestrator.swift:214 | There are never more accepted actions than entries. |
| `EventLog.CurrentStateHash` | FlightworksControl/FlightworksControl/Core/Orchestrator/FlightOrchestrator.swift:207 | It is absent iff the log is empty. |
| `EventLog.TamperedLinkIsDetected` | FlightworksControl/FlightworksControl/Core/Orchestrator/FlightOrchestrator.swift:202-211 | A log with any wrong link fails verification at or before that entry. |
| `EventLog.AppendLinked` | FlightworksControl/FlightworksControl/Core/Orchestrator/FlightOrchestrator.swift:142-165 | Appending an entry that names the last entry's hash keeps a linked log linked. |
| `Orchestrator.Trail` | FlightworksControl/FlightworksControl/Core/Orchestrator/FlightOrchestrator.swift:99-165 | Construction plus n dispatches gives a log of exactly n + 1 entries. |
| `Orchestrator.ReplayOutcome` | FlightworksControl/FlightworksControl/Core/Orchestrator/FlightOrchestrator.swift:200-233 | Replay succeeds iff there is no failure reason, a success has matching hashes, and the actual hash is the hash of the final state. |
| `Orchestrator.FlightOrchestrator.constructor` | FlightworksControl/FlightworksControl/Core/Orchestrator/FlightOrchestrator.swift:92-114 | The state is the initial state, the reducer is the flight reducer and the log is the single initialization entry recording the initial state's hash. |
| `Orchestrator.FlightOrchestrator.Dispatch` | FlightworksControl/FlightworksControl/Core/Orchestrator/FlightOrchestrator.swift:137-169 | The result is the reducer's answer, and the state becomes its new state (unchanged on rejection). Exactly one entry is appended: accepted or rejected, with the agent, the hashes, the rationale, the k-th clock and identifier values and the link to the previous entry. The invariant is kept. |
| `Orchestrator.FlightOrchestrator.CurrentState` | FlightworksControl/FlightworksControl/Core/Orchestrator/FlightOrchestrator.swift:175-177 | Returns the current state. |
| `Orchestrator.FlightOrchestrator.GetAuditLog` | FlightworksControl/FlightworksControl/Core/Orchestrator/FlightOrchestrator.swift:183-185 | Returns the current log. |
| `Orchestrator.FlightOrchestrator.Replay` | FlightworksControl/FlightworksControl/Core/Orchestrator/FlightOrchestrator.swift:200-233 | The loop computes `ReplayOutcome`. A broken chain refuses, and otherwise the accepted actions are folded from the initial state and the hashes compared. |
| `Orchestrator.TrailSnoc` | FlightworksControl/FlightworksControl/Core/Orchestrator/FlightOrchestrator.swift:137-165 | One more dispatch appends exactly its own entry, built from the state reached so far. |
| `Orchestrator.TrailEntries` | FlightworksControl/FlightworksControl/Core/Orchestrator/FlightOrchestrator.swift:106-108 | The first entry is the initialization entry, and entry k carries the k-th identifier and the k-th timestamp. |
| `Orchestrator.TrailLinked` | FlightworksControl/FlightworksControl/Core/Orchestrator/FlightOrchestrator.swift:142-163 | Every entry after the first names its predecessor's hash, so the log passes verification. |
| `Orchestrator.TrailAcceptedActions` | FlightworksControl/FlightworksControl/Core/Orchestrator/FlightOrchestrator.swift:144-165 | The log's accepted actions are exactly the commands the reducer accepted, in order and with their agents. |
| `Orchestrator.RejectionsDoNotMatter` | FlightworksControl/FlightworksControl/Core/Orchestrator/FlightOrchestrator.swift:213-220 | Under the reducer law, folding only the accepted commands reaches the same state as folding all of them. |
| `Orchestrator.DispatchEntryRecordsNewState` | FlightworksControl/FlightworksControl/Core/Orchestrator/FlightOrchestrator.swift:138-165 | Under the reducer law, a dispatch entry's resulting state hash is the hash of the reducer's new state. |
| `Orchestrator.TrailEndsOnRunState` | FlightworksControl/FlightworksControl/Core/Orchestrator/FlightOrchestrator.swift:138-165 | Under the reducer law, the log ends on the hash of the state its commands reach. |
| `Orchestrator.ReplayOfTrail` | FlightworksControl/FlightworksControl/Core/Orchestrator/FlightOrchestrator.swift:200-233 | Replaying a log recorded from the initial state succeeds and reproduces the session's state. |
| `Orchestrator.EmptyLogReplaysToInitial` | FlightworksControl/FlightworksControl/Core/Orchestrator/FlightOrchestrator.swift:222-224 | An empty log replays to the initial state and succeeds vacuously. |
| `Orchestrator.ReplayRejectsBrokenChain` | FlightworksControl/FlightworksControl/Core/Orchestrator/FlightOrchestrator.swift:202-211 | A log with a broken link is refused with final state `.initial` and a chain-failure reason. |
| `Orchestrator.ReplayDetectsForgedOutcome` | FlightworksControl/FlightworksControl/Core/Orchestrator/FlightOrchestrator.swift:222-231 | For a linked log claiming state X, if the replayed state does not collide with X under the state hash, then the replay succeeds iff re-running the accepted actions reaches X. Otherwise the reason is the mismatch text. |
| `Orchestrator.RunKeepsTakeoffIsArmed` | FlightworksControl/FlightworksControl/Core/Reducers/FlightReducer.swift:158-198 | Any sequence of flight-reducer steps keeps "takingOff implies armed". |
| `Orchestrator.LiveSessionReplays` | FlightworksControl/FlightworksControl/Core/Orchestrator/FlightOrchestrator.swift:189-233 | The live log of a session started from `.initial` replays successfully to the live state. |
| `Orchestrator.LiveSessionKeepsTakeoffIsArmed` | FlightworksControl/FlightworksControl/Core/Orchestrator/FlightOrchestrator.swift:137-140 | A flight-reducer session never reaches takingOff while disarmed, unless it started that way. |
| `ThermalStates.EqualityIsFlagEquality` | FlightworksControl/FlightworksControl/Core/State/ThermalState.swift:58-65 | Two thermal states are equal iff their flags are. |
| `ThermalStates.InitialIsDisabled` | FlightworksControl/FlightworksControl/Core/State/ThermalState.swift:72 | The initial state is disabled, and every state is the initial one or the enabled one. |
| `ThermalStates.StateHashSeparatesFlag` | FlightworksControl/FlightworksControl/Core/State/ThermalState.swift:58 | The initial state hashes as the disabled one. A digest that tells the enabled and disabled states apart tells every pair of thermal states apart. |
| `ThermalActions.ThermalAction.ActionDescription` | FlightworksControl/FlightworksControl/Core/Actions/ThermalAction.swift:68-73 | The description is exactly "enableDetection" or "disableDetection". |
| `ThermalActions.ThermalAction.CorrelationID` | FlightworksControl/FlightworksControl/Core/Actions/ThermalAction.swift:76-81 | Both variants return their embedded identifier, and the action is rebuilt from it. |
| `ThermalActions.DescriptionIdentifiesVariant` | FlightworksControl/FlightworksControl/Core/Actions/ThermalAction.swift:68-73 | Descriptions are equal iff the variants are. |
| `ThermalActions.EqualityIsVariantAndIdentifier` | FlightworksControl/FlightworksControl/Core/Actions/ThermalAction.swift:49-61 | Actions are equal iff the variant and the identifier agree. |
| `ThermalReducer.Reduce` | FlightworksControl/FlightworksControl/Core/Reducers/ThermalReducer.swift:39-60 | Enable is accepted iff detection is off, and disable iff it is on. The new flag always equals "the action is enable". A rejection keeps the state, acceptance holds iff the state changes, and the rationale is non-empty. |
| `ThermalReducer.ThermalReducerKeepsStateOnRejection` | FlightworksControl/FlightworksControl/Core/Reducers/ThermalReducer.swift:43-45 | The thermal reducer keeps the reducer law. |
| `ThermalReducer.SecondToggleIsRejected` | FlightworksControl/FlightworksControl/Core/Reducers/ThermalReducer.swift:42-58 | Repeating an action is rejected and changes nothing. |
| `ThermalReducer.EnableThenDisableRoundTrip` | FlightworksControl/FlightworksControl/Core/Reducers/ThermalReducer.swift:42-58 | From the initial state, enable then disable are both accepted and return to the initial state. |

## Left out

- Actor isolation and the `AsyncStream` broadcast (`stateStream`, `continuation.yield`, `finish` in `deinit`) are left out. The orchestrator is a sequential class.
- SHA-256 state and entry hashing is a parameter. Where a property needs a digest that separates values, the lemma assumes only that the states it compares do not collide.
- The `EventLog` internals (`append`, `entryHash`, `verify`, `acceptedActions`, `currentStateHash`) belong to SwiftVectorCore, which is not part of this model. `EventLog` states the behaviour the core relies on as definitions. The text of a broken-link reason is a stand-in.
- Codable/JSON encoding is left out; it is synthesised by the compiler.
- How a `Double` is printed in interpolated text is the `showDouble` parameter. Integers (port, waypoint count) are rendered in decimal.
- IEEE NaN is not representable with `real`. The comparisons `> 0` and `>= 20.0` are exact.
- `SystemClock` and `SystemUUIDGenerator` are left out. The clock and the identifier generator are functions of the call count.
- `MissionState` and the UI are left out; neither takes part in any transition.
- Several doc comments describe behaviour the code does not have, and the model follows the code:
  - disarm is also allowed while hovering;
  - `loadMission` checks only that a geofence exists, with no waypoint containment;
  - there is no `geofenceCheckWaived` flag;
  - `dispatch` never updates `lastUpdated`.
- Orchestrator.ReplayOfTrail: replay always starts from `.initial`. A session constructed from another initial state is not promised to replay, and the lemma covers logs recorded from `.initial`.
- Orchestrator.FlightOrchestrator.Dispatch: states its result as `env.reducer`'s answer. That reducer is the flight reducer by `UsesFlightReducer()`, which the constructor establishes. It is kept out of `Valid()` so that the replay results depend only on the reducer law.
