/**
 * The pure transition function of a session: every command is validated
 * against the current state and either accepted with a successor state or
 * rejected with the state handed back unchanged, always with a rationale for
 * the audit trail. The arming interlock, the disarm guard and the flight-mode
 * guard are separate functions, as in the source.
 *
 * `showDouble` stands for Swift's rendering of a `Double` inside string
 * interpolation; integers are rendered with `DecimalString`.
 */
module FlightReducer {
  import opened Wrappers
  import opened VectorCore
  import opened Text
  import opened SupportingTypes
  import opened FlightStates
  import opened FlightActions

  // ---------------------------------------------------------------------
  // Rationale texts (named, so that proofs need not take them apart)
  // ---------------------------------------------------------------------

  // The words by which a rejection names its cause
  const NotArmed: string := "not armed"
  const Positive: string := "positive"
  const GeofenceWord: string := "geofence"
  const TakeoffWord: string := "takeoff"
  const LandingWord: string := "landing"
  const LandWord: string := "land"
  const FlyingWord: string := "flying"

  const ArmRejected: string := "arm rejected: "
  const StatusOpen: string := " (status: "
  const GpsFixOpen: string := " fix insufficient ("
  const GpsFixClose: string := "); fix3D required (PRD FR-2.1)"
  const ImuNotCalibrated: string := " not calibrated (PRD FR-2.2)"
  const CompassNotCalibrated: string := " not calibrated (PRD FR-2.3)"
  const BatteryBelowThreshold: string := "% below 20% threshold (CLAUDE.md Safety Interlock)"
  const GeofenceLaw: string := " (Law 7)"
  const ArmAccepted: string := "armed — all preconditions satisfied"
  const DisarmNotArmedOpen: string := "disarm rejected: vehicle "
  const DisarmNotArmed: string := DisarmNotArmedOpen + NotArmed
  const DisarmUnsafeOpen: string := "disarm rejected: cannot disarm while "
  const DisarmUnsafeClose: string := " (unsafe)"
  const DisarmAccepted: string := "disarmed"
  const ModeDuringOpen: string := "setFlightMode rejected: cannot change mode during "
  const ModeDuringTakeoff: string := ModeDuringOpen + TakeoffWord
  const ModeDuringLanding: string := ModeDuringOpen + LandingWord
  const ModeUseOpen: string := "setFlightMode rejected: use ."
  const ModeUseTakeoffClose: string := " action to enter takingOff mode"
  const ModeUseTakeoff: string := ModeUseOpen + TakeoffWord + ModeUseTakeoffClose
  const ModeUseLandClose: string := " action to enter landing mode"
  const ModeUseLand: string := ModeUseOpen + LandWord + ModeUseLandClose
  const ModeAccepted: string := "flightMode → "
  const ConnectAlready: string := "connect rejected: already "
  const ConnectAccepted: string := "connecting to "
  const DisconnectAlready: string := "disconnect rejected: already disconnected"
  const DisconnectAccepted: string := "disconnected; flight-data fields cleared"
  const StatusChanged: string := "connectionStatus → "
  const TelemetryUpdated: string := "telemetry updated"
  const CalibrationOpen: string := "calibration updated (imu:"
  const CalibrationCompass: string := ", compass:"
  const TakeoffNotArmedOpen: string := "takeoff rejected: vehicle "
  const TakeoffNotArmed: string := TakeoffNotArmedOpen + NotArmed
  const TakeoffModeOpen: string := "takeoff rejected: flightMode is "
  const TakeoffModeClose: string := ", expected idle"
  const AltitudeMustBe: string := "takeoff rejected: altitudeMetres must be "
  const GotOpen: string := " (got "
  const TakeoffAltitudeOpen: string := AltitudeMustBe + Positive + GotOpen
  const TakeoffAccepted: string := "taking off to "
  const LandModeOpen: string := "land rejected: flightMode is "
  const LandExpected: string := ", expected "
  const OrHovering: string := " or hovering"
  const LandModeClose: string := LandExpected + FlyingWord + OrHovering
  const LandAccepted: string := "landing at current position"
  const ReturnNotArmedOpen: string := "returnToLaunch rejected: vehicle "
  const ReturnNotArmed: string := ReturnNotArmedOpen + NotArmed
  const ReturnAccepted: string := "returning to launch"
  const LoadNoGeofenceOpen: string := "loadMission rejected: no active "
  const LoadNoGeofenceClose: string := " — set a geofence before loading a mission (Law 7)"
  const LoadNoGeofence: string := LoadNoGeofenceOpen + GeofenceWord + LoadNoGeofenceClose
  const LoadAcceptedOpen: string := "mission '"
  const LoadAcceptedCount: string := "' loaded ("
  const LoadAcceptedClose: string := " waypoints)"
  const StartNotArmedOpen: string := "startMission rejected: vehicle "
  const StartNotArmed: string := StartNotArmedOpen + NotArmed
  const StartNoMission: string := "startMission rejected: no mission loaded"
  const StartAccepted: string := "mission execution started"
  const PauseNoMission: string := "pauseMission rejected: no active mission"
  const PauseModeOpen: string := "pauseMission rejected: flightMode is "
  const PauseModeClose: string := ", expected flying"
  const PauseAccepted: string := "mission paused — hovering at current position"
  const ClearMissionNone: string := "clearMission rejected: no mission to clear"
  const ClearMissionAccepted: string := "mission cleared"
  const RadiusMustBe: string := "setGeofence rejected: radiusMetres must be "
  const GeofenceRadiusOpen: string := RadiusMustBe + Positive + GotOpen
  const GeofenceSetOpen: string := "geofence set (r:"
  const ClearGeofenceNoneOpen: string := "clearGeofence rejected: no active "
  const ClearGeofenceNoneClose: string := " to clear"
  const ClearGeofenceNone: string := ClearGeofenceNoneOpen + GeofenceWord + ClearGeofenceNoneClose
  const ClearGeofenceAccepted: string := "geofence cleared — spatial safety envelope expanded"

  // ---------------------------------------------------------------------
  // The arming interlock
  // ---------------------------------------------------------------------

  /** The seven arming preconditions. */
  datatype ArmCheck =
    | LinkConnected
    | StillDisarmed
    | GpsFix3D
    | ImuCalibrated
    | CompassCalibrated
    | BatteryReserve
    | GeofenceActive

  /** The order in which the interlock examines the preconditions. */
  const ArmCheckOrder: seq<ArmCheck> :=
    [LinkConnected, StillDisarmed, GpsFix3D, ImuCalibrated, CompassCalibrated, BatteryReserve, GeofenceActive]

  /** The lowest battery percentage at which arming is allowed. */
  const ArmingBatteryThreshold: real := 20.0

  predicate Passes(c: ArmCheck, s: FlightState) {
    match c
    case LinkConnected => s.connectionStatus == Connected
    case StillDisarmed => s.armingState == Disarmed
    case GpsFix3D => s.gpsInfo.Some? && s.gpsInfo.value.fixType == Fix3D
    case ImuCalibrated => s.imuCalibrated
    case CompassCalibrated => s.compassCalibrated
    case BatteryReserve => s.battery.Some? && s.battery.value.percentage >= ArmingBatteryThreshold
    case GeofenceActive => s.activeGeofence.Some?
  }

  /** The words by which a rejection names the precondition that failed. */
  function Keyword(c: ArmCheck): string {
    match c
    case LinkConnected => "not connected"
    case StillDisarmed => "already"
    case GpsFix3D => "GPS"
    case ImuCalibrated => "IMU"
    case CompassCalibrated => "compass"
    case BatteryReserve => "battery"
    case GeofenceActive => "no active geofence"
  }

  /** What an arm rejection says after its keyword when `c` is the failed precondition. */
  function FailureTail(c: ArmCheck, s: FlightState, showDouble: real -> string): string {
    match c
    case LinkConnected => StatusOpen + s.connectionStatus.RawValue() + ")"
    case StillDisarmed => " " + s.armingState.RawValue()
    case GpsFix3D =>
      var fix := if s.gpsInfo.Some? then s.gpsInfo.value.fixType.RawValue() else "nil";
      GpsFixOpen + fix + GpsFixClose
    case ImuCalibrated => ImuNotCalibrated
    case CompassCalibrated => CompassNotCalibrated
    case BatteryReserve =>
      var pct := if s.battery.Some? then showDouble(s.battery.value.percentage) else "nil";
      " " + pct + BatteryBelowThreshold
    case GeofenceActive => GeofenceLaw
  }

  /** The rationale for an arm rejection whose first failed precondition is `c`. */
  function ArmRejection(c: ArmCheck, s: FlightState, showDouble: real -> string): string {
    ArmRejected + (Keyword(c) + FailureTail(c, s, showDouble))
  }

  /**
   * The reference reading of a guard chain: the index of the first check in
   * `checks` that `s` fails, if there is one.
   */
  function FirstFailing(checks: seq<ArmCheck>, s: FlightState): (r: Option<nat>)
    ensures r.None? <==> forall i :: 0 <= i < |checks| ==> Passes(checks[i], s)
    ensures r.Some? ==> r.value < |checks| && !Passes(checks[r.value], s)
    ensures r.Some? ==> forall j :: 0 <= j < r.value ==> Passes(checks[j], s)
  {
    if checks == [] then None
    else if !Passes(checks[0], s) then Some(0)
    else
      match FirstFailing(checks[1..], s)
      case None => None
      case Some(k) => Some(k + 1)
  }

  /** `armRejectionRationale(state:)`: `None` when every precondition holds. */
  function ArmRejectionRationale(s: FlightState, showDouble: real -> string): (r: Option<string>)
    ensures r.None? <==> forall c :: Passes(c, s)
    ensures r.Some? ==> |r.value| > 0
  {
    if !Passes(LinkConnected, s) then Some(ArmRejection(LinkConnected, s, showDouble))
    else if !Passes(StillDisarmed, s) then Some(ArmRejection(StillDisarmed, s, showDouble))
    else if !Passes(GpsFix3D, s) then Some(ArmRejection(GpsFix3D, s, showDouble))
    else if !Passes(ImuCalibrated, s) then Some(ArmRejection(ImuCalibrated, s, showDouble))
    else if !Passes(CompassCalibrated, s) then Some(ArmRejection(CompassCalibrated, s, showDouble))
    else if !Passes(BatteryReserve, s) then Some(ArmRejection(BatteryReserve, s, showDouble))
    else if !Passes(GeofenceActive, s) then Some(ArmRejection(GeofenceActive, s, showDouble))
    else None
  }

  /**
   * `canArm(state:)`: the interlock has nothing to object to. Whether a
   * rationale exists does not depend on how Doubles are rendered.
   */
  function CanArm(s: FlightState): (ok: bool)
    ensures ok <==>
      s.connectionStatus == Connected
      && s.armingState == Disarmed
      && s.gpsInfo.Some? && s.gpsInfo.value.fixType == Fix3D
      && s.imuCalibrated
      && s.compassCalibrated
      && s.battery.Some? && s.battery.value.percentage >= 20.0
      && s.activeGeofence.Some?
  {
    ArmRejectionRationale(s, x => "").None?
  }

  /** The interlock reports exactly the first precondition, in interlock order, that fails. */
  lemma ArmRejectionReportsFirstFailure(s: FlightState, showDouble: real -> string)
    ensures ArmRejectionRationale(s, showDouble).None? <==> FirstFailing(ArmCheckOrder, s).None?
    ensures FirstFailing(ArmCheckOrder, s).Some? ==>
      ArmRejectionRationale(s, showDouble) == Some(ArmRejection(ArmCheckOrder[FirstFailing(ArmCheckOrder, s).value], s, showDouble))
  {
    var f := FirstFailing(ArmCheckOrder, s);
    if f.None? {
      assert forall c :: Passes(c, s) by {
        forall c ensures Passes(c, s) {
          assert c == ArmCheckOrder[match c
            case LinkConnected => 0 case StillDisarmed => 1 case GpsFix3D => 2 case ImuCalibrated => 3
            case CompassCalibrated => 4 case BatteryReserve => 5 case GeofenceActive => 6];
        }
      }
    } else {
      var k := f.value;
      assert Passes(ArmCheckOrder[0], s) || k == 0;
      assert k <= 1 || Passes(ArmCheckOrder[1], s);
      assert k <= 2 || Passes(ArmCheckOrder[2], s);
      assert k <= 3 || Passes(ArmCheckOrder[3], s);
      assert k <= 4 || Passes(ArmCheckOrder[4], s);
      assert k <= 5 || Passes(ArmCheckOrder[5], s);
    }
  }

  /** An arm rejection names the first failed precondition. */
  lemma ArmRejectionNamesCheck(s: FlightState, showDouble: real -> string)
    ensures FirstFailing(ArmCheckOrder, s).Some? ==>
      var c := ArmCheckOrder[FirstFailing(ArmCheckOrder, s).value];
      Contains(ArmRejectionRationale(s, showDouble).value, Keyword(c))
  {
    ArmRejectionReportsFirstFailure(s, showDouble);
    var f := FirstFailing(ArmCheckOrder, s);
    if f.Some? {
      var c := ArmCheckOrder[f.value];
      ContainsAfter(ArmRejected, Keyword(c) + FailureTail(c, s, showDouble), Keyword(c));
    }
  }

  // ---------------------------------------------------------------------
  // The disarm and flight-mode guards
  // ---------------------------------------------------------------------

  /** `disarmRejectionRationale(state:)`: disarming is allowed only when armed on the ground or hovering. */
  function DisarmRejectionRationale(s: FlightState): (r: Option<string>)
    ensures r.None? <==> s.armingState == Armed && (s.flightMode == Idle || s.flightMode == Hovering)
    ensures r.Some? ==> |r.value| > 0
    ensures s.armingState != Armed ==> r.Some? && Contains(r.value, NotArmed)
    ensures s.armingState == Armed && r.Some? ==> Contains(r.value, s.flightMode.RawValue())
  {
    if s.armingState != Armed then
      ContainsAfter(DisarmNotArmedOpen, NotArmed, NotArmed);
      Some(DisarmNotArmed)
    else if !(s.flightMode == Idle || s.flightMode == Hovering) then
      ContainsMiddle(DisarmUnsafeOpen, s.flightMode.RawValue(), DisarmUnsafeClose);
      Some(DisarmUnsafeOpen + s.flightMode.RawValue() + DisarmUnsafeClose)
    else None
  }

  /**
   * `flightModeRejectionRationale(mode:state:)`: no mode change while taking
   * off or landing, and those two modes are entered only by their own commands.
   */
  function FlightModeRejectionRationale(mode: FlightMode, s: FlightState): (r: Option<string>)
    ensures r.None? <==>
      s.flightMode != TakingOff && s.flightMode != Landing && mode != TakingOff && mode != Landing
    ensures r.Some? ==> |r.value| > 0
    ensures s.flightMode == TakingOff ==> r.Some? && Contains(r.value, TakeoffWord)
    ensures s.flightMode == Landing ==> r.Some? && Contains(r.value, LandingWord)
    ensures s.flightMode != TakingOff && s.flightMode != Landing && mode == TakingOff ==>
      r.Some? && Contains(r.value, TakeoffWord)
    ensures s.flightMode != TakingOff && s.flightMode != Landing && mode == Landing ==>
      r.Some? && Contains(r.value, LandWord)
  {
    match s.flightMode
    case TakingOff =>
      ContainsAfter(ModeDuringOpen, TakeoffWord, TakeoffWord);
      Some(ModeDuringTakeoff)
    case Landing =>
      ContainsAfter(ModeDuringOpen, LandingWord, LandingWord);
      Some(ModeDuringLanding)
    case _ =>
      if mode == TakingOff then
        ContainsMiddle(ModeUseOpen, TakeoffWord, ModeUseTakeoffClose);
        Some(ModeUseTakeoff)
      else if mode == Landing then
        ContainsMiddle(ModeUseOpen, LandWord, ModeUseLandClose);
        Some(ModeUseLand)
      else None
  }

  // ---------------------------------------------------------------------
  // reduce(state:action:)
  // ---------------------------------------------------------------------

  /** Connection commands: link establishment, teardown and status reports. */
  function ReduceConnection(s: FlightState, a: FlightAction, showDouble: real -> string): (r: ReducerResult<FlightState>)
    requires a.Connect? || a.Disconnect? || a.ConnectionStatusChanged?
    ensures !r.applied ==> r.newState == s
    ensures r.newState.lastUpdated == s.lastUpdated
    ensures |r.rationale| > 0
  {
    match a
    case Connect(config, _) =>
      if !(s.connectionStatus == Disconnected || s.connectionStatus == Lost) then
        Rejected(s, ConnectAlready + s.connectionStatus.RawValue())
      else
        Accepted(With(s, NoChange.(connectionStatus := Some(Connecting))),
          ConnectAccepted + config.host + ":" + DecimalString(config.port))
    case Disconnect(_) =>
      if s.connectionStatus == Disconnected then
        Rejected(s, DisconnectAlready)
      else
        Accepted(
          With(s, NoChange.(connectionStatus := Some(Disconnected), telemetry := Some(None),
            position := Some(None), attitude := Some(None), battery := Some(None), gpsInfo := Some(None))),
          DisconnectAccepted)
    case ConnectionStatusChanged(status, _) =>
      Accepted(With(s, NoChange.(connectionStatus := Some(status))), StatusChanged + status.RawValue())
  }

  /** Telemetry and sensor reports, always accepted. */
  function ReduceTelemetry(s: FlightState, a: FlightAction, showDouble: real -> string): (r: ReducerResult<FlightState>)
    requires a.TelemetryReceived? || a.SensorCalibrationUpdated?
    ensures !r.applied ==> r.newState == s
    ensures r.newState.lastUpdated == s.lastUpdated
    ensures |r.rationale| > 0
  {
    match a
    case TelemetryReceived(data, _) =>
      Accepted(
        With(s, NoChange.(telemetry := Some(Some(data)), position := Some(data.position),
          attitude := Some(data.attitude), battery := Some(data.battery), gpsInfo := Some(data.gpsInfo))),
        TelemetryUpdated)
    case SensorCalibrationUpdated(imu, compass, _) =>
      Accepted(With(s, NoChange.(imuCalibrated := Some(imu), compassCalibrated := Some(compass))),
        CalibrationOpen + BoolText(imu) + CalibrationCompass + BoolText(compass) + ")")
  }

  /** Arming and disarming, through their guard helpers. */
  function ReduceArming(s: FlightState, a: FlightAction, showDouble: real -> string): (r: ReducerResult<FlightState>)
    requires a.Arm? || a.Disarm?
    ensures !r.applied ==> r.newState == s
    ensures r.newState.lastUpdated == s.lastUpdated
    ensures |r.rationale| > 0
  {
    match a
    case Arm(_) =>
      var rejection := ArmRejectionRationale(s, showDouble);
      if rejection.Some? then Rejected(s, rejection.value)
      else Accepted(With(s, NoChange.(armingState := Some(Armed))), ArmAccepted)
    case Disarm(_) =>
      var rejection := DisarmRejectionRationale(s);
      if rejection.Some? then Rejected(s, rejection.value)
      else Accepted(With(s, NoChange.(armingState := Some(Disarmed))), DisarmAccepted)
  }

  /** Flight-control commands. */
  function ReduceFlightControl(s: FlightState, a: FlightAction, showDouble: real -> string): (r: ReducerResult<FlightState>)
    requires a.Takeoff? || a.Land? || a.ReturnToLaunch? || a.SetFlightMode?
    ensures !r.applied ==> r.newState == s
    ensures r.newState.lastUpdated == s.lastUpdated
    ensures |r.rationale| > 0
  {
    match a
    case Takeoff(altitudeMetres, _) =>
      if s.armingState != Armed then
        Rejected(s, TakeoffNotArmed)
      else if s.flightMode != Idle then
        Rejected(s, TakeoffModeOpen + s.flightMode.RawValue() + TakeoffModeClose)
      else if !(altitudeMetres > 0.0) then
        Rejected(s, TakeoffAltitudeOpen + showDouble(altitudeMetres) + ")")
      else
        Accepted(With(s, NoChange.(flightMode := Some(TakingOff))), TakeoffAccepted + showDouble(altitudeMetres) + "m")
    case Land(_) =>
      if !(s.flightMode == Flying || s.flightMode == Hovering) then
        Rejected(s, LandModeOpen + s.flightMode.RawValue() + LandModeClose)
      else
        Accepted(With(s, NoChange.(flightMode := Some(Landing))), LandAccepted)
    case ReturnToLaunch(_) =>
      if s.armingState != Armed then
        Rejected(s, ReturnNotArmed)
      else
        Accepted(With(s, NoChange.(flightMode := Some(ReturningToLaunch))), ReturnAccepted)
    case SetFlightMode(mode, _) =>
      var rejection := FlightModeRejectionRationale(mode, s);
      if rejection.Some? then Rejected(s, rejection.value)
      else Accepted(With(s, NoChange.(flightMode := Some(mode))), ModeAccepted + mode.RawValue())
  }

  /** Mission commands. */
  function ReduceMission(s: FlightState, a: FlightAction, showDouble: real -> string): (r: ReducerResult<FlightState>)
    requires a.LoadMission? || a.StartMission? || a.PauseMission? || a.ClearMission?
    ensures !r.applied ==> r.newState == s
    ensures r.newState.lastUpdated == s.lastUpdated
    ensures |r.rationale| > 0
  {
    match a
    case LoadMission(mission, _) =>
      if s.activeGeofence.None? then
        Rejected(s, LoadNoGeofence)
      else
        Accepted(With(s, NoChange.(activeMission := Some(Some(mission)))),
          LoadAcceptedOpen + mission.name + LoadAcceptedCount + DecimalString(|mission.waypoints|) + LoadAcceptedClose)
    case StartMission(_) =>
      if s.armingState != Armed then
        Rejected(s, StartNotArmed)
      else if s.activeMission.None? then
        Rejected(s, StartNoMission)
      else
        Accepted(With(s, NoChange.(flightMode := Some(Flying))), StartAccepted)
    case PauseMission(_) =>
      if s.activeMission.None? then
        Rejected(s, PauseNoMission)
      else if s.flightMode != Flying then
        Rejected(s, PauseModeOpen + s.flightMode.RawValue() + PauseModeClose)
      else
        Accepted(With(s, NoChange.(flightMode := Some(Hovering))), PauseAccepted)
    case ClearMission(_) =>
      if s.activeMission.None? then
        Rejected(s, ClearMissionNone)
      else
        Accepted(With(s, NoChange.(activeMission := Some(None))), ClearMissionAccepted)
  }

  /** Geofence commands. */
  function ReduceGeofence(s: FlightState, a: FlightAction, showDouble: real -> string): (r: ReducerResult<FlightState>)
    requires a.SetGeofence? || a.ClearGeofence?
    ensures !r.applied ==> r.newState == s
    ensures r.newState.lastUpdated == s.lastUpdated
    ensures |r.rationale| > 0
  {
    match a
    case SetGeofence(geofence, _) =>
      if !(geofence.radiusMetres > 0.0) then
        Rejected(s, GeofenceRadiusOpen + showDouble(geofence.radiusMetres) + ")")
      else
        Accepted(With(s, NoChange.(activeGeofence := Some(Some(geofence)))),
          GeofenceSetOpen + showDouble(geofence.radiusMetres) + "m)")
    case ClearGeofence(_) =>
      if s.activeGeofence.None? then
        Rejected(s, ClearGeofenceNone)
      else
        Accepted(With(s, NoChange.(activeGeofence := Some(None))), ClearGeofenceAccepted)
  }

  /**
   * `reduce(state:action:)`. Total: every command gets an answer. A rejection
   * hands back the input state, and no command touches `lastUpdated`. The
   * cases are grouped as the source groups them.
   */
  function Reduce(s: FlightState, a: FlightAction, showDouble: real -> string): (r: ReducerResult<FlightState>)
    ensures !r.applied ==> r.newState == s
    ensures r.newState.lastUpdated == s.lastUpdated
    ensures |r.rationale| > 0
  {
    if a.Connect? || a.Disconnect? || a.ConnectionStatusChanged? then ReduceConnection(s, a, showDouble)
    else if a.TelemetryReceived? || a.SensorCalibrationUpdated? then ReduceTelemetry(s, a, showDouble)
    else if a.Arm? || a.Disarm? then ReduceArming(s, a, showDouble)
    else if a.Takeoff? || a.Land? || a.ReturnToLaunch? || a.SetFlightMode? then ReduceFlightControl(s, a, showDouble)
    else if a.LoadMission? || a.StartMission? || a.PauseMission? || a.ClearMission? then ReduceMission(s, a, showDouble)
    else ReduceGeofence(s, a, showDouble)
  }

  /** A `FlightReducer` value: `reduce(state:action:)` as a function. */
  function AsReducer(showDouble: real -> string): (FlightState, FlightAction) -> ReducerResult<FlightState> {
    (s, a) => Reduce(s, a, showDouble)
  }

  /** The flight reducer keeps the reducer law. */
  lemma FlightReducerKeepsStateOnRejection(showDouble: real -> string)
    ensures KeepsStateOnRejection(AsReducer(showDouble))
  {
    forall s, a ensures !AsReducer(showDouble)(s, a).applied ==> AsReducer(showDouble)(s, a).newState == s {
      var r := Reduce(s, a, showDouble);
    }
  }

  // ---------------------------------------------------------------------
  // What each command does
  // ---------------------------------------------------------------------

  /** `connect` is accepted only from disconnected or lost, and then only starts connecting. */
  lemma ConnectGuard(s: FlightState, config: ConnectionConfig, id: Uuid, showDouble: real -> string)
    ensures var r := Reduce(s, Connect(config, id), showDouble);
      (r.applied <==> s.connectionStatus == Disconnected || s.connectionStatus == Lost)
      && (r.applied ==> r.newState == s.(connectionStatus := Connecting))
  {
  }

  /** `disconnect` is accepted unless already disconnected, and clears exactly the flight data. */
  lemma DisconnectClearsFlightData(s: FlightState, id: Uuid, showDouble: real -> string)
    ensures var r := Reduce(s, Disconnect(id), showDouble);
      (r.applied <==> s.connectionStatus != Disconnected)
      && (r.applied ==> r.newState == s.(connectionStatus := Disconnected, telemetry := None, position := None,
                                         attitude := None, battery := None, gpsInfo := None))
  {
  }

  /** A link-status report is always accepted and sets only the status. */
  lemma StatusReportApplies(s: FlightState, status: ConnectionStatus, id: Uuid, showDouble: real -> string)
    ensures var r := Reduce(s, ConnectionStatusChanged(status, id), showDouble);
      r.applied && r.newState == s.(connectionStatus := status)
  {
  }

  /** Telemetry is always accepted and overwrites exactly the telemetry-derived fields. */
  lemma TelemetryApplies(s: FlightState, data: TelemetryData, id: Uuid, showDouble: real -> string)
    ensures var r := Reduce(s, TelemetryReceived(data, id), showDouble);
      r.applied
      && r.newState == s.(telemetry := Some(data), position := data.position, attitude := data.attitude,
                          battery := data.battery, gpsInfo := data.gpsInfo)
  {
  }

  /** A calibration report is always accepted and sets exactly the two flags. */
  lemma CalibrationApplies(s: FlightState, imu: bool, compass: bool, id: Uuid, showDouble: real -> string)
    ensures var r := Reduce(s, SensorCalibrationUpdated(imu, compass, id), showDouble);
      r.applied && r.newState == s.(imuCalibrated := imu, compassCalibrated := compass)
  {
  }

  /** `arm` is accepted exactly when `canArm` holds, and then changes only the arming state. */
  lemma ArmFollowsInterlock(s: FlightState, id: Uuid, showDouble: real -> string)
    ensures var r := Reduce(s, Arm(id), showDouble);
      (r.applied <==> CanArm(s))
      && (r.applied ==> r.newState == s.(armingState := Armed))
      && (!r.applied ==> Some(r.rationale) == ArmRejectionRationale(s, showDouble))
  {
  }

  /** `disarm` is accepted exactly when armed and idle or hovering, and then changes only the arming state. */
  lemma DisarmOnlyWhenSafe(s: FlightState, id: Uuid, showDouble: real -> string)
    ensures var r := Reduce(s, Disarm(id), showDouble);
      (r.applied <==> s.armingState == Armed && (s.flightMode == Idle || s.flightMode == Hovering))
      && (r.applied ==> r.newState == s.(armingState := Disarmed))
      && (!r.applied ==> Some(r.rationale) == DisarmRejectionRationale(s))
  {
  }

  /** No command whatever disarms a vehicle that is not idle or hovering. */
  lemma NoInFlightDisarm(s: FlightState, a: FlightAction, showDouble: real -> string)
    requires s.armingState == Armed && s.flightMode != Idle && s.flightMode != Hovering
    ensures Reduce(s, a, showDouble).newState.armingState == Armed
  {
  }

  /** `takeoff` checks armed, then idle, then a positive altitude, and then enters takingOff. */
  lemma TakeoffGuards(s: FlightState, altitudeMetres: real, id: Uuid, showDouble: real -> string)
    ensures var r := Reduce(s, Takeoff(altitudeMetres, id), showDouble);
      (r.applied <==> s.armingState == Armed && s.flightMode == Idle && altitudeMetres > 0.0)
      && (r.applied ==> r.newState == s.(flightMode := TakingOff))
    ensures var r := Reduce(s, Takeoff(altitudeMetres, id), showDouble);
      (s.armingState != Armed ==> r.rationale == TakeoffNotArmed && Contains(r.rationale, NotArmed))
      && (s.armingState == Armed && s.flightMode != Idle ==>
            r.rationale == TakeoffModeOpen + s.flightMode.RawValue() + TakeoffModeClose)
    ensures var r := Reduce(s, Takeoff(altitudeMetres, id), showDouble);
      s.armingState == Armed && s.flightMode == Idle && !(altitudeMetres > 0.0) ==>
        r.rationale == TakeoffAltitudeOpen + showDouble(altitudeMetres) + ")" && Contains(r.rationale, Positive)
  {
    ContainsAfter(TakeoffNotArmedOpen, NotArmed, NotArmed);
    ContainsMiddle(AltitudeMustBe, Positive, GotOpen);
    ContainsBeforeSuffix(TakeoffAltitudeOpen, Positive, showDouble(altitudeMetres));
    ContainsBeforeSuffix(TakeoffAltitudeOpen + showDouble(altitudeMetres), Positive, ")");
  }

  /** `land` is accepted only when flying or hovering, and then enters landing. */
  lemma LandGuard(s: FlightState, id: Uuid, showDouble: real -> string)
    ensures var r := Reduce(s, Land(id), showDouble);
      (r.applied <==> s.flightMode == Flying || s.flightMode == Hovering)
      && (r.applied ==> r.newState == s.(flightMode := Landing))
      && (!r.applied ==>
            r.rationale == LandModeOpen + s.flightMode.RawValue() + LandModeClose && Contains(r.rationale, FlyingWord))
  {
    ContainsMiddle(LandExpected, FlyingWord, OrHovering);
    ContainsAfterPrefix(LandModeOpen + s.flightMode.RawValue(), LandModeClose, FlyingWord);
  }

  /** `returnToLaunch` is accepted exactly when armed, whatever the current mode. */
  lemma ReturnToLaunchGuard(s: FlightState, id: Uuid, showDouble: real -> string)
    ensures var r := Reduce(s, ReturnToLaunch(id), showDouble);
      (r.applied <==> s.armingState == Armed)
      && (r.applied ==> r.newState == s.(flightMode := ReturningToLaunch))
      && (!r.applied ==> r.rationale == ReturnNotArmed && Contains(r.rationale, NotArmed))
  {
    ContainsAfter(ReturnNotArmedOpen, NotArmed, NotArmed);
  }

  /** `setFlightMode` never starts or stops a takeoff or a landing; otherwise it sets the mode. */
  lemma SetFlightModeGuards(s: FlightState, mode: FlightMode, id: Uuid, showDouble: real -> string)
    ensures var r := Reduce(s, SetFlightMode(mode, id), showDouble);
      (r.applied <==> s.flightMode != TakingOff && s.flightMode != Landing && mode != TakingOff && mode != Landing)
      && (r.applied ==> r.newState == s.(flightMode := mode))
      && (!r.applied ==> Some(r.rationale) == FlightModeRejectionRationale(mode, s))
    ensures var r := Reduce(s, SetFlightMode(mode, id), showDouble);
      (r.newState.flightMode == TakingOff <==> s.flightMode == TakingOff)
      && (r.newState.flightMode == Landing <==> s.flightMode == Landing)
  {
  }

  /** A mission is loaded only under an active geofence. */
  lemma LoadMissionGuard(s: FlightState, mission: Mission, id: Uuid, showDouble: real -> string)
    ensures var r := Reduce(s, LoadMission(mission, id), showDouble);
      (r.applied <==> s.activeGeofence.Some?)
      && (r.applied ==> r.newState == s.(activeMission := Some(mission)))
      && (!r.applied ==> r.rationale == LoadNoGeofence && Contains(r.rationale, GeofenceWord))
  {
    ContainsMiddle(LoadNoGeofenceOpen, GeofenceWord, LoadNoGeofenceClose);
  }

  /** `startMission` checks armed, then a loaded mission, and then starts flying. */
  lemma StartMissionGuard(s: FlightState, id: Uuid, showDouble: real -> string)
    ensures var r := Reduce(s, StartMission(id), showDouble);
      (r.applied <==> s.armingState == Armed && s.activeMission.Some?)
      && (r.applied ==> r.newState == s.(flightMode := Flying))
      && (s.armingState != Armed ==> r.rationale == StartNotArmed && Contains(r.rationale, NotArmed))
      && (s.armingState == Armed && s.activeMission.None? ==> r.rationale == StartNoMission)
  {
    ContainsAfter(StartNotArmedOpen, NotArmed, NotArmed);
  }

  /** `pauseMission` checks a mission, then flying, and then hovers. */
  lemma PauseMissionGuard(s: FlightState, id: Uuid, showDouble: real -> string)
    ensures var r := Reduce(s, PauseMission(id), showDouble);
      (r.applied <==> s.activeMission.Some? && s.flightMode == Flying)
      && (r.applied ==> r.newState == s.(flightMode := Hovering))
      && (s.activeMission.None? ==> r.rationale == PauseNoMission)
  {
  }

  /** `clearMission` needs a mission and removes it. */
  lemma ClearMissionGuard(s: FlightState, id: Uuid, showDouble: real -> string)
    ensures var r := Reduce(s, ClearMission(id), showDouble);
      (r.applied <==> s.activeMission.Some?) && (r.applied ==> r.newState == s.(activeMission := None))
  {
  }

  /** A geofence is set only with a positive radius. */
  lemma SetGeofenceGuard(s: FlightState, geofence: Geofence, id: Uuid, showDouble: real -> string)
    ensures var r := Reduce(s, SetGeofence(geofence, id), showDouble);
      (r.applied <==> geofence.radiusMetres > 0.0)
      && (r.applied ==> r.newState == s.(activeGeofence := Some(geofence)))
      && (!r.applied ==>
            r.rationale == GeofenceRadiusOpen + showDouble(geofence.radiusMetres) + ")" && Contains(r.rationale, Positive))
  {
    ContainsMiddle(RadiusMustBe, Positive, GotOpen);
    ContainsBeforeSuffix(GeofenceRadiusOpen, Positive, showDouble(geofence.radiusMetres));
    ContainsBeforeSuffix(GeofenceRadiusOpen + showDouble(geofence.radiusMetres), Positive, ")");
  }

  /** A geofence is cleared only when one is active. */
  lemma ClearGeofenceGuard(s: FlightState, id: Uuid, showDouble: real -> string)
    ensures var r := Reduce(s, ClearGeofence(id), showDouble);
      (r.applied <==> s.activeGeofence.Some?)
      && (r.applied ==> r.newState == s.(activeGeofence := None))
      && (!r.applied ==> r.rationale == ClearGeofenceNone && Contains(r.rationale, GeofenceWord))
  {
    ContainsMiddle(ClearGeofenceNoneOpen, GeofenceWord, ClearGeofenceNoneClose);
  }

  // ---------------------------------------------------------------------
  // Safety properties over every command
  // ---------------------------------------------------------------------

  /** A vehicle taking off is armed. */
  predicate TakeoffIsArmed(s: FlightState) {
    s.flightMode == TakingOff ==> s.armingState == Armed
  }

  /** Only an accepted `takeoff` from armed and idle enters takingOff. */
  lemma EnteringTakeoff(s: FlightState, a: FlightAction, showDouble: real -> string)
    requires s.flightMode != TakingOff && Reduce(s, a, showDouble).newState.flightMode == TakingOff
    ensures a.Takeoff? && a.altitudeMetres > 0.0
    ensures s.armingState == Armed && s.flightMode == Idle
  {
  }

  /** Only an accepted `land` from flying or hovering enters landing. */
  lemma EnteringLanding(s: FlightState, a: FlightAction, showDouble: real -> string)
    requires s.flightMode != Landing && Reduce(s, a, showDouble).newState.flightMode == Landing
    ensures a.Land? && (s.flightMode == Flying || s.flightMode == Hovering)
  {
  }

  /** Every command keeps a vehicle that is taking off armed. */
  lemma TakeoffIsArmedPreserved(s: FlightState, a: FlightAction, showDouble: real -> string)
    requires TakeoffIsArmed(s)
    ensures TakeoffIsArmed(Reduce(s, a, showDouble).newState)
  {
    if s.flightMode != TakingOff && Reduce(s, a, showDouble).newState.flightMode == TakingOff {
      EnteringTakeoff(s, a, showDouble);
    }
  }

  // ---------------------------------------------------------------------
  // The interlock on the test fixture
  // ---------------------------------------------------------------------

  /** A state that satisfies every arming precondition, with `battery` percent charge. */
  function ReadyToArm(battery: real): FlightState {
    With(Initial, NoChange.(
      connectionStatus := Some(Connected),
      battery := Some(Some(BatteryState(battery, 12.4, 25.0))),
      gpsInfo := Some(Some(GPSInfo(Fix3D, 12))),
      imuCalibrated := Some(true),
      compassCalibrated := Some(true),
      activeGeofence := Some(Some(Geofence(Position(37.7749, -122.4194, 0.0), 500.0)))))
  }

  /** The fixture arms, and the battery threshold is inclusive: 20% arms, 19.9% does not. */
  lemma BatteryThresholdIsInclusive()
    ensures CanArm(ReadyToArm(85.0)) && CanArm(ReadyToArm(20.0)) && !CanArm(ReadyToArm(19.9))
  {
  }

  /** Below the threshold, with everything else in order, the rejection names the battery. */
  lemma LowBatteryRejectionNamesBattery(showDouble: real -> string)
    ensures Contains(ArmRejectionRationale(ReadyToArm(19.9), showDouble).value, "battery")
  {
    var s := ReadyToArm(19.9);
    assert ArmRejectionRationale(s, showDouble) == Some(ArmRejection(BatteryReserve, s, showDouble));
    ContainsAfter(ArmRejected, Keyword(BatteryReserve) + FailureTail(BatteryReserve, s, showDouble), Keyword(BatteryReserve));
  }
}
