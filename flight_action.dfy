/**
 * The closed vocabulary of session commands. Every one of the 17 variants
 * carries the caller-supplied correlation identifier as its last field.
 */
module FlightActions {
  import opened VectorCore
  import opened Text
  import opened SupportingTypes

  datatype FlightAction =
    | Connect(config: ConnectionConfig, correlationID: Uuid)
    | Disconnect(correlationID: Uuid)
    | ConnectionStatusChanged(status: ConnectionStatus, correlationID: Uuid)
    | TelemetryReceived(data: TelemetryData, correlationID: Uuid)
    | SensorCalibrationUpdated(imuCalibrated: bool, compassCalibrated: bool, correlationID: Uuid)
    | Arm(correlationID: Uuid)
    | Disarm(correlationID: Uuid)
    | Takeoff(altitudeMetres: real, correlationID: Uuid)
    | Land(correlationID: Uuid)
    | ReturnToLaunch(correlationID: Uuid)
    | SetFlightMode(mode: FlightMode, correlationID: Uuid)
    | LoadMission(mission: Mission, correlationID: Uuid)
    | StartMission(correlationID: Uuid)
    | PauseMission(correlationID: Uuid)
    | ClearMission(correlationID: Uuid)
    | SetGeofence(geofence: Geofence, correlationID: Uuid)
    | ClearGeofence(correlationID: Uuid)
  {
    /** The Swift case name of this action. */
    function CaseName(): string {
      match this
      case Connect(_, _) => "connect"
      case Disconnect(_) => "disconnect"
      case ConnectionStatusChanged(_, _) => "connectionStatusChanged"
      case TelemetryReceived(_, _) => "telemetryReceived"
      case SensorCalibrationUpdated(_, _, _) => "sensorCalibrationUpdated"
      case Arm(_) => "arm"
      case Disarm(_) => "disarm"
      case Takeoff(_, _) => "takeoff"
      case Land(_) => "land"
      case ReturnToLaunch(_) => "returnToLaunch"
      case SetFlightMode(_, _) => "setFlightMode"
      case LoadMission(_, _) => "loadMission"
      case StartMission(_) => "startMission"
      case PauseMission(_) => "pauseMission"
      case ClearMission(_) => "clearMission"
      case SetGeofence(_, _) => "setGeofence"
      case ClearGeofence(_) => "clearGeofence"
    }

    /** The variants whose description shows part of their payload. */
    predicate DescribesPayload() {
      ConnectionStatusChanged? || SensorCalibrationUpdated? || Takeoff? || SetFlightMode?
      || LoadMission? || SetGeofence?
    }

    /**
     * `actionDescription`: a terse audit-log label. `showDouble` stands for
     * Swift's rendering of a `Double` in string interpolation.
     */
    function ActionDescription(showDouble: real -> string): (d: string)
      ensures |d| > 0
    {
      match this
      case Connect(_, _) => "connect"
      case Disconnect(_) => "disconnect"
      case ConnectionStatusChanged(status, _) => "connectionStatusChanged(" + status.RawValue() + ")"
      case TelemetryReceived(_, _) => "telemetryReceived"
      case SensorCalibrationUpdated(imu, compass, _) =>
        "sensorCalibrationUpdated(imu:" + BoolText(imu) + ", compass:" + BoolText(compass) + ")"
      case Arm(_) => "arm"
      case Disarm(_) => "disarm"
      case Takeoff(alt, _) => "takeoff(" + showDouble(alt) + "m)"
      case Land(_) => "land"
      case ReturnToLaunch(_) => "returnToLaunch"
      case SetFlightMode(mode, _) => "setFlightMode(" + mode.RawValue() + ")"
      case LoadMission(mission, _) => "loadMission(" + mission.name + ")"
      case StartMission(_) => "startMission"
      case PauseMission(_) => "pauseMission"
      case ClearMission(_) => "clearMission"
      case SetGeofence(geo, _) => "setGeofence(r:" + showDouble(geo.radiusMetres) + "m)"
      case ClearGeofence(_) => "clearGeofence"
    }

    /** `correlationID`: the identifier embedded in the variant, whichever variant it is. */
    function CorrelationID(): (id: Uuid)
      ensures id == this.correlationID
    {
      match this
      case Connect(_, id) => id
      case Disconnect(id) => id
      case ConnectionStatusChanged(_, id) => id
      case TelemetryReceived(_, id) => id
      case SensorCalibrationUpdated(_, _, id) => id
      case Arm(id) => id
      case Disarm(id) => id
      case Takeoff(_, id) => id
      case Land(id) => id
      case ReturnToLaunch(id) => id
      case SetFlightMode(_, id) => id
      case LoadMission(_, id) => id
      case StartMission(id) => id
      case PauseMission(id) => id
      case ClearMission(id) => id
      case SetGeofence(_, id) => id
      case ClearGeofence(id) => id
    }
  }

  /** Variants that show no payload are described by exactly their case name. */
  lemma PlainDescriptionIsCaseName(a: FlightAction, showDouble: real -> string)
    ensures !a.DescribesPayload() ==> a.ActionDescription(showDouble) == a.CaseName()
  {
  }

  /** A link-status report is described with the new status's raw value. */
  lemma StatusChangeDescription(status: ConnectionStatus, id: Uuid, showDouble: real -> string)
    ensures Contains(ConnectionStatusChanged(status, id).ActionDescription(showDouble), status.RawValue())
  {
    ContainsMiddle("connectionStatusChanged(", status.RawValue(), ")");
  }

  lemma FlagsShown(i: string, c: string)
    ensures Contains("sensorCalibrationUpdated(imu:" + i + ", compass:" + c + ")", "imu:" + i)
    ensures Contains("sensorCalibrationUpdated(imu:" + i + ", compass:" + c + ")", "compass:" + c)
  {
    var d := "sensorCalibrationUpdated(imu:" + i + ", compass:" + c + ")";
    assert "sensorCalibrationUpdated(imu:" == "sensorCalibrationUpdated(" + "imu:";
    assert d == "sensorCalibrationUpdated(" + ("imu:" + i) + (", compass:" + c + ")");
    ContainsMiddle("sensorCalibrationUpdated(", "imu:" + i, ", compass:" + c + ")");
    assert ", compass:" == ", " + "compass:";
    assert d == "sensorCalibrationUpdated(imu:" + i + ", " + ("compass:" + c) + ")";
    ContainsMiddle("sensorCalibrationUpdated(imu:" + i + ", ", "compass:" + c, ")");
  }

  /** A calibration report is described with both flags, as `imu:<b>` and `compass:<b>`. */
  lemma CalibrationDescription(imu: bool, compass: bool, id: Uuid, showDouble: real -> string)
    ensures Contains(SensorCalibrationUpdated(imu, compass, id).ActionDescription(showDouble), "imu:" + BoolText(imu))
    ensures Contains(SensorCalibrationUpdated(imu, compass, id).ActionDescription(showDouble), "compass:" + BoolText(compass))
  {
    FlagsShown(BoolText(imu), BoolText(compass));
  }

  /** A takeoff is described with its target altitude. */
  lemma TakeoffDescription(alt: real, id: Uuid, showDouble: real -> string)
    ensures Contains(Takeoff(alt, id).ActionDescription(showDouble), showDouble(alt))
  {
    ContainsMiddle("takeoff(", showDouble(alt), "m)");
  }

  /** A mode change is described with the requested mode's raw value. */
  lemma FlightModeDescription(mode: FlightMode, id: Uuid, showDouble: real -> string)
    ensures Contains(SetFlightMode(mode, id).ActionDescription(showDouble), mode.RawValue())
  {
    ContainsMiddle("setFlightMode(", mode.RawValue(), ")");
  }

  /** A mission load is described with the mission's name. */
  lemma LoadMissionDescription(mission: Mission, id: Uuid, showDouble: real -> string)
    ensures Contains(LoadMission(mission, id).ActionDescription(showDouble), mission.name)
  {
    ContainsMiddle("loadMission(", mission.name, ")");
  }

  /** A geofence activation is described with its radius. */
  lemma GeofenceDescription(geofence: Geofence, id: Uuid, showDouble: real -> string)
    ensures Contains(SetGeofence(geofence, id).ActionDescription(showDouble), showDouble(geofence.radiusMetres))
  {
    ContainsMiddle("setGeofence(r:", showDouble(geofence.radiusMetres), "m)");
  }

  /** Actions that differ in correlation identifier are different actions, and so are takeoffs to different altitudes. */
  lemma ActionsCompareByPayloadAndIdentifier(a: FlightAction, b: FlightAction, x: real, y: real, id: Uuid)
    ensures a.CorrelationID() != b.CorrelationID() ==> a != b
    ensures Takeoff(x, id) == Takeoff(y, id) <==> x == y
  {
  }
}
