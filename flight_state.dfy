/**
 * The complete, immutable state of one GCS–vehicle session, its canonical
 * initial value, and the `with(...)` field-update helper through which every
 * transition builds its successor.
 */
module FlightStates {
  import opened Wrappers
  import opened VectorCore
  import opened SupportingTypes

  datatype FlightState = FlightState(
    connectionStatus: ConnectionStatus,
    telemetry: Option<TelemetryData>,
    flightMode: FlightMode,
    armingState: ArmingState,
    position: Option<Position>,
    attitude: Option<Attitude>,
    battery: Option<BatteryState>,
    gpsInfo: Option<GPSInfo>,
    imuCalibrated: bool,
    compassCalibrated: bool,
    activeMission: Option<Mission>,
    activeGeofence: Option<Geofence>,
    lastUpdated: Date)

  /** `FlightState.initial`: disconnected, idle, disarmed, uncalibrated, nothing known, epoch timestamp. */
  const Initial: FlightState := FlightState(
    connectionStatus := Disconnected,
    telemetry := None,
    flightMode := Idle,
    armingState := Disarmed,
    position := None,
    attitude := None,
    battery := None,
    gpsInfo := None,
    imuCalibrated := false,
    compassCalibrated := false,
    activeMission := None,
    activeGeofence := None,
    lastUpdated := Epoch)

  /** Every optional field of the state is absent. */
  predicate NothingKnown(s: FlightState) {
    s.telemetry.None? && s.position.None? && s.attitude.None? && s.battery.None?
    && s.gpsInfo.None? && s.activeMission.None? && s.activeGeofence.None?
  }

  lemma InitialIsCanonical()
    ensures Initial.connectionStatus == Disconnected && Initial.flightMode == Idle
    ensures Initial.armingState == Disarmed && NothingKnown(Initial)
    ensures !Initial.imuCalibrated && !Initial.compassCalibrated
    ensures Initial.lastUpdated == Epoch
  {
  }

  /**
   * The arguments of one `with(...)` call. An argument left out is `None`.
   * For an optional field the argument is doubly optional: `None` leaves the
   * field alone, `Some(None)` clears it, `Some(Some(x))` sets it to `x`.
   */
  datatype Update = Update(
    connectionStatus: Option<ConnectionStatus>,
    telemetry: Option<Option<TelemetryData>>,
    flightMode: Option<FlightMode>,
    armingState: Option<ArmingState>,
    position: Option<Option<Position>>,
    attitude: Option<Option<Attitude>>,
    battery: Option<Option<BatteryState>>,
    gpsInfo: Option<Option<GPSInfo>>,
    imuCalibrated: Option<bool>,
    compassCalibrated: Option<bool>,
    activeMission: Option<Option<Mission>>,
    activeGeofence: Option<Option<Geofence>>,
    lastUpdated: Option<Date>)

  /** `with()` called with no arguments. */
  const NoChange: Update := Update(None, None, None, None, None, None, None, None, None, None, None, None, None)

  /** `s.with(...)`: each field takes its argument when one is given (`arg ?? self.field`). */
  function With(s: FlightState, u: Update): (r: FlightState)
    ensures u.lastUpdated.None? ==> r.lastUpdated == s.lastUpdated
    ensures u == NoChange ==> r == s
  {
    FlightState(
      connectionStatus := u.connectionStatus.GetOr(s.connectionStatus),
      telemetry := u.telemetry.GetOr(s.telemetry),
      flightMode := u.flightMode.GetOr(s.flightMode),
      armingState := u.armingState.GetOr(s.armingState),
      position := u.position.GetOr(s.position),
      attitude := u.attitude.GetOr(s.attitude),
      battery := u.battery.GetOr(s.battery),
      gpsInfo := u.gpsInfo.GetOr(s.gpsInfo),
      imuCalibrated := u.imuCalibrated.GetOr(s.imuCalibrated),
      compassCalibrated := u.compassCalibrated.GetOr(s.compassCalibrated),
      activeMission := u.activeMission.GetOr(s.activeMission),
      activeGeofence := u.activeGeofence.GetOr(s.activeGeofence),
      lastUpdated := u.lastUpdated.GetOr(s.lastUpdated))
  }

  /** Setting one non-optional field changes that field and nothing else. */
  lemma WithSetsOneField(s: FlightState, c: ConnectionStatus, m: FlightMode, a: ArmingState, b: bool, t: Date)
    ensures With(s, NoChange.(connectionStatus := Some(c))) == s.(connectionStatus := c)
    ensures With(s, NoChange.(flightMode := Some(m))) == s.(flightMode := m)
    ensures With(s, NoChange.(armingState := Some(a))) == s.(armingState := a)
    ensures With(s, NoChange.(imuCalibrated := Some(b))) == s.(imuCalibrated := b)
    ensures With(s, NoChange.(compassCalibrated := Some(b))) == s.(compassCalibrated := b)
    ensures With(s, NoChange.(lastUpdated := Some(t))) == s.(lastUpdated := t)
  {
  }

  /** The three argument forms for an optional field: leave alone, clear, set. */
  lemma WithOptionalFieldForms(s: FlightState, t: TelemetryData, p: Position, a: Attitude, b: BatteryState,
                               gps: GPSInfo, m: Mission, g: Geofence)
    ensures With(s, NoChange.(telemetry := None)) == s
    ensures With(s, NoChange.(telemetry := Some(None))) == s.(telemetry := None)
    ensures With(s, NoChange.(telemetry := Some(Some(t)))) == s.(telemetry := Some(t))
    ensures With(s, NoChange.(position := None)) == s
    ensures With(s, NoChange.(position := Some(None))) == s.(position := None)
    ensures With(s, NoChange.(position := Some(Some(p)))) == s.(position := Some(p))
    ensures With(s, NoChange.(attitude := None)) == s
    ensures With(s, NoChange.(attitude := Some(None))) == s.(attitude := None)
    ensures With(s, NoChange.(attitude := Some(Some(a)))) == s.(attitude := Some(a))
    ensures With(s, NoChange.(battery := None)) == s
    ensures With(s, NoChange.(battery := Some(None))) == s.(battery := None)
    ensures With(s, NoChange.(battery := Some(Some(b)))) == s.(battery := Some(b))
    ensures With(s, NoChange.(gpsInfo := None)) == s
    ensures With(s, NoChange.(gpsInfo := Some(None))) == s.(gpsInfo := None)
    ensures With(s, NoChange.(gpsInfo := Some(Some(gps)))) == s.(gpsInfo := Some(gps))
    ensures With(s, NoChange.(activeMission := Some(None))) == s.(activeMission := None)
    ensures With(s, NoChange.(activeMission := Some(Some(m)))) == s.(activeMission := Some(m))
    ensures With(s, NoChange.(activeGeofence := Some(None))) == s.(activeGeofence := None)
    ensures With(s, NoChange.(activeGeofence := Some(Some(g)))) == s.(activeGeofence := Some(g))
  {
  }

  /** Applying the same update twice is the same as applying it once. */
  lemma WithIdempotent(s: FlightState, u: Update)
    ensures With(With(s, u), u) == With(s, u)
  {
  }
}
