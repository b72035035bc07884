/**
 * The value types of a GCS session: link, arming, flight-mode and GPS-fix
 * enumerations with their stable raw strings (they are persisted in the audit
 * trail), and the immutable sensor, mission and geofence records. Swift's
 * `Double` fields are `real`; records compare field by field, as Dafny
 * datatypes do.
 */
module SupportingTypes {
  import opened Wrappers
  import opened VectorCore

  // ----- Connection -----

  /** The GCS–vehicle link state. */
  datatype ConnectionStatus = Disconnected | Connecting | Connected | Lost {
    function RawValue(): string {
      match this
      case Disconnected => "disconnected"
      case Connecting => "connecting"
      case Connected => "connected"
      case Lost => "lost"
    }
  }

  /** `ConnectionStatus(rawValue:)`: the case whose raw value is `raw`, if any. */
  function ParseConnectionStatus(raw: string): (r: Option<ConnectionStatus>)
    ensures r.Some? ==> r.value.RawValue() == raw
    ensures r.None? ==> forall c: ConnectionStatus :: c.RawValue() != raw
  {
    if raw == "disconnected" then Some(Disconnected)
    else if raw == "connecting" then Some(Connecting)
    else if raw == "connected" then Some(Connected)
    else if raw == "lost" then Some(Lost)
    else None
  }

  // ----- Arming -----

  /** Whether the vehicle's motors are armed. */
  datatype ArmingState = Disarmed | Armed {
    function RawValue(): string {
      match this
      case Disarmed => "disarmed"
      case Armed => "armed"
    }
  }

  /** `ArmingState(rawValue:)`. */
  function ParseArmingState(raw: string): (r: Option<ArmingState>)
    ensures r.Some? ==> r.value.RawValue() == raw
    ensures r.None? ==> forall a: ArmingState :: a.RawValue() != raw
  {
    if raw == "disarmed" then Some(Disarmed)
    else if raw == "armed" then Some(Armed)
    else None
  }

  // ----- Flight mode -----

  /** The active flight control mode; each raw value is the case name. */
  datatype FlightMode = Idle | TakingOff | Flying | Hovering | Landing | ReturningToLaunch | Manual {
    function RawValue(): string {
      match this
      case Idle => "idle"
      case TakingOff => "takingOff"
      case Flying => "flying"
      case Hovering => "hovering"
      case Landing => "landing"
      case ReturningToLaunch => "returningToLaunch"
      case Manual => "manual"
    }
  }

  /** `FlightMode(rawValue:)`. */
  function ParseFlightMode(raw: string): (r: Option<FlightMode>)
    ensures r.Some? ==> r.value.RawValue() == raw
    ensures r.None? ==> forall m: FlightMode :: m.RawValue() != raw
  {
    if raw == "idle" then Some(Idle)
    else if raw == "takingOff" then Some(TakingOff)
    else if raw == "flying" then Some(Flying)
    else if raw == "hovering" then Some(Hovering)
    else if raw == "landing" then Some(Landing)
    else if raw == "returningToLaunch" then Some(ReturningToLaunch)
    else if raw == "manual" then Some(Manual)
    else None
  }

  // ----- GPS -----

  /** GPS fix quality. */
  datatype GPSFixType = NoFix | Fix2D | Fix3D {
    function RawValue(): string {
      match this
      case NoFix => "noFix"
      case Fix2D => "fix2D"
      case Fix3D => "fix3D"
    }
  }

  /** `GPSFixType(rawValue:)`. */
  function ParseGPSFixType(raw: string): (r: Option<GPSFixType>)
    ensures r.Some? ==> r.value.RawValue() == raw
    ensures r.None? ==> forall f: GPSFixType :: f.RawValue() != raw
  {
    if raw == "noFix" then Some(NoFix)
    else if raw == "fix2D" then Some(Fix2D)
    else if raw == "fix3D" then Some(Fix3D)
    else None
  }

  /**
   * Raw values are stable identifiers: reading back any case's raw value
   * gives that case, so no two cases of an enumeration share a raw value.
   */
  lemma RawValuesRoundTrip(c: ConnectionStatus, a: ArmingState, m: FlightMode, f: GPSFixType)
    ensures ParseConnectionStatus(c.RawValue()) == Some(c)
    ensures ParseArmingState(a.RawValue()) == Some(a)
    ensures ParseFlightMode(m.RawValue()) == Some(m)
    ensures ParseGPSFixType(f.RawValue()) == Some(f)
  {
  }

  lemma RawValuesInjective(c1: ConnectionStatus, c2: ConnectionStatus, m1: FlightMode, m2: FlightMode)
    ensures c1.RawValue() == c2.RawValue() ==> c1 == c2
    ensures m1.RawValue() == m2.RawValue() ==> m1 == m2
  {
    RawValuesRoundTrip(c1, Disarmed, m1, NoFix);
    RawValuesRoundTrip(c2, Disarmed, m2, NoFix);
  }

  // ----- Records -----

  /** GPS receiver status snapshot. */
  datatype GPSInfo = GPSInfo(fixType: GPSFixType, satelliteCount: int)

  /** A WGS-84 position: decimal degrees and metres above mean sea level. */
  datatype Position = Position(latitude: real, longitude: real, altitudeMSL: real)

  /** Vehicle orientation as Euler angles in degrees. */
  datatype Attitude = Attitude(rollDeg: real, pitchDeg: real, yawDeg: real)

  /** Battery status snapshot; `percentage` is the state of charge. */
  datatype BatteryState = BatteryState(percentage: real, voltageV: real, temperatureC: real)

  /** An aggregated sensor snapshot; absent parts are genuinely unavailable sensors. */
  datatype TelemetryData = TelemetryData(
    position: Option<Position>,
    attitude: Option<Attitude>,
    battery: Option<BatteryState>,
    gpsInfo: Option<GPSInfo>,
    timestamp: Date)

  /** A single mission waypoint. */
  datatype Waypoint = Waypoint(position: Position, altitudeMSL: real)

  /** A named sequence of waypoints. */
  datatype Mission = Mission(id: Uuid, name: string, waypoints: seq<Waypoint>)

  /** A circular geographic boundary. */
  datatype Geofence = Geofence(center: Position, radiusMetres: real)

  /** Swift's `UInt16`: the port can only hold 0..65535. */
  type UInt16 = x: int | 0 <= x < 0x1_0000

  /** Parameters for establishing a link to the Edge Relay. */
  datatype ConnectionConfig = ConnectionConfig(host: string, port: UInt16)

  /** Records compare field by field: two positions are equal exactly when all three coordinates are. */
  lemma PositionsCompareFieldwise(p: Position, q: Position)
    ensures p == q <==> p.latitude == q.latitude && p.longitude == q.longitude && p.altitudeMSL == q.altitudeMSL
  {
  }

  /** A connection configuration's port is a 16-bit unsigned value. */
  lemma PortIsSixteenBit(c: ConnectionConfig)
    ensures 0 <= c.port <= 65535
  {
  }
}
