/** The records of src/types/index.ts. Timestamps (ISO strings in the source)
    are milliseconds since the epoch; coordinates and readings are reals. */
module Types {
  import opened Wrappers

  /** 'industry' | 'user'. The 'user' role (a nearby resident) is called
      `Resident` here so that it does not clash with the `User` record. */
  datatype UserRole = Industry | Resident

  function RoleName(r: UserRole): (s: string)
    ensures s == "industry" || s == "user"
  {
    match r
    case Industry => "industry"
    case Resident => "user"
  }

  /** 'safe' | 'moderate' | 'unhealthy' | 'hazardous', ordered by `Rank`. */
  datatype SeverityLevel = Safe | Moderate | Unhealthy | Hazardous

  function Rank(s: SeverityLevel): (r: nat)
    ensures r < 4
  {
    match s
    case Safe => 0
    case Moderate => 1
    case Unhealthy => 2
    case Hazardous => 3
  }

  function LevelOfRank(r: nat): SeverityLevel
    requires r < 4
  {
    if r == 0 then Safe else if r == 1 then Moderate else if r == 2 then Unhealthy else Hazardous
  }

  /** The four levels are exactly the ranks 0..3: the rank determines the
      level and every rank below 4 is taken. */
  lemma RankIsBijective(s: SeverityLevel, r: nat)
    requires r < 4
    ensures LevelOfRank(Rank(s)) == s
    ensures Rank(LevelOfRank(r)) == r
  {
  }

  function SeverityName(s: SeverityLevel): string
  {
    match s
    case Safe => "safe"
    case Moderate => "moderate"
    case Unhealthy => "unhealthy"
    case Hazardous => "hazardous"
  }

  /** The higher of two levels. */
  function Worse(a: SeverityLevel, b: SeverityLevel): (w: SeverityLevel)
    ensures w == a || w == b
    ensures Rank(a) <= Rank(w) && Rank(b) <= Rank(w)
  {
    if Rank(a) >= Rank(b) then a else b
  }

  datatype UserLocation = UserLocation(address: string, latitude: real, longitude: real)

  datatype User = User(id: string, username: string, role: UserRole, location: UserLocation)

  /** All five pollutants are always present. */
  datatype Pollutants = Pollutants(nh3: real, co2: real, ch4: real, so2: real, pm25: real)

  datatype Environmental = Environmental(temperature: real, humidity: real, windSpeed: real, windDirection: real)

  datatype SensorLocation = SensorLocation(latitude: real, longitude: real, name: string)

  datatype SensorReading = SensorReading(
    id: string,
    sensorId: string,
    timestamp: int,
    pollutants: Pollutants,
    environmental: Environmental,
    severity: SeverityLevel,
    location: SensorLocation)

  /** Alert.type: 'sensor' | 'prediction'. */
  datatype AlertType = SensorAlert | PredictionAlert

  datatype AlertLocation = AlertLocation(latitude: real, longitude: real)

  /** `sensorId` and `location` are optional; `acknowledged` is always set. */
  datatype Alert = Alert(
    id: string,
    kind: AlertType,
    severity: SeverityLevel,
    title: string,
    message: string,
    timestamp: int,
    sensorId: Option<string>,
    location: Option<AlertLocation>,
    acknowledged: bool)

  /** A GeoJSON position: longitude first, then latitude (RFC 7946, section
      3.1.1). */
  datatype Position = Position(longitude: real, latitude: real)

  /** A GeoJSON Polygon: a list of linear rings, the first being the exterior
      ring (RFC 7946, section 3.1.6). */
  datatype GeoJSONPolygon = GeoJSONPolygon(coordinates: seq<seq<Position>>)

  datatype GeoJSONFeature = GeoJSONFeature(geometry: GeoJSONPolygon)

  datatype PredictionData = PredictionData(
    id: string,
    timestamp: int,
    gasType: string,
    spreadDirection: string,
    spreadDistance: real,
    timeFrame: real,
    affectedArea: GeoJSONFeature,
    summary: string,
    severity: SeverityLevel)

  datatype HistoricalData = HistoricalData(
    timestamp: int,
    nh3: real, co2: real, ch4: real, so2: real, pm25: real,
    temperature: real, humidity: real)
}
