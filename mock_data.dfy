/** src/api/mockData.ts: the fixed sensors, alerts and prediction the
    dashboard runs on, the hourly history generator and the mock API's
    login and alert endpoints. `Date.now()` is the parameter `now`
    (milliseconds); the random parts of the history are given as samples. */
module MockData {
  import opened Wrappers
  import opened Types
  import SeqUtil
  import SensorGrid

  /** `getSeverity(pm25)`: the pm2.5 banding 35 / 75 / 150. */
  function GetSeverity(pm25: real): (s: SeverityLevel)
    ensures s == Safe <==> pm25 < 35.0
    ensures s == Moderate <==> 35.0 <= pm25 < 75.0
    ensures s == Unhealthy <==> 75.0 <= pm25 < 150.0
    ensures s == Hazardous <==> 150.0 <= pm25
  {
    if pm25 < 35.0 then Safe
    else if pm25 < 75.0 then Moderate
    else if pm25 < 150.0 then Unhealthy
    else Hazardous
  }

  /** The mock helper and the sensor grid's classification agree on pm2.5. */
  lemma GetSeverityMatchesGrid(pm25: real)
    ensures GetSeverity(pm25) == SensorGrid.GasSeverity(pm25, "pm25")
  {
  }

  function Reading(n: string, nh3: real, co2: real, ch4: real, so2: real, pm25: real,
                   temperature: real, humidity: real, windSpeed: real, windDirection: real,
                   severity: SeverityLevel, latitude: real, longitude: real, name: string,
                   now: int): SensorReading
  {
    SensorReading("sensor-" + n, "SN-00" + n, now,
                  Pollutants(nh3, co2, ch4, so2, pm25),
                  Environmental(temperature, humidity, windSpeed, windDirection),
                  severity, SensorLocation(latitude, longitude, name))
  }

  /** `mockSensorReadings`, all stamped with the load time. */
  function MockSensorReadings(now: int): (rs: seq<SensorReading>)
    ensures |rs| == 5
    ensures forall r :: r in rs ==> r.timestamp == now
  {
    [ Reading("1", 12.5, 420.0, 1.9, 8.2, 28.0, 28.5, 65.0, 12.0, 45.0, Safe, 28.6139, 77.2090, "Sector 12, Industrial Zone", now),
      Reading("2", 45.2, 580.0, 3.2, 22.5, 95.0, 31.2, 58.0, 8.0, 120.0, Unhealthy, 28.6200, 77.2150, "Chemical Plant A", now),
      Reading("3", 78.9, 720.0, 5.8, 45.2, 185.0, 33.8, 52.0, 15.0, 200.0, Hazardous, 28.6080, 77.2020, "Refinery Complex", now),
      Reading("4", 25.3, 510.0, 2.4, 15.8, 55.0, 29.5, 62.0, 10.0, 90.0, Moderate, 28.6250, 77.2000, "Processing Unit B", now),
      Reading("5", 8.2, 395.0, 1.5, 5.5, 18.0, 27.2, 70.0, 14.0, 315.0, Safe, 28.6180, 77.2250, "Green Zone Monitoring", now) ]
  }

  /** Every stored severity is the pm2.5 band of the reading, and the
      humidity of every reading starts inside [0, 100]. */
  lemma MockSeveritiesArePm25Bands(now: int)
    ensures forall r :: r in MockSensorReadings(now) ==> r.severity == GetSeverity(r.pollutants.pm25)
    ensures forall r :: r in MockSensorReadings(now) ==> 0.0 <= r.environmental.humidity <= 100.0
  {
    var rs := MockSensorReadings(now);
    assert rs[0].severity == GetSeverity(rs[0].pollutants.pm25);
    assert rs[1].severity == GetSeverity(rs[1].pollutants.pm25);
    assert rs[2].severity == GetSeverity(rs[2].pollutants.pm25);
    assert rs[3].severity == GetSeverity(rs[3].pollutants.pm25);
    assert rs[4].severity == GetSeverity(rs[4].pollutants.pm25);
  }

  const SecondMs := 1000
  const MinuteMs := 60 * SecondMs
  const HourMs := 60 * MinuteMs

  /** The alert messages and the prediction summary. */
  const Alert1Message: string := "Sensor SN-003 at Refinery Complex has detected SO₂ levels exceeding safety thresholds. Immediate action required."
  const Alert2Message: string := "AI prediction indicates potential gas spread towards eastern residential areas within 45 minutes."
  const Alert3Message: string := "PM2.5 concentrations at Chemical Plant A are approaching unhealthy levels."
  const Alert4Message: string := "Air quality at Sector 12 has returned to safe levels."
  const PredictionSummary: string := "Based on current wind patterns and emission rates, SO₂ is predicted to spread east-northeast covering approximately 1.2 km within the next 30 minutes. Residential areas in the eastern zone may be affected."

  /** `mockAlerts`: 5, 10, 30 and 60 minutes old at load time. */
  function MockAlerts(now: int): (alerts: seq<Alert>)
    ensures |alerts| == 4
    ensures forall i :: 0 <= i < |alerts| ==> alerts[i].timestamp < now
  {
    [ Alert("alert-1", SensorAlert, Hazardous, "Critical SO₂ Levels Detected",
            Alert1Message,
            now - 300000, Some("SN-003"), Some(AlertLocation(28.6080, 77.2020)), false),
      Alert("alert-2", PredictionAlert, Unhealthy, "Gas Spread Warning - East Zone",
            Alert2Message,
            now - 600000, None, Some(AlertLocation(28.6100, 77.2100)), false),
      Alert("alert-3", SensorAlert, Moderate, "Elevated PM2.5 Levels",
            Alert3Message,
            now - 1800000, Some("SN-002"), Some(AlertLocation(28.6200, 77.2150)), true),
      Alert("alert-4", SensorAlert, Safe, "Levels Normalized",
            Alert4Message,
            now - 3600000, Some("SN-001"), Some(AlertLocation(28.6139, 77.2090)), true) ]
  }

  /** The mock alerts have pairwise distinct ids, are listed newest first,
      and only the prediction alert lacks a sensor id. */
  lemma MockAlertsWellFormed(now: int)
    ensures forall i, j :: 0 <= i < j < |MockAlerts(now)| ==> MockAlerts(now)[i].id != MockAlerts(now)[j].id
    ensures forall i, j :: 0 <= i < j < |MockAlerts(now)| ==> MockAlerts(now)[i].timestamp > MockAlerts(now)[j].timestamp
    ensures forall a :: a in MockAlerts(now) ==> (a.sensorId.None? <==> a.kind == PredictionAlert)
  {
    var al := MockAlerts(now);
    assert al[0].id[6] == '1' && al[1].id[6] == '2' && al[2].id[6] == '3' && al[3].id[6] == '4';
  }

  /** The exterior ring of the predicted spread area. */
  const MockRing: seq<Position> := [
    Position(77.2020, 28.6080),
    Position(77.2150, 28.6120),
    Position(77.2200, 28.6050),
    Position(77.2180, 28.5980),
    Position(77.2050, 28.6000),
    Position(77.2020, 28.6080)]

  /** `mockPrediction`, stamped with the load time. */
  function MockPrediction(now: int): (p: PredictionData)
    ensures |p.affectedArea.geometry.coordinates| == 1
    ensures p.affectedArea.geometry.coordinates[0] == MockRing
  {
    PredictionData("pred-1", now, "SO₂", "East-Northeast", 1.2, 30.0,
      GeoJSONFeature(GeoJSONPolygon([MockRing])),
      PredictionSummary,
      Unhealthy)
  }

  /** The ring is closed (first position repeated last, as RFC 7946 section
      3.1.6 requires of a linear ring) and lies in a small box near Delhi. */
  lemma MockRingClosedAndLocal()
    ensures |MockRing| >= 4 && MockRing[0] == MockRing[|MockRing| - 1]
    ensures forall q :: q in MockRing ==> 77.2 <= q.longitude <= 77.23 && 28.59 <= q.latitude <= 28.62
  {
  }

  /** The random and trigonometric terms of one hourly sample. */
  datatype Sample = Sample(nh3: real, co2: real, ch4: real, so2: real, pm25: real,
                           temperature: real, humidity: real)

  /** `generateHistoricalData()`: 25 hourly points, oldest first, the last
      one at `now`; point k is taken `24 - k` hours before `now`. */
  method GenerateHistoricalData(now: int, samples: seq<Sample>) returns (data: seq<HistoricalData>)
    requires |samples| == 25
    ensures |data| == 25
    ensures forall k :: 0 <= k < 25 ==> data[k].timestamp == now - (24 - k) * HourMs
    ensures forall k :: 0 <= k < 25 ==>
      data[k] == HistoricalData(data[k].timestamp, samples[k].nh3, samples[k].co2, samples[k].ch4,
                                samples[k].so2, samples[k].pm25, samples[k].temperature, samples[k].humidity)
  {
    data := [];
    var i := 24;
    while i >= 0
      invariant -1 <= i <= 24
      invariant |data| == 24 - i
      invariant forall k :: 0 <= k < |data| ==> data[k].timestamp == now - (24 - k) * HourMs
      invariant forall k :: 0 <= k < |data| ==>
        data[k] == HistoricalData(data[k].timestamp, samples[k].nh3, samples[k].co2, samples[k].ch4,
                                  samples[k].so2, samples[k].pm25, samples[k].temperature, samples[k].humidity)
    {
      var s := samples[24 - i];
      data := data + [HistoricalData(now - i * 60 * 60 * 1000, s.nh3, s.co2, s.ch4, s.so2, s.pm25, s.temperature, s.humidity)];
      i := i - 1;
    }
  }

  /** Consecutive history points are exactly one hour apart and the last
      one is `now`. */
  lemma HistoryIsHourly(now: int, data: seq<HistoricalData>)
    requires |data| == 25
    requires forall k :: 0 <= k < 25 ==> data[k].timestamp == now - (24 - k) * HourMs
    ensures forall k :: 0 <= k < 24 ==> data[k + 1].timestamp - data[k].timestamp == HourMs
    ensures data[24].timestamp == now
    ensures data[0].timestamp == now - 24 * HourMs
  {
    forall k | 0 <= k < 24
      ensures data[k + 1].timestamp - data[k].timestamp == HourMs
    {
      assert data[k + 1].timestamp == now - (24 - k) * HourMs + HourMs;
    }
  }

  /** What the mock login resolves to. */
  datatype LoginResponse = LoginResponse(success: bool, token: string)

  /** `api.login`: resolves when both fields are non-empty, otherwise
      rejects with 'Invalid credentials'. */
  function ApiLogin(username: string, password: string): (r: Result<LoginResponse, string>)
    ensures r.Success? <==> username != "" && password != ""
    ensures r.Success? ==> r.value.success && r.value.token == "mock-jwt-token"
    ensures r.Failure? ==> r.error == "Invalid credentials"
  {
    if username != "" && password != "" then Success(LoginResponse(true, "mock-jwt-token"))
    else Failure("Invalid credentials")
  }

  /** The alerts a resident is sent: prediction alerts and hazardous ones. */
  predicate ForResidents(a: Alert)
  {
    a.kind == PredictionAlert || a.severity == Hazardous
  }

  /** `api.getUserAlerts`. */
  function GetUserAlerts(now: int): (r: seq<Alert>)
    ensures forall a :: a in r <==> a in MockAlerts(now) && ForResidents(a)
    ensures SeqUtil.IsSubsequence(r, MockAlerts(now))
    ensures forall a :: multiset(r)[a] == if ForResidents(a) then multiset(MockAlerts(now))[a] else 0
  {
    SeqUtil.FilterMultiplicity(ForResidents, MockAlerts(now));
    SeqUtil.Filter(ForResidents, MockAlerts(now))
  }

  /** Of the four mock alerts, residents get the first two. */
  lemma UserAlertsAreFirstTwo(now: int)
    ensures GetUserAlerts(now) == MockAlerts(now)[..2]
  {
    var al := MockAlerts(now);
    assert al == [al[0], al[1], al[2], al[3]];
    assert SeqUtil.Filter(ForResidents, al[3..]) == [] by {
      assert al[3..][1..] == [];
    }
    assert SeqUtil.Filter(ForResidents, al[2..]) == [] by {
      assert al[2..][1..] == al[3..];
    }
    assert SeqUtil.Filter(ForResidents, al[1..]) == [al[1]] by {
      assert al[1..][1..] == al[2..];
    }
    assert al[..2] == [al[0], al[1]];
  }

  /** `api.getIndustryAlerts`: every mock alert. */
  function GetIndustryAlerts(now: int): (r: seq<Alert>)
    ensures r == MockAlerts(now)
  {
    MockAlerts(now)
  }
}
