/** src/context/SensorContext.tsx: the provider's state (readings, alerts,
    prediction, history, loading flag), acknowledgement of alerts and the
    per-tick update of the readings. The random draws of a tick are given
    as parameters. */
module SensorContext {
  import opened Wrappers
  import opened Types
  import MockData

  /** `prev.map(alert => alert.id === alertId ? {...alert, acknowledged: true} : alert)`. */
  function Acknowledge(alerts: seq<Alert>, alertId: string): (r: seq<Alert>)
    ensures |r| == |alerts|
    ensures forall i :: 0 <= i < |alerts| && alerts[i].id == alertId ==> r[i] == alerts[i].(acknowledged := true)
    ensures forall i :: 0 <= i < |alerts| && alerts[i].id != alertId ==> r[i] == alerts[i]
  {
    if alerts == [] then []
    else
      var head := if alerts[0].id == alertId then alerts[0].(acknowledged := true) else alerts[0];
      [head] + Acknowledge(alerts[1..], alertId)
  }

  /** Acknowledging the same id twice is acknowledging it once. */
  lemma AcknowledgeIdempotent(alerts: seq<Alert>, alertId: string)
    ensures Acknowledge(Acknowledge(alerts, alertId), alertId) == Acknowledge(alerts, alertId)
  {
  }

  /** Acknowledgement only ever sets the flag: an acknowledged alert stays
      acknowledged, and every alert with the id is acknowledged after. */
  lemma AcknowledgeMonotone(alerts: seq<Alert>, alertId: string, i: nat)
    requires i < |alerts|
    ensures alerts[i].acknowledged ==> Acknowledge(alerts, alertId)[i].acknowledged
    ensures alerts[i].id == alertId ==> Acknowledge(alerts, alertId)[i].acknowledged
  {
  }

  /** An id no alert carries leaves the list as it was. */
  lemma AcknowledgeUnknownId(alerts: seq<Alert>, alertId: string)
    requires forall a :: a in alerts ==> a.id != alertId
    ensures Acknowledge(alerts, alertId) == alerts
  {
  }

  /** Acknowledging different ids in either order gives the same list. */
  lemma AcknowledgeCommutes(alerts: seq<Alert>, id1: string, id2: string)
    ensures Acknowledge(Acknowledge(alerts, id1), id2) == Acknowledge(Acknowledge(alerts, id2), id1)
  {
  }

  /** `Math.min(100, Math.max(0, humidity + delta))`. */
  function ClampHumidity(humidity: real, delta: real): (h: real)
    ensures 0.0 <= h <= 100.0
    ensures 0.0 <= humidity + delta <= 100.0 ==> h == humidity + delta
    ensures humidity + delta < 0.0 ==> h == 0.0
    ensures humidity + delta > 100.0 ==> h == 100.0
  {
    var lower := if 0.0 >= humidity + delta then 0.0 else humidity + delta;
    if 100.0 <= lower then 100.0 else lower
  }

  /** The random terms of one tick for one sensor, already scaled:
      `(Math.random() - 0.5) * k` for each pollutant and the temperature and
      humidity offsets. */
  datatype TickDraw = TickDraw(nh3: real, co2: real, ch4: real, so2: real, pm25: real,
                               temperature: real, humidity: real)

  /** One sensor after a tick: pollutants and temperature drift, humidity
      drifts but stays in [0, 100], the timestamp becomes `now`. The stored
      `severity` is not recomputed. */
  function TickReading(r: SensorReading, d: TickDraw, now: int): (r': SensorReading)
    ensures 0.0 <= r'.environmental.humidity <= 100.0
    ensures r'.id == r.id && r'.sensorId == r.sensorId && r'.location == r.location
    ensures r'.severity == r.severity
    ensures r'.environmental.windSpeed == r.environmental.windSpeed
    ensures r'.environmental.windDirection == r.environmental.windDirection
    ensures r'.timestamp == now
  {
    var p := r.pollutants;
    var e := r.environmental;
    r.(pollutants := Pollutants(p.nh3 + d.nh3, p.co2 + d.co2, p.ch4 + d.ch4, p.so2 + d.so2, p.pm25 + d.pm25),
       environmental := e.(temperature := e.temperature + d.temperature,
                           humidity := ClampHumidity(e.humidity, d.humidity)),
       timestamp := now)
  }

  /** The state `SensorProvider` holds. `loadTime` is the moment the mock
      data module was evaluated: the mock readings, alerts and prediction are
      stamped once, then, and every fetch hands out those same values. */
  class SensorStore {
    const loadTime: int
    var sensorReadings: seq<SensorReading>
    var alerts: seq<Alert>
    var prediction: Option<PredictionData>
    var historicalData: seq<HistoricalData>
    var isLoading: bool

    /** The initial state: nothing loaded yet, loading. */
    constructor (loadTime: int)
      ensures this.loadTime == loadTime
      ensures sensorReadings == [] && alerts == [] && prediction == None
      ensures historicalData == [] && isLoading
    {
      this.loadTime := loadTime;
      sensorReadings, alerts, prediction, historicalData := [], [], None, [];
      isLoading := true;
    }

    /** The start of `fetchData` (also what `refreshSensors` does): the
        loading flag goes up and the data stays as it was. */
    method BeginFetch()
      modifies this`isLoading
      ensures isLoading
    {
      isLoading := true;
    }

    /** The delayed end of `fetchData`, completing at `fetchTime`: the mock
        readings, alerts and prediction as stamped at load time, a history
        generated afresh from `samples` (the random draws) and ending at
        `fetchTime`, and the loading flag down. A refresh therefore also
        brings back every acknowledged mock alert as unacknowledged, with its
        original timestamp. */
    method FinishFetch(fetchTime: int, samples: seq<MockData.Sample>)
      requires |samples| == 25
      modifies this
      ensures sensorReadings == MockData.MockSensorReadings(loadTime)
      ensures alerts == MockData.MockAlerts(loadTime)
      ensures prediction == Some(MockData.MockPrediction(loadTime))
      ensures |historicalData| == 25
      ensures forall k :: 0 <= k < 25 ==> historicalData[k].timestamp == fetchTime - (24 - k) * MockData.HourMs
      ensures forall k :: 0 <= k < 25 ==>
        var s := samples[k];
        historicalData[k] == HistoricalData(fetchTime - (24 - k) * MockData.HourMs, s.nh3, s.co2, s.ch4, s.so2, s.pm25, s.temperature, s.humidity)
      ensures historicalData[24].timestamp == fetchTime
      ensures !isLoading
    {
      sensorReadings := MockData.MockSensorReadings(loadTime);
      alerts := MockData.MockAlerts(loadTime);
      prediction := Some(MockData.MockPrediction(loadTime));
      var history := MockData.GenerateHistoricalData(fetchTime, samples);
      MockData.HistoryIsHourly(fetchTime, history);
      historicalData := history;
      isLoading := false;
    }

    /** `acknowledgeAlert(alertId)`: replaces the alert list, nothing else. */
    method AcknowledgeAlert(alertId: string)
      modifies this`alerts
      ensures alerts == Acknowledge(old(alerts), alertId)
    {
      alerts := Acknowledge(alerts, alertId);
    }

    /** The interval callback: every reading takes one tick with its own
        draws. Humidity of every reading is in [0, 100] afterwards. */
    method Tick(draws: seq<TickDraw>, now: int)
      requires |draws| == |sensorReadings|
      modifies this`sensorReadings
      ensures |sensorReadings| == |old(sensorReadings)|
      ensures forall i :: 0 <= i < |sensorReadings| ==> sensorReadings[i] == TickReading(old(sensorReadings)[i], draws[i], now)
      ensures forall i :: 0 <= i < |sensorReadings| ==> 0.0 <= sensorReadings[i].environmental.humidity <= 100.0
    {
      var next := [];
      var i := 0;
      while i < |sensorReadings|
        invariant 0 <= i <= |sensorReadings|
        invariant |next| == i
        invariant forall k :: 0 <= k < i ==> next[k] == TickReading(sensorReadings[k], draws[k], now)
      {
        next := next + [TickReading(sensorReadings[i], draws[i], now)];
        i := i + 1;
      }
      sensorReadings := next;
    }
  }
}
