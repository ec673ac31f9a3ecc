/** src/components/SensorGrid.tsx: the per-gas severity classification
    (`getGasSeverity`) and the cards shown for the first reading. */
module SensorGrid {
  import opened Wrappers
  import opened Types

  /** The three boundaries separating the four bands of one gas. */
  datatype Thresholds = Thresholds(moderate: real, unhealthy: real, hazardous: real)

  predicate KnownGas(gas: string)
  {
    gas == "nh3" || gas == "co2" || gas == "ch4" || gas == "so2" || gas == "pm25"
  }

  const DefaultThresholds := Thresholds(50.0, 100.0, 200.0)

  /** `thresholds[gas] || [50, 100, 200]`: the table entry of a known gas,
      the default triple for any other name. Every triple is strictly
      increasing and non-negative. */
  function ThresholdsFor(gas: string): (t: Thresholds)
    ensures 0.0 <= t.moderate < t.unhealthy < t.hazardous
    ensures !KnownGas(gas) ==> t == DefaultThresholds
  {
    if gas == "nh3" then Thresholds(25.0, 50.0, 100.0)
    else if gas == "co2" then Thresholds(500.0, 700.0, 1000.0)
    else if gas == "ch4" then Thresholds(2.5, 4.0, 6.0)
    else if gas == "so2" then Thresholds(15.0, 35.0, 75.0)
    else if gas == "pm25" then Thresholds(35.0, 75.0, 150.0)
    else DefaultThresholds
  }

  /** `getGasSeverity(value, gas)`. Each band is closed below and open
      above; negative values are 'safe' and there is no upper bound. */
  function GasSeverity(value: real, gas: string): (s: SeverityLevel)
    ensures s == Safe <==> value < ThresholdsFor(gas).moderate
    ensures s == Moderate <==> ThresholdsFor(gas).moderate <= value < ThresholdsFor(gas).unhealthy
    ensures s == Unhealthy <==> ThresholdsFor(gas).unhealthy <= value < ThresholdsFor(gas).hazardous
    ensures s == Hazardous <==> ThresholdsFor(gas).hazardous <= value
  {
    var t := ThresholdsFor(gas);
    if value < t.moderate then Safe
    else if value < t.unhealthy then Moderate
    else if value < t.hazardous then Unhealthy
    else Hazardous
  }

  /** For a fixed gas, a larger value never gets a lower band. */
  lemma GasSeverityMonotone(gas: string, v1: real, v2: real)
    requires v1 <= v2
    ensures Rank(GasSeverity(v1, gas)) <= Rank(GasSeverity(v2, gas))
  {
  }

  /** A value equal to a threshold is in the higher band (nh3: 25, 50, 100). */
  lemma Nh3Boundaries()
    ensures GasSeverity(24.999, "nh3") == Safe
    ensures GasSeverity(25.0, "nh3") == Moderate
    ensures GasSeverity(49.999, "nh3") == Moderate
    ensures GasSeverity(50.0, "nh3") == Unhealthy
    ensures GasSeverity(100.0, "nh3") == Hazardous
  {
  }

  /** A value exactly at a threshold of any gas is in the band that starts
      there. */
  lemma ThresholdBelongsToHigherBand(gas: string)
    ensures GasSeverity(ThresholdsFor(gas).moderate, gas) == Moderate
    ensures GasSeverity(ThresholdsFor(gas).unhealthy, gas) == Unhealthy
    ensures GasSeverity(ThresholdsFor(gas).hazardous, gas) == Hazardous
  {
  }

  /** A gas missing from the table is classified with [50, 100, 200]. */
  lemma UnknownGasUsesDefault(gas: string, value: real)
    requires !KnownGas(gas)
    ensures GasSeverity(value, gas) == GasSeverity(value, "unknown")
    ensures GasSeverity(value, gas) == (if value < 50.0 then Safe else if value < 100.0 then Moderate
                                        else if value < 200.0 then Unhealthy else Hazardous)
  {
  }

  /** Every band is reached by some value, for every gas name. */
  lemma {:induction false} EveryBandReachable(gas: string, s: SeverityLevel)
    ensures exists v :: GasSeverity(v, gas) == s
  {
    var t := ThresholdsFor(gas);
    match s
    case Safe => assert GasSeverity(t.moderate - 1.0, gas) == Safe;
    case Moderate => assert GasSeverity(t.moderate, gas) == Moderate;
    case Unhealthy => assert GasSeverity(t.unhealthy, gas) == Unhealthy;
    case Hazardous => assert GasSeverity(t.hazardous, gas) == Hazardous;
  }

  /** One card of the grid: the gas key, its value and its band. */
  datatype GasCard = GasCard(gas: string, value: real, severity: SeverityLevel)

  function Card(gas: string, value: real): GasCard
  {
    GasCard(gas, value, GasSeverity(value, gas))
  }

  /** `Object.entries(readings[0].pollutants)` in declaration order, each
      classified; an empty readings list shows no card ("No sensor data
      available"). Only the first reading is looked at. */
  function PrimaryCards(readings: seq<SensorReading>): (cards: seq<GasCard>)
    ensures readings == [] ==> cards == []
    ensures readings != [] ==> |cards| == 5
    ensures readings != [] ==>
      var p := readings[0].pollutants;
      && cards[0].gas == "nh3" && cards[0].value == p.nh3
      && cards[1].gas == "co2" && cards[1].value == p.co2
      && cards[2].gas == "ch4" && cards[2].value == p.ch4
      && cards[3].gas == "so2" && cards[3].value == p.so2
      && cards[4].gas == "pm25" && cards[4].value == p.pm25
    ensures forall i :: 0 <= i < |cards| ==> cards[i].severity == GasSeverity(cards[i].value, cards[i].gas)
  {
    if readings == [] then []
    else
      var p := readings[0].pollutants;
      [Card("nh3", p.nh3), Card("co2", p.co2), Card("ch4", p.ch4), Card("so2", p.so2), Card("pm25", p.pm25)]
  }

  /** Readings after the first never change what the grid shows. */
  lemma OnlyFirstReadingShown(r: SensorReading, rest1: seq<SensorReading>, rest2: seq<SensorReading>)
    ensures PrimaryCards([r] + rest1) == PrimaryCards([r] + rest2)
  {
  }
}
