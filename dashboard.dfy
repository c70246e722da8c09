/** The Dashboard page's figures: the four totals and averages on the stat
    cards, the two chart series and the recent-records table. */
module Dashboard {
  import opened Wrappers
  import opened Sequences
  import opened Records

  /** `avgEmission`: the mean predicted CO2 per record, 0 for no records. */
  function AverageEmission(emissions: seq<EmissionRecord>): (avg: real)
    ensures |emissions| > 0 ==> avg * |emissions| as real == TotalCo2(emissions)
    ensures |emissions| == 0 ==> avg == 0.0
    ensures NonNegativePredictions(emissions) ==> avg >= 0.0
  {
    if |emissions| > 0 then TotalCo2(emissions) / |emissions| as real else 0.0
  }

  datatype Stats = Stats(totalEmissions: real, totalEnergy: real, totalFuel: real, avgEmission: real, uniqueCompanies: nat)

  function ComputeStats(emissions: seq<EmissionRecord>): (s: Stats)
    ensures s.uniqueCompanies <= |emissions|
    ensures |emissions| > 0 ==> s.avgEmission == s.totalEmissions / |emissions| as real
    ensures |emissions| == 0 ==> s == Stats(0.0, 0.0, 0.0, 0.0, 0)
  {
    Stats(TotalCo2(emissions), TotalEnergy(emissions), TotalFuel(emissions),
          AverageEmission(emissions), DistinctCompanies(emissions))
  }

  // ----------------------------------------------------------------- charts

  /** One point of the emission chart. `name` is the record date, which the
      page formats for display. */
  datatype ChartPoint = ChartPoint(name: string, predicted: real, actual: Option<real>)

  /** `{ predicted: e.predicted_co2 || 0, actual: e.actual_co2 || undefined }`. */
  function ToPoint(e: EmissionRecord): (p: ChartPoint)
    ensures p.name == e.recordDate
    ensures e.predictedCo2.Some? ==> p.predicted == e.predictedCo2.value
    ensures e.predictedCo2.None? ==> p.predicted == 0.0
    ensures p.actual.None? <==> e.actualCo2.None? || e.actualCo2 == Some(0.0)
    ensures p.actual.Some? ==> p.actual == e.actualCo2
  {
    ChartPoint(e.recordDate, OrZero(e.predictedCo2),
               if e.actualCo2.Some? && e.actualCo2.value != 0.0 then e.actualCo2 else None)
  }

  const ChartLength: nat := 12
  const BarLength: nat := 6
  const RecentLength: nat := 10

  function MapPoints(rs: seq<EmissionRecord>): (ps: seq<ChartPoint>)
    ensures |ps| == |rs|
    ensures forall k :: 0 <= k < |rs| ==> ps[k] == ToPoint(rs[k])
  {
    seq(|rs|, k requires 0 <= k < |rs| => ToPoint(rs[k]))
  }

  /** `emissions.slice(0, 12).reverse().map(...)`: the copy is reversed, the
      loaded list keeps its order. */
  function ChartData(emissions: seq<EmissionRecord>): (points: seq<ChartPoint>)
    ensures |points| <= ChartLength && |points| <= |emissions|
    ensures |points| == ChartLength || |points| == |emissions|
  {
    ReverseLength(Take(emissions, ChartLength));
    MapPoints(Reverse(Take(emissions, ChartLength)))
  }

  /** The chart holds the first twelve records, oldest first: point `k` is
      record `min(12, n) - 1 - k` (the list is loaded newest first). */
  lemma ChartDataAt(emissions: seq<EmissionRecord>, k: nat)
    requires k < Min(ChartLength, |emissions|)
    ensures |ChartData(emissions)| == Min(ChartLength, |emissions|)
    ensures ChartData(emissions)[k] == ToPoint(emissions[Min(ChartLength, |emissions|) - 1 - k])
  {
    ReverseAt(Take(emissions, ChartLength), k);
  }

  /** `chartData.slice(-6)`: the bar chart's points. */
  function BarData(chart: seq<ChartPoint>): (bars: seq<ChartPoint>)
    ensures |bars| == Min(BarLength, |chart|)
    ensures forall k :: 0 <= k < |bars| ==> bars[k] == chart[|chart| - |bars| + k]
  {
    TakeLast(chart, BarLength)
  }

  /** The bar chart shows the six newest of the charted records, oldest first:
      bar `k` is record `m - 1 - k` with `m = min(6, n)`. */
  lemma BarDataAt(emissions: seq<EmissionRecord>, k: nat)
    requires k < Min(BarLength, |emissions|)
    ensures |BarData(ChartData(emissions))| == Min(BarLength, |emissions|)
    ensures BarData(ChartData(emissions))[k] == ToPoint(emissions[Min(BarLength, |emissions|) - 1 - k])
  {
    var chart := ChartData(emissions);
    var m := Min(BarLength, |emissions|);
    ChartDataAt(emissions, |chart| - m + k);
  }

  /** `emissions.slice(0, 10)`: the recent-records table. */
  function RecentRecords(emissions: seq<EmissionRecord>): (recent: seq<EmissionRecord>)
    ensures |recent| == Min(RecentLength, |emissions|)
    ensures forall k :: 0 <= k < |recent| ==> recent[k] == emissions[k]
  {
    Take(emissions, RecentLength)
  }
}
