/**
 * The figures components/charts/AnomaliesByHourChart.tsx derives from its rows: the
 * total, the peak hour, the hours above the average, the high-activity period, the
 * most critical hour and the share of hours with anomalies.
 */
module AnomaliesByHour {
  import opened Wrappers
  import opened Sequences

  /** One row of the chart: an hour of the day and the anomalies detected in it. */
  datatype HourCount = HourCount(hour: int, anomalies: int)

  function Counts(data: seq<HourCount>): (cs: seq<int>)
    ensures |cs| == |data|
    ensures forall i :: 0 <= i < |data| ==> cs[i] == data[i].anomalies
  {
    seq(|data|, i requires 0 <= i < |data| => data[i].anomalies)
  }

  function Hours(data: seq<HourCount>): (hs: seq<int>)
    ensures |hs| == |data|
    ensures forall i :: 0 <= i < |data| ==> hs[i] == data[i].hour
  {
    seq(|data|, i requires 0 <= i < |data| => data[i].hour)
  }

  /** `totalAnomalies`: the anomalies of all rows added up. */
  function TotalAnomalies(data: seq<HourCount>): int {
    Sum(Counts(data))
  }

  /**
   * The index the `peakHour` reduce settles on after the first `n` rows: it starts
   * from row 0 and moves only to a row with strictly more anomalies, so it holds a
   * largest count and no earlier row reaches that count.
   */
  function PeakIn(data: seq<HourCount>, n: nat): (k: nat)
    requires 1 <= n <= |data|
    ensures k < n
    ensures forall i :: 0 <= i < n ==> data[i].anomalies <= data[k].anomalies
    ensures forall i :: 0 <= i < k ==> data[i].anomalies < data[k].anomalies
  {
    if n == 1 then 0
    else
      var k := PeakIn(data, n - 1);
      if data[n - 1].anomalies > data[k].anomalies then n - 1 else k
  }

  /** The position of `peakHour`: the earliest row with the largest count. */
  function PeakIndex(data: seq<HourCount>): (k: nat)
    requires |data| > 0
    ensures k < |data|
    ensures forall i :: 0 <= i < |data| ==> data[i].anomalies <= data[k].anomalies
    ensures forall i :: 0 <= i < k ==> data[i].anomalies < data[k].anomalies
  {
    PeakIn(data, |data|)
  }

  /**
   * The total never exceeds the peak count taken once per row, and it reaches that
   * bound exactly when every row has the same count.
   */
  lemma TotalVersusPeak(data: seq<HourCount>)
    requires |data| > 0
    ensures TotalAnomalies(data) <= |data| * data[PeakIndex(data)].anomalies
    ensures TotalAnomalies(data) == |data| * data[PeakIndex(data)].anomalies
        <==> forall i :: 0 <= i < |data| ==> data[i].anomalies == data[0].anomalies
  {
    var m := data[PeakIndex(data)].anomalies;
    var cs := Counts(data);
    SumAtMost(cs, m);
    if forall i :: 0 <= i < |data| ==> data[i].anomalies == data[0].anomalies {
      SumConstant(cs, m);
    } else {
      var j :| 0 <= j < |data| && data[j].anomalies != data[0].anomalies;
      assert cs[j] < m || cs[0] < m;
    }
  }

  /** `averageAnomalies`: the total over the number of rows. */
  function Average(data: seq<HourCount>): real
    requires |data| > 0
  {
    TotalAnomalies(data) as real / |data| as real
  }

  /** `busyHours`: the rows strictly above the average, in their order. */
  function BusyHours(data: seq<HourCount>): seq<HourCount>
    requires |data| > 0
  {
    var average := Average(data);
    Filter(data, (h: HourCount) => h.anomalies as real > average)
  }

  /** Being above the average, stated in integers: `anomalies * length > total`. */
  lemma AboveAverage(data: seq<HourCount>, a: int)
    requires |data| > 0
    ensures a as real > Average(data) <==> a * |data| > TotalAnomalies(data)
  {
    var n := |data| as real;
    var t := TotalAnomalies(data) as real;
    assert (a as real) * n == (a * |data|) as real;
    assert t / n * n == t;
    if a as real > t / n {
      assert (a as real) * n > t / n * n;
    }
    if (a as real) * n > t {
      assert (a as real) * n > t / n * n;
    }
  }

  /** A row is busy exactly when its count times the number of rows exceeds the total. */
  lemma BusyHoursMembers(data: seq<HourCount>, i: int)
    requires 0 <= i < |data|
    ensures data[i] in BusyHours(data) <==> data[i].anomalies * |data| > TotalAnomalies(data)
  {
    AboveAverage(data, data[i].anomalies);
    var busy := BusyHours(data);
    if data[i] in busy {
      var j :| 0 <= j < |busy| && busy[j] == data[i];
    }
  }

  /** When every hour has the same count, no hour is above the average. */
  lemma EqualCountsNoBusy(data: seq<HourCount>)
    requires |data| > 0
    requires forall i :: 0 <= i < |data| ==> data[i].anomalies == data[0].anomalies
    ensures BusyHours(data) == []
  {
    var c := data[0].anomalies;
    SumConstant(Counts(data), c);
    AboveAverage(data, c);
    FilterDropsAll(data, (h: HourCount) => h.anomalies as real > Average(data));
  }

  /** When the counts differ, the peak hour is among the busy hours. */
  lemma PeakIsBusy(data: seq<HourCount>, j: int)
    requires 0 <= j < |data|
    requires data[j].anomalies != data[0].anomalies
    ensures data[PeakIndex(data)] in BusyHours(data)
  {
    var k := PeakIndex(data);
    var m := data[k].anomalies;
    var cs := Counts(data);
    if data[j].anomalies < m {
      SumAtMost(cs, m);
      assert cs[j] < m;
    } else {
      SumAtMost(cs, m);
      assert cs[0] < m;
    }
    BusyHoursMembers(data, k);
  }

  /** The high-activity period: the earliest and latest busy hour, when there is one. */
  function BusyRange(data: seq<HourCount>): (r: Option<(int, int)>)
    requires |data| > 0
    ensures r.None? <==> BusyHours(data) == []
    ensures r.Some? ==>
              && r.value.0 <= r.value.1
              && r.value.0 in Hours(BusyHours(data))
              && r.value.1 in Hours(BusyHours(data))
              && forall i :: 0 <= i < |BusyHours(data)| ==>
                   r.value.0 <= BusyHours(data)[i].hour <= r.value.1
  {
    var busy := BusyHours(data);
    if busy == [] then None
    else
      var hs := Hours(busy);
      MinAtMostMax(hs);
      Some((MinOf(hs), MaxOf(hs)))
  }

  /** When the counts differ, the period shown covers the peak hour. */
  lemma BusyRangeCoversPeak(data: seq<HourCount>, j: int)
    requires 0 <= j < |data|
    requires data[j].anomalies != data[0].anomalies
    ensures BusyRange(data).Some?
    ensures BusyRange(data).value.0 <= data[PeakIndex(data)].hour <= BusyRange(data).value.1
  {
    PeakIsBusy(data, j);
    var busy := BusyHours(data);
    var i :| 0 <= i < |busy| && busy[i] == data[PeakIndex(data)];
  }

  /** The rows with at least one anomaly. */
  function WithAnomalies(data: seq<HourCount>): seq<HourCount> {
    Filter(data, (h: HourCount) => h.anomalies > 0)
  }

  /** The rows the detection rate leaves out: no anomaly detected. */
  function WithoutAnomalies(data: seq<HourCount>): seq<HourCount> {
    Filter(data, (h: HourCount) => h.anomalies <= 0)
  }

  /**
   * The numerator of the detection rate: never more than the hours shown, and together
   * with the hours without anomalies it accounts for every row.
   */
  lemma {:induction false} HoursWithAnomaliesBound(data: seq<HourCount>)
    ensures |WithAnomalies(data)| <= |data|
    ensures |WithAnomalies(data)| + |WithoutAnomalies(data)| == |data|
    decreases |data|
  {
    if data != [] {
      HoursWithAnomaliesBound(data[1..]);
    }
  }

  /** The "Most Critical Hour" notice: the peak hour, shown only when its count is positive. */
  function CriticalHour(data: seq<HourCount>): (r: Option<HourCount>)
    requires |data| > 0
    ensures r.Some? ==> r.value == data[PeakIndex(data)] && r.value.anomalies > 0
    ensures r.Some? <==> exists i :: 0 <= i < |data| && data[i].anomalies > 0
  {
    var peak := data[PeakIndex(data)];
    if peak.anomalies > 0 then Some(peak) else None
  }

  /** The notice appears exactly when the detection rate is above zero. */
  lemma CriticalHourIffDetected(data: seq<HourCount>)
    requires |data| > 0
    ensures CriticalHour(data).Some? <==> |WithAnomalies(data)| > 0
  {
    var w := WithAnomalies(data);
    if |w| > 0 {
      assert w[0] in data && w[0].anomalies > 0;
      var i :| 0 <= i < |data| && data[i] == w[0];
    }
    if CriticalHour(data).Some? {
      assert data[PeakIndex(data)] in w;
    }
  }

  /** The figures the chart shows once it has rows. */
  datatype AnomalyStats = AnomalyStats(
    totalAnomalies: int,
    peakHour: HourCount,
    busyHours: seq<HourCount>)

  /**
   * The statistics, computed only when there are rows (the chart shows "No anomaly
   * data available" otherwise): the peak is a row of the data with the largest count,
   * and the busy hours are rows of the data.
   */
  function Stats(data: seq<HourCount>): (r: Option<AnomalyStats>)
    ensures r.None? <==> |data| == 0
    ensures r.Some? ==>
              && r.value.totalAnomalies == TotalAnomalies(data)
              && r.value.peakHour == data[PeakIndex(data)]
              && r.value.busyHours == BusyHours(data)
              && r.value.peakHour in data
              && (forall i :: 0 <= i < |data| ==> data[i].anomalies <= r.value.peakHour.anomalies)
              && |r.value.busyHours| <= |data|
              && forall i :: 0 <= i < |r.value.busyHours| ==> r.value.busyHours[i] in data
  {
    if |data| == 0 then None
    else Some(AnomalyStats(TotalAnomalies(data), data[PeakIndex(data)], BusyHours(data)))
  }
}
