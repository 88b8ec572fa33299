/**
 * The figures components/charts/StationBalanceChart.tsx derives from its rows: how
 * many stations lose, gain or keep bikes, the extreme balances, the bar colour and
 * the balance tooltip.
 */
module StationBalance {
  import opened Wrappers
  import opened Text
  import opened Sequences

  /** One row of the chart: a station and its net balance (arrivals minus departures). */
  datatype Station = Station(stationId: string, balance: int)

  function Balances(data: seq<Station>): (bs: seq<int>)
    ensures |bs| == |data|
    ensures forall i :: 0 <= i < |data| ==> bs[i] == data[i].balance
  {
    seq(|data|, i requires 0 <= i < |data| => data[i].balance)
  }

  function Deficit(data: seq<Station>): seq<Station> {
    Filter(data, (s: Station) => s.balance < 0)
  }

  function Excess(data: seq<Station>): seq<Station> {
    Filter(data, (s: Station) => s.balance > 0)
  }

  function Balanced(data: seq<Station>): seq<Station> {
    Filter(data, (s: Station) => s.balance == 0)
  }

  /** Every station is in exactly one of the three groups. */
  lemma {:induction false} CountsPartition(data: seq<Station>)
    ensures |Deficit(data)| + |Excess(data)| + |Balanced(data)| == |data|
    decreases |data|
  {
    if data != [] {
      CountsPartition(data[1..]);
    }
  }

  datatype BalanceStats = BalanceStats(
    totalStations: nat,
    deficitStations: nat,
    excessStations: nat,
    balancedStations: nat,
    maxDeficit: int,
    maxExcess: int)

  /**
   * The statistics the chart shows, computed only when there are rows (the chart
   * shows "No station data available" otherwise): the three counts add up to the
   * number of stations, `maxDeficit` and `maxExcess` are balances that occur, and every
   * balance lies between them.
   */
  function Stats(data: seq<Station>): (r: Option<BalanceStats>)
    ensures r.None? <==> |data| == 0
    ensures r.Some? ==>
              && r.value.totalStations == |data|
              && r.value.deficitStations == |Deficit(data)|
              && r.value.excessStations == |Excess(data)|
              && r.value.balancedStations == |Balanced(data)|
              && r.value.deficitStations + r.value.excessStations + r.value.balancedStations
                 == r.value.totalStations
              && r.value.deficitStations <= r.value.totalStations
              && r.value.excessStations <= r.value.totalStations
              && r.value.balancedStations <= r.value.totalStations
              && (exists i :: 0 <= i < |data| && data[i].balance == r.value.maxDeficit)
              && (exists i :: 0 <= i < |data| && data[i].balance == r.value.maxExcess)
              && forall i :: 0 <= i < |data| ==>
                   r.value.maxDeficit <= data[i].balance <= r.value.maxExcess
  {
    if |data| == 0 then None
    else
      var bs := Balances(data);
      CountsPartition(data);
      Some(BalanceStats(|data|, |Deficit(data)|, |Excess(data)|, |Balanced(data)|,
                        MinOf(bs), MaxOf(bs)))
  }

  /** The three bar colours. */
  datatype BarColor = Green | Red | Gray

  function ColorCode(c: BarColor): string {
    match c
    case Green => "#059669"
    case Red => "#DC2626"
    case Gray => "#6B7280"
  }

  /** The colour a balance gets: each sign its own, and every balance exactly one. */
  function BarOf(balance: int): (c: BarColor)
    ensures c == Green <==> balance > 0
    ensures c == Red <==> balance < 0
    ensures c == Gray <==> balance == 0
  {
    if balance > 0 then Green else if balance < 0 then Red else Gray
  }

  /** `getBarColor(balance)`: green for an excess, red for a deficit, gray when balanced. */
  function GetBarColor(balance: int): (code: string)
    ensures code == "#059669" <==> balance > 0
    ensures code == "#DC2626" <==> balance < 0
    ensures code == "#6B7280" <==> balance == 0
  {
    assert ColorCode(Green)[1] != ColorCode(Red)[1] && ColorCode(Red)[1] != ColorCode(Gray)[1]
           && ColorCode(Gray)[1] != ColorCode(Green)[1];
    ColorCode(BarOf(balance))
  }

  /** A bar is red, green or gray exactly when its station is counted in that group. */
  lemma ColorsMatchGroups(data: seq<Station>, i: int)
    requires 0 <= i < |data|
    ensures BarOf(data[i].balance) == Red <==> data[i] in Deficit(data)
    ensures BarOf(data[i].balance) == Green <==> data[i] in Excess(data)
    ensures BarOf(data[i].balance) == Gray <==> data[i] in Balanced(data)
  {
    var s := data[i];
    if s in Deficit(data) {
      var j :| 0 <= j < |Deficit(data)| && Deficit(data)[j] == s;
    }
    if s in Excess(data) {
      var j :| 0 <= j < |Excess(data)| && Excess(data)[j] == s;
    }
    if s in Balanced(data) {
      var j :| 0 <= j < |Balanced(data)| && Balanced(data)[j] == s;
    }
  }

  function Abs(n: int): nat {
    if n < 0 then -n else n
  }

  /**
   * The balance branch of `formatTooltip`: the magnitude in bikes, labelled "Excess"
   * only for a positive value, so a zero balance reads as a deficit.
   */
  function BalanceTooltip(value: int): (r: (string, string))
    ensures r.0 == NatToString(Abs(value)) + " bikes"
    ensures r.1 == "Excess" <==> value > 0
    ensures r.1 == "Excess" || r.1 == "Deficit"
  {
    var kind := if value > 0 then "Excess" else "Deficit";
    (NatToString(Abs(value)) + " bikes", kind)
  }

  /**
   * Opposite balances show the same number of bikes; their labels differ exactly when
   * the balance is not zero.
   */
  lemma TooltipSymmetric(value: int)
    ensures BalanceTooltip(value).0 == BalanceTooltip(-value).0
    ensures BalanceTooltip(value).1 != BalanceTooltip(-value).1 <==> value != 0
  {
    assert "Excess" != "Deficit" by {
      assert "Excess"[0] != "Deficit"[0];
    }
  }
}
