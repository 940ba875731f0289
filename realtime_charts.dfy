/** The chart data of apps/web/src/app/modules/dashboard/realtime/hooks/useRealtimeCharts.ts: a line
    chart that keeps a sliding window of the latest points and a bar chart of channel conversions.
    The two arrays are the fields of a class. The `Math.random()` draws, the formatted clock time of
    a new point and the rounded trends of a bar update are parameters. */
module RealtimeCharts {
  import opened JsNumber

  datatype ChartPoint = ChartPoint(time: string, visitors: int, engagements: int)
  datatype ChannelData = ChannelData(name: string, conversions: int, color: string, trend: real)

  const DefaultMaxDataPoints: nat := 10

  const InitialLine: seq<ChartPoint> := [
    ChartPoint("14:00", 45, 12), ChartPoint("14:15", 52, 18), ChartPoint("14:30", 38, 15),
    ChartPoint("14:45", 67, 24), ChartPoint("15:00", 73, 31), ChartPoint("15:15", 61, 28),
    ChartPoint("15:30", 84, 35), ChartPoint("15:45", 92, 42)
  ]

  /** The four points `resetData` brings back. */
  const ResetLine: seq<ChartPoint> := [
    ChartPoint("14:00", 45, 12), ChartPoint("14:15", 52, 18), ChartPoint("14:30", 38, 15),
    ChartPoint("14:45", 67, 24)
  ]

  const InitialBars: seq<ChannelData> := [
    ChannelData("Email Marketing", 156, "#3B82F6", 12.5),
    ChannelData("Social Media", 134, "#10B981", -3.2),
    ChannelData("SEO Organique", 98, "#8B5CF6", 8.7),
    ChannelData("Publicités payantes", 87, "#F59E0B", 15.3),
    ChannelData("Référencement", 45, "#EF4444", -1.8)
  ]

  /** `lastPoint?.visitors || 50`: no last point, or one with 0 visitors, gives 50. */
  function BaseVisitors(data: seq<ChartPoint>): int {
    if data == [] || data[|data| - 1].visitors == 0 then 50 else data[|data| - 1].visitors
  }

  /** `lastPoint?.engagements || 20` */
  function BaseEngagements(data: seq<ChartPoint>): int {
    if data == [] || data[|data| - 1].engagements == 0 then 20 else data[|data| - 1].engagements
  }

  /** `generateNewDataPoint`: `visitorsDraw` and `engagementsDraw` are the two `Math.random()` draws. */
  function NewDataPoint(data: seq<ChartPoint>, time: string, visitorsDraw: real, engagementsDraw: real): (p: ChartPoint)
    requires 0.0 <= visitorsDraw < 1.0 && 0.0 <= engagementsDraw < 1.0
    ensures p.time == time && p.visitors >= 0 && p.engagements >= 0
  {
    var visitorsChange := (visitorsDraw - 0.5) * 20.0;
    var engagementsChange := (engagementsDraw - 0.5) * 10.0;
    ChartPoint(time,
      MaxInt(0, Round(BaseVisitors(data) as real + visitorsChange)),
      MaxInt(0, Round(BaseEngagements(data) as real + engagementsChange)))
  }

  function MaxInt(a: int, b: int): int { if a >= b then a else b }

  /** A new point moves at most 10 visitors and 5 engagements away from the last point, and never
      below 0. */
  lemma {:induction false} NewDataPointNearLast(data: seq<ChartPoint>, time: string, visitorsDraw: real, engagementsDraw: real)
    requires 0.0 <= visitorsDraw < 1.0 && 0.0 <= engagementsDraw < 1.0
    ensures var p := NewDataPoint(data, time, visitorsDraw, engagementsDraw);
      && p.visitors <= MaxInt(0, BaseVisitors(data) + 10)
      && (BaseVisitors(data) >= 10 ==> p.visitors >= BaseVisitors(data) - 10)
      && p.engagements <= MaxInt(0, BaseEngagements(data) + 5)
      && (BaseEngagements(data) >= 5 ==> p.engagements >= BaseEngagements(data) - 5)
  {
    var v := BaseVisitors(data) as real + (visitorsDraw - 0.5) * 20.0;
    var e := BaseEngagements(data) as real + (engagementsDraw - 0.5) * 10.0;
    assert BaseVisitors(data) as real - 10.0 <= v < BaseVisitors(data) as real + 10.0;
    assert BaseEngagements(data) as real - 5.0 <= e < BaseEngagements(data) as real + 5.0;
  }

  /** `[...prevData, newPoint]`, cut to its last `maxDataPoints` entries when longer. With
      `maxDataPoints` 0, `slice(-0)` is `slice(0)` and nothing is cut. */
  function Windowed(prev: seq<ChartPoint>, p: ChartPoint, maxDataPoints: nat): (r: seq<ChartPoint>)
    ensures |r| >= 1 && r[|r| - 1] == p
  {
    var newData := prev + [p];
    if |newData| > maxDataPoints && maxDataPoints > 0 then newData[|newData| - maxDataPoints..] else newData
  }

  /** The window is the newest `maxDataPoints` entries of the data followed by the new point. */
  lemma {:induction false} WindowedShape(prev: seq<ChartPoint>, p: ChartPoint, maxDataPoints: nat)
    ensures var r := Windowed(prev, p, maxDataPoints);
      && (maxDataPoints > 0 ==> |r| == if |prev| + 1 <= maxDataPoints then |prev| + 1 else maxDataPoints)
      && (maxDataPoints == 0 ==> r == prev + [p])
      && r == (prev + [p])[|prev| + 1 - |r|..]
  {
  }

  /** Once the window is full it stays full, which is the bound the chart relies on. */
  lemma {:induction false} WindowedBounded(prev: seq<ChartPoint>, p: ChartPoint, maxDataPoints: nat)
    requires 0 < maxDataPoints && |prev| <= maxDataPoints
    ensures |Windowed(prev, p, maxDataPoints)| <= maxDataPoints
    ensures |prev| == maxDataPoints ==> Windowed(prev, p, maxDataPoints) == prev[1..] + [p]
  {
    if |prev| == maxDataPoints {
      assert (prev + [p])[1..] == prev[1..] + [p];
    }
  }

  /** The bar update: each channel's conversions move by a rounded `(draw - 0.5) * 10`, never below 0,
      and its trend becomes the given value. */
  function UpdatedBars(prev: seq<ChannelData>, draws: seq<real>, trends: seq<real>): (r: seq<ChannelData>)
    requires |draws| == |prev| && |trends| == |prev|
    ensures |r| == |prev|
    ensures forall i :: 0 <= i < |prev| ==> r[i] == prev[i].(
      conversions := MaxInt(0, prev[i].conversions + Round((draws[i] - 0.5) * 10.0)), trend := trends[i])
  {
    seq(|prev|, i requires 0 <= i < |prev| =>
      prev[i].(conversions := MaxInt(0, prev[i].conversions + Round((draws[i] - 0.5) * 10.0)), trend := trends[i]))
  }

  /** A bar update keeps the channels, in order, with their names and colours; the conversions stay
      non-negative and move by at most 5. */
  lemma {:induction false} UpdatedBarsKeepsChannels(prev: seq<ChannelData>, draws: seq<real>, trends: seq<real>)
    requires |draws| == |prev| && |trends| == |prev|
    requires forall i :: 0 <= i < |draws| ==> 0.0 <= draws[i] < 1.0
    ensures var r := UpdatedBars(prev, draws, trends);
      forall i :: 0 <= i < |prev| ==>
        && r[i].name == prev[i].name && r[i].color == prev[i].color
        && r[i].conversions >= 0
        && r[i].conversions <= MaxInt(0, prev[i].conversions + 5)
        && (prev[i].conversions >= 5 ==> r[i].conversions >= prev[i].conversions - 5)
  {
    var r := UpdatedBars(prev, draws, trends);
    forall i | 0 <= i < |prev|
      ensures r[i].conversions <= MaxInt(0, prev[i].conversions + 5)
      ensures prev[i].conversions >= 5 ==> r[i].conversions >= prev[i].conversions - 5
    {
      var c := (draws[i] - 0.5) * 10.0;
      assert -5.0 <= c < 5.0;
      assert -5 <= Round(c) <= 5;
    }
  }

  class Charts {
    const maxDataPoints: nat
    var lineChartData: seq<ChartPoint>
    var barChartData: seq<ChannelData>

    /** The initial data: eight points and five channels. */
    constructor (maxDataPoints: nat)
      ensures this.maxDataPoints == maxDataPoints
      ensures lineChartData == InitialLine && barChartData == InitialBars
    {
      this.maxDataPoints := maxDataPoints;
      lineChartData, barChartData := InitialLine, InitialBars;
    }

    /** `updateLineChartData` */
    method UpdateLineChartData(time: string, visitorsDraw: real, engagementsDraw: real)
      requires 0.0 <= visitorsDraw < 1.0 && 0.0 <= engagementsDraw < 1.0
      modifies this`lineChartData
      ensures lineChartData == Windowed(old(lineChartData), NewDataPoint(old(lineChartData), time, visitorsDraw, engagementsDraw), maxDataPoints)
    {
      var newPoint := NewDataPoint(lineChartData, time, visitorsDraw, engagementsDraw);
      var newData := lineChartData + [newPoint];
      lineChartData := if |newData| > maxDataPoints && maxDataPoints > 0 then newData[|newData| - maxDataPoints..] else newData;
    }

    /** `updateBarChartData` */
    method UpdateBarChartData(draws: seq<real>, trends: seq<real>)
      requires |draws| == |barChartData| && |trends| == |barChartData|
      modifies this`barChartData
      ensures barChartData == UpdatedBars(old(barChartData), draws, trends)
    {
      barChartData := UpdatedBars(barChartData, draws, trends);
    }

    /** `resetData`: four points and the five initial channels. */
    method ResetData()
      modifies this`lineChartData, this`barChartData
      ensures lineChartData == ResetLine && barChartData == InitialBars
    {
      lineChartData := ResetLine;
      barChartData := InitialBars;
    }
  }

  /** With the default window of ten, the third update after start drops the oldest point; a bar
      update keeps the five channel names; a reset gives four points. */
  method ChartsScenario() returns (lengths: seq<nat>, first: string, names: seq<string>, afterReset: nat)
    ensures lengths == [9, 10, 10] && first == "14:15"
    ensures names == ["Email Marketing", "Social Media", "SEO Organique", "Publicités payantes", "Référencement"]
    ensures afterReset == 4
  {
    var charts := new Charts(DefaultMaxDataPoints);
    charts.UpdateLineChartData("16:00", 0.5, 0.5);
    var a := |charts.lineChartData|;
    charts.UpdateLineChartData("16:05", 0.5, 0.5);
    var b := |charts.lineChartData|;
    charts.UpdateLineChartData("16:10", 0.5, 0.5);
    lengths := [a, b, |charts.lineChartData|];
    first := charts.lineChartData[0].time;
    charts.UpdateBarChartData([0.5, 0.5, 0.5, 0.5, 0.5], [0.0, 0.0, 0.0, 0.0, 0.0]);
    UpdatedBarsKeepsChannels(InitialBars, [0.5, 0.5, 0.5, 0.5, 0.5], [0.0, 0.0, 0.0, 0.0, 0.0]);
    var bars := charts.barChartData;
    names := [bars[0].name, bars[1].name, bars[2].name, bars[3].name, bars[4].name];
    charts.ResetData();
    afterReset := |charts.lineChartData|;
  }
}
