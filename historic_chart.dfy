/** The historic chart component
    (components/historic-chart/historic-chart.component.ts): a window of
    `windowSize` readings slides over the `readings` input; the slider sets
    its start, new readings move it to the end, and the chart shows one point
    per visible reading. The computed values are functions of the current
    fields; the component is a class whose methods update them. */
module HistoricChart {
  import opened Wrappers
  import opened JsRuntime
  import opened FrontendModels

  /** `maxPosition`: the start of the last full window, never negative. */
  function MaxPosition(len: nat, windowSize: int): (m: nat)
    ensures len >= windowSize ==> m == len - windowSize
    ensures len < windowSize ==> m == 0
  {
    Max(0, len - windowSize)
  }

  /** `endIndex`: one past the last visible reading. */
  function EndIndex(position: JsNumber, windowSize: int, len: nat): (e: JsNumber)
    ensures position.NaN? <==> e.NaN?
    ensures e.Num? ==> e.n <= len && e.n <= position.n + windowSize
    ensures e.Num? ==> e.n == len || e.n == position.n + windowSize
  {
    JsMin(Add(position, windowSize), len)
  }

  /** `visibleReadings`: `readings.slice(position, endIndex)`. */
  function VisibleReadings(readings: seq<SensorReading>, position: JsNumber, windowSize: int): (v: seq<SensorReading>)
    ensures |v| <= |readings|
    ensures position.Num? && 0 <= position.n <= |readings| && windowSize >= 0 ==>
              v == readings[position.n..EndIndex(position, windowSize, |readings|).n]
  {
    Slice(readings, position, EndIndex(position, windowSize, |readings|))
  }

  /** A time label: "-" when there is no reading to show, otherwise the
      reading's clock time (its formatting is not modelled). */
  datatype Label = Dash | Clock(timestamp: int)

  function LabelOf(r: Option<SensorReading>): (l: Label)
    ensures l.Dash? <==> r.None?
  {
    match r
    case None => Dash
    case Some(reading) => Clock(reading.timestamp)
  }

  /** `startTime`: the reading at `position`, if there is one. */
  function StartLabel(readings: seq<SensorReading>, position: JsNumber): (l: Label)
    ensures l.Dash? <==> !(position.Num? && 0 <= position.n < |readings|)
  {
    LabelOf(At(readings, position))
  }

  /** `endTime`: the reading at `endIndex - 1`, if there is one. */
  function EndLabel(readings: seq<SensorReading>, position: JsNumber, windowSize: int): (l: Label)
    ensures var e := EndIndex(position, windowSize, |readings|);
            l.Dash? <==> !(e.Num? && 1 <= e.n <= |readings|)
  {
    LabelOf(At(readings, Add(EndIndex(position, windowSize, |readings|), -1)))
  }

  /** A point of the line: time in milliseconds and the reading's value. */
  datatype Point = Point(x: int, y: real)

  /** A dataset of the chart; its styling is not modelled. */
  datatype Dataset = Dataset(data: seq<Point>)

  function Points(visible: seq<SensorReading>): (ps: seq<Point>)
    ensures |ps| == |visible|
    ensures forall i :: 0 <= i < |visible| ==> ps[i] == Point(visible[i].timestamp, visible[i].value)
  {
    if visible == [] then [] else [Point(visible[0].timestamp, visible[0].value)] + Points(visible[1..])
  }

  /** What `updateChart` draws: no dataset for an empty window, otherwise one
      dataset with a point per visible reading, in order. */
  function ChartData(visible: seq<SensorReading>): (d: seq<Dataset>)
    ensures d == [] <==> visible == []
    ensures d != [] ==> |d| == 1 && |d[0].data| == |visible| &&
                        forall i :: 0 <= i < |visible| ==> d[0].data[i] == Point(visible[i].timestamp, visible[i].value)
  {
    if visible == [] then [] else [Dataset(Points(visible))]
  }

  class HistoricChartComponent {
    /** The `readings` and `windowSize` inputs, set by the parent. */
    var readings: seq<SensorReading>
    var windowSize: int
    /** The slider's `position` signal. */
    var position: JsNumber
    var chartData: seq<Dataset>

    constructor()
      ensures readings == [] && windowSize == 50 && position == Num(0) && chartData == []
    {
      readings := [];
      windowSize := 50;
      position := Num(0);
      chartData := [];
    }

    /** `updateChart`: redraw from the current window. */
    method UpdateChart()
      modifies this
      ensures chartData == ChartData(VisibleReadings(readings, position, windowSize))
      ensures readings == old(readings) && windowSize == old(windowSize) && position == old(position)
    {
      chartData := ChartData(VisibleReadings(readings, position, windowSize));
    }

    /** `ngOnChanges`: when the readings input changed and is not empty, the
        window jumps to the end and the chart is redrawn; otherwise nothing
        happens. */
    method NgOnChanges(readingsChanged: bool)
      modifies this
      ensures readings == old(readings) && windowSize == old(windowSize)
      ensures readingsChanged && |readings| > 0 ==>
                && position == Num(MaxPosition(|readings|, windowSize))
                && chartData == ChartData(VisibleReadings(readings, position, windowSize))
      ensures !(readingsChanged && |readings| > 0) ==> position == old(position) && chartData == old(chartData)
    {
      if readingsChanged && |readings| > 0 {
        position := Num(MaxPosition(|readings|, windowSize));
        UpdateChart();
      }
    }

    /** `onSliderChange`: the slider's text value, parsed and stored as is
        (not clamped), then a redraw. */
    method OnSliderChange(value: string)
      modifies this
      ensures readings == old(readings) && windowSize == old(windowSize)
      ensures position == ParseInt(value)
      ensures chartData == ChartData(VisibleReadings(readings, position, windowSize))
    {
      position := ParseInt(value);
      UpdateChart();
    }
  }

  // ---------------------------------------------------------------------
  // Properties of the window

  /** However the position was set, a non-negative window size bounds the
      number of visible readings. */
  lemma WindowNoLongerThanWindowSize(readings: seq<SensorReading>, position: JsNumber, windowSize: int)
    requires windowSize >= 0
    ensures |VisibleReadings(readings, position, windowSize)| <= windowSize
  {
    var len := |readings|;
    var e := EndIndex(position, windowSize, len);
    if position.Num? {
      var p := position.n;
      var from, to := RelativeIndex(position, len), RelativeIndex(e, len);
      if p >= 0 {
        assert from == Min(p, len);
      } else {
        assert from == Max(len + p, 0);
      }
      assert from < to ==> to - from <= windowSize;
    }
  }

  /** A position at or past the end, as the unclamped slider allows, shows
      nothing and draws no dataset. */
  lemma PastEndShowsNothing(readings: seq<SensorReading>, p: int, windowSize: int)
    requires p >= |readings|
    ensures VisibleReadings(readings, Num(p), windowSize) == []
    ensures ChartData(VisibleReadings(readings, Num(p), windowSize)) == []
    ensures StartLabel(readings, Num(p)).Dash?
  {
  }

  /** A slider value that is not a number shows nothing and no labels. */
  lemma NaNShowsNothing(readings: seq<SensorReading>, windowSize: int)
    ensures VisibleReadings(readings, NaN, windowSize) == []
    ensures StartLabel(readings, NaN) == Dash && EndLabel(readings, NaN, windowSize) == Dash
  {
  }

  /** After new readings arrive the window is the tail: it ends at the last
      reading and shows the last min(len, windowSize) readings. */
  lemma ChangedReadingsShowTail(readings: seq<SensorReading>, windowSize: int)
    requires readings != [] && windowSize >= 0
    ensures var pos := Num(MaxPosition(|readings|, windowSize));
            && EndIndex(pos, windowSize, |readings|) == Num(|readings|)
            && VisibleReadings(readings, pos, windowSize) == readings[|readings| - Min(|readings|, windowSize)..]
  {
  }

  /** With no readings both labels are "-". */
  lemma NoReadingsNoLabels(position: JsNumber, windowSize: int)
    ensures StartLabel([], position) == Dash && EndLabel([], position, windowSize) == Dash
  {
  }

  /** The tail window's labels name its first and last readings. */
  lemma TailLabels(readings: seq<SensorReading>, windowSize: int)
    requires readings != [] && windowSize >= 1
    ensures var pos := Num(MaxPosition(|readings|, windowSize));
            && StartLabel(readings, pos) == Clock(readings[|readings| - Min(|readings|, windowSize)].timestamp)
            && EndLabel(readings, pos, windowSize) == Clock(readings[|readings| - 1].timestamp)
  {
  }
}
