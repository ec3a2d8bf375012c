/** Price bars and their look-back series.  The bars of a chart form an
    append-only list; a series reads one field of it by "bars ago", where 0
    is the newest bar. */
module Instruments {
  import opened Errors

  datatype BarType = Live | Historic

  /** A bar.  `time` is the bar's timestamp in ticks. */
  datatype Bar = Bar(time: int, high: real, low: real, open: real, close: real, volume: real, barType: BarType)

  /** The bar fields a series can read. */
  datatype BarField = TimeField | HighField | LowField | OpenField | CloseField | VolumeField

  /** The element types a series can be declared with. */
  datatype SeriesType = DoubleSeries | DateTimeSeries

  /** A value read from a bar: a price or volume, or a timestamp. */
  datatype Datum = Number(x: real) | Instant(ticks: int)

  function FieldValue(bar: Bar, field: BarField): Datum
  {
    match field
    case TimeField => Instant(bar.time)
    case HighField => Number(bar.high)
    case LowField => Number(bar.low)
    case OpenField => Number(bar.open)
    case CloseField => Number(bar.close)
    case VolumeField => Number(bar.volume)
  }

  function TypeOf(field: BarField): SeriesType
  {
    if field == TimeField then DateTimeSeries else DoubleSeries
  }

  /** What the public field lookup finds for a name: a readable field, the
      bar-type field (whose type no series here has), or nothing. */
  datatype FieldLookup = NoSuchField | BarTypeFieldFound | Found(field: BarField)

  function LookupField(name: string): FieldLookup
  {
    if name == "Time" then Found(TimeField)
    else if name == "High" then Found(HighField)
    else if name == "Low" then Found(LowField)
    else if name == "Open" then Found(OpenField)
    else if name == "Close" then Found(CloseField)
    else if name == "Volume" then Found(VolumeField)
    else if name == "BarType" then BarTypeFieldFound
    else NoSuchField
  }

  /** Each field name finds its field, and the bar-type name finds no
      readable field. */
  lemma FieldNamesResolve()
    ensures LookupField("Time") == Found(TimeField) && LookupField("High") == Found(HighField)
    ensures LookupField("Low") == Found(LowField) && LookupField("Open") == Found(OpenField)
    ensures LookupField("Close") == Found(CloseField) && LookupField("Volume") == Found(VolumeField)
    ensures LookupField("BarType") == BarTypeFieldFound && LookupField("Ticks") == NoSuchField
  {
  }

  /** A series: one field of a list of bars. */
  datatype BarSeries = BarSeries(bars: seq<Bar>, field: BarField)

  /** Building a series: no list raises ArgumentNull; a name that is not a
      field, or a field of another type than the series, raises Argument. */
  function NewSeries(bars: Option<seq<Bar>>, fieldName: string, elementType: SeriesType): (r: Result<BarSeries>)
    ensures bars.None? ==> r == Err(ArgumentNull)
    ensures r.Ok? <==> bars.Some? && LookupField(fieldName).Found?
                       && TypeOf(LookupField(fieldName).field) == elementType
    ensures r.Ok? ==> r.value == BarSeries(bars.value, LookupField(fieldName).field)
    ensures r.Err? && bars.Some? ==> r.error == Argument
  {
    if bars.None? then Err(ArgumentNull)
    else match LookupField(fieldName)
      case NoSuchField => Err(Argument)
      case BarTypeFieldFound => Err(Argument)
      case Found(field) =>
        if TypeOf(field) != elementType then Err(Argument) else Ok(BarSeries(bars.value, field))
  }

  /** The value `barsAgo` bars back from the newest.  A negative count, or a
      count that reaches past the oldest bar, raises IndexOutOfRange. */
  function At(series: BarSeries, barsAgo: int): (r: Result<Datum>)
    ensures r.Ok? <==> 0 <= barsAgo < |series.bars|
    ensures r.Ok? ==> r.value == FieldValue(series.bars[|series.bars| - 1 - barsAgo], series.field)
    ensures r.Err? ==> r.error == IndexOutOfRange
  {
    if barsAgo < 0 then Err(IndexOutOfRange)
    else
      var count := |series.bars|;
      var index := count - 1 - barsAgo;
      if index < 0 then Err(IndexOutOfRange)
      else Ok(FieldValue(series.bars[index], series.field))
  }

  /** The value on the newest bar. */
  function Value(series: BarSeries): (r: Result<Datum>)
    ensures r.Ok? <==> series.bars != []
    ensures r.Ok? ==> r.value == FieldValue(series.bars[|series.bars| - 1], series.field)
    ensures r.Err? ==> r.error == IndexOutOfRange
  {
    At(series, 0)
  }

  /** After a bar is appended, it is the one 0 bars back, and every older bar
      is one further back than before. */
  lemma AppendShiftsBarsAgo(series: BarSeries, bar: Bar, barsAgo: int)
    requires barsAgo >= 0
    ensures At(BarSeries(series.bars + [bar], series.field), 0) == Ok(FieldValue(bar, series.field))
    ensures At(BarSeries(series.bars + [bar], series.field), barsAgo + 1) == At(series, barsAgo)
  {
  }

  /** The index of the newest bar; an empty list raises. */
  function CurrentBarOf(bars: seq<Bar>): (r: Result<int>)
    ensures r.Ok? <==> bars != []
    ensures r.Ok? ==> r.value == |bars| - 1
    ensures r.Err? ==> r.error == IndexOutOfRange
  {
    var index := |bars| - 1;
    if index < 0 then Err(IndexOutOfRange) else Ok(index)
  }

  /** A field of the newest bar; an empty list raises. */
  function CurrentValueOf(bars: seq<Bar>, field: BarField): (r: Result<Datum>)
    ensures r.Ok? <==> bars != []
    ensures r.Ok? ==> r.value == FieldValue(bars[|bars| - 1], field)
    ensures r.Err? ==> r.error == IndexOutOfRange
  {
    match CurrentBarOf(bars)
    case Err(e) => Err(e)
    case Ok(index) => Ok(FieldValue(bars[index], field))
  }

  /** The time of the bar before the newest; fewer than two bars raise. */
  function LastBarTimeOf(bars: seq<Bar>): (r: Result<int>)
    ensures r.Ok? <==> |bars| >= 2
    ensures r.Ok? ==> r.value == bars[|bars| - 2].time
    ensures r.Err? ==> r.error == IndexOutOfRange
  {
    match CurrentBarOf(bars)
    case Err(e) => Err(e)
    case Ok(current) =>
      var lastBar := current - 1;
      if lastBar < 0 then Err(IndexOutOfRange) else Ok(bars[lastBar].time)
  }

  /** A series over the bars reads the same value as the newest-bar accessor
      of its field. */
  lemma SeriesAgreesWithCurrentValue(bars: seq<Bar>, field: BarField)
    ensures Value(BarSeries(bars, field)) == CurrentValueOf(bars, field)
  {
  }

  /** The bars of a chart with their six series.  Bars are only ever
      appended; after each append the series are rebuilt over the new list. */
  class Bars {
    var bars: seq<Bar>
    var Time: BarSeries
    var High: BarSeries
    var Low: BarSeries
    var Open: BarSeries
    var Close: BarSeries
    var Volume: BarSeries

    /** Every series reads the current list. */
    ghost predicate Reloaded()
      reads this
    {
      && Time == BarSeries(bars, TimeField)
      && High == BarSeries(bars, HighField)
      && Low == BarSeries(bars, LowField)
      && Open == BarSeries(bars, OpenField)
      && Close == BarSeries(bars, CloseField)
      && Volume == BarSeries(bars, VolumeField)
    }

    constructor ()
      ensures bars == [] && Reloaded()
    {
      bars := [];
      new;
      ReloadBarSeries();
    }

    function CurrentBar(): Result<int>
      reads this
    {
      CurrentBarOf(bars)
    }

    /** `HighValue`, `LowValue`, `OpenValue`, `CloseValue`, `VolumeValue` and
        `TimeValue`, selected by field. */
    function CurrentValue(field: BarField): Result<Datum>
      reads this
    {
      CurrentValueOf(bars, field)
    }

    function LastBarTime(): Result<int>
      reads this
    {
      LastBarTimeOf(bars)
    }

    /** The series selected by field. */
    function Series(field: BarField): BarSeries
      reads this
    {
      match field
      case TimeField => Time
      case HighField => High
      case LowField => Low
      case OpenField => Open
      case CloseField => Close
      case VolumeField => Volume
    }

    /** Rebuilds the six series over the current list, through the checked
        series constructor. */
    method ReloadBarSeries()
      modifies this
      ensures bars == old(bars) && Reloaded()
    {
      FieldNamesResolve();
      var close := NewSeries(Some(bars), "Close", DoubleSeries);
      assert close == Ok(BarSeries(bars, CloseField));
      Close := close.value;
      var high := NewSeries(Some(bars), "High", DoubleSeries);
      assert high == Ok(BarSeries(bars, HighField));
      High := high.value;
      var low := NewSeries(Some(bars), "Low", DoubleSeries);
      assert low == Ok(BarSeries(bars, LowField));
      Low := low.value;
      var open := NewSeries(Some(bars), "Open", DoubleSeries);
      assert open == Ok(BarSeries(bars, OpenField));
      Open := open.value;
      var time := NewSeries(Some(bars), "Time", DateTimeSeries);
      assert time == Ok(BarSeries(bars, TimeField));
      Time := time.value;
      var volume := NewSeries(Some(bars), "Volume", DoubleSeries);
      assert volume == Ok(BarSeries(bars, VolumeField));
      Volume := volume.value;
    }

    /** Appends a bar: it becomes the newest bar and every series sees it. */
    method AddBar(bar: Bar)
      modifies this
      ensures bars == old(bars) + [bar] && Reloaded()
      ensures CurrentBar() == Ok(|old(bars)|)
      ensures forall field :: CurrentValue(field) == Ok(FieldValue(bar, field))
      ensures forall field :: Value(Series(field)) == Ok(FieldValue(bar, field))
    {
      bars := bars + [bar];
      ReloadBarSeries();
    }
  }

  /** Once the series are reloaded, each series' value is what the
      newest-bar accessor of its field reads. */
  lemma ReloadedSeriesAgree(chart: Bars, field: BarField)
    requires chart.Reloaded()
    ensures Value(chart.Series(field)) == chart.CurrentValue(field)
  {
    SeriesAgreesWithCurrentValue(chart.bars, field);
  }

  /** Five bars added one by one: the current bar is 4 and the high of the
      last one is read by both the accessor and the series. */
  method LoadFiveBars(b0: Bar, b1: Bar, b2: Bar, b3: Bar, b4: Bar) returns (chart: Bars)
    ensures chart.bars == [b0, b1, b2, b3, b4]
    ensures chart.CurrentBar() == Ok(4)
    ensures chart.CurrentValue(HighField) == Ok(Number(b4.high)) == Value(chart.High)
    ensures At(chart.Low, 4) == Ok(Number(b0.low))
  {
    chart := new Bars();
    chart.AddBar(b0);
    chart.AddBar(b1);
    chart.AddBar(b2);
    chart.AddBar(b3);
    chart.AddBar(b4);
  }
}
