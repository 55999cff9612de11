/**
 * The boundary with the forecasting engine and the response sequence built
 * from its rows: one begin response, one point per future row, one end
 * response.
 */
module ForecastEmission {
  import opened Protocol
  import opened Wrappers

  /** One engine output row: time stamp, point estimate, lower and upper bound. */
  datatype ForecastRow = ForecastRow(ds: int, yhat: real, yhatLower: real, yhatUpper: real)

  /**
   * What the engine is given: the history as time stamps and values, the
   * capacity column when there is one, and the hyper-parameters.
   */
  datatype EngineInput = EngineInput(
    ds: seq<int>,
    y: seq<real>,
    cap: Option<seq<real>>,
    intervalWidth: real,
    changepointPriorScale: real,
    periods: int)

  /** The configured output field names for the estimate and its two bounds. */
  datatype OutputNames = OutputNames(estimate: string, lower: string, upper: string)

  /** The rows from position `history` on; none when there are fewer rows than that. */
  function Future(rows: seq<ForecastRow>, history: nat): seq<ForecastRow> {
    if history <= |rows| then rows[history..] else []
  }

  /** The three output fields of one row, written in this order. */
  function ForecastFields(row: ForecastRow, names: OutputNames): map<string, real> {
    map[names.estimate := row.yhat][names.lower := row.yhatLower][names.upper := row.yhatUpper]
  }

  /** The point response for one future row, under the series name and tags of `begin`. */
  function ForecastPoint(begin: BatchBegin, row: ForecastRow, names: OutputNames): BatchPoint {
    BatchPoint(row.ds, begin.name, "", begin.tags, ForecastFields(row, names))
  }

  /**
   * `out` is the emission for the forecast `rows` of a batch of `history`
   * samples: the begin response with its size set to `periods`, then one
   * point per future row in row order, then the end request with `tmax` set
   * to the last emitted time (0 when nothing was emitted).
   */
  ghost predicate IsForecastEmission(out: seq<Response>, begin: BatchBegin, end: BatchEnd,
                                     rows: seq<ForecastRow>, history: nat, periods: int, names: OutputNames)
  {
    var future := Future(rows, history);
    && |out| == |future| + 2
    && out[0] == BeginResp(begin.(size := periods))
    && (forall i :: 0 <= i < |future| ==> out[i + 1] == PointResp(ForecastPoint(begin, future[i], names)))
    && out[|out| - 1] == EndResp(end.(tmax := if future == [] then 0 else future[|future| - 1].ds))
  }

  /**
   * Writes the forecast back to the host. As in the handler, one point
   * response is reused for every row: its time and three fields are
   * overwritten before each write.
   */
  method WriteForecast(begin: BatchBegin, end: BatchEnd, rows: seq<ForecastRow>, history: nat,
                       periods: int, names: OutputNames) returns (out: seq<Response>)
    ensures IsForecastEmission(out, begin, end, rows, history, periods, names)
  {
    out := [BeginResp(begin.(size := periods))];
    var tmax := 0;
    var point := BatchPoint(0, begin.name, "", begin.tags, map[]);
    var future := if history <= |rows| then rows[history..] else [];
    for i := 0 to |future|
      invariant |out| == i + 1
      invariant out[0] == BeginResp(begin.(size := periods))
      invariant forall j :: 0 <= j < i ==> out[j + 1] == PointResp(ForecastPoint(begin, future[j], names))
      invariant i == 0 ==> tmax == 0 && point.fieldsDouble == map[]
      invariant i > 0 ==> tmax == future[i - 1].ds && point == ForecastPoint(begin, future[i - 1], names)
      invariant point.name == begin.name && point.group == "" && point.tags == begin.tags
    {
      var row := future[i];
      var fields := point.fieldsDouble[names.estimate := row.yhat][names.lower := row.yhatLower][names.upper := row.yhatUpper];
      assert fields == ForecastFields(row, names);
      point := point.(time := row.ds, fieldsDouble := fields);
      out := out + [PointResp(point)];
      tmax := row.ds;
    }
    out := out + [EndResp(end.(tmax := tmax))];
  }

  /**
   * When the engine returns one row per sample plus `periods` future rows,
   * exactly `periods` points are emitted, carrying the future rows' times in
   * order, and `tmax` is the last row's time.
   */
  lemma HorizonEmitted(out: seq<Response>, begin: BatchBegin, end: BatchEnd,
                       rows: seq<ForecastRow>, history: nat, periods: int, names: OutputNames)
    requires IsForecastEmission(out, begin, end, rows, history, periods, names)
    requires 0 <= periods && |rows| == history + periods
    ensures |out| == periods + 2
    ensures out[0].BeginResp? && out[0].begin.size == periods
    ensures forall i :: 1 <= i <= periods ==> out[i].PointResp? && out[i].point.time == rows[history + i - 1].ds
    ensures out[periods + 1].EndResp?
    ensures out[periods + 1].end.tmax == if periods == 0 then 0 else rows[|rows| - 1].ds
  {
    var future := Future(rows, history);
    forall i | 1 <= i <= periods
      ensures out[i].PointResp? && out[i].point.time == rows[history + i - 1].ds
    {
      assert out[(i - 1) + 1] == PointResp(ForecastPoint(begin, future[i - 1], names));
    }
  }

  /** The end response is the end request with `tmax` set to the last point's time, or 0. */
  lemma EndCarriesLastTime(out: seq<Response>, begin: BatchBegin, end: BatchEnd,
                           rows: seq<ForecastRow>, history: nat, periods: int, names: OutputNames)
    requires IsForecastEmission(out, begin, end, rows, history, periods, names)
    ensures |out| >= 2 && out[|out| - 1].EndResp?
    ensures |out| == 2 ==> out[1].end == end.(tmax := 0)
    ensures |out| > 2 ==> out[|out| - 2].PointResp? && out[|out| - 1].end == end.(tmax := out[|out| - 2].point.time)
  {
    var future := Future(rows, history);
    if |out| > 2 {
      assert out[(|future| - 1) + 1] == PointResp(ForecastPoint(begin, future[|future| - 1], names));
    }
  }

  /**
   * The responses come as begin, points, end, and every begin and point
   * response carries the series name and exactly the tags of the begin request.
   */
  lemma SeriesIdentityPreserved(out: seq<Response>, begin: BatchBegin, end: BatchEnd,
                                rows: seq<ForecastRow>, history: nat, periods: int, names: OutputNames)
    requires IsForecastEmission(out, begin, end, rows, history, periods, names)
    ensures out[0].BeginResp? && out[0].begin.name == begin.name && out[0].begin.tags == begin.tags
    ensures forall i :: 0 < i < |out| - 1 ==>
      out[i].PointResp? && out[i].point.name == begin.name && out[i].point.tags == begin.tags
    ensures out[|out| - 1].EndResp?
  {
    var future := Future(rows, history);
    forall i | 0 < i < |out| - 1
      ensures out[i].PointResp? && out[i].point.name == begin.name && out[i].point.tags == begin.tags
    {
      assert out[(i - 1) + 1] == PointResp(ForecastPoint(begin, future[i - 1], names));
    }
  }

  /**
   * Each point holds fields under exactly the three output names; with
   * distinct names, each holds its own value. Equal names keep the value
   * written last (upper over lower over estimate).
   */
  lemma FieldsUnderOutputNames(row: ForecastRow, names: OutputNames)
    ensures ForecastFields(row, names).Keys == {names.estimate, names.lower, names.upper}
    ensures ForecastFields(row, names)[names.upper] == row.yhatUpper
    ensures names.lower != names.upper ==> ForecastFields(row, names)[names.lower] == row.yhatLower
    ensures names.estimate != names.lower && names.estimate != names.upper ==>
      ForecastFields(row, names)[names.estimate] == row.yhat
  {
  }
}
