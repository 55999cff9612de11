# Prophet batch UDF session handler, in Dafny

This project models `ProphetHandler`, the per-connection handler of a
Kapacitor batch user-defined function that forecasts a series with Prophet.
The host sends `info`, `init`, then repeated `begin_batch`, `point`*,
`end_batch` requests; the handler validates its options, accumulates one
batch of samples (with an optional capacity column that is carried forward
when a point reports 0), skips batches shorter than twice the horizon, and
otherwise answers with one begin response, one point per forecast row of the
horizon and one end response.

Files, one module each:

- `wrappers.dfy` (`Wrappers`): the `Option` type.
- `protocol.dfy` (`Protocol`): the decoded request and response records of
  the UDF protocol, and the protobuf read defaults (`StringOf`, `IntOf`,
  `DoubleOf`, `FieldValue`).
- `options.dfy` (`ProphetOptions`): the configuration record, its defaults,
  the option schema, the option loop as a function (`ApplyOption`,
  `ApplyOptions`), the seven validation rules and their aggregated report
  (`Violations`, `Join`, `Validate`).
- `capacity.dfy` (`CapacityCarry`): the carry-forward of capacities, with a
  second, independent definition (last non-zero value so far) proved equal.
- `emission.dfy` (`ForecastEmission`): the engine's input and output rows,
  the predicate that defines the emitted begin/point*/end sequence, and the
  loop that writes it, reusing one point response as the handler does.
- `handler.dfy` (`Session`): the class `ProphetHandler` with the handler's
  fields, its request methods, the seven checks of `init`, client scenarios,
  and the `oneof` reading of the retained response as written.

The forecasting engine is a parameter of `EndBatch`: a function from the
engine input (time stamps, values, optional capacity column, interval width,
changepoint prior scale, horizon) to forecast rows. The model states what is
given to it and what is done with its rows, nothing about the rows' values.
Time stamps are integers; field values, capacities, the interval width and
the changepoint prior scale are reals, which the handler only compares with
0 or copies.

Facts about the code that a reader might not expect, all kept by the model:

- The comment at prophet_udf.py:129 announces a version tag "added to data".
  The code writes it into the *point* tag map of the retained begin response
  (prophet_udf.py:131), while the emitted begin response is its begin part
  and the emitted points copy the *begin* tags (prophet_udf.py:173-175). The
  model keeps the two tag maps apart, and `Session.VersionTagNotEmitted`
  states that the tag key reaches no emitted response unless the request
  already carried it. Under protobuf's `oneof` rule the write does more
  harm; see "## Findings".
- `init` overwrites the option fields and keeps them even when validation
  fails.
- `end_batch` leaves the buffers in place until the next `begin_batch`.
- The engine gets a capacity column when the capacity buffer is non-empty
  (prophet_udf.py:149), not whenever a capacity field is configured.

## Model

| member | source | states |
|---|---|---|
| `ProphetOptions.KeyOf` | prophet_udf.py:60-78 | a recognised option name denotes the option whose declared name it is |
| `ProphetOptions.KeyNameRoundTrip` | prophet_udf.py:46-54 | every declared option name is recognised as that same option |
| `ProphetOptions.ApplyOption` | prophet_udf.py:60-78 | one option: an unrecognised name changes nothing; a recognised one sets its own field to `values[0]` read as the declared type (protobuf default for another type) and leaves every other field as it was |
| `ProphetOptions.LastOptionWins` | prophet_udf.py:60-78 | when a name repeats, the field holds the value of its last occurrence |
| `ProphetOptions.AbsentOptionKeepsSetting` | prophet_udf.py:60-78 | a field whose option does not occur keeps its previous value |
| `ProphetOptions.UnrecognisedOptionsIgnored` | prophet_udf.py:60-78 | appending an option with an unrecognised name does not change the resulting configuration |
| `ProphetOptions.FailedUpToReports` | prophet_udf.py:80-100 | among the first k rules, a rule's message is reported exactly when that rule fails |
| `ProphetOptions.ViolationReportedIff` | prophet_udf.py:80-100 | each of the seven messages is in the report if and only if its check fails |
| `ProphetOptions.NoFailuresUpTo` | prophet_udf.py:80-100 | the report for the first k rules is empty exactly when all k hold |
| `ProphetOptions.JoinEmptyIff` | prophet_udf.py:106 | a newline join of non-empty messages is empty exactly when there are none |
| `ProphetOptions.Validate` | prophet_udf.py:80-106 | `success` holds exactly when field, as, asLower, asUpper are non-empty and periods, intervalWidth, changepointPriorScale are positive; the error text is empty exactly on success |
| `ProphetOptions.Schema` | prophet_udf.py:46-54 | the declared schema names exactly the parsed options, each with the single type the parser reads it as |
| `ProphetOptions.DefaultPeriodsRejected` | prophet_udf.py:25 | starting from the defaults, without a `periods` option periods stays 0, `init` fails and reports "periods must be positive" |
| `ProphetOptions.OutputNamesIndependentOfField` | prophet_udf.py:23-28 | starting from the defaults, as/asLower/asUpper stay `value`, `value_lower`, `value_upper` whatever `field` is set to, unless set themselves |
| `ProphetOptions.ThreeViolationsExample` | prophet_udf.py:80-106 | empty field, zero periods and empty as report exactly the first three messages, joined by newlines in check order |
| `CapacityCarry.CarryForward` | prophet_udf.py:136-142 | one carried capacity per raw capacity |
| `CapacityCarry.CarryForwardAt` | prophet_udf.py:136-142 | each carried capacity is the last non-zero capacity read so far, or the register's value when there is none |
| `CapacityCarry.CarryForwardSnoc` | prophet_udf.py:136-142 | one more point appends its own capacity if non-zero, else the last non-zero one before it |
| `CapacityCarry.LastNonZeroCons` | prophet_udf.py:138-141 | reading a capacity first is the same as starting from the register value it leaves |
| `CapacityCarry.CarriedNonZeroAfterFirst` | prophet_udf.py:136-142 | after the first non-zero capacity, no carried capacity is 0 |
| `CapacityCarry.CarryForwardExample1` | prophet_udf.py:136-142 | raw [5,0,0,7,0] from register 0 is carried as [5,5,5,7,7] |
| `CapacityCarry.CarryForwardExample2` | prophet_udf.py:136-142 | raw [0,0,3] from register 0 is carried as [0,0,3] |
| `ForecastEmission.WriteForecast` | prophet_udf.py:166-191 | writes the begin response with size = periods, one point per row from index history on (series name, begin tags, row time, the three fields), then the end request with tmax = last written time or 0 |
| `ForecastEmission.HorizonEmitted` | prophet_udf.py:160-191 | with history + periods rows, exactly periods points are emitted, at the future rows' times in order, and tmax is the last row's time (0 when periods is 0) |
| `ForecastEmission.EndCarriesLastTime` | prophet_udf.py:171-191 | the end response is the end request with tmax set to the last point's time, or 0 when there is no point |
| `ForecastEmission.SeriesIdentityPreserved` | prophet_udf.py:172-175 | the sequence is begin, points, end, and every begin and point response has the request's series name and exactly its begin tags |
| `ForecastEmission.FieldsUnderOutputNames` | prophet_udf.py:180-182 | each point holds fields under exactly the three output names, each with its own value when the names differ, the later write winning when they coincide |
| `Session.ProphetHandler.constructor` | prophet_udf.py:21-40 | a new handler has the default configuration, a zero carry register, empty buffers and no retained response |
| `Session.ProphetHandler.Info` | prophet_udf.py:42-55 | wants and provides batch data, and declares exactly the parsed options with their types |
| `Session.ProphetHandler.Init` | prophet_udf.py:57-107 | the configuration becomes the option loop applied to the previous one, and the reply is the aggregated validation of the result |
| `Session.ProphetHandler.SetOption` | prophet_udf.py:60-78 | one pass of the option loop changes the configuration as `ApplyOption` does and touches no buffer |
| `Session.CheckConfig` | prophet_udf.py:80-100 | the seven independent checks return every failing message in check order, and success exactly when all rules hold |
| `Session.ProphetHandler.Snapshot` | prophet_udf.py:109-112 | the snapshot is the empty string |
| `Session.ProphetHandler.Restore` | prophet_udf.py:114-118 | restore always fails with "not implemented" |
| `Session.ProphetHandler.BeginBatch` | prophet_udf.py:120-131 | the three buffers become empty, the request is retained unchanged with the version marker only in the retained point tags, and the carry register and configuration are kept |
| `Session.ProphetHandler.Point` | prophet_udf.py:133-142 | appends one value (0 when absent) and one time; with a capacity field, appends the capacity or the carried one for 0 and updates the register; keeps values and times the same length and the capacities the carry-forward of the batch's raw capacities |
| `Session.ProphetHandler.EngineInputOf` | prophet_udf.py:148-158 | the engine gets the batch's times and values, the hyper-parameters, and a capacity column exactly when capacities were collected |
| `Session.ProphetHandler.EndBatch` | prophet_udf.py:144-191 | nothing is written and nothing changes exactly when there are fewer than 2 * periods samples; otherwise the retained begin gets size = periods and the output is the emission for the engine's rows from index len(ys) on |
| `Session.VersionTagNotEmitted` | prophet_udf.py:129-131 | a version tag key absent from the requests appears on no emitted begin, point or end response |
| `Session.ColumnsAlignedInBatch` | prophet_udf.py:120-142 | with a capacity field configured for the whole batch, the value, time and capacity columns each hold one entry per point, values and times read from the points in order and capacities the carry-forward of the points' raw capacities |
| `Session.InitMidBatchMisaligns` | prophet_udf.py:57-78 | an `init` that switches the capacity field on between two points of a batch leaves two values but one capacity |
| `Session.RetainAsWritten` | prophet_udf.py:125-131 | under the `oneof` rule, the retained response holds the copied begin without a version tag, and only a point member holding the tag with one |
| `Session.BeginOf` | prophet_udf.py:167-175 | reading the begin member of the retained response gives the copied begin when it is set, and the all-default begin (no name, no group, no tags, size 0) when the point member is set |
| `Session.VersionTagClearsBegin` | prophet_udf.py:125-131 | for every begin request and every non-empty version tag, the code as written emits a begin response with no name and no tags, and every point without a series name and without tags |
| `Session.CarryAcrossBatches` | prophet_udf.py:120-142 | through the handler, capacities [5,0,absent,7,0] are carried as [5,5,5,7,7], and the next batch's first 0 capacity becomes 7 |
| `Session.EmptyBatchEmitsNothing` | prophet_udf.py:120-146 | with positive periods, a batch without points emits nothing whatever earlier batches held |

## Left out

- The connection accept loop, the `Agent` and `Server` objects, the socket path argument and the `__main__` block (prophet_udf.py:194-223): transport and process lifecycle. The connection counter exists only for logging.
- The Prophet engine (`fit`, `make_future_dataframe`, `predict`): replaced by the `engine` parameter of `EndBatch`; nothing is claimed about forecast values, such as lower <= estimate <= upper. An engine failure, which would propagate and end the session, is not modelled: the engine parameter is total.
- pandas: the data frame, `pd.to_datetime` and `.value`. Time stamps are integers passed through unchanged; `iloc[n:]` past the end is modelled as no rows.
- Protobuf message construction and `CopyFrom`. Responses are Dafny datatypes. In `Session.ProphetHandler`, the retained begin response is a begin part plus a separate point tag map. The `oneof` rule of the response message is modelled only in `Session.RetainAsWritten`. With a version tag configured, prophet_udf.py:131 selects the point member and clears the copied begin. Then prophet_udf.py:167 selects a fresh, empty begin again. The real program therefore emits a begin response and points with an empty name and no tags. The handler model ignores the `oneof` rule: it keeps the copied begin and holds the marker in a separate point tag map that is never sent, so the emitted begin and points keep the request's name and tags but do not carry the version tag. See "## Findings".
- Reading a missing key of `fieldsDouble` yields 0.0 in the model, as in protobuf; the key that protobuf inserts into the request's map as a side effect is not modelled.
- `print(df.head())` and the logging set-up: output only.
- Doubles are modelled as reals: NaN and rounding are not represented.
- Session.ProphetHandler.Init: requires every recognised option to carry at least one value; the code reads `values[0]` unguarded and would raise otherwise, which the model does not represent.
- Session.ProphetHandler.EndBatch: requires a retained begin response when the batch is not skipped; the code would fail on `None` if `end_batch` came before any `begin_batch`, which the host never does.
- An `init` in the middle of a batch that switches the capacity field on leaves the capacity column shorter than the value column (`Session.InitMidBatchMisaligns`). pandas would reject those columns at prophet_udf.py:150, and the engine parameter, being total, does not.
- Session.CarryAcrossBatches: starts from a handler whose capacity field is already `cap` and whose register is 0, rather than running `init` first.

## Findings

| source | as written | input that shows it | evidently intended | confidence | as-written member | corrected member |
|---|---|---|---|---|---|---|
| prophet_udf.py:131 | writing the version marker into `point.tags` of the retained response selects its `point` member and clears the copied `begin`; prophet_udf.py:167 then creates an empty begin | option `versionTag` = "version", begin request named "cpu" with tag host=a, a batch long enough to forecast | the emitted begin response and points keep the request's name and tags, and carry the version marker; the corrected model restores the name and tags, but the marker is still not emitted | high for the protobuf `oneof` rule; not executed | `Session.VersionTagClearsBegin` | `Session.ProphetHandler.BeginBatch` |

`Session.ProphetHandler.BeginBatch` retains the request's begin part
unchanged whether or not a version tag is set. `Session.ProphetHandler.EndBatch`
emits from that begin, and `ForecastEmission.SeriesIdentityPreserved`
proves the emitted begin and points carry its name and tags. The version
marker stays in the retained point tag map and is not emitted
(`Session.VersionTagNotEmitted`).
