/**
 * The per-connection session handler of the prophet batch UDF: it holds the
 * configuration, the buffers of the current batch, the capacity carry
 * register and the retained begin response, and reacts to the host's
 * `info`, `init`, `snapshot`, `restore`, `begin_batch`, `point` and
 * `end_batch` requests in arrival order.
 */
module Session {
  import opened Wrappers
  import opened Protocol
  import opened ProphetOptions
  import opened CapacityCarry
  import opened ForecastEmission

  /** The version marker written under the configured version tag. */
  const Version := "0.1"

  /**
   * The retained copy of the begin request. Besides the begin part it has
   * the point tag map of the same response object, which is where the
   * version tag is written.
   */
  datatype RetainedBegin = RetainedBegin(begin: BatchBegin, pointTags: map<string, string>)

  class ProphetHandler {
    var field: string
    var capacityField: string
    var periods: int
    var asField: string
    var asLower: string
    var asUpper: string
    var versionTag: string
    var intervalWidth: real
    var changepointPriorScale: real

    /** The last non-zero capacity seen since the handler was created. */
    var capPrev: real
    var cs: seq<real>
    var ys: seq<real>
    var ts: seq<int>
    var beginResponse: Option<RetainedBegin>

    /** The carry register when the current batch began. */
    ghost var capBase: real
    /** The capacities read from the points of the current batch, before carry-forward. */
    ghost var rawCaps: seq<real>

    /**
     * Values and time stamps are appended together; the capacity buffer is
     * the carry-forward of the raw capacities read in this batch, and the
     * register holds the last non-zero one (or what it held at batch start).
     */
    ghost predicate Valid()
      reads this
    {
      && |ys| == |ts|
      && cs == CarryForward(capBase, rawCaps)
      && capPrev == LastNonZero(capBase, rawCaps)
    }

    /** The configuration fields as one record. */
    function CurrentConfig(): Config
      reads this
    {
      Config(field, capacityField, periods, asField, asLower, asUpper, versionTag, intervalWidth, changepointPriorScale)
    }

    function OutputNamesOf(): OutputNames
      reads this
    {
      OutputNames(asField, asLower, asUpper)
    }

    /**
     * What the engine is fitted on: the batch's time stamps and values, with
     * a capacity column exactly when capacities were collected.
     */
    function EngineInputOf(): (r: EngineInput)
      reads this
      ensures r.cap.Some? <==> |cs| > 0
      ensures r.cap.Some? ==> r.cap.value == cs
      ensures r.ds == ts && r.y == ys && r.periods == periods
      ensures r.intervalWidth == intervalWidth && r.changepointPriorScale == changepointPriorScale
    {
      EngineInput(ts, ys, if |cs| > 0 then Some(cs) else None, intervalWidth, changepointPriorScale, periods)
    }

    constructor ()
      ensures Valid()
      ensures CurrentConfig() == DefaultConfig
      ensures capPrev == 0.0 && cs == [] && ys == [] && ts == [] && beginResponse == None
    {
      field := "value";
      capacityField := "";
      periods := 0;
      asField := "value";
      asLower := "value_lower";
      asUpper := "value_upper";
      versionTag := "";
      intervalWidth := 0.80;
      changepointPriorScale := 0.05;
      capPrev := 0.0;
      cs, ys, ts := [], [], [];
      beginResponse := None;
      capBase, rawCaps := 0.0, [];
    }

    /** Declares batch in, batch out, and the option schema. */
    function Info(): (r: Response)
      ensures r.InfoResp? && r.info.wants == BatchEdge && r.info.produces == BatchEdge
      ensures forall n :: n in r.info.options <==> Recognised(n)
      ensures forall k :: KeyName(k) in r.info.options && r.info.options[KeyName(k)] == OptionInfo([DeclaredType(k)])
    {
      InfoResp(InfoResponse(BatchEdge, BatchEdge, Schema()))
    }

    /**
     * Applies the options in order, then checks all seven rules and reports
     * every violation. The configuration keeps the options' values even when
     * the checks fail.
     */
    method Init(options: seq<InitOption>) returns (resp: Response)
      requires AllWellFormed(options)
      requires Valid()
      modifies this`field, this`capacityField, this`periods, this`asField, this`asLower,
               this`asUpper, this`versionTag, this`intervalWidth, this`changepointPriorScale
      ensures Valid()
      ensures CurrentConfig() == ApplyOptions(old(CurrentConfig()), options)
      ensures resp == InitResp(Validate(CurrentConfig()))
    {
      var i := 0;
      while i < |options|
        invariant 0 <= i <= |options|
        invariant AllWellFormed(options[..i])
        invariant Valid()
        invariant CurrentConfig() == ApplyOptions(old(CurrentConfig()), options[..i])
      {
        assert WellFormed(options[i]);
        SetOption(options[i]);
        assert options[..i + 1][..i] == options[..i];
        i := i + 1;
      }
      assert options[..i] == options;
      var success, msg := CheckConfig(CurrentConfig());
      resp := InitResp(InitResponse(success, Join(msg, "\n")));
    }

    /** One pass of the option loop: a recognised name overwrites its field with the first value. */
    method SetOption(opt: InitOption)
      requires WellFormed(opt)
      requires Valid()
      modifies this`field, this`capacityField, this`periods, this`asField, this`asLower,
               this`asUpper, this`versionTag, this`intervalWidth, this`changepointPriorScale
      ensures Valid()
      ensures CurrentConfig() == ApplyOption(old(CurrentConfig()), opt)
    {
      if opt.name == "field" {
        field := StringOf(opt.values[0]);
      }
      if opt.name == "capacity" {
        capacityField := StringOf(opt.values[0]);
      } else if opt.name == "periods" {
        periods := IntOf(opt.values[0]);
      } else if opt.name == "as" {
        asField := StringOf(opt.values[0]);
      } else if opt.name == "asLower" {
        asLower := StringOf(opt.values[0]);
      } else if opt.name == "asUpper" {
        asUpper := StringOf(opt.values[0]);
      } else if opt.name == "versionTag" {
        versionTag := StringOf(opt.values[0]);
      } else if opt.name == "intervalWidth" {
        intervalWidth := DoubleOf(opt.values[0]);
      } else if opt.name == "changepointPriorScale" {
        changepointPriorScale := DoubleOf(opt.values[0]);
      }
    }

    /** There is no state worth saving: the snapshot is empty. */
    function Snapshot(): (r: Response)
      ensures r.SnapshotResp? && r.snapshot == ""
    {
      SnapshotResp("")
    }

    /** Restoring is refused, whatever the snapshot. */
    function Restore(snapshot: string): (r: Response)
      ensures r.RestoreResp? && !r.restore.success && r.restore.error == "not implemented"
    {
      RestoreResp(RestoreResponse(false, "not implemented"))
    }

    /**
     * Starts a batch: empties the three buffers and retains a copy of the
     * request, with the version marker in that copy's point tag map when a
     * version tag is configured. The request itself, the configuration and
     * the carry register are left as they are.
     */
    method BeginBatch(req: BatchBegin)
      requires Valid()
      modifies this`cs, this`ys, this`ts, this`beginResponse, this`capBase, this`rawCaps
      ensures Valid()
      ensures ys == [] && ts == [] && cs == []
      ensures beginResponse == Some(RetainedBegin(req, if versionTag != "" then map[versionTag := Version] else map[]))
      ensures capBase == capPrev && rawCaps == []
    {
      cs := [];
      ys := [];
      ts := [];
      var retained := RetainedBegin(req, map[]);
      if versionTag != "" {
        retained := retained.(pointTags := retained.pointTags[versionTag := Version]);
      }
      beginResponse := Some(retained);
      capBase, rawCaps := capPrev, [];
    }

    /**
     * Appends the point's value (0.0 when the field is absent) and time.
     * With a capacity field configured, also appends its capacity, or the
     * carried one when it reports 0, and records a non-zero capacity in the
     * carry register.
     */
    method Point(p: BatchPoint)
      requires Valid()
      modifies this`ys, this`ts, this`cs, this`capPrev, this`rawCaps
      ensures Valid()
      ensures ys == old(ys) + [FieldValue(p.fieldsDouble, field)]
      ensures ts == old(ts) + [p.time]
      ensures capacityField == "" ==> cs == old(cs) && capPrev == old(capPrev) && rawCaps == old(rawCaps)
      ensures capacityField != "" ==>
        var raw := FieldValue(p.fieldsDouble, capacityField);
        && rawCaps == old(rawCaps) + [raw]
        && cs == old(cs) + [if raw == 0.0 then old(capPrev) else raw]
        && capPrev == (if raw == 0.0 then old(capPrev) else raw)
    {
      ys := ys + [FieldValue(p.fieldsDouble, field)];
      ts := ts + [p.time];
      if capacityField != "" {
        var cap := FieldValue(p.fieldsDouble, capacityField);
        CarryForwardSnoc(capBase, rawCaps, cap);
        rawCaps := rawCaps + [cap];
        if cap == 0.0 {
          cap := capPrev;
        } else {
          capPrev := cap;
        }
        cs := cs + [cap];
      }
    }

    /**
     * Ends a batch. With fewer than `2 * periods` samples nothing is written
     * and nothing changes. Otherwise the engine is run on the batch, the
     * retained begin response gets `size = periods`, and the emission for
     * the engine's rows from position `|ys|` on is returned. The buffers are
     * left as they are until the next batch begins.
     */
    method EndBatch(req: BatchEnd, engine: EngineInput -> seq<ForecastRow>) returns (out: seq<Response>)
      requires Valid()
      requires |ys| >= 2 * periods ==> beginResponse.Some?
      modifies this`beginResponse
      ensures Valid()
      ensures out == [] <==> |ys| < 2 * periods
      ensures |ys| < 2 * periods ==> beginResponse == old(beginResponse)
      ensures |ys| >= 2 * periods ==>
        && old(beginResponse).Some?
        && beginResponse == Some(old(beginResponse).value.(begin := old(beginResponse).value.begin.(size := periods)))
        && IsForecastEmission(out, old(beginResponse).value.begin, req, engine(EngineInputOf()), |ys|, periods, OutputNamesOf())
    {
      if |ys| < periods * 2 {
        return [];
      }
      var rows := engine(EngineInputOf());
      var retained := beginResponse.value;
      beginResponse := Some(retained.(begin := retained.begin.(size := periods)));
      out := WriteForecast(retained.begin, req, rows, |ys|, periods, OutputNamesOf());
    }
  }

  /**
   * The seven checks of `init`, each evaluated whatever the others found:
   * the messages of the failing ones in check order, and whether none failed.
   */
  method CheckConfig(c: Config) returns (success: bool, msg: seq<string>)
    ensures msg == Violations(c)
    ensures success <==> IsValid(c)
  {
    success := true;
    msg := [];
    assert success <==> msg == [];
    if c.field == "" {
      success := false;
      msg := msg + [CheckMessages[0]];  // "field name cannot be empty"
    }
    assert msg == FailedUpTo(c, 1);
    if c.periods <= 0 {
      success := false;
      msg := msg + [CheckMessages[1]];  // "periods must be positive"
    }
    assert msg == FailedUpTo(c, 2);
    if c.asField == "" {
      success := false;
      msg := msg + [CheckMessages[2]];  // "as name cannot be empty"
    }
    assert msg == FailedUpTo(c, 3);
    if c.asLower == "" {
      success := false;
      msg := msg + [CheckMessages[3]];  // "asLower name cannot be empty"
    }
    assert msg == FailedUpTo(c, 4);
    if c.asUpper == "" {
      success := false;
      msg := msg + [CheckMessages[4]];  // "asUpper name cannot be empty"
    }
    assert msg == FailedUpTo(c, 5);
    if c.intervalWidth <= 0.0 {
      success := false;
      msg := msg + [CheckMessages[5]];  // "intervalWwidth must be positive"
    }
    assert msg == FailedUpTo(c, 6);
    if c.changepointPriorScale <= 0.0 {
      success := false;
      msg := msg + [CheckMessages[6]];  // "changepointPriorScale must be positive"
    }
    assert msg == FailedUpTo(c, 7);
    assert Validate(c).success <==> msg == [];
  }

  /**
   * The version tag is written only into the retained response's point tag
   * map, which is never sent: a tag key that the begin request does not
   * carry appears on no emitted response.
   */
  lemma VersionTagNotEmitted(versionTag: string, begin: BatchBegin, out: seq<Response>, end: BatchEnd,
                             rows: seq<ForecastRow>, history: nat, periods: int, names: OutputNames)
    requires IsForecastEmission(out, begin, end, rows, history, periods, names)
    requires versionTag !in begin.tags && versionTag !in end.tags
    ensures forall i :: 0 <= i < |out| ==>
      && (out[i].BeginResp? ==> versionTag !in out[i].begin.tags)
      && (out[i].PointResp? ==> versionTag !in out[i].point.tags)
      && (out[i].EndResp? ==> versionTag !in out[i].end.tags)
  {
    SeriesIdentityPreserved(out, begin, end, rows, history, periods, names);
    forall i | 0 <= i < |out|
      ensures out[i].BeginResp? ==> versionTag !in out[i].begin.tags
      ensures out[i].PointResp? ==> versionTag !in out[i].point.tags
      ensures out[i].EndResp? ==> versionTag !in out[i].end.tags
    {
      if i == |out| - 1 {
        assert out[i].end.tags == end.tags;
      }
    }
  }

  /**
   * Within one batch, with a capacity field configured throughout, the
   * value, time and capacity columns have one entry per point, so the three
   * columns the engine is given have the same length.
   */
  method ColumnsAlignedInBatch(h: ProphetHandler, begin: BatchBegin, pts: seq<BatchPoint>)
    requires h.Valid() && h.capacityField != ""
    modifies h
    ensures h.Valid()
    ensures h.field == old(h.field) && h.capacityField == old(h.capacityField)
    ensures |h.cs| == |h.ys| == |h.ts| == |pts|
    ensures h.capBase == old(h.capPrev)
    ensures forall i :: 0 <= i < |pts| ==>
      && h.ys[i] == FieldValue(pts[i].fieldsDouble, h.field)
      && h.ts[i] == pts[i].time
      && h.rawCaps[i] == FieldValue(pts[i].fieldsDouble, h.capacityField)
  {
    h.BeginBatch(begin);
    for i := 0 to |pts|
      invariant h.Valid()
      invariant h.field == old(h.field) && h.capacityField == old(h.capacityField)
      invariant h.capBase == old(h.capPrev)
      invariant |h.ys| == |h.ts| == |h.rawCaps| == i
      invariant forall j :: 0 <= j < i ==>
        && h.ys[j] == FieldValue(pts[j].fieldsDouble, h.field)
        && h.ts[j] == pts[j].time
        && h.rawCaps[j] == FieldValue(pts[j].fieldsDouble, h.capacityField)
    {
      h.Point(pts[i]);
    }
  }

  /**
   * An `init` between two points of a batch that switches the capacity field
   * on leaves the capacity column one entry shorter than the value column.
   */
  method InitMidBatchMisaligns(h: ProphetHandler, begin: BatchBegin, p: BatchPoint, q: BatchPoint)
    requires h.Valid() && h.capacityField == ""
    modifies h
    ensures |h.ys| == 2 && |h.cs| == 1
  {
    h.BeginBatch(begin);
    assert |h.ys| == 0 && |h.cs| == 0;
    h.Point(p);
    assert |h.ys| == 1 && |h.cs| == 0;
    SwitchCapacityOn(h);
    h.Point(q);
  }

  /** An `init` whose only option sets the capacity field to `cap`. */
  method SwitchCapacityOn(h: ProphetHandler)
    requires h.Valid()
    modifies h`field, h`capacityField, h`periods, h`asField, h`asLower,
             h`asUpper, h`versionTag, h`intervalWidth, h`changepointPriorScale
    ensures h.Valid() && h.capacityField == "cap"
  {
    var opts := [InitOption("capacity", [StringValue("cap")])];
    CapacityOptionSetsField(h.CurrentConfig(), opts);
    var _ := h.Init(opts);
  }

  /** A single `capacity` option names the capacity field. */
  lemma CapacityOptionSetsField(c: Config, opts: seq<InitOption>)
    requires opts == [InitOption("capacity", [StringValue("cap")])]
    ensures AllWellFormed(opts) && ApplyOptions(c, opts).capacityField == "cap"
  {
    assert opts[..0] == [];
  }

  /**
   * The retained response as the protobuf message holds it: exactly one
   * member of its `oneof` is set, either the begin copied from the request
   * or a point whose tag map holds the version marker.
   */
  datatype RetainedSlot = BeginSet(begin: BatchBegin) | PointSet(pointTags: map<string, string>)

  /** The begin message with every field at its protobuf default. */
  const EmptyBegin := BatchBegin("", "", map[], 0, false)

  /**
   * `begin_batch` as written, under the `oneof` rule: writing the version
   * marker into the point member replaces the copied begin.
   */
  function RetainAsWritten(req: BatchBegin, versionTag: string): (r: RetainedSlot)
    ensures versionTag == "" ==> r == BeginSet(req)
    ensures versionTag != "" ==> r.PointSet? && versionTag in r.pointTags
  {
    if versionTag != "" then PointSet(map[versionTag := Version]) else BeginSet(req)
  }

  /** Reading the begin member: the default message when the point member is set. */
  function BeginOf(s: RetainedSlot): (r: BatchBegin)
    ensures s.BeginSet? ==> r == s.begin
    ensures s.PointSet? ==> r.name == "" && r.group == "" && r.tags == map[] && r.size == 0 && !r.byName
  {
    if s.BeginSet? then s.begin else EmptyBegin
  }

  /**
   * With a version tag configured, the code as written emits a begin
   * response and points without the series name and tags of the request.
   */
  lemma VersionTagClearsBegin(req: BatchBegin, versionTag: string, out: seq<Response>, end: BatchEnd,
                              rows: seq<ForecastRow>, history: nat, periods: int, names: OutputNames)
    requires versionTag != ""
    requires IsForecastEmission(out, BeginOf(RetainAsWritten(req, versionTag)), end, rows, history, periods, names)
    ensures out[0].BeginResp? && out[0].begin.name == "" && out[0].begin.tags == map[]
    ensures forall i :: 0 < i < |out| - 1 ==>
      out[i].PointResp? && out[i].point.name == "" && out[i].point.tags == map[]
  {
    SeriesIdentityPreserved(out, BeginOf(RetainAsWritten(req, versionTag)), end, rows, history, periods, names);
  }

  /**
   * Capacities [5, 0, 0, 7, 0] are carried as [5, 5, 5, 7, 7], and a later
   * batch whose first point reports 0 starts from the 7 carried over.
   */
  method CarryAcrossBatches(h: ProphetHandler) returns (first: seq<real>, second: seq<real>)
    requires h.Valid() && h.capacityField == "cap" && h.capPrev == 0.0
    modifies h
    ensures first == [5.0, 5.0, 5.0, 7.0, 7.0]
    ensures second == [7.0]
  {
    var begin := BatchBegin("cpu", "", map[], 0, false);
    var pts := [
      BatchPoint(1, "cpu", "", map[], map["cap" := 5.0]),
      BatchPoint(2, "cpu", "", map[], map["cap" := 0.0]),
      BatchPoint(3, "cpu", "", map[], map[]),
      BatchPoint(4, "cpu", "", map[], map["cap" := 7.0]),
      BatchPoint(5, "cpu", "", map[], map["cap" := 0.0])];
    ColumnsAlignedInBatch(h, begin, pts);
    assert h.rawCaps == [5.0, 0.0, 0.0, 7.0, 0.0];
    CarryForwardExample1();
    first := h.cs;
    assert h.capPrev == 7.0;
    ColumnsAlignedInBatch(h, begin, [BatchPoint(6, "cpu", "", map[], map["cap" := 0.0])]);
    assert h.capBase == 7.0 && h.rawCaps == [0.0];
    second := h.cs;
  }

  /**
   * Once `periods` is positive, a batch with no points emits nothing,
   * whatever earlier batches held.
   */
  method EmptyBatchEmitsNothing(h: ProphetHandler, begin: BatchBegin, end: BatchEnd,
                                engine: EngineInput -> seq<ForecastRow>) returns (out: seq<Response>)
    requires h.Valid() && h.periods > 0
    modifies h
    ensures out == []
  {
    h.BeginBatch(begin);
    out := h.EndBatch(end, engine);
  }
}
