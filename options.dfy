/**
 * Configuration of a prophet session: the option schema, how the `init`
 * options overwrite the configuration, and the seven validation rules whose
 * violations are reported together.
 */
module ProphetOptions {
  import opened Protocol
  import opened Wrappers

  /** The handler's configuration fields. */
  datatype Config = Config(
    field: string,
    capacityField: string,
    periods: int,
    asField: string,
    asLower: string,
    asUpper: string,
    versionTag: string,
    intervalWidth: real,
    changepointPriorScale: real)

  /**
   * The configuration a handler starts with. The output names are derived
   * from the initial field name `value`, once, when the handler is created.
   */
  const DefaultConfig := Config("value", "", 0, "value", "value_lower", "value_upper", "", 0.80, 0.05)

  /** The options the handler declares and parses. */
  datatype OptionKey =
    | FieldKey | CapacityKey | PeriodsKey | AsKey | AsLowerKey | AsUpperKey
    | VersionTagKey | IntervalWidthKey | ChangepointPriorScaleKey

  /** The name under which an option is declared and sent. */
  function KeyName(k: OptionKey): string {
    match k
    case FieldKey => "field"
    case CapacityKey => "capacity"
    case PeriodsKey => "periods"
    case AsKey => "as"
    case AsLowerKey => "asLower"
    case AsUpperKey => "asUpper"
    case VersionTagKey => "versionTag"
    case IntervalWidthKey => "intervalWidth"
    case ChangepointPriorScaleKey => "changepointPriorScale"
  }

  /** The option a name denotes, if the handler recognises it. */
  function KeyOf(name: string): (r: Option<OptionKey>)
    ensures r.Some? ==> KeyName(r.value) == name
  {
    if name == "field" then Some(FieldKey)
    else if name == "capacity" then Some(CapacityKey)
    else if name == "periods" then Some(PeriodsKey)
    else if name == "as" then Some(AsKey)
    else if name == "asLower" then Some(AsLowerKey)
    else if name == "asUpper" then Some(AsUpperKey)
    else if name == "versionTag" then Some(VersionTagKey)
    else if name == "intervalWidth" then Some(IntervalWidthKey)
    else if name == "changepointPriorScale" then Some(ChangepointPriorScaleKey)
    else None
  }

  /** Every declared name is recognised as its own option, so names and options correspond one to one. */
  lemma KeyNameRoundTrip(k: OptionKey)
    ensures KeyOf(KeyName(k)) == Some(k)
  {
  }

  predicate Recognised(name: string) {
    KeyOf(name).Some?
  }

  /** The one value type each option is declared with. */
  function DeclaredType(k: OptionKey): ValueType {
    match k
    case PeriodsKey => IntType
    case IntervalWidthKey => DoubleType
    case ChangepointPriorScaleKey => DoubleType
    case _ => StringType
  }

  /** What the parser keeps of a value read as the option's declared type. */
  function Coerce(k: OptionKey, v: OptionValue): OptionValue {
    match DeclaredType(k)
    case IntType => IntValue(IntOf(v))
    case DoubleType => DoubleValue(DoubleOf(v))
    case _ => StringValue(StringOf(v))
  }

  /** The configuration field an option controls, as an option value. */
  function Setting(c: Config, k: OptionKey): OptionValue {
    match k
    case FieldKey => StringValue(c.field)
    case CapacityKey => StringValue(c.capacityField)
    case PeriodsKey => IntValue(c.periods)
    case AsKey => StringValue(c.asField)
    case AsLowerKey => StringValue(c.asLower)
    case AsUpperKey => StringValue(c.asUpper)
    case VersionTagKey => StringValue(c.versionTag)
    case IntervalWidthKey => DoubleValue(c.intervalWidth)
    case ChangepointPriorScaleKey => DoubleValue(c.changepointPriorScale)
  }

  /** Two configurations with the same setting for every option are equal. */
  lemma SettingsDetermineConfig(c: Config, d: Config)
    requires forall k :: Setting(c, k) == Setting(d, k)
    ensures c == d
  {
    assert Setting(c, FieldKey) == Setting(d, FieldKey);
    assert Setting(c, CapacityKey) == Setting(d, CapacityKey);
    assert Setting(c, PeriodsKey) == Setting(d, PeriodsKey);
    assert Setting(c, AsKey) == Setting(d, AsKey);
    assert Setting(c, AsLowerKey) == Setting(d, AsLowerKey);
    assert Setting(c, AsUpperKey) == Setting(d, AsUpperKey);
    assert Setting(c, VersionTagKey) == Setting(d, VersionTagKey);
    assert Setting(c, IntervalWidthKey) == Setting(d, IntervalWidthKey);
    assert Setting(c, ChangepointPriorScaleKey) == Setting(d, ChangepointPriorScaleKey);
  }

  /** A recognised option is read at `values[0]`, so it must carry a value. */
  predicate WellFormed(o: InitOption) {
    Recognised(o.name) ==> |o.values| > 0
  }

  /**
   * One iteration of the option loop: a recognised option overwrites exactly
   * its own field with its first value, read as the declared type; any other
   * option changes nothing.
   */
  function ApplyOption(c: Config, o: InitOption): (r: Config)
    requires WellFormed(o)
    ensures KeyOf(o.name).None? ==> r == c
    ensures KeyOf(o.name).Some? ==> Setting(r, KeyOf(o.name).value) == Coerce(KeyOf(o.name).value, o.values[0])
    ensures forall k :: KeyOf(o.name) != Some(k) ==> Setting(r, k) == Setting(c, k)
  {
    // `field` is tested by a separate `if`; the other names form one `elif` chain.
    var c1 := if o.name == "field" then c.(field := StringOf(o.values[0])) else c;
    if o.name == "capacity" then c1.(capacityField := StringOf(o.values[0]))
    else if o.name == "periods" then c1.(periods := IntOf(o.values[0]))
    else if o.name == "as" then c1.(asField := StringOf(o.values[0]))
    else if o.name == "asLower" then c1.(asLower := StringOf(o.values[0]))
    else if o.name == "asUpper" then c1.(asUpper := StringOf(o.values[0]))
    else if o.name == "versionTag" then c1.(versionTag := StringOf(o.values[0]))
    else if o.name == "intervalWidth" then c1.(intervalWidth := DoubleOf(o.values[0]))
    else if o.name == "changepointPriorScale" then c1.(changepointPriorScale := DoubleOf(o.values[0]))
    else c1
  }

  predicate AllWellFormed(opts: seq<InitOption>) {
    forall j :: 0 <= j < |opts| ==> WellFormed(opts[j])
  }

  /** The option loop run over `opts` in order, starting from `c`. */
  function ApplyOptions(c: Config, opts: seq<InitOption>): Config
    requires AllWellFormed(opts)
    decreases |opts|
  {
    if opts == [] then c
    else ApplyOption(ApplyOptions(c, opts[..|opts| - 1]), opts[|opts| - 1])
  }

  /** `i` is the position of the last option in `opts` named `name`. */
  ghost predicate IsLastNamed(opts: seq<InitOption>, name: string, i: int) {
    0 <= i < |opts| && opts[i].name == name &&
    forall j :: i < j < |opts| ==> opts[j].name != name
  }

  /** When an option name repeats, its last occurrence decides the field. */
  lemma {:induction false} LastOptionWins(c: Config, opts: seq<InitOption>, k: OptionKey, i: int)
    requires AllWellFormed(opts) && IsLastNamed(opts, KeyName(k), i)
    ensures Setting(ApplyOptions(c, opts), k) == Coerce(k, opts[i].values[0])
  {
    var init := opts[..|opts| - 1];
    assert AllWellFormed(init);
    if i < |opts| - 1 {
      assert IsLastNamed(init, KeyName(k), i);
      LastOptionWins(c, init, k, i);
    } else {
      KeyNameRoundTrip(k);
    }
  }

  /** An option name that does not occur leaves its field as it was. */
  lemma {:induction false} AbsentOptionKeepsSetting(c: Config, opts: seq<InitOption>, k: OptionKey)
    requires AllWellFormed(opts)
    requires forall j :: 0 <= j < |opts| ==> opts[j].name != KeyName(k)
    ensures Setting(ApplyOptions(c, opts), k) == Setting(c, k)
  {
    if opts != [] {
      var init := opts[..|opts| - 1];
      assert AllWellFormed(init);
      AbsentOptionKeepsSetting(c, init, k);
    }
  }

  /** Options with unrecognised names can be dropped without changing the outcome. */
  lemma {:induction false} UnrecognisedOptionsIgnored(c: Config, opts: seq<InitOption>, o: InitOption)
    requires AllWellFormed(opts) && !Recognised(o.name)
    ensures AllWellFormed(opts + [o]) && ApplyOptions(c, opts + [o]) == ApplyOptions(c, opts)
  {
    var all := opts + [o];
    assert all[..|all| - 1] == opts;
  }

  // ---------------------------------------------------------------------------
  // Validation

  /** The violation messages, in check order, spelled as the handler spells them. */
  const CheckMessages: seq<string> := [
    "field name cannot be empty",
    "periods must be positive",
    "as name cannot be empty",
    "asLower name cannot be empty",
    "asUpper name cannot be empty",
    "intervalWwidth must be positive",
    "changepointPriorScale must be positive"
  ]

  const CheckCount := 7

  /** Rule `k` of the seven checks holds of `c`. */
  predicate Passes(c: Config, k: nat)
    requires k < CheckCount
  {
    match k
    case 0 => c.field != ""
    case 1 => c.periods > 0
    case 2 => c.asField != ""
    case 3 => c.asLower != ""
    case 4 => c.asUpper != ""
    case 5 => c.intervalWidth > 0.0
    case _ => c.changepointPriorScale > 0.0
  }

  /** Messages of the failing rules among the first `k`, in rule order. */
  function FailedUpTo(c: Config, k: nat): seq<string>
    requires k <= CheckCount
    decreases k
  {
    if k == 0 then []
    else FailedUpTo(c, k - 1) + (if Passes(c, k - 1) then [] else [CheckMessages[k - 1]])
  }

  /** Messages of every failing rule, in rule order. */
  function Violations(c: Config): seq<string> {
    FailedUpTo(c, CheckCount)
  }

  /** Among the first `k` rules, a rule's message is reported exactly when that rule fails. */
  lemma {:induction false} FailedUpToReports(c: Config, k: nat, m: nat)
    requires k <= CheckCount && m < CheckCount
    ensures CheckMessages[m] in FailedUpTo(c, k) <==> m < k && !Passes(c, m)
    decreases k
  {
    if k > 0 {
      FailedUpToReports(c, k - 1, m);
    }
  }

  /** A rule's message is among the violations exactly when the rule fails. */
  lemma ViolationReportedIff(c: Config, m: nat)
    requires m < CheckCount
    ensures CheckMessages[m] in Violations(c) <==> !Passes(c, m)
  {
    FailedUpToReports(c, CheckCount, m);
  }

  /** Nothing is reported for the first `k` rules exactly when all of them hold. */
  lemma {:induction false} NoFailuresUpTo(c: Config, k: nat)
    requires k <= CheckCount
    ensures FailedUpTo(c, k) == [] <==> forall j :: 0 <= j < k ==> Passes(c, j)
    decreases k
  {
    if k > 0 {
      NoFailuresUpTo(c, k - 1);
    }
  }

  /** Every reported message is non-empty. */
  lemma {:induction false} ViolationsNonEmpty(c: Config, k: nat)
    requires k <= CheckCount
    ensures forall j :: 0 <= j < |FailedUpTo(c, k)| ==> FailedUpTo(c, k)[j] != ""
    decreases k
  {
    if k > 0 {
      ViolationsNonEmpty(c, k - 1);
    }
  }

  /** All seven rules, spelled out. */
  predicate IsValid(c: Config) {
    && c.field != ""
    && c.periods > 0
    && c.asField != ""
    && c.asLower != ""
    && c.asUpper != ""
    && c.intervalWidth > 0.0
    && c.changepointPriorScale > 0.0
  }

  /** `'\n'.join(parts)`. */
  function Join(parts: seq<string>, sep: string): string {
    if |parts| == 0 then ""
    else if |parts| == 1 then parts[0]
    else parts[0] + sep + Join(parts[1..], sep)
  }

  /** A join of non-empty parts is empty exactly when there are no parts. */
  lemma JoinEmptyIff(parts: seq<string>, sep: string)
    requires forall j :: 0 <= j < |parts| ==> parts[j] != ""
    ensures Join(parts, sep) == "" <==> parts == []
  {
    if |parts| > 1 {
      assert Join(parts, sep) == parts[0] + sep + Join(parts[1..], sep);
    }
  }

  /**
   * The reply to `init`: `success` holds exactly when all seven rules hold,
   * and the error text is empty exactly when it succeeds.
   */
  function Validate(c: Config): (r: InitResponse)
    ensures r.success <==> IsValid(c)
    ensures r.error == "" <==> r.success
  {
    ViolationsNonEmpty(c, CheckCount);
    JoinEmptyIff(Violations(c), "\n");
    NoFailuresUpTo(c, CheckCount);
    assert IsValid(c) <==> forall j :: 0 <= j < CheckCount ==> Passes(c, j) by {
      assert (Passes(c, 0) && Passes(c, 1) && Passes(c, 2) && Passes(c, 3) &&
              Passes(c, 4) && Passes(c, 5) && Passes(c, 6)) <==> IsValid(c);
    }
    InitResponse(Violations(c) == [], Join(Violations(c), "\n"))
  }

  /** The options as declared to the host by `info`: each with its one value type. */
  function Schema(): (r: map<string, OptionInfo>)
    ensures forall n :: n in r <==> Recognised(n)
    ensures forall k :: KeyName(k) in r && r[KeyName(k)] == OptionInfo([DeclaredType(k)])
  {
    map[
      "field" := OptionInfo([StringType]),
      "capacity" := OptionInfo([StringType]),
      "periods" := OptionInfo([IntType]),
      "as" := OptionInfo([StringType]),
      "asLower" := OptionInfo([StringType]),
      "asUpper" := OptionInfo([StringType]),
      "versionTag" := OptionInfo([StringType]),
      "intervalWidth" := OptionInfo([DoubleType]),
      "changepointPriorScale" := OptionInfo([DoubleType])
    ]
  }

  /** Without a `periods` option, `init` fails and reports that periods must be positive. */
  lemma DefaultPeriodsRejected(start: Config, opts: seq<InitOption>)
    requires start == DefaultConfig && AllWellFormed(opts)
    requires forall j :: 0 <= j < |opts| ==> opts[j].name != "periods"
    ensures ApplyOptions(start, opts).periods == 0
    ensures !Validate(ApplyOptions(start, opts)).success
    ensures CheckMessages[1] in Violations(ApplyOptions(start, opts))
  {
    var c := ApplyOptions(start, opts);
    AbsentOptionKeepsSetting(start, opts, PeriodsKey);
    assert Setting(c, PeriodsKey) == IntValue(0);
    ViolationReportedIff(c, 1);
  }

  /**
   * The output names keep their defaults, derived from `value`, whatever
   * `field` is set to, unless they are set themselves.
   */
  lemma OutputNamesIndependentOfField(start: Config, opts: seq<InitOption>)
    requires start == DefaultConfig && AllWellFormed(opts)
    requires forall j :: 0 <= j < |opts| ==> opts[j].name != "as" && opts[j].name != "asLower" && opts[j].name != "asUpper"
    ensures ApplyOptions(start, opts).asField == "value"
    ensures ApplyOptions(start, opts).asLower == "value_lower"
    ensures ApplyOptions(start, opts).asUpper == "value_upper"
  {
    var c := ApplyOptions(start, opts);
    AbsentOptionKeepsSetting(start, opts, AsKey);
    AbsentOptionKeepsSetting(start, opts, AsLowerKey);
    AbsentOptionKeepsSetting(start, opts, AsUpperKey);
    assert Setting(c, AsKey) == StringValue("value");
    assert Setting(c, AsLowerKey) == StringValue("value_lower");
    assert Setting(c, AsUpperKey) == StringValue("value_upper");
  }

  /** Empty field name, zero periods and empty `as` together: three lines, in rule order. */
  lemma ThreeViolationsExample(c: Config)
    requires c == DefaultConfig.(field := "", asField := "")
    ensures Violations(c) == CheckMessages[..3]
    ensures Validate(c).error == CheckMessages[0] + "\n" + CheckMessages[1] + "\n" + CheckMessages[2]
  {
    assert FailedUpTo(c, 1) == [CheckMessages[0]];
    assert FailedUpTo(c, 2) == [CheckMessages[0], CheckMessages[1]];
    assert FailedUpTo(c, 3) == [CheckMessages[0], CheckMessages[1], CheckMessages[2]];
    assert FailedUpTo(c, 7) == FailedUpTo(c, 3);
    var v := Violations(c);
    assert v[1..] == [CheckMessages[1], CheckMessages[2]] && v[1..][1..] == [CheckMessages[2]];
    assert Join(v[1..], "\n") == CheckMessages[1] + "\n" + CheckMessages[2];
    assert Join(Violations(c), "\n") == CheckMessages[0] + "\n" + (CheckMessages[1] + "\n" + CheckMessages[2]);
  }
}
