/**
 * The alarm compiler: one alarm specification and a region become one
 * CloudWatch alarm resource fragment per threshold (the `Alarm` class of
 * src/plugin.js).
 */
module Alarms {
  import opened Wrappers
  import opened Text

  const DEFAULT_NAMESPACE: string := "AWS/SQS"
  const DEFAULT_PERIOD: nat := 60
  const DEFAULT_EVALUATION_PERIODS: nat := 1
  const ALARM_RESOURCE_TYPE: string := "AWS::CloudWatch::Alarm"
  const VISIBLE_MESSAGES_METRIC: string := "ApproximateNumberOfMessagesVisible"
  const SUM_STATISTIC: string := "Sum"
  const AT_OR_ABOVE_THRESHOLD: string := "GreaterThanOrEqualToThreshold"
  const KEY_INFIX: string := "MessageAlarm"
  /** The treatments CloudWatch accepts, in the order the source lists them. */
  const VALID_TREATMENTS: seq<string> := ["missing", "ignore", "breaching", "notBreaching"]

  /**
   * A threshold value: a JavaScript number that is a non-negative integer no
   * larger than `Number.MAX_SAFE_INTEGER`, the range in which JavaScript
   * prints a number as its exact decimal digits.
   */
  type ThresholdValue = n: nat | n <= 9007199254740991

  /** A threshold with its optional per-threshold overrides; `None` is `undefined`. */
  datatype Props = Props(value: ThresholdValue, namespace: Option<string>, period: Option<nat>,
                         evaluationPeriods: Option<nat>)

  /** A `thresholds` entry: a bare number or an object with a `value`. */
  datatype Threshold = Bare(n: ThresholdValue) | Structured(props: Props)

  /** The `treatMissingData` setting: absent, one string for all thresholds, or an array by index. */
  datatype MissingData = Absent | Uniform(treatment: string) | PerIndex(treatments: seq<string>)

  /** One entry of `custom['sqs-alarms'].alarms`. `okAlerts` is a boolean or `undefined`. */
  datatype AlarmSpec = AlarmSpec(queue: string, topic: string, thresholds: seq<Threshold>,
                                 name: Option<string>, treatMissingData: MissingData,
                                 okAlerts: Option<bool>)

  /** One part of an `Fn::Join`: a literal string or a `{ Ref: ... }` the template engine resolves. */
  datatype JoinPart = Literal(text: string) | Ref(logicalId: string)

  /** An `{ 'Fn::Join': [delimiter, parts] }` value. */
  datatype Action = FnJoin(delimiter: string, parts: seq<JoinPart>)

  datatype Dimension = Dimension(Name: string, Value: string)

  /** The `Properties` object of an alarm resource; `None` is a property that is not set. */
  datatype AlarmProperties = AlarmProperties(
    AlarmDescription: string,
    Namespace: string,
    MetricName: string,
    Dimensions: seq<Dimension>,
    Statistic: string,
    Period: nat,
    EvaluationPeriods: nat,
    Threshold: nat,
    ComparisonOperator: string,
    AlarmActions: seq<Action>,
    OKActions: Option<seq<Action>>,
    AlarmName: Option<string>,
    TreatMissingData: Option<string>)

  datatype Resource = Resource(Type: string, Properties: AlarmProperties)

  /** The single-key object `{ [key]: resource }` one threshold compiles to. */
  datatype Fragment = Fragment(key: string, resource: Resource)

  /** JavaScript `s || d` for a string property. */
  function OrString(s: Option<string>, d: string): string
  {
    if s.Some? && s.value != "" then s.value else d
  }

  /** JavaScript `n || d` for a numeric property. */
  function OrNat(n: Option<nat>, d: nat): nat
  {
    if n.Some? && n.value != 0 then n.value else d
  }

  /** The ARN of the notification topic, joined by the template engine with the account id. */
  function TopicAction(region: string, topic: string): Action
  {
    FnJoin("", [Literal("arn:aws:sns:" + region + ":"), Ref("AWS::AccountId"), Literal(":" + topic)])
  }

  /** `util.format('Alarm if queue contains more than %s messages', value)`. */
  function Description(value: ThresholdValue): string
  {
    "Alarm if queue contains more than " + NatToDecimal(value) + " messages"
  }

  /** The treatment resolved for a threshold index, as the source's rules state it. */
  function ExpectedTreatment(md: MissingData, index: nat): (r: Option<string>)
    ensures r.Some? ==> r.value in VALID_TREATMENTS
  {
    match md
    case Absent => None
    case Uniform(t) => if t in VALID_TREATMENTS then Some(t) else None
    case PerIndex(ts) => if index < |ts| && ts[index] in VALID_TREATMENTS then Some(ts[index]) else None
  }

  /** The `Alarm` object built from a specification and the provider's region. */
  datatype Alarm = Alarm(queue: string, topic: string, region: string, thresholds: seq<Threshold>,
                         name: Option<string>, treatMissingData: MissingData, okAlerts: bool)
  {
    /** The constructor: `okAlerts` defaults to true only when it is not given. */
    static function New(spec: AlarmSpec, region: string): (a: Alarm)
      ensures a.okAlerts <==> spec.okAlerts != Some(false)
      ensures a.queue == spec.queue && a.topic == spec.topic && a.region == region
      ensures a.thresholds == spec.thresholds && a.name == spec.name
      ensures a.treatMissingData == spec.treatMissingData
    {
      Alarm(spec.queue, spec.topic, region, spec.thresholds, spec.name, spec.treatMissingData,
            if spec.okAlerts.None? then true else spec.okAlerts.value)
    }

    /** The resource key: the queue with non-alphanumerics removed, `MessageAlarm`, the value. */
    function FormatAlarmName(value: ThresholdValue): string
    {
      StripNonAlnum(queue) + KEY_INFIX + NatToDecimal(value)
    }

    /** The treatment for one threshold, from the single setting or the array by index. */
    function ResolveTreatMissingData(index: nat): (r: Option<string>)
      requires !treatMissingData.Absent?
      ensures r.Some? ==> r.value in VALID_TREATMENTS
      ensures r == ExpectedTreatment(treatMissingData, index)
    {
      match treatMissingData
      case PerIndex(ts) => if index < |ts| then ValidateTreatMissingData(ts[index]) else None
      case Uniform(t) => ValidateTreatMissingData(t)
    }

    /** A treatment passes unchanged when it is one of the four recognised names, else nothing. */
    static function ValidateTreatMissingData(treatment: string): (r: Option<string>)
      ensures r.Some? <==> treatment in VALID_TREATMENTS
      ensures r.Some? ==> r.value == treatment
    {
      if treatment in VALID_TREATMENTS then Some(treatment) else None
    }

    /** A bare number becomes `{ value }`; an object is used as it is. */
    static function ResourceProperties(threshold: Threshold): Props
    {
      match threshold
      case Structured(p) => p
      case Bare(n) => Props(n, None, None, None)
    }

    /** `treatMissingData` as a condition: `undefined` and `''` are falsy, every array is truthy. */
    predicate TreatMissingDataTruthy()
    {
      match treatMissingData
      case Absent => false
      case Uniform(t) => t != ""
      case PerIndex(_) => true
    }

    /** The `Properties` object literal, before `OKActions` is deleted or optional fields are added. */
    function InitialProperties(p: Props): AlarmProperties
    {
      var action := TopicAction(region, topic);
      AlarmProperties(
        AlarmDescription := Description(p.value),
        Namespace := OrString(p.namespace, DEFAULT_NAMESPACE),
        MetricName := VISIBLE_MESSAGES_METRIC,
        Dimensions := [Dimension("QueueName", queue)],
        Statistic := SUM_STATISTIC,
        Period := OrNat(p.period, DEFAULT_PERIOD),
        EvaluationPeriods := OrNat(p.evaluationPeriods, DEFAULT_EVALUATION_PERIODS),
        Threshold := p.value,
        ComparisonOperator := AT_OR_ABOVE_THRESHOLD,
        AlarmActions := [action],
        OKActions := Some([action]),
        AlarmName := None,
        TreatMissingData := None)
    }

    /** The fragment the callback of `resources()` builds for threshold `threshold` at position `index`. */
    function ResourceFor(threshold: Threshold, index: nat): Fragment
    {
      var p := ResourceProperties(threshold);
      var base := InitialProperties(p);
      var withOk := if !okAlerts then base.(OKActions := None) else base;
      var withName := if name.Some? && name.value != "" then
          withOk.(AlarmName := Some(name.value + "-" + queue + "-" + NatToDecimal(p.value)))
        else withOk;
      var treatment := if TreatMissingDataTruthy() then ResolveTreatMissingData(index) else None;
      var properties := if treatment.Some? then withName.(TreatMissingData := treatment) else withName;
      Fragment(FormatAlarmName(p.value), Resource(ALARM_RESOURCE_TYPE, properties))
    }

    /** `resources()`: one fragment per threshold, in threshold order. */
    function Resources(): (r: seq<Fragment>)
      ensures |r| == |thresholds|
      ensures forall i :: 0 <= i < |r| ==> r[i] == ResourceFor(thresholds[i], i)
    {
      seq(|thresholds|, i requires 0 <= i < |thresholds| => ResourceFor(thresholds[i], i))
    }
  }

  /** The value a threshold entry alarms at. */
  function ValueOf(t: Threshold): ThresholdValue
  {
    Alarm.ResourceProperties(t).value
  }

  /** CloudWatch accepts the key: it holds ASCII letters and digits only. */
  lemma FormatAlarmNameIsAlnum(a: Alarm, value: ThresholdValue)
    ensures AllAlnum(a.FormatAlarmName(value))
  {
  }

  /**
   * Two keys coincide exactly when the stripped queue names and the values do:
   * the key never mixes up one queue's digits with another's value.
   */
  lemma FormatAlarmNameInjective(a: Alarm, b: Alarm, v: ThresholdValue, w: ThresholdValue)
    ensures a.FormatAlarmName(v) == b.FormatAlarmName(w) <==>
            StripNonAlnum(a.queue) == StripNonAlnum(b.queue) && v == w
  {
    var p1 := StripNonAlnum(a.queue) + KEY_INFIX;
    var p2 := StripNonAlnum(b.queue) + KEY_INFIX;
    assert a.FormatAlarmName(v) == p1 + NatToDecimal(v);
    assert b.FormatAlarmName(w) == p2 + NatToDecimal(w);
    if a.FormatAlarmName(v) == b.FormatAlarmName(w) {
      assert p1[|p1| - 1] == 'm' && p2[|p2| - 1] == 'm';
      DigitSuffixUnique(p1, NatToDecimal(v), p2, NatToDecimal(w));
      assert StripNonAlnum(a.queue) == p1[..|p1| - |KEY_INFIX|] == StripNonAlnum(b.queue);
      DecimalInjective(v, w);
    }
  }

  /**
   * Within one alarm two fragments share a key exactly when their thresholds
   * share a value; only then does the later one land on the earlier one.
   */
  lemma ResourceKeysCollideOnlyOnEqualValues(a: Alarm, i: nat, j: nat)
    requires i < |a.thresholds| && j < |a.thresholds|
    ensures a.Resources()[i].key == a.Resources()[j].key <==>
            ValueOf(a.thresholds[i]) == ValueOf(a.thresholds[j])
  {
    FormatAlarmNameInjective(a, a, ValueOf(a.thresholds[i]), ValueOf(a.thresholds[j]));
  }

  /** The fields every fragment carries, fixed or taken from the threshold value, queue and topic. */
  lemma ResourceForFixedFields(a: Alarm, threshold: Threshold, index: nat)
    ensures var value := Alarm.ResourceProperties(threshold).value;
      var r := a.ResourceFor(threshold, index);
      var props := r.resource.Properties;
      && r.key == a.FormatAlarmName(value)
      && r.resource.Type == ALARM_RESOURCE_TYPE
      && props.AlarmDescription == "Alarm if queue contains more than " + NatToDecimal(value) + " messages"
      && props.MetricName == VISIBLE_MESSAGES_METRIC
      && props.Dimensions == [Dimension("QueueName", a.queue)]
      && props.Statistic == SUM_STATISTIC
      && props.Threshold == value
      && props.ComparisonOperator == AT_OR_ABOVE_THRESHOLD
      && props.AlarmActions == [TopicAction(a.region, a.topic)]
  {
  }

  /** Namespace, period and evaluation periods: a truthy override wins, else the default. */
  lemma ResourceForDefaults(a: Alarm, threshold: Threshold, index: nat)
    ensures var p := Alarm.ResourceProperties(threshold);
      var props := a.ResourceFor(threshold, index).resource.Properties;
      && props.Namespace == (if p.namespace.Some? && p.namespace.value != "" then p.namespace.value
                             else DEFAULT_NAMESPACE)
      && props.Period == (if p.period.Some? && p.period.value != 0 then p.period.value
                          else DEFAULT_PERIOD)
      && props.EvaluationPeriods == (if p.evaluationPeriods.Some? && p.evaluationPeriods.value != 0
                                     then p.evaluationPeriods.value else DEFAULT_EVALUATION_PERIODS)
  {
  }

  /**
   * The optional fields: OK actions exactly when `okAlerts` holds, equal to the
   * alarm actions; a name exactly when `name` is non-empty; a treatment exactly
   * when one resolves, and then a recognised one.
   */
  lemma ResourceForOptionalFields(a: Alarm, threshold: Threshold, index: nat)
    ensures var value := Alarm.ResourceProperties(threshold).value;
      var props := a.ResourceFor(threshold, index).resource.Properties;
      && (props.OKActions.Some? <==> a.okAlerts)
      && (props.OKActions.Some? ==> props.OKActions.value == props.AlarmActions)
      && (props.AlarmName.Some? <==> a.name.Some? && a.name.value != "")
      && (props.AlarmName.Some? ==>
            props.AlarmName.value == a.name.value + "-" + a.queue + "-" + NatToDecimal(value))
      && props.TreatMissingData == ExpectedTreatment(a.treatMissingData, index)
      && (props.TreatMissingData.Some? ==> props.TreatMissingData.value in VALID_TREATMENTS)
  {
  }

  /** A bare number compiles exactly like an object holding only that value. */
  lemma BareThresholdIsValueOnly(a: Alarm, n: ThresholdValue, index: nat)
    ensures a.ResourceFor(Bare(n), index) == a.ResourceFor(Structured(Props(n, None, None, None)), index)
  {
  }

  /** A single treatment setting gives every threshold the same treatment. */
  lemma UniformTreatmentEverywhere(a: Alarm, i: nat, j: nat)
    requires a.treatMissingData.Uniform?
    requires i < |a.thresholds| && j < |a.thresholds|
    ensures a.Resources()[i].resource.Properties.TreatMissingData ==
            a.Resources()[j].resource.Properties.TreatMissingData
  {
  }

  /** `['notBreaching', 'invalid', 'missing']` over three thresholds: the invalid middle entry gives nothing. */
  lemma ExampleTreatmentsByIndex()
    ensures var md := PerIndex(["notBreaching", "invalid", "missing"]);
      && ExpectedTreatment(md, 0) == Some("notBreaching")
      && ExpectedTreatment(md, 1) == None
      && ExpectedTreatment(md, 2) == Some("missing")
      && ExpectedTreatment(md, 3) == None
  {
  }

  /** `{ value: 3, period: 5, evaluationPeriods: 1, namespace: 'test' }` keeps its overrides. */
  lemma ExampleCustomThreshold(a: Alarm, index: nat)
    ensures var props := a.ResourceFor(Structured(Props(3, Some("test"), Some(5), Some(1))), index)
                          .resource.Properties;
      && props.Period == 5 && props.EvaluationPeriods == 1 && props.Namespace == "test"
      && props.Threshold == 3
  {
  }
}
