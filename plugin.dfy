/**
 * `Plugin.beforeDeployResources`: the configuration and stage guard, one
 * `Alarm` per configured specification, and every alarm's fragments merged
 * into the deployment template's resources, specifications in order and
 * thresholds in order within each.
 */
module Plugin {
  import opened Wrappers
  import opened Alarms
  import opened Text

  /**
   * `custom['sqs-alarms']`: the optional list of stages to deploy on (a
   * missing or non-array `stages` is `None`) and the alarm specifications.
   */
  datatype SqsAlarmsConfig = SqsAlarmsConfig(stages: Option<seq<string>>, alarms: seq<AlarmSpec>)

  /** The guard: a configuration is present and, when it lists stages, lists the current one. */
  predicate Deploys(config: Option<SqsAlarmsConfig>, stage: string)
  {
    config.Some? && (config.value.stages.Some? ==> stage in config.value.stages.value)
  }

  /** `alarms.map((data) => new Alarm(data, region))`. */
  function AlarmsOf(specs: seq<AlarmSpec>, region: string): (r: seq<Alarm>)
    ensures |r| == |specs|
    ensures forall k :: 0 <= k < |r| ==> r[k] == Alarm.New(specs[k], region)
  {
    seq(|specs|, k requires 0 <= k < |specs| => Alarm.New(specs[k], region))
  }

  /** The lists one after the other. */
  function Concat<T>(lists: seq<seq<T>>): seq<T>
  {
    if lists == [] then [] else Concat(lists[..|lists| - 1]) + lists[|lists| - 1]
  }

  /** `resources()` of every alarm, in order. */
  function ResourceLists(alarms: seq<Alarm>): (r: seq<seq<Fragment>>)
    ensures |r| == |alarms|
    ensures forall k :: 0 <= k < |r| ==> r[k] == alarms[k].Resources()
  {
    seq(|alarms|, k requires 0 <= k < |alarms| => alarms[k].Resources())
  }

  /** Every alarm's fragments, alarm after alarm. */
  function Flatten(alarms: seq<Alarm>): seq<Fragment>
  {
    Concat(ResourceLists(alarms))
  }

  /** The number of thresholds over all alarms. */
  function ThresholdCount(alarms: seq<Alarm>): nat
  {
    if alarms == [] then 0
    else ThresholdCount(alarms[..|alarms| - 1]) + |alarms[|alarms| - 1].thresholds|
  }

  /** The fragments one run of the hook merges into the template, in merge order. */
  function Compile(config: Option<SqsAlarmsConfig>, stage: string, region: string): (r: seq<Fragment>)
    ensures !Deploys(config, stage) ==> r == []
    ensures config.Some? && config.value.stages.None? ==>
              r == Flatten(AlarmsOf(config.value.alarms, region))
    ensures Deploys(config, stage) ==> r == Flatten(AlarmsOf(config.value.alarms, region))
  {
    if !Deploys(config, stage) then [] else Flatten(AlarmsOf(config.value.alarms, region))
  }

  /** Concatenating two runs of lists one after the other is concatenating the runs. */
  lemma {:induction false} ConcatAppend<T>(xs: seq<seq<T>>, ys: seq<seq<T>>)
    ensures Concat(xs + ys) == Concat(xs) + Concat(ys)
    decreases |ys|
  {
    if ys == [] {
      assert xs + ys == xs;
    } else {
      var init := ys[..|ys| - 1];
      assert (xs + ys)[..|xs + ys| - 1] == xs + init;
      assert (xs + ys)[|xs + ys| - 1] == ys[|ys| - 1];
      ConcatAppend(xs, init);
    }
  }

  /** Flattening two runs of alarms one after the other is flattening their concatenation. */
  lemma FlattenAppend(xs: seq<Alarm>, ys: seq<Alarm>)
    ensures Flatten(xs + ys) == Flatten(xs) + Flatten(ys)
  {
    assert ResourceLists(xs + ys) == ResourceLists(xs) + ResourceLists(ys);
    ConcatAppend(ResourceLists(xs), ResourceLists(ys));
  }

  /** Adding an alarm at the end adds its fragments at the end. */
  lemma FlattenSnoc(xs: seq<Alarm>, a: Alarm)
    ensures Flatten(xs + [a]) == Flatten(xs) + a.Resources()
  {
    FlattenAppend(xs, [a]);
    assert ResourceLists([a]) == [a.Resources()];
    assert [a.Resources()][..0] == [];
    assert Concat([a.Resources()]) == a.Resources();
  }

  /** Flattening one more alarm of a run adds that alarm's fragments. */
  lemma FlattenPrefix(alarms: seq<Alarm>, k: nat)
    requires k < |alarms|
    ensures Flatten(alarms[..k + 1]) == Flatten(alarms[..k]) + alarms[k].Resources()
  {
    assert alarms[..k + 1] == alarms[..k] + [alarms[k]];
    FlattenSnoc(alarms[..k], alarms[k]);
  }

  /** One fragment per threshold over all alarms. */
  lemma {:induction false} FlattenLength(alarms: seq<Alarm>)
    ensures |Flatten(alarms)| == ThresholdCount(alarms)
    decreases |alarms|
  {
    if alarms != [] {
      var init, last := alarms[..|alarms| - 1], alarms[|alarms| - 1];
      assert alarms == init + [last];
      FlattenSnoc(init, last);
      FlattenLength(init);
    }
  }

  /** Every key merged into the template is alphanumeric, as CloudWatch requires. */
  lemma {:induction false} FlattenKeysAlnum(alarms: seq<Alarm>)
    ensures forall i :: 0 <= i < |Flatten(alarms)| ==> AllAlnum(Flatten(alarms)[i].key)
    decreases |alarms|
  {
    if alarms != [] {
      var init, last := alarms[..|alarms| - 1], alarms[|alarms| - 1];
      assert alarms == init + [last];
      FlattenKeysAlnum(init);
      FlattenSnoc(init, last);
      var fragments := last.Resources();
      forall j | 0 <= j < |fragments|
        ensures AllAlnum(fragments[j].key)
      {
        ResourceForFixedFields(last, last.thresholds[j], j);
        FormatAlarmNameIsAlnum(last, ValueOf(last.thresholds[j]));
      }
    }
  }

  /**
   * Threshold `j` of alarm `k` sits after all thresholds of the alarms before
   * it, and its fragment is the one `resources()` builds for it.
   */
  lemma FlattenAt(alarms: seq<Alarm>, k: nat, j: nat)
    requires k < |alarms| && j < |alarms[k].thresholds|
    ensures ThresholdCount(alarms[..k]) + j < |Flatten(alarms)|
    ensures Flatten(alarms)[ThresholdCount(alarms[..k]) + j] ==
            alarms[k].ResourceFor(alarms[k].thresholds[j], j)
  {
    var before, rest := alarms[..k], alarms[k + 1..];
    var fragments := alarms[k].Resources();
    assert alarms == (before + [alarms[k]]) + rest;
    FlattenAppend(before + [alarms[k]], rest);
    FlattenSnoc(before, alarms[k]);
    FlattenLength(before);
    assert Flatten(alarms) == Flatten(before) + fragments + Flatten(rest);
    assert Flatten(alarms)[|Flatten(before)| + j] == fragments[j];
  }

  /**
   * The deployment template whose `Resources` the hook extends; `resources`
   * lists the fragments merged into it, in merge order.
   */
  class Template {
    var resources: seq<Fragment>

    constructor ()
      ensures resources == []
    {
      resources := [];
    }

    /** `_.merge(Resources, fragment)`. */
    method Merge(fragment: Fragment)
      modifies this
      ensures resources == old(resources) + [fragment]
    {
      resources := resources + [fragment];
    }
  }

  /** `alarm.resources().forEach(...)`: merges the fragments one by one, in order. */
  method MergeAll(template: Template, fragments: seq<Fragment>)
    modifies template
    ensures template.resources == old(template.resources) + fragments
  {
    var j := 0;
    while j < |fragments|
      invariant 0 <= j <= |fragments|
      invariant template.resources == old(template.resources) + fragments[..j]
    {
      template.Merge(fragments[j]);
      assert fragments[..j + 1] == fragments[..j] + [fragments[j]];
      j := j + 1;
    }
    assert fragments[..j] == fragments;
  }

  /** `alarms.forEach(...)`: merges the fragments of each alarm in turn. */
  method MergeAlarms(template: Template, alarms: seq<Alarm>)
    modifies template
    ensures template.resources == old(template.resources) + Flatten(alarms)
  {
    var k := 0;
    while k < |alarms|
      invariant 0 <= k <= |alarms|
      invariant template.resources == old(template.resources) + Flatten(alarms[..k])
    {
      MergeAll(template, alarms[k].Resources());
      FlattenPrefix(alarms, k);
      k := k + 1;
    }
    assert alarms[..k] == alarms;
  }

  /**
   * The `package:compileEvents` hook: unless the guard stops it, merges every
   * alarm's fragments into the template, alarm after alarm.
   */
  method BeforeDeployResources(template: Template, config: Option<SqsAlarmsConfig>, stage: string,
                               region: string)
    modifies template
    ensures template.resources == old(template.resources) + Compile(config, stage, region)
  {
    if config.None? {
      return;
    }
    if config.value.stages.Some? && stage !in config.value.stages.value {
      return;
    }
    var alarms := AlarmsOf(config.value.alarms, region);
    MergeAlarms(template, alarms);
  }
}
