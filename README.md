# SQS alarms plugin: the alarm compiler

A model of the core of the serverless SQS alarms plugin (`src/plugin.js`).
Given the `custom['sqs-alarms']` configuration, the current stage and the
provider's region, the plugin's `package:compileEvents` hook builds one
CloudWatch alarm resource (`AWS::CloudWatch::Alarm`) per configured threshold
of every configured queue and merges them into the deployment template's
`Resources`.

- `text.dfy` (`Text`): the regular-expression replace `/[^0-9a-z]/gi -> ''`
  applied to queue names, and the decimal rendering of a non-negative
  integer, with its inverse. For threshold values, which are bounded by
  `Number.MAX_SAFE_INTEGER`, this is what `util.format` prints for `%s`/`%d`.
- `alarms.dfy` (`Alarms`): the `Alarm` class. It is a datatype, because its
  fields are only set by the constructor. Its member functions mirror
  `formatAlarmName`, `resolveTreatMissingData`, `validateTreatMissingData`,
  `resourceProperties` and `resources()`. The callback of `resources()` is
  `ResourceFor`. It builds the full property record and then drops
  `OKActions` and adds `AlarmName` and `TreatMissingData`, as the source
  does. A property that is not set is `None`.
- `plugin.dfy` (`Plugin`): `beforeDeployResources`. The guard and the
  flattening (specifications in order, thresholds in order) are the pure
  function `Compile`. The `forEach` loops that merge into the template are
  the methods `MergeAlarms` and `MergeAll` over a `Template` object. They
  are proved to append exactly `Compile`'s sequence.
- `wrappers.dfy`: `Option`, standing for a property that may be `undefined`.

JavaScript truthiness is written out where the source relies on it:
- `namespace`, `period` and `evaluationPeriods` use `||`. An empty namespace
  or a period/count of `0` takes the default.
- `okAlerts` defaults to `true` only when it is `undefined`; an explicit
  `true` keeps the OK actions, `false` drops them.
- An empty `name` gives no alarm name.
- An empty-string `treatMissingData` gives no treatment. An array is always
  truthy, so an empty array also gives nothing, through the index lookup.

The stage guard sits in `beforeDeployResources` (src/plugin.js:132-138),
so `Compile` models it.

## Model

| member | source | states |
|---|---|---|
| `Text.StripNonAlnum` | src/plugin.js:19 | the stripped queue name holds only ASCII letters and digits and is no longer than the name |
| `Text.StripKeepsAlnum` | src/plugin.js:19 | a name made only of letters and digits is left unchanged |
| `Text.StripConcat` | src/plugin.js:19 | stripping a concatenation is the concatenation of the stripped parts, so kept characters stay in order |
| `Text.StripCounts` | src/plugin.js:19 | each letter or digit occurs in the result as often as in the name, every other character never: nothing is substituted |
| `Text.NatToDecimal` | src/plugin.js:20 | the rendering of a value is a non-empty digit string with no leading zero (JavaScript's own printing for threshold values, which are at most `Number.MAX_SAFE_INTEGER`) |
| `Text.DecimalRoundTrip` | src/plugin.js:20 | reading the rendering back as a decimal number gives the value |
| `Text.DecimalCanonical` | src/plugin.js:20 | every non-empty digit string without a leading zero is the rendering of its own value |
| `Text.DecimalInjective` | src/plugin.js:20 | two values render alike exactly when they are equal |
| `Text.DigitSuffixUnique` | src/plugin.js:20 | a string that is a prefix ending in a non-digit followed by digits splits that way in only one way |
| `Alarms.OrString` | src/plugin.js:60 | the JavaScript `or` of the namespace and `AWS/SQS`; stated by `Alarms.ResourceForDefaults`: a non-empty namespace wins, else the default |
| `Alarms.OrNat` | src/plugin.js:69-70 | the JavaScript `or` of `period` and 60, and of `evaluationPeriods` and 1; stated by `Alarms.ResourceForDefaults`: a non-zero override wins, else the default |
| `Alarms.TopicAction` | src/plugin.js:75-78 | the `Fn::Join` of `arn:aws:sns:<region>:`, `Ref: AWS::AccountId` and `:<topic>`; stated by `Alarms.ResourceForFixedFields` as the alarm actions, and by `Alarms.ResourceForOptionalFields` as the OK actions |
| `Alarms.Description` | src/plugin.js:56-59 | `Alarm if queue contains more than <value> messages`; stated by `Alarms.ResourceForFixedFields` |
| `Alarms.Alarm.New` | src/plugin.js:7-15 | the alarm copies queue, topic, thresholds, name and treatment from the specification, takes the region given, and has `okAlerts` true exactly when the specification's `okAlerts` is not `false` |
| `Alarms.Alarm.FormatAlarmName` | src/plugin.js:17-21 | stripped queue, `MessageAlarm`, decimal value; stated by `Alarms.FormatAlarmNameIsAlnum` and `Alarms.FormatAlarmNameInjective` |
| `Alarms.FormatAlarmNameIsAlnum` | src/plugin.js:17-21 | the resource key consists of ASCII letters and digits only |
| `Alarms.FormatAlarmNameInjective` | src/plugin.js:17-21 | two keys are equal exactly when the stripped queue names and the threshold values are equal |
| `Alarms.Alarm.ResolveTreatMissingData` | src/plugin.js:23-29 | for a string or an array setting, the treatment resolved for an index is `Alarms.ExpectedTreatment` of the setting and index, so always one of the four recognised treatments |
| `Alarms.Alarm.TreatMissingDataTruthy` | src/plugin.js:106 | the setting counts only when it is a non-empty string or an array; stated by `Alarms.ResourceForOptionalFields`, whose treatment clause is `None` for an absent or empty setting |
| `Alarms.Alarm.ValidateTreatMissingData` | src/plugin.js:31-36 | a treatment is returned, unchanged, exactly when it is `missing`, `ignore`, `breaching` or `notBreaching` |
| `Alarms.ExpectedTreatment` | src/plugin.js:106-111 | the treatment rule stated directly: nothing when absent; the string for every index when it is recognised; element i of an array when i is in range and the element is recognised; always a recognised value when present |
| `Alarms.Alarm.ResourceProperties` | src/plugin.js:38-46 | a bare number becomes `{ value }`, an object stays; stated by `Alarms.BareThresholdIsValueOnly` |
| `Alarms.BareThresholdIsValueOnly` | src/plugin.js:38-46 | a bare number n compiles to exactly the fragment of `{ value: n }` |
| `Alarms.Alarm.Resources` | src/plugin.js:48-49 | one fragment per threshold, and fragment i is the one built from threshold i at index i |
| `Alarms.Alarm.InitialProperties` | src/plugin.js:55-88 | the `Properties` literal with `OKActions` present and no `AlarmName` or `TreatMissingData`; stated through `ResourceFor` by `Alarms.ResourceForFixedFields` and `Alarms.ResourceForDefaults` |
| `Alarms.Alarm.ResourceFor` | src/plugin.js:49-113 | the `map` callback for one threshold and its index; fully stated by `Alarms.ResourceForFixedFields`, `Alarms.ResourceForDefaults` and `Alarms.ResourceForOptionalFields` |
| `Alarms.ResourceForFixedFields` | src/plugin.js:52-80 | key from queue and value; type `AWS::CloudWatch::Alarm`; description naming the value; metric `ApproximateNumberOfMessagesVisible`; the single dimension `QueueName` = queue; statistic `Sum`; threshold = value; operator `GreaterThanOrEqualToThreshold`; alarm actions = the topic ARN join for region and topic |
| `Alarms.ResourceForDefaults` | src/plugin.js:60-70 | namespace, period and evaluation periods are the threshold's override when it is non-empty / non-zero, else `AWS/SQS`, 60 and 1 |
| `Alarms.ResourceForOptionalFields` | src/plugin.js:81-111 | OK actions exactly when `okAlerts` holds, and then equal to the alarm actions; an alarm name exactly when `name` is non-empty, and then `name-queue-value`; the treatment equals `ExpectedTreatment` for the threshold's index and is always a recognised one |
| `Alarms.ResourceKeysCollideOnlyOnEqualValues` | src/plugin.js:49-53 | within one alarm, two fragments share a key exactly when their thresholds share a value |
| `Alarms.UniformTreatmentEverywhere` | src/plugin.js:26-28 | a single treatment string gives every threshold of the alarm the same treatment |
| `Alarms.ExampleTreatmentsByIndex` | test/plugin.spec.js:170-181 | `['notBreaching', 'invalid', 'missing']` gives `notBreaching`, nothing, `missing`, and nothing past the end |
| `Alarms.ExampleCustomThreshold` | test/plugin.spec.js:185-241 | `{ value: 3, period: 5, evaluationPeriods: 1, namespace: 'test' }` gives period 5, evaluation periods 1, namespace `test`, threshold 3 |
| `Plugin.AlarmsOf` | src/plugin.js:140-142 | one alarm per specification, in order, each built with the provider's region |
| `Plugin.Deploys` | src/plugin.js:128-138 | a configuration is present and any stages list holds the stage; stated by `Plugin.Compile` |
| `Plugin.Flatten` | src/plugin.js:144-148 | every alarm's `resources()` (`Plugin.ResourceLists`) concatenated, alarm after alarm; stated by `Plugin.FlattenAppend`, `Plugin.FlattenLength`, `Plugin.FlattenAt` |
| `Plugin.Compile` | src/plugin.js:127-148 | nothing without a configuration or when a stages list omits the stage; otherwise, and always when there is no stages list, the fragments of every alarm in order |
| `Plugin.ResourceLists` | src/plugin.js:144-145 | one `resources()` list per alarm, in alarm order |
| `Plugin.ConcatAppend` | src/plugin.js:144-148 | concatenating two runs of lists is the first run's concatenation followed by the second's |
| `Plugin.FlattenAppend` | src/plugin.js:144-148 | the fragments of two runs of alarms are the first run's fragments followed by the second's |
| `Plugin.FlattenSnoc` | src/plugin.js:144-148 | one more alarm adds its `resources()` at the end |
| `Plugin.FlattenPrefix` | src/plugin.js:144-148 | after the first k alarms, merging alarm k adds exactly its `resources()` |
| `Plugin.FlattenLength` | src/plugin.js:144-148 | there is one fragment per threshold over all alarms |
| `Plugin.FlattenAt` | src/plugin.js:144-148 | threshold j of alarm k is at position (thresholds of alarms before k) + j, and is the fragment `resources()` builds for it |
| `Plugin.FlattenKeysAlnum` | src/plugin.js:144-148 | every key merged into the template is alphanumeric |
| `Plugin.Template.Merge` | src/plugin.js:146 | a merge appends the fragment to the record of merged fragments |
| `Plugin.MergeAll` | src/plugin.js:145-147 | merging one alarm's fragments appends them in order |
| `Plugin.MergeAlarms` | src/plugin.js:144-148 | merging all alarms appends their flattened fragments |
| `Plugin.BeforeDeployResources` | src/plugin.js:127-148 | the template's merged fragments grow by exactly `Compile` of the configuration, stage and region |

## Left out

- Deep merge: `_.merge` into `compiledCloudFormationTemplate.Resources` is a foreign library. `Template` records the fragments in merge order instead of a dictionary. Two fragments with the same key, which `ResourceKeysCollideOnlyOnEqualValues` and `FormatAlarmNameInjective` characterise, are merged by lodash property by property, and that result is not modelled.
- Plugin plumbing: the constructor and hook registration (src/plugin.js:118-125) and the serverless object graph are not modelled. The region from `getProvider('aws').getRegion()` and the stage from the CLI options are parameters.
- `utils.log` on a skipped stage (src/plugin.js:136) is a side effect only.
- `Fn::Join` and `Ref: AWS::AccountId` are resolved by CloudFormation. They stay as the structured values `FnJoin`/`Ref`.
- Threshold values are non-negative integers up to `Number.MAX_SAFE_INTEGER` (the subset type `ThresholdValue`). A fractional or negative value would put `.` or `-` into the key after `util.format`.
- Text.NatToDecimal: renders every natural number in full decimal digits. JavaScript prints integers above 2^53 rounded to their shortest round-trip digits, and from 10^21 up in exponent form (`1e+21`), so such a key would not be alphanumeric in the source. Threshold values are bounded so that this never arises in the model.
- JavaScript duck typing is left out:
  - arrays given as thresholds;
  - structured thresholds without `value`;
  - non-numeric, negative or fractional `period` and `evaluationPeriods` overrides, which `||` would copy verbatim but `Option<nat>` cannot hold;
  - non-string treatments or array elements;
  - non-boolean `okAlerts`: `okAlerts` is an optional boolean, so other falsy values such as `0` are not represented.
- A non-array `stages` is modelled as an absent one. Both leave the stage unfiltered.
- A configuration without `alarms` makes the source throw. The model always has a sequence of specifications.
- A specification without `thresholds`, or without `queue` when it has a threshold, makes the source throw (`this.thresholds.map` at src/plugin.js:49, `this.queue.replace` at src/plugin.js:19). `AlarmSpec` requires both fields.
- `Alarms.Alarm.ResolveTreatMissingData` requires a setting to be present. The source dereferences it and would throw on `undefined`. It only calls it when the setting is truthy.
- Determinism and freedom from hidden state need no statement: every operation but the merge is a Dafny function.
