# A verified model of the Checkmk yum plugin

The yum plugin monitors pending package updates on RedHat-family hosts. An agent
plugin prints a `<<<yum>>>` section with four lines: a reboot flag, the number of
normal updates, the number of security updates (with an optional package list)
and the epoch of the last update. Alternatively it prints one `ERROR: <message>`
line. This project models, in Dafny, the plugin's decision logic:

- **the check, in two API generations** (`YumCheck`, current; `LegacyYumCheck`,
  legacy). Each has a parse function from the agent's string table to a
  `Section`, and a check function from parameters, section and current time to
  the sequence of `Result` and `Metric` items it yields. The current generation
  grades counts with fixed `(warn, crit)` levels and reads the time limit in
  days. The legacy generation maps each kind of finding directly to a state level
  and reads the time limit in seconds;
- **the two bakery rule migrations**. `DeployRuleset` models `_migrateInt`,
  which normalises old rule values to `{'deploy': (choice, payload)}`.
  `IntervalRuleset` models `_migrate_int_to_float`, which normalises them to
  `{'interval': seconds}`;
- **the two bakery files functions** (`DeployBakery`, `IntervalBakery`). Each
  decides whether to package the Linux agent plugin `yum`, and with which
  asynchronous interval.

Python's behaviour is spelled out where the code depends on it (module
`Python`). This covers:

- stored rule values as a `Value` datatype;
- truthiness, `dict.get` and tuple unpacking;
- `int()`, which truncates toward zero, and `float()`;
- comparisons that raise `TypeError`.

A Python exception is an `Outcome` value (`Raised(error)`). A check generator
is a `Run`: the items it yielded, plus the exception that ended it, if any
(module `CheckApi`). `State(level)` raises `ValueError` for levels outside
0..3, just as the framework's enumeration does. The wall clock is the `now`
parameter. Rendered summaries are tags of the `Summary` datatypes, which carry
the numbers and the package list that the text includes.

## Model

| member | source | states |
|---|---|---|
| StringTable.FirstToken | mkp/local/lib/python3/cmk_addons/plugins/yum/agent_based/yum.py:67 | `table[row][0]` is the token when row and token exist, IndexError otherwise |
| StringTable.IntToken | mkp/local/lib/python3/cmk_addons/plugins/yum/agent_based/yum.py:82-86 | `int(table[row][0])`: the token's integer value; IndexError when it is missing, ValueError when it is not an integer |
| StringTable.RebootFlag | mkp/local/lib/python3/cmk_addons/plugins/yum/agent_based/yum.py:70-73 | the flag is true exactly for `yes`, false exactly for `no`, unset otherwise |
| StringTable.ErrorMessage | mkp/local/lib/python3/cmk_addons/plugins/yum/agent_based/yum.py:68 | the message of an `ERROR:` line: empty for a bare `ERROR:`, starting with the first word otherwise, and splitting back into exactly the remaining tokens of the line when those are words |
| Python.ParseInt | mkp/local/lib/python3/cmk_addons/plugins/yum/agent_based/yum.py:82 | `int()` of a token accepts exactly an optional sign followed by decimal digits; the sign decides the sign of the result |
| Python.ParseIntRoundTrip | mkp/local/lib/python3/cmk_addons/plugins/yum/agent_based/yum.py:82 | parsing the decimal rendering of any integer gives that integer back |
| Python.Truthy | mkp/local/lib/python3/cmk_addons/plugins/yum/rulesets/yum_cee.py:39-44 | Python truthiness: None, zero, and empty strings, tuples, lists and dictionaries are false; every other value is true |
| Python.Get | mkp/local/lib/python3/cmk_addons/plugins/yum/rulesets/yum_cee.py:39-44 | `d.get(key)` is the entry when the key is present and None otherwise |
| Python.Unpack2 | lib/python3/cmk_addons/plugins/yum/rulesets/yum_cee.py:49 | `a, b = t` succeeds exactly for two items, which it returns in order, and raises ValueError otherwise |
| Python.Trunc | lib/python3/cmk/base/cee/plugins/bakery/yum.py:35 | `int()` of a number truncates toward zero: the result lies within one of the number, on the side of zero |
| Python.Join | mkp/local/lib/python3/cmk_addons/plugins/yum/agent_based/yum.py:68 | `" ".join`: empty for no words, the word itself for one, the first word followed by a space otherwise; its inverse is stated by `SplitJoin` |
| Python.SplitJoin | mkp/local/lib/python3/cmk_addons/plugins/yum/agent_based/yum.py:68 | splitting the join of non-empty, space-free words gives exactly those words back |
| Python.IntOf | lib/python3/cmk/base/cee/plugins/bakery/yum.py:35 | `int(v)`: numbers truncate toward zero, strings parse or raise ValueError, anything else raises TypeError |
| Python.FloatOf | lib/python3/cmk_addons/plugins/yum/rulesets/yum_cee.py:43 | `float(v)`: numbers are kept, strings parse or raise ValueError, anything else raises TypeError |
| Python.AtLeastZero | lib/python3/cmk_addons/plugins/yum/rulesets/yum_cee.py:42 | `v >= 0` compares numbers and raises TypeError for any other non-None value |
| CheckApi.StateOf | mkp/local/lib/python3/cmk_addons/plugins/yum/agent_based/yum.py:187 | `State(level)` names a state exactly for levels 0..3, with that level; ValueError otherwise |
| CheckApi.ResultAtLevel | mkp/local/lib/python3/cmk_addons/plugins/yum/agent_based/yum.py:186-190 | a result at a configured level is yielded with its metrics exactly when the level names a state; otherwise nothing is yielded and the error propagates |
| CheckApi.Then | mkp/local/lib/python3/cmk_addons/plugins/yum/agent_based/yum.py:119-199 | running a block after one that raised changes nothing; after one that did not, the items are both blocks' items in order and the run ends as the second does |
| CheckApi.ThenCollects | mkp/local/lib/python3/cmk_addons/plugins/yum/agent_based/yum.py:119-199 | running one block after another yields the metrics and summaries of the first, then those of the second |
| CheckApi.FourBlocksCollect | mkp/local/lib/python3/cmk_addons/plugins/yum/agent_based/yum.py:119-199 | four blocks run in sequence, none of the first three raising, end as the last one does and yield the blocks' metrics in order |
| YumCheck.YumParse | mkp/local/lib/python3/cmk_addons/plugins/yum/agent_based/yum.py:66-95 | parse succeeds exactly on at least four rows, the first four non-empty, whose rows 1-3 start with integers; fields are the integer tokens, the reboot flag and row 2's second token exactly when present; an error line raises TypeError |
| YumCheck.YumParseIntended | mkp/local/lib/python3/cmk_addons/plugins/yum/agent_based/yum.py:57-68 | an error line yields a section carrying the joined message and no reboot flag; any other table parses as written |
| YumCheck.ErrorLineRaises | mkp/local/lib/python3/cmk_addons/plugins/yum/agent_based/yum.py:57-68 | as written, every `ERROR:` line makes the parse raise |
| YumCheck.ExampleSection | mkp/local/lib/python3/cmk_addons/plugins/yum/agent_based/yum.py:32-38 | the documented example output parses to reboot required, 32 normal and 4 security updates, last update 1626252300 |
| YumCheck.LevelState | mkp/local/lib/python3/cmk_addons/plugins/yum/agent_based/yum.py:126-136 | with fixed levels a count is CRIT iff at least crit, WARN iff at least warn and below crit, OK iff below both; other modes are OK |
| YumCheck.NormalUpdates | mkp/local/lib/python3/cmk_addons/plugins/yum/agent_based/yum.py:120-138 | unknown count gives one UNKNOWN result; no updates at all gives exactly an OK result and a zero `normal_updates` metric; otherwise exactly one result graded by the normal levels and the `normal_updates` metric, or TypeError when `normal` is absent |
| YumCheck.SecurityUpdates | mkp/local/lib/python3/cmk_addons/plugins/yum/agent_based/yum.py:141-166 | a known count gives exactly one result graded by the security levels, naming the package list iff it is non-empty, and the `security_updates` metric; -2 reports "not available" and -1 "failed", both OK with metric 0; below -2 gives nothing; TypeError when `security` is absent |
| YumCheck.LastUpdate | mkp/local/lib/python3/cmk_addons/plugins/yum/agent_based/yum.py:169-194 | a known timestamp within the limit reports it OK; beyond the limit with nothing pending reports "long ago, no updates" OK; otherwise "too long ago" at the configured state; an unknown timestamp reports "no timestamp" at the configured state with metric 0; ValueError when that state names none |
| YumCheck.Reboot | mkp/local/lib/python3/cmk_addons/plugins/yum/agent_based/yum.py:196-199 | a reboot result, at the configured level, appears exactly when the agent says a reboot is required |
| YumCheck.CheckYum | mkp/local/lib/python3/cmk_addons/plugins/yum/agent_based/yum.py:108-199 | an agent error gives exactly one UNKNOWN result; otherwise, when nothing raises, the items are those of the normal, security, last-update and reboot blocks in that order |
| YumCheck.NormalUpdatesMetric | mkp/local/lib/python3/cmk_addons/plugins/yum/agent_based/yum.py:120-138 | `normal_updates` is yielded, with the count, exactly when the count is known |
| YumCheck.SecurityUpdatesMetric | mkp/local/lib/python3/cmk_addons/plugins/yum/agent_based/yum.py:141-166 | `security_updates` is the count when known, 0 for -1 and -2, absent below -2 |
| YumCheck.LastUpdateMetric | mkp/local/lib/python3/cmk_addons/plugins/yum/agent_based/yum.py:169-194 | `last_update_timestamp` is always yielded: the timestamp, or 0 when unknown |
| YumCheck.RebootHasNoMetric | mkp/local/lib/python3/cmk_addons/plugins/yum/agent_based/yum.py:196-199 | the reboot block yields no metric |
| YumCheck.DefaultParamsWellFormed | mkp/local/lib/python3/cmk_addons/plugins/yum/agent_based/yum.py:209-215 | the default parameters have both level pairs and levels that name states |
| YumCheck.CheckYumMetric | mkp/local/lib/python3/cmk_addons/plugins/yum/agent_based/yum.py:120-194 | with well-formed parameters the check does not raise; the values the check yields under any metric name: the normal count, the security count or its 0 placeholder, the timestamp or 0, each only under its own name |
| YumCheck.CheckYumMetrics | mkp/local/lib/python3/cmk_addons/plugins/yum/agent_based/yum.py:120-194 | the check's metrics, name by name, as functions of the section |
| YumCheck.RebootReportedIffRequired | mkp/local/lib/python3/cmk_addons/plugins/yum/agent_based/yum.py:196-199 | the reboot summary is among the results iff the section says a reboot is required |
| YumCheck.NormalUpdatesNoReboot | mkp/local/lib/python3/cmk_addons/plugins/yum/agent_based/yum.py:120-138 | the normal-updates block never reports a reboot |
| YumCheck.SecurityUpdatesNoReboot | mkp/local/lib/python3/cmk_addons/plugins/yum/agent_based/yum.py:141-166 | the security-updates block never reports a reboot |
| YumCheck.LastUpdateNoReboot | mkp/local/lib/python3/cmk_addons/plugins/yum/agent_based/yum.py:169-194 | the last-update block never reports a reboot |
| YumCheck.RebootSummary | mkp/local/lib/python3/cmk_addons/plugins/yum/agent_based/yum.py:196-199 | with a reboot level that names a state, the reboot block reports a reboot exactly when one is required |
| YumCheck.DefaultLevels | mkp/local/lib/python3/cmk_addons/plugins/yum/agent_based/yum.py:209-212 | under the defaults one security update is CRIT; normal updates warn from 1 and are CRIT from 10 |
| YumCheck.ErrorLineReported | mkp/local/lib/python3/cmk_addons/plugins/yum/agent_based/yum.py:111-113 | with the intended parse, an agent error line is reported as one UNKNOWN result and nothing else |
| YumCheck.ExampleCheck | mkp/local/lib/python3/cmk_addons/plugins/yum/agent_based/yum.py:108-215 | the example section one day after its update, under the defaults: both counts CRIT, the update OK, the reboot CRIT, with their metrics |
| LegacyYumCheck.YumParse | lib/python3/cmk/base/plugins/agent_based/yum.py:65-90 | parse succeeds exactly on at least four rows, the first four non-empty, whose rows 1-3 start with integers; fields are the integer tokens in order and the reboot flag; an error line raises TypeError |
| LegacyYumCheck.YumParseIntended | lib/python3/cmk/base/plugins/agent_based/yum.py:57-67 | an error line yields a section carrying the joined message; any other table parses as written |
| LegacyYumCheck.ErrorLineRaises | lib/python3/cmk/base/plugins/agent_based/yum.py:57-67 | as written, every `ERROR:` line makes the parse raise |
| LegacyYumCheck.ParamGet | lib/python3/cmk/base/plugins/agent_based/yum.py:115-128 | `params.get(key, default)` is the entry or the default, and raises AttributeError when there are no parameters |
| LegacyYumCheck.NormalUpdates | lib/python3/cmk/base/plugins/agent_based/yum.py:110-116 | unknown count gives UNKNOWN; no updates gives OK; updates give state `normal` (default 0) and the metric; zero normal with security updates gives nothing |
| LegacyYumCheck.SecurityUpdates | lib/python3/cmk/base/plugins/agent_based/yum.py:118-120 | security updates give state `security` and the metric; zero or negative gives nothing |
| LegacyYumCheck.LastUpdate | lib/python3/cmk/base/plugins/agent_based/yum.py:122-143 | timestamp 0 gives nothing; negative gives `last_update_state` and a metric equal to it; positive compares the age with the limit in seconds, an age equal to the limit taking the configured state |
| LegacyYumCheck.Reboot | lib/python3/cmk/base/plugins/agent_based/yum.py:145-151 | a reboot result appears only when required: CRIT without parameters, state `reboot_req` otherwise, KeyError when that key is absent |
| LegacyYumCheck.CheckYum | lib/python3/cmk/base/plugins/agent_based/yum.py:104-151 | an agent error gives exactly one UNKNOWN result and nothing else; otherwise, when nothing raises, the items are those of the normal, security, last-update and reboot blocks in that order |
| LegacyYumCheck.DefaultParamsWellFormed | lib/python3/cmk/base/plugins/agent_based/yum.py:161-167 | the default parameters name states for every level and hold `reboot_req` |
| LegacyYumCheck.NormalUpdatesMetric | lib/python3/cmk/base/plugins/agent_based/yum.py:110-116 | `normal_updates` is yielded, with the count, exactly when there are normal updates |
| LegacyYumCheck.SecurityUpdatesMetric | lib/python3/cmk/base/plugins/agent_based/yum.py:118-120 | `security_updates` is yielded, with the count, exactly when there are security updates |
| LegacyYumCheck.LastUpdateMetric | lib/python3/cmk/base/plugins/agent_based/yum.py:122-143 | `last_update_timestamp` is yielded, with the timestamp, exactly when it is negative |
| LegacyYumCheck.RebootHasNoMetric | lib/python3/cmk/base/plugins/agent_based/yum.py:145-151 | the reboot block yields no metric |
| LegacyYumCheck.CheckYumMetric | lib/python3/cmk/base/plugins/agent_based/yum.py:110-143 | with well-formed parameters the check does not raise; the values the check yields under any metric name: the normal count if positive, the security count if positive, the timestamp if negative, each only under its own name |
| LegacyYumCheck.CheckYumMetrics | lib/python3/cmk/base/plugins/agent_based/yum.py:110-143 | the check's metrics, name by name, as functions of the section |
| LegacyYumCheck.NormalUpdatesNoReboot | lib/python3/cmk/base/plugins/agent_based/yum.py:110-116 | the normal-updates block never reports a reboot |
| LegacyYumCheck.SecurityUpdatesNoReboot | lib/python3/cmk/base/plugins/agent_based/yum.py:118-120 | the security-updates block never reports a reboot |
| LegacyYumCheck.LastUpdateNoReboot | lib/python3/cmk/base/plugins/agent_based/yum.py:122-143 | the last-update block never reports a reboot |
| LegacyYumCheck.RebootSummary | lib/python3/cmk/base/plugins/agent_based/yum.py:145-151 | with well-formed parameters the reboot block does not raise and reports a reboot exactly when one is required |
| LegacyYumCheck.RebootReportedIffRequired | lib/python3/cmk/base/plugins/agent_based/yum.py:145-151 | the reboot summary is among the results iff the section says a reboot is required |
| LegacyYumCheck.RebootWithoutParams | lib/python3/cmk/base/plugins/agent_based/yum.py:145-151 | without parameters a required reboot is CRIT |
| LegacyYumCheck.AgeEqualToDiffIsStale | lib/python3/cmk/base/plugins/agent_based/yum.py:132-143 | an age exactly equal to the limit takes the configured state even with nothing pending |
| LegacyYumCheck.ErrorLineReported | lib/python3/cmk/base/plugins/agent_based/yum.py:106-108 | with the intended parse, an agent error line is reported as one UNKNOWN result and nothing else |
| DeployRuleset.Migrate | lib/python3/cmk_addons/plugins/yum/rulesets/yum_cee.py:25-64 | None and non-dicts mean "do not deploy"; `{'interval': v}` keeps v only when it is a non-negative number; `('interval', v)`, `('nointerval', _)` and `('deploy', _)` are normalised or kept; an unknown choice gives None; anything else is returned unchanged |
| DeployRuleset.CanonicalIsFixed | lib/python3/cmk_addons/plugins/yum/rulesets/yum_cee.py:56-58 | a value already in the stored shape migrates to itself |
| DeployRuleset.MigratedShape | lib/python3/cmk_addons/plugins/yum/rulesets/yum_cee.py:34-64 | every non-None migrated value is in the stored shape or is the input unchanged |
| DeployRuleset.MigrateIdempotent | lib/python3/cmk_addons/plugins/yum/rulesets/yum_cee.py:25-64 | migrating a non-None migrated value again changes nothing |
| DeployRuleset.UnknownChoiceGivesNone | lib/python3/cmk_addons/plugins/yum/rulesets/yum_cee.py:48-58 | a deploy tuple with an unknown choice migrates to None |
| BakeryApi.OptionalInt | lib/python3/cmk/base/cee/plugins/bakery/yum.py:33-35 | `int(v) if v is not None`: None stays None, anything else converts or raises |
| BakeryApi.IntOrNone | mkp/local/lib/python3/cmk/base/cee/plugins/bakery/yum.py:38-42 | `int(v)` with TypeError and ValueError caught gives the integer or None |
| DeployBakery.DeployChoice | lib/python3/cmk/base/cee/plugins/bakery/yum.py:30-39 | `('deploy', options)` with a dictionary deploys with its optional interval; other options fall through |
| DeployBakery.IntervalChoice | lib/python3/cmk/base/cee/plugins/bakery/yum.py:41-46 | the intermediate choice deploys with `int(v)`, or raises |
| DeployBakery.DeployStep | lib/python3/cmk/base/cee/plugins/bakery/yum.py:28-48 | as written: `deploy` choices are decided by their options, `nointerval` deploys nothing, `interval` and unknown choices fall through, and a tuple of the wrong length raises ValueError |
| DeployBakery.DeployStepIntended | lib/python3/cmk/base/cee/plugins/bakery/yum.py:14-48 | with the intermediate choice tested beside the others, `('interval', v)` deploys with `int(v)` |
| DeployBakery.FromIntervalKey | lib/python3/cmk/base/cee/plugins/bakery/yum.py:50-63 | a top-level `interval` deploys with `int(v)`, or no interval when v is None; without the key the plugin is deployed synchronously |
| DeployBakery.YumFiles | lib/python3/cmk/base/cee/plugins/bakery/yum.py:10-63 | the plugin, always Linux `yum`: none for `nointerval`; the options' interval for `('deploy', dict)`; the top-level interval for `('interval', v)`, for an unknown choice and for configs without a deploy tuple; ValueError for a deploy tuple that is not a pair; synchronous for non-dicts |
| DeployBakery.YumFilesIntended | lib/python3/cmk/base/cee/plugins/bakery/yum.py:10-63 | as written, except that `('interval', v)` deploys with `int(v)`; a deploy tuple that is not a pair raises ValueError, and an unknown choice falls through to the top-level interval |
| DeployBakery.AgreeOffIntervalChoice | lib/python3/cmk/base/cee/plugins/bakery/yum.py:28-48 | both versions agree on every config whose deploy tuple is not the intermediate choice |
| DeployBakery.IntermediateChoiceIgnored | lib/python3/cmk/base/cee/plugins/bakery/yum.py:19-46 | `{'deploy': ('interval', 60)}` deploys without an interval as written, and with 60 as documented |
| DeployBakery.MigrationDropsIntervalChoice | lib/python3/cmk_addons/plugins/yum/rulesets/yum_cee.py:48-61 | no migrated rule value holds the intermediate choice |
| DeployBakery.MigratedValuesUnaffected | lib/python3/cmk/base/cee/plugins/bakery/yum.py:28-48 | on every migrated rule value the as-written and the intended files functions agree |
| DeployBakery.MigrationKeepsDeployment | lib/python3/cmk/base/cee/plugins/bakery/yum.py:14-63 | for each documented rule value shape, migrating it does not change what is deployed |
| IntervalRuleset.IntervalOf | mkp/local/lib/python3/cmk_addons/plugins/yum/rulesets/yum_cee.py:41-44 | `{'interval': float(v)}`, or the conversion's error |
| IntervalRuleset.Migrate | mkp/local/lib/python3/cmk_addons/plugins/yum/rulesets/yum_cee.py:34-46 | non-dicts and truthy non-dict deploys raise AttributeError; a deploy interval or top-level interval that is truthy is converted; no interval gives 60.0; a deploy without interval gives None; every other result has exactly the key `interval`, holding a number |
| IntervalRuleset.MigrateIntended | mkp/local/lib/python3/cmk_addons/plugins/yum/rulesets/yum_cee.py:34-46 | never gives None: every successful result is `{'interval': x}`, and it agrees with the written migration wherever that does not give None |
| IntervalRuleset.DeployWithoutIntervalGivesNone | mkp/local/lib/python3/cmk_addons/plugins/yum/rulesets/yum_cee.py:39-46 | `{'deploy': {...}}` without an interval migrates to None as written, and to the default as intended |
| IntervalRuleset.MigrateIdempotent | mkp/local/lib/python3/cmk_addons/plugins/yum/rulesets/yum_cee.py:43-46 | a migrated value with a non-zero interval migrates to itself |
| IntervalRuleset.NumericIntervalsSettle | mkp/local/lib/python3/cmk_addons/plugins/yum/rulesets/yum_cee.py:39-46 | a rule value whose intervals are numbers is a fixed point after one intended migration |
| IntervalRuleset.ZeroTextIntervalMovesTwice | mkp/local/lib/python3/cmk_addons/plugins/yum/rulesets/yum_cee.py:43-46 | `{'interval': '0'}` migrates to 0.0, and that again to the default |
| IntervalBakery.YumFiles | mkp/local/lib/python3/cmk/base/cee/plugins/bakery/yum.py:10-51 | a plugin, always Linux `yum`, exactly for a dict deploy, with its interval if convertible, or for no deploy with a dict interval, without interval; nothing otherwise |
| IntervalBakery.YumFilesIntended | mkp/local/lib/python3/cmk/base/cee/plugins/bakery/yum.py:26-51 | a present top-level interval without deploy deploys with `int()` of it; otherwise as written |
| IntervalBakery.MigratedValueNotDeployed | mkp/local/lib/python3/cmk/base/cee/plugins/bakery/yum.py:26-45 | as written, no rule value the migration produces deploys the plugin |
| IntervalBakery.MigratedValueDeployed | mkp/local/lib/python3/cmk/base/cee/plugins/bakery/yum.py:26-51 | as intended, every migrated rule value deploys the plugin with its interval truncated to whole seconds |
| IntervalBakery.DefaultRuleValue | mkp/local/lib/python3/cmk/base/cee/plugins/bakery/yum.py:28-45 | `{'interval': 60.0}` deploys nothing as written and a 60-second plugin as intended |
| IntervalBakery.DocumentedTupleNotDeployed | mkp/local/lib/python3/cmk/base/cee/plugins/bakery/yum.py:14-36 | the documented tuple shape, under `deployment` or under `deploy`, deploys nothing |

## Left out

- The wall clock (`time()`) is the `now` parameter. `render.datetime` and the summary wording are not modelled: summaries are tags carrying their numbers and package list.
- The `debug` block of the current check (mkp/local/lib/python3/cmk_addons/plugins/yum/agent_based/yum.py:115-117) is switched off by a constant.
- The debug file append of the interval bakery function (mkp/local/lib/python3/cmk/base/cee/plugins/bakery/yum.py:19-20) is file I/O.
- The framework's registration objects and calls, discovery, the translations `_()` and the declarative rule forms (`_parameter_form_yum_bakery` and the check parameter forms) are left out. They hold no decision logic.
- The build scripts and the single-line bakery function under `lib/base` are not part of this model.
- Rule values hold no booleans. Python's `True == 1` would have to be modelled for them, and the forms never store one.
- Numbers are reals, not IEEE floats.
- Python.ParseInt: accepts only an ASCII sign and ASCII digits. Python's `int()` also accepts surrounding whitespace, underscores and other Unicode digits; agent tokens and stored strings contain none of these.
- Python.FloatOf: a string converts only when it is an integer. Python also accepts fractions, exponents, `inf` and `nan`.
- Parameters of the current check: the levels of `normal` and `security` are either absent or a well-typed `(mode, (warn, crit))` pair. The other parameters are absent or integers. A malformed stored parameter, with its unpacking and comparison errors, is not modelled.
- Parameters of the legacy check: the values are integers.
- YumCheck.YumParseIntended and LegacyYumCheck.YumParseIntended: give the section's remaining fields the record's defaults (-1).
- IntervalRuleset.MigrateIdempotent: requires a non-zero interval. A text interval that converts to 0, such as `'0'`, migrates to 0.0, and that migrates on to the default (see `ZeroTextIntervalMovesTwice`).
- How the framework treats an exception raised by a parse, check, migration or files function is left out. The model records which exception ends the run.

## Findings

| source | as written | input that shows it | evidently intended | confidence | as-written member | corrected member |
|---|---|---|---|---|---|---|
| mkp/local/lib/python3/cmk_addons/plugins/yum/agent_based/yum.py:67-68 | the error-line branch builds `Section` without its required `reboot_required` field, so it raises TypeError | `[["ERROR:", "yum", "failed"]]` | a section with error message `yum failed`, reported as one UNKNOWN result | high, not executed | YumCheck.ErrorLineRaises | YumCheck.ErrorLineReported |
| lib/python3/cmk/base/plugins/agent_based/yum.py:66-67 | the same construction raises TypeError in the legacy parse | `[["ERROR:", "yum", "failed"]]` | a section with error message `yum failed`, reported as one UNKNOWN result | high, not executed | LegacyYumCheck.ErrorLineRaises | LegacyYumCheck.ErrorLineReported |
| lib/python3/cmk/base/cee/plugins/bakery/yum.py:41-46 | the `elif deploy_choice == 'interval'` belongs to `if isinstance(deploy_config, dict)`, inside `if deploy_choice == 'deploy'`, so it can never hold, and the intermediate format falls through | `{'deploy': ('interval', 60)}` yields a plugin without interval | a plugin with interval 60, as the docstring lists | high, not executed | DeployBakery.IntermediateChoiceIgnored | DeployBakery.MigrationKeepsDeployment |
| mkp/local/lib/python3/cmk/base/cee/plugins/bakery/yum.py:28-34 | without `deploy`, the plugin is deployed only when `interval` is a dictionary, so the numeric interval the rule stores is never used | `{'interval': 60.0}` yields no plugin | a plugin with interval 60 | high, not executed | IntervalBakery.MigratedValueNotDeployed | IntervalBakery.MigratedValueDeployed |
| mkp/local/lib/python3/cmk_addons/plugins/yum/rulesets/yum_cee.py:39-46 | the `elif`/`else` belong to the outer `if`, so a `deploy` without a truthy interval falls off the end and returns None | `{'deploy': {'enabled': 1}}` migrates to None | `{'interval': 60.0}` | medium, not executed | IntervalRuleset.DeployWithoutIntervalGivesNone | IntervalRuleset.MigrateIntended |

Where the plugin's documentation and its code disagree, the model follows the code. Examples are the intermediate `('interval', v)` format and the `deployment` key of the interval bakery function's docstring.
