# tsuru-bluegreen: a verified reference model of the deployer's client logic

tsuru-bluegreen performs blue-green deployments on the tsuru platform. Its
`BlueGreen` object talks to the tsuru control plane: it reads and swaps an
application's cnames, reads and sets environment variables, counts the
application's units per process and scales them down or up. It also runs
lifecycle hooks (shell commands named in the configuration) and notifies New
Relic and a webhook of a new revision.

`bluegreen.py`, which defines the `BlueGreen` class the tests import, is not
part of this model; its test suite, `test/bluegreen_test.py`, is. The model is therefore a reference model
of the behaviour those tests pin down. The tests' fakes become explicit test
doubles:

- a registered fake endpoint is a `Doubles.Script`. It answers the i-th
  request with the i-th scripted reply and repeats the last reply once the
  script is used up. It also logs every request it receives.
- a replaced `total_units` is a `Doubles.Mock`. It either returns a fixed
  value (`return_value`), or hands out scripted values one call at a time
  (the `mock_total_units` helper) and fails once they are used up.

Modules:

- `Units` (units.dfy): units, process groups, topologies, and grouping units
  by process name (`total_units`).
- `Api` (api.dfy): requests, replies, HTTP statuses.
- `Doubles` (doubles.dfy): the scripted endpoint and the scripted `total_units`.
- `Scaling` (scaling.dfy): the removal plan, `remove_units` and `add_units`.
- `BlueGreen` (bluegreen.dfy): cname and environment getters and setters,
  `total_units` over the GET reply, hooks and the two notifiers.
- `Scenarios` (scenarios.dfy): every test of the suite except those listed
  under "## Left out", proved against the model. Each scenario states the result and, where the test checks them,
  the requests sent.
- `Wrappers` (wrappers.dfy): `Option`, the model's `None`.

Modelling decisions the tests do not settle:

- `remove_units` reads the topology once per call and plans every removal
  from that snapshot. Each scripted snapshot list holds exactly one value
  more than the number of DELETEs the test expects: two values for one
  DELETE at test/bluegreen_test.py:124, three for two at :135 and :150. The
  lists are therefore also consistent with a re-read after each DELETE. No
  asserted request log tells the two readings apart.
- `add_units` likewise reads the total once per call. The scripted list at
  test/bluegreen_test.py:191 holds two values for one PUT, which is also
  consistent with a re-read after the PUT. No asserted log tells these
  apart either.
- A process group with `keep` units or fewer is skipped: no request is sent
  for it. No test has such a group.
- `add_units` reads the current total as an integer, as the tests' mocks do.
  When the total already meets the target, no request is sent and the
  result is true. No test covers that case.
- A call succeeds when its reply status is 2xx. The tests use only 200,
  403 and 500.
- A topology enumerates its groups in the order their labels first occur in
  the unit list. This is the model's choice. The tests compare dictionaries
  with `assertEqual`, which ignores key order, and the suite's idioms
  (`u''` literals, the standalone `mock` package) suggest a Python version
  whose dictionaries do not keep insertion order. The removal order asserted
  at test/bluegreen_test.py:143-146 and :158-161 is the snapshot's
  enumeration order.
- `env_get` returns the value of the first listed variable whose name is
  the key, and None when there is none.
- An empty `newrelic` or `webhook` settings dictionary is modelled as None
  in `BlueGreen.Config`.
- A `total_units` mock that runs out raises an exception (IndexError). The
  model gives None. `remove_units` and `add_units` pass that None on and
  send nothing.

## Model

| member | source | states |
|---|---|---|
| `Units.TotalUnits` | test/bluegreen_test.py:106-120 | grouping a unit list gives one group per process label that occurs, never one for a label that does not; names are distinct, each count is the number of units with that label, and no units give no groups |
| `Units.TotalUnitsInFirstOccurrenceOrder` | test/bluegreen_test.py:114-120 | in the model's chosen enumeration order, groups come in the order their labels first occur in the unit list |
| `Units.Tally` | test/bluegreen_test.py:114-120 | counting one more unit raises that label's count by one and leaves every other count alone; the topology stays distinct and positive |
| `Units.CountOfPositive` | test/bluegreen_test.py:106-120 | in a grouping without empty groups, a process counts more than zero exactly when it is present |
| `BlueGreen.TotalUnitsOf` | test/bluegreen_test.py:106-120 | `total_units` sends one GET of the app and groups the reply's units, whatever the reply's status (the tests reply 500) |
| `Scaling.RemovalPlan` | test/bluegreen_test.py:133-161 | `remove_units`' per-group decision, taken from one snapshot: at most one removal per snapshot group (groups with `keep` units or fewer are skipped; `RemovalPlanPerProcess` states which groups and how many units) |
| `Scaling.Deletes` | test/bluegreen_test.py:130-131 | each planned removal becomes one DELETE of that process and unit count, in plan order, one request per removal |
| `Scaling.RemovalPlanPerProcess` | test/bluegreen_test.py:133-161 | the removal plan of a snapshot has exactly the processes with more than `keep` units, each once, each with `count - keep` units to remove |
| `Scaling.RemovalPlanSize` | test/bluegreen_test.py:173-187 | the number of removal requests equals the number of process groups above `keep`, whatever the replies |
| `Scaling.RemovalPlanKeepsOrder` | test/bluegreen_test.py:143-146 | removals are planned in the snapshot's enumeration order |
| `Scaling.RemovalPlanDefaultKeep` | test/bluegreen_test.py:123-146 | with the default `keep = 0` and no empty groups, the plan is the snapshot itself: each group removed entirely, in order |
| `Scaling.RemovalPlanAppend` | test/bluegreen_test.py:133-146 | the plan of a concatenated snapshot is the concatenation of the plans: the groups are planned one by one, in order |
| `Scaling.IssueRemovals` | test/bluegreen_test.py:164-187 | the walk sends one DELETE per planned removal, in plan order, without stopping at a failure; its result is true exactly when every reply was 2xx |
| `Scaling.RemoveUnits` | test/bluegreen_test.py:122-187 | `remove_units` consumes one snapshot and sends exactly the DELETEs of its plan; the result is true exactly when all of them succeeded; if the snapshot cannot be read, nothing is sent |
| `Scaling.UnitsToAdd` | test/bluegreen_test.py:189-198 | the number of units to add is the least one that reaches the target: the difference when below it, zero otherwise |
| `Scaling.AddUnits` | test/bluegreen_test.py:189-208 | `add_units` reads the total once; below the target it sends one PUT of the difference and returns that call's success; otherwise it sends nothing and returns true |
| `Doubles.Script.Call` | test/bluegreen_test.py:177-182 | the fake endpoint logs each request and answers the i-th with the i-th scripted response, repeating the last one |
| `Doubles.Mock.Call` | test/bluegreen_test.py:282-288 | the replaced `total_units` returns the next scripted value and advances its counter, or fails (None) once the values are used up; a `return_value` mock always returns its value |
| `BlueGreen.CnameOf` | test/bluegreen_test.py:20-32 | the cname result is None exactly for an empty list, and otherwise the list itself |
| `BlueGreen.GetCname` | test/bluegreen_test.py:20-32 | `get_cname` sends one GET of the app and returns its cnames, or None when there are none |
| `BlueGreen.SetCname` | test/bluegreen_test.py:50-64 | `set_cname` sends one POST of the cnames; true exactly when it succeeds |
| `BlueGreen.RemoveCname` | test/bluegreen_test.py:34-48 | `remove_cname` sends one DELETE of the cnames; true exactly when it succeeds |
| `BlueGreen.EnvSet` | test/bluegreen_test.py:66-80 | `env_set` sends one POST of the variable; true exactly when it succeeds |
| `BlueGreen.EnvValue` | test/bluegreen_test.py:82-104 | a variable's value is None exactly when no listed variable has that name |
| `BlueGreen.EnvValueIsFirstMatch` | test/bluegreen_test.py:82-88 | a value found is that of the first listed variable with that name |
| `BlueGreen.EnvGet` | test/bluegreen_test.py:82-104 | `env_get` sends one GET of the environment and returns the key's value, or None |
| `BlueGreen.RunHook` | test/bluegreen_test.py:273-280 | an unconfigured hook succeeds whatever the shell would do; a configured one succeeds exactly when its command exits with status zero |
| `BlueGreen.NotifyNewRelic` | test/bluegreen_test.py:210-238 | without New Relic settings: false and no request; otherwise one deployment POST, true exactly on a 2xx reply |
| `BlueGreen.RunWebhook` | test/bluegreen_test.py:240-258 | without webhook settings: false and no request; otherwise one POST to the endpoint, true exactly on a 2xx reply |
| `Scenarios.SetUp` | test/bluegreen_test.py:9-17 | the suite's configuration: app `test-app`, hooks `before_pre` and `after_swap`, New Relic and webhook settings present |
| `Scenarios.GetCnameReturnsAListWhenPresent` | test/bluegreen_test.py:20-25 | a reply with cnames `cname1`, `cname2` gives that list, after one GET of `xpto` |
| `Scenarios.GetCnameReturnsNoneWhenEmpty` | test/bluegreen_test.py:27-32 | an empty cname list gives None |
| `Scenarios.RemoveCnameReturns` | test/bluegreen_test.py:34-48 | `remove_cname` is true on 200 and false on 500, after one DELETE |
| `Scenarios.SetCnameReturns` | test/bluegreen_test.py:50-64 | `set_cname` is true on 200 and false on 500, after one POST |
| `Scenarios.EnvSetReturns` | test/bluegreen_test.py:66-80 | `env_set` is true on 200 and false on 500, after one POST |
| `Scenarios.EnvGetReturnsAValueWhenPresent` | test/bluegreen_test.py:82-88 | a listed `TAG` with value `1.0` gives `1.0` |
| `Scenarios.EnvGetReturnsNoneWhenEmpty` | test/bluegreen_test.py:98-104 | an empty listing gives None |
| `Scenarios.TotalUnitsEmptyWithoutUnits` | test/bluegreen_test.py:106-112 | no units, reply status 500: the empty dictionary |
| `Scenarios.TotalUnitsGroupedPerProcessName` | test/bluegreen_test.py:114-120 | units web, resque, web (status 500) give the dictionary web: 2, resque: 1 |
| `Scenarios.WebResqueWeb` | test/bluegreen_test.py:117-120 | the grouping of web, resque, web, computed step by step |
| `Scenarios.WebResqueAsMap` | test/bluegreen_test.py:120 | that grouping, read as a dictionary, is `{web: 2, resque: 1}` |
| `Scenarios.RemoveUnitsReturnsTrueWhenRemovesWebUnits` | test/bluegreen_test.py:122-131 | snapshot `{web: 2}`, 200: true, and the only request removes 2 web units |
| `Scenarios.RemoveUnitsReturnsTrueWhenRemovesWebAndResqueUnits` | test/bluegreen_test.py:133-146 | snapshot `{web: 4, resque: 2}`, 200: true, requests remove web 4 then resque 2 |
| `Scenarios.RemoveUnitsAllowsKeepUnits` | test/bluegreen_test.py:148-161 | same snapshot with keep 1: true, requests remove web 3 then resque 1 |
| `Scenarios.RemoveUnitsReturnsFalseWhenDoesntRemove` | test/bluegreen_test.py:163-171 | `{web: 2}` with a 500 reply: false |
| `Scenarios.RemoveUnitsReturnsFalseWhenDoesntRemoveAllProcessTypes` | test/bluegreen_test.py:173-187 | `{web: 2, resque: 1}` with replies 500 then 200: false, and still two requests |
| `Scenarios.AddUnitsReturnsTrueWhenAdds` | test/bluegreen_test.py:189-198 | total 1, target 2, 200: true, one PUT of 1 unit |
| `Scenarios.AddUnitsReturnsFalseWhenAddFails` | test/bluegreen_test.py:200-208 | total 1, target 2, 500: false, one PUT of 1 unit |
| `Scenarios.NotifyNewRelicReturns` | test/bluegreen_test.py:210-238 | with settings, one deployment POST; true on 200, false on 403 and 500 |
| `Scenarios.DontNotifyNewRelicWhenConfigUndefined` | test/bluegreen_test.py:222-224 | empty settings: false, no request |
| `Scenarios.RunWebhookReturns` | test/bluegreen_test.py:240-258 | with settings, one POST to the endpoint; true on 200, false on 500 |
| `Scenarios.DontRunWebhookWhenConfigUndefined` | test/bluegreen_test.py:249-251 | empty settings: false, no request |
| `Scenarios.RunHookFollowsItsCommand` | test/bluegreen_test.py:273-277 | `before_pre` and `after_swap` succeed exactly when `echo test` and `undefined_command` exit with status zero |
| `Scenarios.RunHookReturnsTrueOnUndefinedHook` | test/bluegreen_test.py:279-280 | the unconfigured `after_pre` succeeds whatever the shell does |

## Left out

- `run_command` (test/bluegreen_test.py:260-271) is left out. It runs a subprocess with extra environment variables, which is process plumbing. `RunHook` takes the command's outcome as a parameter (`exitsZero`).
- HTTP transport, URLs, query strings, headers and JSON parsing are left out. A request records its method, its resource and its logical arguments. A reply is already decoded.
- Request bodies are recorded as logical arguments (cnames, key and value, revision, tag) but not their encoding. The tests never match a request body, so the bodies are not verified behaviour.
- The New Relic API key header and the form encoding of the notifier payloads are left out.
- Of a unit, only its `ProcessName` label is modelled.
- The test at test/bluegreen_test.py:91-96 (a `null` env body) is left out. The test at :98-104 has the same name and replaces it, so it never runs.
- The deployment workflow (hooks, cname swap, rebalancing, notification in sequence) is left out. It does not appear in the test suite.
- Whether `remove_units` and `add_units` read the topology again after each request is left out. One read per call is modelled; see the decisions above.
- Negative `keep` values are left out: `keep` is a `nat`.
- `Doubles.Mock.Call`: a `side_effect` mock that has run out does not count the failed call. Only the scripted cursor is modelled, not `Mock.call_count`.
