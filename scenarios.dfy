/**
 * The scenarios of the deployer's test suite, proved against the model.
 *
 * Each method sets up the same fakes as its test (a scripted endpoint, a
 * replaced `total_units`), runs the operation, and states what the test
 * asserts: the result and, where the test looks at them, the requests sent.
 */
module Scenarios {
  import opened Wrappers
  import opened Units
  import opened Api
  import opened Doubles
  import opened Scaling
  import opened BlueGreen

  /** The configuration every test starts from. */
  function SetUp(): (c: Config)
    ensures c.name == "test-app" && c.newrelic.Some? && c.webhook.Some?
    ensures c.hooks.Keys == {"before_pre", "after_swap"}
  {
    Config(
      "test-app",
      map["before_pre" := "echo test", "after_swap" := "undefined_command"],
      Some(NewRelic("some-api-key", "123")),
      Some(Webhook("http://example.com", "key1=value1&key2=value2")))
  }

  method GetCnameReturnsAListWhenPresent() returns (r: Option<seq<string>>, log: seq<Request>)
    ensures r == Some(["cname1", "cname2"])
    ensures log == [GetApp("xpto")]
  {
    var api := new Script([AppInfo(200, ["cname1", "cname2"], [])]);
    r := GetCname(api, "xpto");
    log := api.log;
  }

  method GetCnameReturnsNoneWhenEmpty() returns (r: Option<seq<string>>)
    ensures r == None
  {
    var api := new Script([AppInfo(200, [], [])]);
    r := GetCname(api, "xpto");
  }

  method RemoveCnameReturns(status: Status) returns (ok: bool, log: seq<Request>)
    ensures ok <==> Is2xx(status)
    ensures log == [DeleteCname("xpto", ["cname1", "cname2"])]
  {
    var api := new Script([status]);
    ok := RemoveCname(api, "xpto", ["cname1", "cname2"]);
    log := api.log;
  }

  method SetCnameReturns(status: Status) returns (ok: bool, log: seq<Request>)
    ensures ok <==> Is2xx(status)
    ensures log == [PostCname("xpto", ["cname1", "cname2"])]
  {
    var api := new Script([status]);
    ok := SetCname(api, "xpto", ["cname1", "cname2"]);
    log := api.log;
  }

  method EnvSetReturns(status: Status) returns (ok: bool, log: seq<Request>)
    ensures ok <==> Is2xx(status)
    ensures log == [PostEnv("xpto", "TAG", "tag_value")]
  {
    var api := new Script([status]);
    ok := EnvSet(api, "xpto", "TAG", "tag_value");
    log := api.log;
  }

  method EnvGetReturnsAValueWhenPresent() returns (r: Option<string>)
    ensures r == Some("1.0")
  {
    var api := new Script([EnvInfo(200, [EnvVar("TAG", true, "1.0")])]);
    r := EnvGet(api, "xpto", "TAG");
  }

  method EnvGetReturnsNoneWhenEmpty() returns (r: Option<string>)
    ensures r == None
  {
    var api := new Script([EnvInfo(200, [])]);
    r := EnvGet(api, "xpto", "TAG");
  }

  method TotalUnitsEmptyWithoutUnits() returns (t: Topology)
    ensures AsMap(t) == map[]
  {
    var api := new Script([AppInfo(500, [], [])]);
    t := TotalUnitsOf(api, "xpto");
  }

  method TotalUnitsGroupedPerProcessName() returns (t: Topology)
    ensures t == [Group("web", 2), Group("resque", 1)]
    ensures AsMap(t) == map["web" := 2, "resque" := 1]
  {
    var units := [Unit("web"), Unit("resque"), Unit("web")];
    var api := new Script([AppInfo(500, [], units)]);
    t := TotalUnitsOf(api, "xpto");
    WebResqueWeb();
    WebResqueAsMap();
  }

  lemma WebResqueWeb()
    ensures TotalUnits([Unit("web"), Unit("resque"), Unit("web")]) == [Group("web", 2), Group("resque", 1)]
  {
    var units := [Unit("web"), Unit("resque"), Unit("web")];
    assert units[..2] == [Unit("web"), Unit("resque")] && units[..2][..1] == [Unit("web")];
    assert [Unit("web")][..0] == [];
    assert TotalUnits([Unit("web")]) == [Group("web", 1)];
    assert [Group("web", 1)][1..] == [];
    assert TotalUnits(units[..2]) == [Group("web", 1), Group("resque", 1)];
    assert [Group("web", 1), Group("resque", 1)][1..] == [Group("resque", 1)];
  }

  lemma WebResqueAsMap()
    ensures AsMap([Group("web", 2), Group("resque", 1)]) == map["web" := 2, "resque" := 1]
  {
  }

  method RemoveUnitsReturnsTrueWhenRemovesWebUnits() returns (ok: Option<bool>, log: seq<Request>)
    ensures ok == Some(true)
    ensures log == [DeleteUnits("xpto", "web", 2)]
  {
    var totalUnits := new Mock(SideEffect([[Group("web", 2)], [Group("web", 0)]]));
    var api := new Script([200]);
    ok := RemoveUnits(totalUnits, api, "xpto");
    log := api.log;
  }

  method RemoveUnitsReturnsTrueWhenRemovesWebAndResqueUnits() returns (ok: Option<bool>, log: seq<Request>)
    ensures ok == Some(true)
    ensures log == [DeleteUnits("xpto", "web", 4), DeleteUnits("xpto", "resque", 2)]
  {
    var totalUnits := new Mock(SideEffect([
      [Group("web", 4), Group("resque", 2)],
      [Group("web", 0), Group("resque", 2)],
      [Group("web", 0), Group("resque", 0)]]));
    var api := new Script([200]);
    ok := RemoveUnits(totalUnits, api, "xpto");
    log := api.log;
  }

  method RemoveUnitsAllowsKeepUnits() returns (ok: Option<bool>, log: seq<Request>)
    ensures ok == Some(true)
    ensures log == [DeleteUnits("xpto", "web", 3), DeleteUnits("xpto", "resque", 1)]
  {
    var totalUnits := new Mock(SideEffect([
      [Group("web", 4), Group("resque", 2)],
      [Group("web", 1), Group("resque", 2)],
      [Group("web", 1), Group("resque", 1)]]));
    var api := new Script([200]);
    ok := RemoveUnits(totalUnits, api, "xpto", 1);
    log := api.log;
  }

  method RemoveUnitsReturnsFalseWhenDoesntRemove() returns (ok: Option<bool>, log: seq<Request>)
    ensures ok == Some(false)
    ensures log == [DeleteUnits("xpto", "web", 2)]
  {
    var totalUnits := new Mock(ReturnValue([Group("web", 2)]));
    var api := new Script([500]);
    ok := RemoveUnits(totalUnits, api, "xpto");
    assert !Is2xx(api.ReplyAt(0));
    log := api.log;
  }

  method RemoveUnitsReturnsFalseWhenDoesntRemoveAllProcessTypes() returns (ok: Option<bool>, log: seq<Request>)
    ensures ok == Some(false)
    ensures |log| == 2 && log == [DeleteUnits("xpto", "web", 2), DeleteUnits("xpto", "resque", 1)]
  {
    var totalUnits := new Mock(ReturnValue([Group("web", 2), Group("resque", 1)]));
    var api := new Script([500, 200]);
    ok := RemoveUnits(totalUnits, api, "xpto");
    assert !Is2xx(api.ReplyAt(0));
    log := api.log;
  }

  method AddUnitsReturnsTrueWhenAdds() returns (ok: Option<bool>, log: seq<Request>)
    ensures ok == Some(true)
    ensures log == [PutUnits("xpto", 1)]
  {
    var totalUnits := new Mock(SideEffect([1, 2]));
    var api := new Script([200]);
    ok := AddUnits(totalUnits, api, "xpto", 2);
    log := api.log;
  }

  method AddUnitsReturnsFalseWhenAddFails() returns (ok: Option<bool>, log: seq<Request>)
    ensures ok == Some(false)
    ensures log == [PutUnits("xpto", 1)]
  {
    var totalUnits := new Mock(ReturnValue(1));
    var api := new Script([500]);
    ok := AddUnits(totalUnits, api, "xpto", 2);
    log := api.log;
  }

  method NotifyNewRelicReturns(status: Status) returns (ok: bool, log: seq<Request>)
    ensures ok <==> Is2xx(status)
    ensures log == [PostDeployment("some-api-key", "123", "1.0")]
  {
    var apm := new Script([status]);
    ok := NotifyNewRelic(SetUp(), apm, "1.0");
    log := apm.log;
  }

  method DontNotifyNewRelicWhenConfigUndefined() returns (ok: bool, log: seq<Request>)
    ensures !ok && log == []
  {
    var apm := new Script([200]);
    ok := NotifyNewRelic(SetUp().(newrelic := None), apm, "1.0");
    log := apm.log;
  }

  method RunWebhookReturns(status: Status) returns (ok: bool, log: seq<Request>)
    ensures ok <==> Is2xx(status)
    ensures log == [PostWebhook("http://example.com", "key1=value1&key2=value2", "1.0")]
  {
    var endpoint := new Script([status]);
    ok := RunWebhook(SetUp(), endpoint, "1.0");
    log := endpoint.log;
  }

  method DontRunWebhookWhenConfigUndefined() returns (ok: bool, log: seq<Request>)
    ensures !ok && log == []
  {
    var endpoint := new Script([200]);
    ok := RunWebhook(SetUp().(webhook := None), endpoint, "1.0");
    log := endpoint.log;
  }

  /** `before_pre` runs `echo test`; the hook succeeds exactly when that command does. */
  lemma RunHookFollowsItsCommand(exitsZero: string -> bool)
    ensures RunHook(SetUp().hooks, "before_pre", exitsZero) == exitsZero("echo test")
    ensures RunHook(SetUp().hooks, "after_swap", exitsZero) == exitsZero("undefined_command")
  {
  }

  /** `after_pre` is not configured: it succeeds whatever the shell would do. */
  lemma RunHookReturnsTrueOnUndefinedHook(exitsZero: string -> bool)
    ensures RunHook(SetUp().hooks, "after_pre", exitsZero)
  {
  }
}
