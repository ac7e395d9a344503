/**
 * The deployer's client operations: reading and changing cnames and
 * environment variables, counting units, running lifecycle hooks and
 * notifying the APM service and a webhook.
 *
 * Every remote call goes through a `Script` endpoint, which logs the request
 * and supplies the reply; running a shell command is a parameter that says
 * whether the command exits with status zero.
 */
module BlueGreen {
  import opened Wrappers
  import opened Units
  import opened Api
  import opened Doubles

  /** APM (New Relic) settings. */
  datatype NewRelic = NewRelic(apiKey: string, appId: string)

  /** Webhook settings: where to post, and the form fields to send along. */
  datatype Webhook = Webhook(endpoint: string, payloadExtras: string)

  /**
   * The per-run configuration: the application name, hook commands by hook
   * name, and the optional APM and webhook settings. A notifier whose
   * settings dictionary is empty is None here.
   */
  datatype Config = Config(name: string, hooks: map<string, string>, newrelic: Option<NewRelic>, webhook: Option<Webhook>)

  /**
   * The cname list as `get_cname` returns it: None stands for the empty
   * list, and nothing else is lost.
   */
  function CnameOf(cnames: seq<string>): (r: Option<seq<string>>)
    ensures r.None? <==> cnames == []
    ensures r.GetOr([]) == cnames
  {
    if cnames == [] then None else Some(cnames)
  }

  /** `get_cname(app)`: one GET of the application; its cnames, or None when it has none. */
  method GetCname(api: Script<Request, AppInfo>, app: string) returns (r: Option<seq<string>>)
    requires api.Valid()
    modifies api
    ensures api.log == old(api.log) + [GetApp(app)]
    ensures r == CnameOf(api.ReplyAt(|old(api.log)|).cname)
  {
    var info := api.Call(GetApp(app));
    r := CnameOf(info.cname);
  }

  /** `set_cname(app, cnames)`: one POST; true exactly when it succeeds. */
  method SetCname(api: Script<Request, Status>, app: string, cnames: seq<string>) returns (ok: bool)
    requires api.Valid()
    modifies api
    ensures api.log == old(api.log) + [PostCname(app, cnames)]
    ensures ok == Is2xx(api.ReplyAt(|old(api.log)|))
  {
    var status := api.Call(PostCname(app, cnames));
    ok := Is2xx(status);
  }

  /** `remove_cname(app, cnames)`: one DELETE; true exactly when it succeeds. */
  method RemoveCname(api: Script<Request, Status>, app: string, cnames: seq<string>) returns (ok: bool)
    requires api.Valid()
    modifies api
    ensures api.log == old(api.log) + [DeleteCname(app, cnames)]
    ensures ok == Is2xx(api.ReplyAt(|old(api.log)|))
  {
    var status := api.Call(DeleteCname(app, cnames));
    ok := Is2xx(status);
  }

  /** `env_set(app, key, value)`: one POST; true exactly when it succeeds. */
  method EnvSet(api: Script<Request, Status>, app: string, key: string, value: string) returns (ok: bool)
    requires api.Valid()
    modifies api
    ensures api.log == old(api.log) + [PostEnv(app, key, value)]
    ensures ok == Is2xx(api.ReplyAt(|old(api.log)|))
  {
    var status := api.Call(PostEnv(app, key, value));
    ok := Is2xx(status);
  }

  /**
   * The value of `key` in an environment listing: that of the first entry
   * with that name, or None when no entry has it.
   */
  function EnvValue(vars: seq<EnvVar>, key: string): (r: Option<string>)
    ensures r.None? <==> forall v | v in vars :: v.name != key
  {
    if vars == [] then None
    else if vars[0].name == key then Some(vars[0].value)
    else
      assert vars == [vars[0]] + vars[1..];
      EnvValue(vars[1..], key)
  }

  /** A value found is that of the first entry carrying the key. */
  lemma {:induction false} EnvValueIsFirstMatch(vars: seq<EnvVar>, key: string)
    ensures EnvValue(vars, key).Some? ==>
              exists i | 0 <= i < |vars| :: vars[i].name == key && vars[i].value == EnvValue(vars, key).value &&
                                            forall j | 0 <= j < i :: vars[j].name != key
  {
    if vars != [] && vars[0].name != key && EnvValue(vars, key).Some? {
      var tail := vars[1..];
      EnvValueIsFirstMatch(tail, key);
      var i :| 0 <= i < |tail| && tail[i].name == key && tail[i].value == EnvValue(tail, key).value &&
               forall j | 0 <= j < i :: tail[j].name != key;
      assert vars[i + 1] == tail[i];
      assert forall j | 0 < j < i + 1 :: vars[j] == tail[j - 1];
    }
  }

  /** `env_get(app, key)`: one GET of the environment; the key's value, or None. */
  method EnvGet(api: Script<Request, EnvInfo>, app: string, key: string) returns (r: Option<string>)
    requires api.Valid()
    modifies api
    ensures api.log == old(api.log) + [GetEnv(app, key)]
    ensures r == EnvValue(api.ReplyAt(|old(api.log)|).vars, key)
  {
    var info := api.Call(GetEnv(app, key));
    r := EnvValue(info.vars, key);
  }

  /**
   * `total_units(app)`: one GET of the application, whose unit list is
   * grouped by process name whatever the reply's status.
   */
  method TotalUnitsOf(api: Script<Request, AppInfo>, app: string) returns (t: Topology)
    requires api.Valid()
    modifies api
    ensures api.log == old(api.log) + [GetApp(app)]
    ensures t == TotalUnits(api.ReplyAt(|old(api.log)|).units)
  {
    var info := api.Call(GetApp(app));
    t := TotalUnits(info.units);
  }

  /**
   * `run_hook(name)`: a hook that is not configured succeeds without running
   * anything, so its outcome is the same whatever `exitsZero` says; a
   * configured one succeeds exactly when its command exits with status zero
   * (`exitsZero`).
   */
  function RunHook(hooks: map<string, string>, name: string, exitsZero: string -> bool): (ok: bool)
    ensures name !in hooks ==> ok
    ensures name in hooks ==> ok == exitsZero(hooks[name])
  {
    if name in hooks then exitsZero(hooks[name]) else true
  }

  /**
   * `notify_newrelic(revision)`: without APM settings, false and no request;
   * otherwise one deployment POST, true exactly when it succeeds.
   */
  method NotifyNewRelic(config: Config, apm: Script<Request, Status>, revision: string) returns (ok: bool)
    requires apm.Valid()
    modifies apm
    ensures config.newrelic.None? ==> !ok && apm.log == old(apm.log)
    ensures config.newrelic.Some? ==>
              && apm.log == old(apm.log) + [PostDeployment(config.newrelic.value.apiKey, config.newrelic.value.appId, revision)]
              && ok == Is2xx(apm.ReplyAt(|old(apm.log)|))
  {
    match config.newrelic
    case None =>
      ok := false;
    case Some(nr) =>
      var status := apm.Call(PostDeployment(nr.apiKey, nr.appId, revision));
      ok := Is2xx(status);
  }

  /**
   * `run_webhook(tag)`: without webhook settings, false and no request;
   * otherwise one POST to the endpoint, true exactly when it succeeds.
   */
  method RunWebhook(config: Config, endpoint: Script<Request, Status>, tag: string) returns (ok: bool)
    requires endpoint.Valid()
    modifies endpoint
    ensures config.webhook.None? ==> !ok && endpoint.log == old(endpoint.log)
    ensures config.webhook.Some? ==>
              && endpoint.log == old(endpoint.log) + [PostWebhook(config.webhook.value.endpoint, config.webhook.value.payloadExtras, tag)]
              && ok == Is2xx(endpoint.ReplyAt(|old(endpoint.log)|))
  {
    match config.webhook
    case None =>
      ok := false;
    case Some(wh) =>
      var status := endpoint.Call(PostWebhook(wh.endpoint, wh.payloadExtras, tag));
      ok := Is2xx(status);
  }
}
