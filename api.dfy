/**
 * The requests the deployer sends and the replies it reads back.
 *
 * Each request records its method, its resource and the query or payload
 * arguments it carries; how they are encoded on the wire (URLs, query
 * strings, JSON and form bodies, headers) is not modelled.
 */
module Api {
  import opened Units

  /** An HTTP status code. */
  type Status = int

  /** A call succeeds exactly when its reply carries a 2xx status. */
  predicate Is2xx(s: Status)
  {
    200 <= s < 300
  }

  datatype Request =
    | GetApp(app: string)                                         // GET /apps/{app}
    | PostCname(app: string, cnames: seq<string>)                 // POST /apps/{app}/cname
    | DeleteCname(app: string, cnames: seq<string>)               // DELETE /apps/{app}/cname
    | GetEnv(app: string, key: string)                            // GET /apps/{app}/env
    | PostEnv(app: string, key: string, value: string)            // POST /apps/{app}/env
    | PutUnits(app: string, units: nat)                           // PUT /apps/{app}/units?units=n
    | DeleteUnits(app: string, process: string, units: nat)       // DELETE /apps/{app}/units?units=n&process=p
    | PostDeployment(apiKey: string, appId: string, revision: string)  // the APM deployments endpoint
    | PostWebhook(endpoint: string, payloadExtras: string, tag: string)

  /** The reply to GET /apps/{app}: its status, its cnames and its unit list. */
  datatype AppInfo = AppInfo(status: Status, cname: seq<string>, units: seq<Unit>)

  /** One environment variable as the control plane lists it. */
  datatype EnvVar = EnvVar(name: string, public: bool, value: string)

  /** The reply to GET /apps/{app}/env. */
  datatype EnvInfo = EnvInfo(status: Status, vars: seq<EnvVar>)
}
