/** The HTTP endpoints under `/health`, reduced to the status code and body
    they answer with. */
module HealthCheckController {
  import opened Results
  import opened HealthCheckService
  import opened HealthCheck
  import opened HealthCheckServiceImpl
  import opened AggregationProperties

  /** The parts of a `ResponseEntity` the endpoints set: the status code and
      an optional body. */
  datatype Response = Response(code: int, body: Option<string>)

  /** `GET /health`: liveness. It consults nothing and always answers 200
      with no body. */
  function GetHealth(): (r: Response)
    ensures r.code == 200 && r.body == None
  {
    Response(200, None)
  }

  /** `GET /health/db`: maps the database probe's boolean straight to a
      response; 200 and 503 each say which way the probe went. */
  function CheckDbHealth(dbHealthy: bool): (r: Response)
    ensures r.code == 200 <==> dbHealthy
    ensures r.code == 503 <==> !dbHealthy
    ensures r.body == Some(if dbHealthy then "Database is healthy" else "Database is unhealthy")
  {
    if dbHealthy then Response(200, Some("Database is healthy"))
    else Response(503, Some("Database is unhealthy"))
  }

  /** The status-to-code switch of `GET /health/status`, after a null status
      has been replaced by `Failed`. */
  function StatusCode(status: Option<Status>): (code: int)
    ensures code == 200 <==> status == Some(Healthy)
    ensures code == 503 <==> status == Some(Unhealthy)
    ensures code == 500 <==> status == None || status == Some(Failed)
  {
    var s := if status.Some? then status.value else Failed;
    match s
    case Healthy => 200
    case Unhealthy => 503
    case _ => 500
  }

  /** The query string as the parameter map the probes receive: every value
      is a plain string. */
  function QueryParameters(query: map<string, string>): (parameters: Params)
    ensures parameters.Keys == query.Keys
    ensures forall k :: k in query ==> parameters[k] == Text(query[k])
  {
    map k | k in query :: Text(query[k])
  }

  /** `GET /health/status`: runs `checkHealth` on the query parameters and
      answers with the code for the status, with no body; an exception that
      escapes `checkHealth` escapes the endpoint too. */
  function Check(probes: seq<Probe>, query: map<string, string>): Result<Response, Escape>
  {
    match CheckHealth(probes, QueryParameters(query))
    case Ok(status) => Ok(Response(StatusCode(Some(status)), None))
    case Err(e) => Err(e)
  }

  /** The status endpoint end to end: it fails with an exception exactly when
      some probe lets one escape; otherwise it answers 200 exactly when every
      executed check passed, 503 only after a check returned false, and 500
      only after a check threw. */
  lemma StatusEndpoint(probes: seq<Probe>, query: map<string, string>)
    ensures var parameters := QueryParameters(query);
            var r := Check(probes, query);
            && (r.Err? <==> exists i :: 0 <= i < |probes| && Escapes(probes, parameters, i))
            && (r.Ok? ==> r.value.body == None && r.value.code in {200, 503, 500})
            && (r.Ok? ==> (r.value.code == 200 <==>
                  forall j :: 0 <= j < |probes| && Ran(probes, parameters, j) ==>
                    probes[j].isHealthy(parameters) == Returns(true)))
            && (r.Ok? && r.value.code == 503 ==>
                  exists j :: 0 <= j < |probes| && Ran(probes, parameters, j) &&
                    probes[j].isHealthy(parameters) == Returns(false))
            && (r.Ok? && r.value.code == 500 ==>
                  exists j :: 0 <= j < |probes| && Ran(probes, parameters, j) &&
                    probes[j].isHealthy(parameters) == ThrowsException)
  {
    var parameters := QueryParameters(query);
    EscapeCharacterization(probes, parameters, |probes|);
    if CheckHealth(probes, parameters).Ok? {
      StatusContract(probes, parameters);
    }
  }

  /** A probe asking `isQuick` of the query parameters gets true exactly when
      the query has a `quick` entry spelling "true" in some letter case. */
  lemma QuickFromQuery(query: map<string, string>)
    ensures IsQuick(QueryParameters(query)) <==>
      PARAMETER_QUICK in query && ParseBoolean(query[PARAMETER_QUICK])
  {
  }
}
