/** Values shared by the probes, the aggregation endpoints and the readiness gate:
    the configuration the probes read, the two failure tiers a probe tells apart,
    and the result record every probe returns. */
module ProbeTypes {

  datatype Option<+T> = None | Some(value: T)

  /** The `status` field of a result: the strings "healthy" and "unhealthy". */
  datatype Status = Healthy | Unhealthy

  /** The JSON text of a status. The model compares `Status` values directly; this
      function records that doing so is the source's `status == "healthy"` test. */
  function StatusText(s: Status): (t: string)
    ensures t == "healthy" <==> s == Healthy
  {
    match s
    case Healthy => "healthy"
    case Unhealthy => "unhealthy"
  }

  /** An exception raised by a client library while probing, reduced to its class and its
      message `str(e)`: the connection class (redis.ConnectionError, psycopg2.OperationalError)
      or any other exception. */
  datatype Failure = ConnError(msg: string) | OtherError(msg: string)

  /** The settings read once at startup. The probes read the Redis and Postgres fields;
      `appPort` is only passed to `app.run` and is kept to mirror the configuration. */
  datatype Config = Config(
    redisHost: string,
    redisPort: int,
    pgHost: string,
    pgPort: int,
    pgUser: string,
    pgDb: string,
    pgPassword: string,
    appPort: int,
    connectionTimeout: int)

  /** The settings when no environment variable is set. */
  const DefaultConfig := Config("127.0.0.1", 6379, "127.0.0.1", 5432, "postgres", "postgres", "", 80, 5)

  /** The dictionary a probe returns, without its wall-clock `response_time_ms`.
      `error` is present exactly on unhealthy results; `version` only on a healthy Postgres result. */
  datatype ProbeResult = ProbeResult(
    status: Status,
    error: Option<string>,
    host: string,
    port: int,
    version: Option<seq<string>>)
  {
    predicate WellFormed() {
      (status == Healthy <==> error.None?) && (version.Some? ==> status == Healthy)
    }
  }

  /** An HTTP response: a JSON body and a status code. */
  datatype Response<T> = Response(body: T, code: int)

  /** The status code a health endpoint answers with: 200 OK (section 15.3.1 of RFC 9110)
      for a healthy body, 503 Service Unavailable (section 15.6.4 of RFC 9110) otherwise. */
  function StatusCode(s: Status): (code: int)
    ensures code == 200 || code == 503
    ensures code == 200 <==> s == Healthy
  {
    if s == Healthy then 200 else 503
  }
}
