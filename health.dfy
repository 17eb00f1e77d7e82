/** The health endpoints: `/health` combines both probes, `/health/redis` and
    `/health/postgres` report one probe each. Each answers 200 when what it reports is
    healthy and 503 otherwise. */
module Health {
  import opened ProbeTypes
  import opened Probes

  /** The outcomes a probe counts as a successful round trip, stated on the outcomes
      alone. */
  predicate RedisRoundTripOk(o: RedisOutcome) {
    o == RedisReadBack(Some("ok"))
  }

  predicate PgRoundTripOk(o: PgOutcome) {
    o.PgQueried? && o.scalar == Some(1) && o.version.Some?
  }

  /** The body of `/health` without its timestamp. */
  datatype HealthReport = HealthReport(status: Status, redis: ProbeResult, postgres: ProbeResult)

  /** The overall status: healthy only when both services are. */
  function Overall(redis: ProbeResult, postgres: ProbeResult): (s: Status)
    ensures s == Healthy <==> redis.status == Healthy && postgres.status == Healthy
    ensures redis.status == Unhealthy || postgres.status == Unhealthy ==> s == Unhealthy
  {
    if redis.status == Healthy && postgres.status == Healthy then Healthy else Unhealthy
  }

  /** `/health`: probe both services and report them under the overall status. */
  function HealthAll(cfg: Config, ro: RedisOutcome, po: PgOutcome): (resp: Response<HealthReport>)
    ensures resp.code == 200 || resp.code == 503
    ensures resp.code == 200 <==> resp.body.status == Healthy
    ensures resp.body.status == Healthy <==> RedisRoundTripOk(ro) && PgRoundTripOk(po)
    ensures resp.body.redis == CheckRedis(cfg, ro) && resp.body.postgres == CheckPostgres(cfg, po)
    ensures resp.body.status == Overall(resp.body.redis, resp.body.postgres)
    ensures resp.body.redis.host == cfg.redisHost && resp.body.redis.port == cfg.redisPort
    ensures resp.body.postgres.host == cfg.pgHost && resp.body.postgres.port == cfg.pgPort
    ensures resp.body.redis.WellFormed() && resp.body.postgres.WellFormed()
  {
    var redis := CheckRedis(cfg, ro);
    var postgres := CheckPostgres(cfg, po);
    var status := Overall(redis, postgres);
    Response(HealthReport(status, redis, postgres), StatusCode(status))
  }

  /** `/health/redis`. */
  function HealthRedis(cfg: Config, o: RedisOutcome): (resp: Response<ProbeResult>)
    ensures resp.body == CheckRedis(cfg, o)
    ensures resp.code == 200 || resp.code == 503
    ensures resp.code == 200 <==> RedisRoundTripOk(o)
    ensures resp.code == 200 <==> resp.body.status == Healthy
    ensures resp.code == 503 <==> resp.body.error.Some?
  {
    var result := CheckRedis(cfg, o);
    Response(result, StatusCode(result.status))
  }

  /** `/health/postgres`. */
  function HealthPostgres(cfg: Config, o: PgOutcome): (resp: Response<ProbeResult>)
    ensures resp.body == CheckPostgres(cfg, o)
    ensures resp.code == 200 || resp.code == 503
    ensures resp.code == 200 <==> PgRoundTripOk(o)
    ensures resp.code == 200 <==> resp.body.status == Healthy
    ensures resp.code == 503 <==> resp.body.error.Some?
  {
    var result := CheckPostgres(cfg, o);
    Response(result, StatusCode(result.status))
  }

  /** The overall endpoint agrees with the single-service endpoints: it answers 200 exactly
      when both of them do, and reports the same per-service results. */
  lemma OverallAgreesWithSingleEndpoints(cfg: Config, ro: RedisOutcome, po: PgOutcome)
    ensures HealthAll(cfg, ro, po).code == 200
            <==> HealthRedis(cfg, ro).code == 200 && HealthPostgres(cfg, po).code == 200
    ensures HealthAll(cfg, ro, po).body.redis == HealthRedis(cfg, ro).body
    ensures HealthAll(cfg, ro, po).body.postgres == HealthPostgres(cfg, po).body
  {
  }

  /** A Redis connection failure alone makes `/health/redis` and `/health` answer 503, with
      the "Connection failed" text, whatever Postgres does. */
  lemma RedisConnectionRefused(cfg: Config, msg: string, po: PgOutcome)
    ensures HealthRedis(cfg, RedisFailed(ConnError(msg))).code == 503
    ensures HealthRedis(cfg, RedisFailed(ConnError(msg))).body.error == Some("Connection failed: " + msg)
    ensures HealthAll(cfg, RedisFailed(ConnError(msg)), po).code == 503
  {
  }
}
