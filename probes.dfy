/** The two dependency probes, `check_redis` and `check_postgres`. Every call into a client
    library is replaced by the outcome it produced; each probe maps that outcome to the
    result dictionary it returns. Neither probe raises: every path returns a result. */
module Probes {
  import opened ProbeTypes
  import opened Words

  /** What the Redis round trip (ping, set the test key, get it, delete it) produced:
      an exception from one of the calls, or the value `get` read back (None for a
      missing key). */
  datatype RedisOutcome = RedisFailed(failure: Failure) | RedisReadBack(value: Option<string>)

  /** The calls `check_postgres` makes on the driver, in program order: `connect`,
      `cursor`, `execute` and `fetchone()[0]` for the version query, the same for
      `SELECT 1`, then `cursor.close()` and `conn.close()`. */
  datatype PgStep =
    | Connect | OpenCursor | ExecVersion | FetchVersion | ExecOne | FetchOne | CloseCursor | CloseConn

  const PgSteps: seq<PgStep> :=
    [Connect, OpenCursor, ExecVersion, FetchVersion, ExecOne, FetchOne, CloseCursor, CloseConn]

  /** The position of a call in `PgSteps`. */
  function StepIndex(step: PgStep): (i: nat)
    ensures i < |PgSteps| && PgSteps[i] == step
  {
    match step
    case Connect => 0
    case OpenCursor => 1
    case ExecVersion => 2
    case FetchVersion => 3
    case ExecOne => 4
    case FetchOne => 5
    case CloseCursor => 6
    case CloseConn => 7
  }

  /** What the Postgres round trip produced: one of the calls raised (and the calls after
      it did not run), or every call returned, giving the first column of
      `SELECT version();` and of `SELECT 1 as health_check;` (None for SQL NULL). */
  datatype PgOutcome =
    | PgFailedAt(step: PgStep, failure: Failure)
    | PgQueried(version: Option<string>, scalar: Option<int>)

  /** The value the Redis probe writes under its test key and expects to read back. */
  const RedisTestValue := "ok"

  const RedisMismatchError := "Redis test operation failed"
  const PgQueryMismatchError := "PostgreSQL test query failed"
  const ConnectionFailedPrefix := "Connection failed: "
  /** `str(e)` of the AttributeError raised by `None.split()`. */
  const NoneSplitError := "'NoneType' object has no attribute 'split'"

  /** The error text an exception caught by a probe becomes. */
  function FailureText(f: Failure): (t: string)
    ensures f.ConnError? ==> t == ConnectionFailedPrefix + f.msg
    ensures f.OtherError? ==> t == f.msg
  {
    match f
    case ConnError(msg) => ConnectionFailedPrefix + msg
    case OtherError(msg) => msg
  }

  /** The unhealthy result of a probe against `host:port`. */
  function Failed(f: Failure, host: string, port: int): ProbeResult {
    ProbeResult(Unhealthy, Some(FailureText(f)), host, port, None)
  }

  /** `check_redis()`. A read-back other than "ok" raises a plain Exception inside the
      `try`, which the generic handler turns into an unhealthy result. */
  function CheckRedis(cfg: Config, o: RedisOutcome): (r: ProbeResult)
    ensures r.WellFormed() && r.version.None?
    ensures r.host == cfg.redisHost && r.port == cfg.redisPort
    ensures r.status == Healthy <==> o == RedisReadBack(Some(RedisTestValue))
    ensures o.RedisReadBack? && o.value != Some(RedisTestValue) ==> r.error == Some(RedisMismatchError)
    ensures o.RedisFailed? ==> r.error == Some(FailureText(o.failure))
  {
    match o
    case RedisFailed(f) => Failed(f, cfg.redisHost, cfg.redisPort)
    case RedisReadBack(value) =>
      if value != Some(RedisTestValue) then
        Failed(OtherError(RedisMismatchError), cfg.redisHost, cfg.redisPort)
      else
        ProbeResult(Healthy, None, cfg.redisHost, cfg.redisPort, None)
  }

  /** A value in the keyword arguments passed to `psycopg2.connect`. */
  datatype ParamValue = Text(s: string) | Number(n: int)

  /** The keyword arguments of `psycopg2.connect`: the password only when it is non-empty. */
  function ConnParams(cfg: Config): (p: map<string, ParamValue>)
    ensures "password" in p <==> cfg.pgPassword != ""
    ensures "password" in p ==> p["password"] == Text(cfg.pgPassword)
    ensures p.Keys - {"password"} == {"host", "port", "user", "database", "connect_timeout"}
    ensures "host" in p && p["host"] == Text(cfg.pgHost)
    ensures "port" in p && p["port"] == Number(cfg.pgPort)
    ensures "user" in p && p["user"] == Text(cfg.pgUser)
    ensures "database" in p && p["database"] == Text(cfg.pgDb)
    ensures "connect_timeout" in p && p["connect_timeout"] == Number(cfg.connectionTimeout)
  {
    var base := map[
      "host" := Text(cfg.pgHost),
      "port" := Number(cfg.pgPort),
      "user" := Text(cfg.pgUser),
      "database" := Text(cfg.pgDb),
      "connect_timeout" := Number(cfg.connectionTimeout)];
    if cfg.pgPassword != "" then base["password" := Text(cfg.pgPassword)] else base
  }

  /** `check_postgres()`. The scalar is compared with 1 before the version string is split,
      so a NULL version only matters once the scalar is 1; splitting it then raises an
      AttributeError inside the `try`. */
  function CheckPostgres(cfg: Config, o: PgOutcome): (r: ProbeResult)
    ensures r.WellFormed()
    ensures r.host == cfg.pgHost && r.port == cfg.pgPort
    ensures r.status == Healthy <==> o.PgQueried? && o.scalar == Some(1) && o.version.Some?
    ensures r.status == Healthy ==> r.version == Some(FirstTwoWords(o.version.value))
    ensures o.PgQueried? && o.scalar != Some(1) ==> r.error == Some(PgQueryMismatchError)
    ensures o.PgQueried? && o.scalar == Some(1) && o.version.None? ==> r.error == Some(NoneSplitError)
    ensures o.PgFailedAt? ==> r.error == Some(FailureText(o.failure))
  {
    match o
    case PgFailedAt(_, f) => Failed(f, cfg.pgHost, cfg.pgPort)
    case PgQueried(version, scalar) =>
      if scalar != Some(1) then
        Failed(OtherError(PgQueryMismatchError), cfg.pgHost, cfg.pgPort)
      else if version.None? then
        Failed(OtherError(NoneSplitError), cfg.pgHost, cfg.pgPort)
      else
        ProbeResult(Healthy, None, cfg.pgHost, cfg.pgPort, Some(FirstTwoWords(version.value)))
  }

  /** The state of the probe's database connection. */
  datatype ConnState = NotOpened | Open | Closed

  /** The effect of one completed driver call on the connection. */
  function AfterCall(st: ConnState, step: PgStep): ConnState {
    match step
    case Connect => Open
    case CloseConn => Closed
    case _ => st
  }

  /** The connection state after the calls `calls` completed, in order, from no connection. */
  function StateAfter(calls: seq<PgStep>): ConnState {
    if calls == [] then NotOpened else AfterCall(StateAfter(calls[..|calls| - 1]), calls[|calls| - 1])
  }

  /** The calls that completed: those before the one that raised, or all of them. */
  function CompletedCalls(o: PgOutcome): (calls: seq<PgStep>)
    ensures calls <= PgSteps
  {
    match o
    case PgFailedAt(step, _) => PgSteps[..StepIndex(step)]
    case PgQueried(_, _) => PgSteps
  }

  /** The connection state when `check_postgres` returns. */
  function FinalConnState(o: PgOutcome): ConnState {
    StateAfter(CompletedCalls(o))
  }

  lemma {:induction false} StateAfterPrefix(n: nat)
    requires n <= |PgSteps|
    ensures StateAfter(PgSteps[..n]) == if n == 0 then NotOpened else if n < |PgSteps| then Open else Closed
  {
    if n > 0 {
      StateAfterPrefix(n - 1);
      assert PgSteps[..n][..n - 1] == PgSteps[..n - 1];
    }
  }

  /** The probe closes the connection itself only when every call returned, which covers
      the healthy path and the two paths that raise after `conn.close()` (scalar not 1,
      NULL version). An exception raised by any call after `connect` leaves the connection
      open; one raised by `connect` leaves none. */
  lemma PgConnectionLifecycle(cfg: Config, o: PgOutcome)
    ensures FinalConnState(o) == Closed <==> o.PgQueried?
    ensures FinalConnState(o) == Open <==> o.PgFailedAt? && o.step != Connect
    ensures FinalConnState(o) == NotOpened <==> o.PgFailedAt? && o.step == Connect
    ensures CheckPostgres(cfg, o).status == Healthy ==> FinalConnState(o) == Closed
    ensures o.PgQueried? && o.scalar != Some(1) ==> CheckPostgres(cfg, o).status == Unhealthy && FinalConnState(o) == Closed
    ensures o.PgQueried? && o.version.None? ==> CheckPostgres(cfg, o).status == Unhealthy && FinalConnState(o) == Closed
    ensures FinalConnState(o) == Open ==> CheckPostgres(cfg, o).status == Unhealthy
  {
    match o
    case PgFailedAt(step, _) =>
      StateAfterPrefix(StepIndex(step));
    case PgQueried(_, _) =>
      StateAfterPrefix(|PgSteps|);
      assert PgSteps[..|PgSteps|] == PgSteps;
  }

  /** Both probes classify a caught exception the same way: a connection-class failure
      gets the "Connection failed: " prefix, any other failure its bare message; the
      result always names the configured host and port. */
  lemma FailureClassification(cfg: Config, step: PgStep, f: Failure)
    ensures var text := if f.ConnError? then "Connection failed: " + f.msg else f.msg;
      && CheckRedis(cfg, RedisFailed(f)) == ProbeResult(Unhealthy, Some(text), cfg.redisHost, cfg.redisPort, None)
      && CheckPostgres(cfg, PgFailedAt(step, f)) == ProbeResult(Unhealthy, Some(text), cfg.pgHost, cfg.pgPort, None)
  {
  }

  /** A connection failure always carries a non-empty error text; a generic failure with an
      empty message does not. */
  lemma ConnectionErrorTextNonEmpty(cfg: Config, step: PgStep, msg: string)
    ensures CheckRedis(cfg, RedisFailed(ConnError(msg))).error.value != ""
    ensures CheckPostgres(cfg, PgFailedAt(step, ConnError(msg))).error.value != ""
    ensures CheckRedis(cfg, RedisFailed(OtherError(""))).error == Some("")
  {
  }

  /** With the default settings the password is left out of the connection parameters. */
  lemma DefaultConfigHasNoPassword()
    ensures "password" !in ConnParams(DefaultConfig)
    ensures |ConnParams(DefaultConfig)| == 5
  {
    var p := ConnParams(DefaultConfig);
    assert p.Keys == {"host", "port", "user", "database", "connect_timeout"};
  }

  /** A typical server answer: the version field keeps the product name and the release,
      whatever whitespace separates them. */
  lemma PostgresVersionField(cfg: Config, sep: string, release: string, rest: string)
    requires sep != [] && AllSpace(sep)
    requires IsWord(release)
    requires rest == [] || IsSpace(rest[0])
    ensures CheckPostgres(cfg, PgQueried(Some("PostgreSQL" + sep + release + rest), Some(1))).version
            == Some(["PostgreSQL", release])
  {
    assert IsWord("PostgreSQL");
    FirstTwoWordsOf("PostgreSQL", sep, release, rest);
  }
}
