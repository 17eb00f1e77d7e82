# Health-check app: probes, aggregation and readiness gate

This project models the decision logic of the Nixify health-check app (`app.py`), a
Flask service that probes a Redis cache and a PostgreSQL database. It covers four parts:

- **Probes** (`probes.dfy`). `check_redis` and `check_postgres` are functions from an
  abstract outcome to the result dictionary. The outcome stands for what the client
  libraries did: an exception of the connection class or of any other class, the value
  read back from Redis, or the two query results from Postgres. The result has a status,
  an optional error text, the configured host and port, and for Postgres the version
  words. Neither probe raises. Every path returns a result, and `error` is present exactly
  when the result is unhealthy. A failed Postgres outcome names the driver call that
  raised (`connect`, `cursor`, each `execute` and `fetchone`, `cursor.close`,
  `conn.close`). The connection state at return is computed by walking the calls that
  completed, in program order.
- **Version words** (`words.dfy`). `version.split()[0:2]` is modelled as Python's
  whitespace `str.split()`. The lemmas prove two things. It gives back the words of any
  string built from words, non-empty whitespace runs between them, and any leading or
  trailing whitespace. It drops exactly the whitespace.
- **Health endpoints** (`health.dfy`). `/health` is healthy exactly when both services
  are. Each endpoint answers 200 (section 15.3.1 of RFC 9110) for a healthy body and 503
  (section 15.6.4 of RFC 9110) otherwise. These facts are also stated directly on the
  probe outcomes.
- **Readiness gate** (`readiness.dfy`). The startup `for attempt in range(max_retries)`
  loop is a method, `RunGate`. It is proved equal to the recursive specification `Gate`,
  and lemmas about `Gate` state the following. The gate stops at the first attempt where
  both probes are healthy, without sleeping and without warning. Each failed attempt `k`
  is followed by a sleep of `min(2^k, 30)` seconds. When all ten attempts fail, the gate
  sleeps ten times (1, 2, 4, 8, 16, 30, 30, 30, 30, 30 = 181 s) and takes the warning
  branch. The app starts in both cases.

Status strings are the datatype `Status`, and `StatusText` maps them back to "healthy" and
"unhealthy". The configuration is a `Config` value passed to every probe. `DefaultConfig`
holds the defaults the app uses when no environment variable is set.

Facts about the code that the model keeps:

- The gate also sleeps after the tenth failed attempt (`app.py:219` runs on every failing
  iteration). So an all-failing startup makes ten sleeps totalling 181 s.
- `check_postgres` closes the cursor and the connection inside the `try`, with no
  `finally` (`app.py:159-160`). An exception raised by any call after `connect` leaves the
  connection open for the garbage collector. The two unhealthy paths that raise after
  `conn.close()` (scalar not 1, NULL version) have already closed it.
- A generic failure's error text is `str(e)`, which may be empty. Only the
  connection-class text ("Connection failed: ...") is always non-empty.

## Model

| member | source | states |
|---|---|---|
| `ProbeTypes.StatusText` | app.py:57-58 | the status text is "healthy" exactly for the healthy status, which is the test every caller applies |
| `ProbeTypes.StatusCode` | app.py:61 | the code is 200 or 503, and 200 exactly when the status is healthy |
| `Probes.FailureText` | app.py:116-131 | a connection-class exception becomes "Connection failed: " followed by its message; any other exception becomes its bare message |
| `Probes.CheckRedis` | app.py:86-131 | the result always names the configured Redis host and port and is well formed; it is healthy exactly when the value read back is "ok"; any other read-back gives "Redis test operation failed"; an exception gives its classified text |
| `Probes.ConnParams` | app.py:137-146 | the connection parameters are host, port, user, database and connect_timeout from the configuration, plus the password exactly when it is non-empty |
| `Probes.CheckPostgres` | app.py:133-190 | the result names the configured Postgres host and port and is well formed; it is healthy exactly when both queries returned, the scalar is 1 and the version is not NULL; its version is then the first two words of the version string; scalar not 1 gives "PostgreSQL test query failed"; NULL version gives the AttributeError text; an exception gives its classified text |
| `Probes.PgConnectionLifecycle` | app.py:148-172 | walking the completed driver calls, the connection ends closed exactly when every call returned (the healthy, scalar-not-1 and NULL-version paths); open exactly when a call after `connect` raised, and such a run is unhealthy; never opened exactly when `connect` raised |
| `Probes.FailureClassification` | app.py:175-190 | both probes turn an exception raised by any call into the same unhealthy result, classified by tier, with the configured host and port |
| `Probes.ConnectionErrorTextNonEmpty` | app.py:116-128 | a connection-class failure always has a non-empty error text, in Redis and at every Postgres call; a generic failure with an empty message has an empty one |
| `Probes.DefaultConfigHasNoPassword` | app.py:145-146 | with the default settings (empty password) the connection parameters hold exactly five keys and no password |
| `Probes.PostgresVersionField` | app.py:172 | for a version string "PostgreSQL", whitespace, release, then nothing or whitespace and more, the version field is ["PostgreSQL", release] |
| `Words.Split` | app.py:172 | every element of `s.split()` is a non-empty word free of whitespace |
| `Words.FirstTwoWords` | app.py:172 | `s.split()[0:2]` is a prefix of the words with min(2, number of words) elements |
| `Words.SplitSkipsSpace` | app.py:172 | leading whitespace of any kind produces no word |
| `Words.SplitJoinWith` | app.py:172 | splitting words joined by any non-empty whitespace runs, with any whitespace before and after, gives back exactly the words |
| `Words.SplitKeepsNonSpace` | app.py:172 | the words, concatenated, are exactly the non-whitespace characters of the string in order |
| `Words.FirstTwoWordsOf` | app.py:172 | the first two words of w1, whitespace, w2, then nothing or whitespace and more, are [w1, w2] |
| `Health.Overall` | app.py:57-60 | overall status is healthy if and only if both service statuses are healthy; one unhealthy service makes it unhealthy |
| `Health.HealthAll` | app.py:51-70 | `/health` reports exactly the two probe results (with the configured hosts and ports) under their overall status; it answers 200 or 503, 200 exactly when that status is healthy, and that exactly when the Redis read-back is "ok" and the Postgres queries returned 1 and a version |
| `Health.HealthRedis` | app.py:72-77 | `/health/redis` returns the Redis probe's result as its body; it answers 200 exactly when the Redis read-back is "ok", and 503 exactly when the body carries an error |
| `Health.HealthPostgres` | app.py:79-84 | `/health/postgres` returns the Postgres probe's result as its body; it answers 200 exactly when the Postgres queries returned 1 and a version, and 503 exactly when the body carries an error |
| `Health.OverallAgreesWithSingleEndpoints` | app.py:51-84 | `/health` answers 200 exactly when both single-service endpoints do, and reports the same per-service bodies |
| `Health.RedisConnectionRefused` | app.py:116-123 | a Redis connection failure makes `/health/redis` answer 503 with "Connection failed: " and the message, and `/health` answer 503 whatever Postgres does |
| `Readiness.Wait` | app.py:215 | every wait lies between 1 and 30 seconds |
| `Readiness.WaitSchedule` | app.py:215 | the first wait is 1; waits are 2^k up to attempt 4; each wait doubles the previous one until the cap; from attempt 5 on each wait is 30 |
| `Readiness.BackoffsTotal` | app.py:215-219 | the total sleep after n failed attempts is 2^n - 1 for n up to 5, then 31 + 30(n - 5) |
| `Readiness.RunGate` | app.py:205-221 | the loop produces exactly the run the specification `Gate` gives: the same sleeps, number of attempts and warning flag |
| `Readiness.GateCharacterised` | app.py:206-221 | the gate makes 1 to 10 attempts; all attempts before the last one failed; it warns exactly when the last attempt failed, exactly when all ten failed, and only after ten attempts; it sleeps once after each failed attempt, with the backoff schedule |
| `Readiness.GateStopsAtFirstOk` | app.py:207-213 | if attempt k is the first healthy one, the gate stops after k + 1 attempts, having slept only after the k failed ones, and does not warn |
| `Readiness.GateAllFail` | app.py:206-221 | if every attempt fails, the gate makes 10 attempts, sleeps 1, 2, 4, 8, 16, 30, 30, 30, 30, 30 (181 s in all) and takes the warning branch |
| `Readiness.GateSleepBounded` | app.py:215-219 | whatever the probes report, each sleep is between 1 and 30 seconds and the total is at most 181 seconds |

## Left out

- Network calls (`redis.Redis`, `ping`, `set`, `get`, `delete`, `psycopg2.connect`, cursor queries): foreign libraries. Each is replaced by the outcome it produced. Which exceptions count as connection-class is the libraries' decision, so the outcome carries the class.
- The Redis test key `__health_check__` and its life in the server (written with a 10-second expiry, then deleted; left to expire when a call before `delete` fails): server state outside the app.
- `response_time_ms` and the `timestamp` of `/health`: wall-clock floats with no provable content.
- `time.sleep`, `logging` (including the per-attempt progress message) and `app.run`: the gate records its sleep durations instead of sleeping. `app.run` follows the gate unconditionally.
- Flask routing, `jsonify`, the `/` endpoint and the global 500 handler: framework plumbing. `/` returns the two probe results with a fixed message and version and has no status-code logic.
- Reading the environment and `int(...)` parsing in `Config`: environment I/O. The configuration is a parameter, and `DefaultConfig` holds the defaults.
- Closing a leaked Postgres connection through Python's garbage collector: runtime behaviour outside the code.
- Query results other than an integer or NULL (for instance a boolean, which Python compares equal to 1): `SELECT 1` returns an integer.
