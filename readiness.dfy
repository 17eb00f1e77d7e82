/** The startup readiness gate: up to `MaxRetries` attempts, each probing both services;
    it stops at the first attempt where both are healthy, and otherwise sleeps
    `min(2^attempt, 30)` seconds after every failed attempt, the last one included. When
    no attempt succeeds it logs a warning; the app starts either way. */
module Readiness {
  import opened ProbeTypes
  import opened Probes

  const MaxRetries: nat := 10
  const WaitCap: nat := 30

  /** The outcomes both probes produced on one attempt. */
  datatype Attempt = Attempt(redis: RedisOutcome, postgres: PgOutcome)

  /** What the gate did: the sleeps it made, in order, how many attempts it made, and
      whether it ended in the fail-open warning branch. */
  datatype GateRun = GateRun(sleeps: seq<nat>, attempts: nat, warned: bool)

  function Pow2(k: nat): (p: nat)
    ensures p >= 1
  {
    if k == 0 then 1 else 2 * Pow2(k - 1)
  }

  /** `min(2 ** attempt, 30)`. */
  function Wait(k: nat): (w: nat)
    ensures 1 <= w <= WaitCap
  {
    var p := Pow2(k);
    if p < WaitCap then p else WaitCap
  }

  /** The sleeps after failed attempts 0 .. n-1. */
  function Backoffs(n: nat): (ws: seq<nat>)
    ensures |ws| == n
  {
    if n == 0 then [] else Backoffs(n - 1) + [Wait(n - 1)]
  }

  function Sum(s: seq<nat>): nat {
    if s == [] then 0 else Sum(s[..|s| - 1]) + s[|s| - 1]
  }

  /** Both probes of an attempt report healthy. */
  predicate AttemptOk(cfg: Config, a: Attempt) {
    CheckRedis(cfg, a.redis).status == Healthy && CheckPostgres(cfg, a.postgres).status == Healthy
  }

  /** The gate from attempt `k` on, having slept `sleeps` so far. */
  function GateFrom(cfg: Config, attempts: seq<Attempt>, k: nat, sleeps: seq<nat>): GateRun
    requires k <= MaxRetries <= |attempts|
    decreases MaxRetries - k
  {
    if k == MaxRetries then GateRun(sleeps, MaxRetries, true)
    else if AttemptOk(cfg, attempts[k]) then GateRun(sleeps, k + 1, false)
    else GateFrom(cfg, attempts, k + 1, sleeps + [Wait(k)])
  }

  /** The whole gate, given the outcomes of each attempt. */
  function Gate(cfg: Config, attempts: seq<Attempt>): GateRun
    requires MaxRetries <= |attempts|
  {
    GateFrom(cfg, attempts, 0, [])
  }

  /** No attempt before `n` succeeded. */
  predicate NoneOkBefore(cfg: Config, attempts: seq<Attempt>, n: nat)
    requires n <= |attempts|
  {
    forall j :: 0 <= j < n ==> !AttemptOk(cfg, attempts[j])
  }

  /** The loop at startup. */
  method RunGate(cfg: Config, attempts: seq<Attempt>) returns (run: GateRun)
    requires MaxRetries <= |attempts|
    ensures run == Gate(cfg, attempts)
  {
    var sleeps: seq<nat> := [];
    var stoppedAfter := MaxRetries;
    var ready := false;
    for attempt := 0 to MaxRetries
      invariant !ready && stoppedAfter == MaxRetries
      invariant GateFrom(cfg, attempts, attempt, sleeps) == Gate(cfg, attempts)
    {
      var redisOk := CheckRedis(cfg, attempts[attempt].redis).status == Healthy;
      var postgresOk := CheckPostgres(cfg, attempts[attempt].postgres).status == Healthy;
      if redisOk && postgresOk {
        ready := true;
        stoppedAfter := attempt + 1;
        break;
      }
      var waitTime := Wait(attempt);
      sleeps := sleeps + [waitTime];
    }
    run := GateRun(sleeps, stoppedAfter, !ready);
  }

  // Backoff schedule

  lemma {:induction false} Pow2AtMost16(k: nat)
    requires k <= 4
    ensures Pow2(k) <= 16
  {
    if k > 0 { Pow2AtMost16(k - 1); }
  }

  lemma {:induction false} Pow2AtLeast32(k: nat)
    requires k >= 5
    ensures Pow2(k) >= 32
  {
    if k > 5 { Pow2AtLeast32(k - 1); }
  }

  /** The first wait is one second; each wait doubles the previous one until it reaches
      the cap; from attempt 5 on every wait is the cap. */
  lemma WaitSchedule(k: nat)
    ensures Wait(0) == 1
    ensures k <= 4 ==> Wait(k) == Pow2(k)
    ensures k >= 5 ==> Wait(k) == WaitCap
    ensures Wait(k + 1) == if 2 * Wait(k) < WaitCap then 2 * Wait(k) else WaitCap
  {
    if k <= 4 { Pow2AtMost16(k); } else { Pow2AtLeast32(k); }
    if k + 1 <= 4 { Pow2AtMost16(k + 1); } else { Pow2AtLeast32(k + 1); }
  }

  /** Total sleep after `n` failed attempts: 2^n - 1 while uncapped, then 30 more per attempt. */
  lemma {:induction false} BackoffsTotal(n: nat)
    ensures Sum(Backoffs(n)) == if n <= 5 then Pow2(n) - 1 else 31 + WaitCap * (n - 5)
  {
    if n > 0 {
      BackoffsTotal(n - 1);
      var b := Backoffs(n);
      assert b[..|b| - 1] == Backoffs(n - 1);
      WaitSchedule(n - 1);
      if n == 6 { assert Pow2(5) == 32; }
    }
  }

  lemma {:induction false} BackoffsAt(n: nat, j: nat)
    requires j < n
    ensures Backoffs(n)[j] == Wait(j)
  {
    if j < n - 1 { BackoffsAt(n - 1, j); }
  }

  // The gate

  lemma {:induction false} GateFromFailing(cfg: Config, attempts: seq<Attempt>, k: nat)
    requires k <= MaxRetries <= |attempts|
    requires NoneOkBefore(cfg, attempts, k)
    ensures var r := GateFrom(cfg, attempts, k, Backoffs(k));
      && 1 <= r.attempts <= MaxRetries
      && NoneOkBefore(cfg, attempts, r.attempts - 1)
      && (r.warned <==> !AttemptOk(cfg, attempts[r.attempts - 1]))
      && (r.warned ==> r.attempts == MaxRetries)
      && r.sleeps == Backoffs(if r.warned then r.attempts else r.attempts - 1)
    decreases MaxRetries - k
  {
    if k == MaxRetries {
    } else if AttemptOk(cfg, attempts[k]) {
    } else {
      GateFromFailing(cfg, attempts, k + 1);
    }
  }

  /** The gate makes attempts until the first success, at most `MaxRetries` of them, and
      sleeps once after each failed attempt; it warns exactly when every attempt failed. */
  lemma GateCharacterised(cfg: Config, attempts: seq<Attempt>)
    requires MaxRetries <= |attempts|
    ensures var r := Gate(cfg, attempts);
      && 1 <= r.attempts <= MaxRetries
      && NoneOkBefore(cfg, attempts, r.attempts - 1)
      && (r.warned <==> !AttemptOk(cfg, attempts[r.attempts - 1]))
      && (r.warned <==> NoneOkBefore(cfg, attempts, MaxRetries))
      && (r.warned ==> r.attempts == MaxRetries)
      && r.sleeps == Backoffs(if r.warned then r.attempts else r.attempts - 1)
  {
    GateFromFailing(cfg, attempts, 0);
  }

  /** The gate stops at the first healthy attempt `k`, without sleeping on it and without
      warning. */
  lemma GateStopsAtFirstOk(cfg: Config, attempts: seq<Attempt>, k: nat)
    requires k < MaxRetries <= |attempts|
    requires NoneOkBefore(cfg, attempts, k) && AttemptOk(cfg, attempts[k])
    ensures Gate(cfg, attempts) == GateRun(Backoffs(k), k + 1, false)
  {
    GateCharacterised(cfg, attempts);
  }

  /** When every attempt fails the gate makes all ten attempts, sleeps after each of them
      (1, 2, 4, 8, 16, then 30 five times: 181 seconds), and warns. */
  lemma GateAllFail(cfg: Config, attempts: seq<Attempt>)
    requires MaxRetries <= |attempts|
    requires NoneOkBefore(cfg, attempts, MaxRetries)
    ensures Gate(cfg, attempts) == GateRun([1, 2, 4, 8, 16, 30, 30, 30, 30, 30], 10, true)
    ensures Sum(Gate(cfg, attempts).sleeps) == 181
  {
    GateCharacterised(cfg, attempts);
    var b := Backoffs(10);
    forall j | 0 <= j < 10
      ensures b[j] == [1, 2, 4, 8, 16, 30, 30, 30, 30, 30][j]
    {
      BackoffsAt(10, j);
      WaitSchedule(j);
      if j <= 4 {
        assert Pow2(0) == 1 && Pow2(1) == 2 && Pow2(2) == 4 && Pow2(3) == 8 && Pow2(4) == 16;
      }
    }
    BackoffsTotal(10);
  }

  /** Whatever the probes report, no sleep exceeds the cap and the gate sleeps at most
      181 seconds in all. */
  lemma GateSleepBounded(cfg: Config, attempts: seq<Attempt>)
    requires MaxRetries <= |attempts|
    ensures forall j :: 0 <= j < |Gate(cfg, attempts).sleeps| ==> 1 <= Gate(cfg, attempts).sleeps[j] <= WaitCap
    ensures Sum(Gate(cfg, attempts).sleeps) <= 181
  {
    GateCharacterised(cfg, attempts);
    var r := Gate(cfg, attempts);
    var n := |r.sleeps|;
    forall j | 0 <= j < n ensures 1 <= r.sleeps[j] <= WaitCap {
      BackoffsAt(n, j);
    }
    BackoffsTotal(n);
    if n <= 5 {
      Pow2AtMost16(if n == 5 then 4 else n);
      if n == 5 { assert Pow2(5) == 2 * Pow2(4); }
    }
  }
}
