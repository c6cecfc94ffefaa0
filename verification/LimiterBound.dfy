/** Exactly when the rate per client holds: a time to live too short for a bucket to fill up is a way
    around it, for every such configuration that the common bucket does not hold back. */
module LimiterBound {
  import opened Limiter
  import opened LimiterProof
  import opened LimiterMemory
  import opened Wrappers

  /** Every window of every run in which the table does not fill up keeps every client to its rate. */
  ghost predicate ClientsKept(cfg: Config)
    requires Positive(cfg)
  {
    forall start, before, window, k, length: nat | Observed(cfg, start, before, window, length) ::
      Admitted(window, Decisions(cfg, Run(cfg, Fresh(cfg, start), before), window), Some(k)) as real
        <= cfg.clientBurst as real + Gain(cfg.clientRate, length)
  }

  ghost predicate Observed(cfg: Config, start: int, before: seq<Request>, window: seq<Request>, length: nat)
    requires Positive(cfg)
  {
    && start > 0 && Runs(cfg, Fresh(cfg, start), start, before + window)
    && NeverCrowded(cfg, Fresh(cfg, start), before + window) && Within(window, length)
  }

  /** `n` requests of one client at time `t`. */
  function Burst(t: int, n: nat): seq<Request> {
    if n == 0 then [] else [Request("a", t, "")] + Burst(t, n - 1)
  }

  lemma {:induction false} BurstTimes(t: int, n: nat)
    ensures |Burst(t, n)| == n && forall i | 0 <= i < n :: Burst(t, n)[i].now == t
  {
    if n > 0 { BurstTimes(t, n - 1); }
  }

  /** Nobody but that client is there, and at time `t` it finds `n` tokens in both buckets. */
  ghost predicate Ready(cfg: Config, s: State, clock: int, t: int, n: nat) {
    && Inv(cfg, s, clock) && clock <= t && s.clients.Keys <= {"a"}
    && Credit(s.global, cfg.globalRate, cfg.globalBurst, t) >= n as real
    && ClientCredit(cfg, Judged(cfg, s, Request("a", t, "")), t) >= n as real
  }

  /** The first of `n` requests is admitted, and the others are ready. */
  lemma {:induction false} OneOfBurst(cfg: Config, s: State, clock: int, t: int, n: nat)
    requires Positive(cfg) && n > 0 && Ready(cfg, s, clock, t, n)
    ensures var r := Request("a", t, "");
      var s' := Step(cfg, s, r);
      && Proper(cfg, s, clock, r) && !Crowded(cfg, s, "a", t) && Answer(cfg, s, r).allowed
      && Ready(cfg, s', t, t, n - 1)
      && s'.lastCleanup == Cleaned(cfg, s, t).lastCleanup && "a" in s'.clients && s'.clients["a"].lastSeen == t
      && Credit(s'.global, cfg.globalRate, cfg.globalBurst, t) ==
           Credit(s.global, cfg.globalRate, cfg.globalBurst, t) - 1.0
  {
    var r := Request("a", t, "");
    var c := Cleaned(cfg, s, t);
    if "a" !in c.clients { assert c.clients == map[]; }
    StepInv(cfg, s, clock, r);
    StepDecides(cfg, s, clock, r);
    DecideSpec(cfg, s.global, Judged(cfg, s, r), clock, t);
    var s' := Step(cfg, s, r);
    assert s'.clients.Keys <= {"a"};
    assert Judged(cfg, s', r) == s'.clients["a"];
  }

  /** Where `n` requests in a row lead, and that all of them are admitted, whatever follows. */
  ghost predicate Passes(cfg: Config, s: State, clock: int, t: int, n: nat, s': State, clock': int, rest: seq<Request>)
    requires Positive(cfg)
  {
    Runs(cfg, s', clock', rest) && NeverCrowded(cfg, s', rest) ==>
      var rs := Burst(t, n) + rest;
      && Runs(cfg, s, clock, rs) && NeverCrowded(cfg, s, rs)
      && Admitted(rs, Decisions(cfg, s, rs), Some("a")) == n + Admitted(rest, Decisions(cfg, s', rest), Some("a"))
  }

  lemma {:induction false} OneThenOthers(cfg: Config, s: State, clock: int, t: int, n: nat, s': State,
                                         rest: seq<Request>)
    requires Positive(cfg) && n > 0 && Ready(cfg, s, clock, t, n)
    requires Passes(cfg, Step(cfg, s, Request("a", t, "")), t, t, n - 1, s', t, rest)
    ensures Passes(cfg, s, clock, t, n, s', t, rest)
  {
    var r := Request("a", t, "");
    OneOfBurst(cfg, s, clock, t, n);
    var rs := Burst(t, n) + rest;
    assert rs[0] == r && rs[1..] == Burst(t, n - 1) + rest;
    assert Decisions(cfg, s, rs)[1..] == Decisions(cfg, Step(cfg, s, r), rs[1..]);
  }

  lemma {:induction false} BurstPasses(cfg: Config, s: State, clock: int, t: int, n: nat, rest: seq<Request>)
    returns (s': State)
    requires Positive(cfg) && n > 0 && Ready(cfg, s, clock, t, n)
    ensures Passes(cfg, s, clock, t, n, s', t, rest) && Ready(cfg, s', t, t, 0)
    ensures s'.lastCleanup == Cleaned(cfg, s, t).lastCleanup && "a" in s'.clients && s'.clients["a"].lastSeen == t
    ensures Credit(s'.global, cfg.globalRate, cfg.globalBurst, t) ==
      Credit(s.global, cfg.globalRate, cfg.globalBurst, t) - n as real
    decreases n
  {
    var s1 := Step(cfg, s, Request("a", t, ""));
    OneOfBurst(cfg, s, clock, t, n);
    if n == 1 {
      s' := s1;
      assert Burst(t, 0) + rest == rest;
    } else {
      s' := BurstPasses(cfg, s1, t, t, n - 1, rest);
    }
    OneThenOthers(cfg, s, clock, t, n, s', rest);
  }

  /** One request more than a client earns during the time to live. */
  function OneTooMany(cfg: Config): int { Gain(cfg.clientRate, cfg.ttl + 1).Floor + 1 }

  /** The common bucket lets a client's burst through and, a time to live later, one request too many. */
  ghost predicate Roomy(cfg: Config) {
    && cfg.clientBurst <= cfg.globalBurst
    && OneTooMany(cfg) as real <= (cfg.globalBurst - cfg.clientBurst) as real + Gain(cfg.globalRate, cfg.ttl + 1)
  }

  /** The first burst on a fresh limiter, timed so that no cleanup is due. */
  lemma {:induction false} FirstReady(cfg: Config, t: int)
    requires Positive(cfg) && 1 <= t < 1 + cfg.cleanupEvery && cfg.clientBurst <= cfg.globalBurst
    ensures Ready(cfg, Fresh(cfg, 1), 1, t, cfg.clientBurst) && Cleaned(cfg, Fresh(cfg, 1), t).lastCleanup == 1
    ensures Credit(Fresh(cfg, 1).global, cfg.globalRate, cfg.globalBurst, t) == cfg.globalBurst as real
  {
    FreshInv(cfg, 1);
    CreditGrows(Fresh(cfg, 1).global, cfg.globalRate, cfg.globalBurst, 1, 1, t);
    CreditGrows(Fresh(cfg, 1).global, cfg.globalRate, cfg.globalBurst, 1, t, t);
  }

  /** A bucket gains what it has room for. */
  lemma {:induction false} CreditGains(b: Bucket, rate: real, burst: int, clock: int, t: int, u: int)
    requires rate > 0.0 && burst > 0 && Sane(b, burst, clock) && clock <= t <= u
    ensures Credit(b, rate, burst, u) == Min(burst as real, Credit(b, rate, burst, t) + Gain(rate, u - t))
  {
    GainAdd(rate, t - b.last, u - t);
    GainMono(rate, 0, t - b.last);
    GainMono(rate, 0, u - t);
  }

  /** The second burst, when a cleanup is due and has the client forgotten. */
  lemma {:induction false} SecondReady(cfg: Config, s: State, t: int, u: int, m: nat)
    requires Positive(cfg) && Ready(cfg, s, t, t, 0) && u == t + cfg.ttl + 1 && s.lastCleanup + cfg.cleanupEvery <= u
    requires "a" in s.clients && s.clients["a"].lastSeen == t && m <= cfg.clientBurst <= cfg.globalBurst
    requires Credit(s.global, cfg.globalRate, cfg.globalBurst, t) == (cfg.globalBurst - cfg.clientBurst) as real
    requires m as real <= (cfg.globalBurst - cfg.clientBurst) as real + Gain(cfg.globalRate, cfg.ttl + 1)
    ensures Ready(cfg, s, t, u, m)
  {
    assert "a" !in Cleaned(cfg, s, u).clients;
    CreditGains(s.global, cfg.globalRate, cfg.globalBurst, t, t, u);
  }

  lemma {:induction false} BurstsWithin(t: int, n: nat, u: int, m: nat)
    requires t <= u
    ensures Within(Burst(t, n) + Burst(u, m), u - t)
  {
    BurstTimes(t, n);
    BurstTimes(u, m);
  }

  /** Two bursts a time to live apart, with a cleanup due before the second. */
  lemma {:induction false} TwoBursts(cfg: Config, t: int, u: int, m: nat)
    requires Positive(cfg) && Roomy(cfg) && 0 < m == OneTooMany(cfg) <= cfg.clientBurst
    requires 1 <= t < 1 + cfg.cleanupEvery <= u == t + cfg.ttl + 1
    ensures var s, rs := Fresh(cfg, 1), Burst(t, cfg.clientBurst) + Burst(u, m);
      && Runs(cfg, s, 1, rs) && NeverCrowded(cfg, s, rs)
      && Admitted(rs, Decisions(cfg, s, rs), Some("a")) == cfg.clientBurst + m
  {
    var n := cfg.clientBurst;
    FirstReady(cfg, t);
    var s1 := BurstPasses(cfg, Fresh(cfg, 1), 1, t, n, Burst(u, m));
    SecondReady(cfg, s1, t, u, m);
    var s2 := BurstPasses(cfg, s1, t, u, m, []);
    assert Burst(u, m) + [] == Burst(u, m);
  }

  /** If an idle client is forgotten before its bucket is full, it gets more than its burst and what it has
      earned since, unless the common bucket is too small for that. */
  lemma {:induction false} ShortMemoryAdmitsMore(cfg: Config)
    requires Positive(cfg) && !Lasting(cfg) && Roomy(cfg)
    ensures !ClientsKept(cfg)
  {
    var t := if cfg.cleanupEvery <= cfg.ttl + 1 then 1 else cfg.cleanupEvery - cfg.ttl;
    var u, m := t + cfg.ttl + 1, OneTooMany(cfg);
    GainMono(cfg.clientRate, 0, cfg.ttl + 1);
    var rs := Burst(t, cfg.clientBurst) + Burst(u, m);
    TwoBursts(cfg, t, u, m);
    BurstsWithin(t, cfg.clientBurst, u, m);
    assert [] + rs == rs && Run(cfg, Fresh(cfg, 1), []) == Fresh(cfg, 1);
    assert Observed(cfg, 1, [], rs, cfg.ttl + 1);
  }

  /** Unless the common bucket is too small to let it through, the rate per client holds in all runs if
      and only if a bucket fills up within the time to live. */
  lemma {:induction false} ClientsKeptIffLasting(cfg: Config)
    requires Positive(cfg) && (Lasting(cfg) || Roomy(cfg))
    ensures ClientsKept(cfg) <==> Lasting(cfg)
  {
    if Lasting(cfg) {
      forall start, before, window, k, length: nat | Observed(cfg, start, before, window, length)
        ensures Admitted(window, Decisions(cfg, Run(cfg, Fresh(cfg, start), before), window), Some(k)) as real
          <= cfg.clientBurst as real + Gain(cfg.clientRate, length)
      {
        ClientWindow(cfg, start, before, window, k, length);
      }
    } else {
      ShortMemoryAdmitsMore(cfg);
    }
  }

  lemma {:induction false} GainByRate(slow: real, fast: real, ns: nat)
    requires 0.0 < slow <= fast
    ensures Gain(slow, ns) <= Gain(fast, ns)
  {
    var x := ns as real / SECOND as real;
    assert 0.0 <= x;
    assert 0.0 <= (fast - slow) * x == fast * x - slow * x;
  }

  lemma {:induction false} OneOfAll(rs: seq<Request>, ds: seq<Decision>, k: string)
    requires |ds| == |rs|
    ensures Admitted(rs, ds, Some(k)) <= Admitted(rs, ds, None)
    decreases |rs|
  {
    if rs != [] { OneOfAll(rs[1..], ds[1..], k); }
  }

  /** And a common bucket no larger and no faster than a client's keeps every client to its rate by itself,
      however short the memory. */
  lemma {:induction false} CommonBucketKeeps(cfg: Config)
    requires Positive(cfg) && cfg.globalBurst <= cfg.clientBurst && cfg.globalRate <= cfg.clientRate
    ensures ClientsKept(cfg)
  {
    forall start, before, window, k, length: nat | Observed(cfg, start, before, window, length)
      ensures Admitted(window, Decisions(cfg, Run(cfg, Fresh(cfg, start), before), window), Some(k)) as real
        <= cfg.clientBurst as real + Gain(cfg.clientRate, length)
    {
      OneOfAll(window, Decisions(cfg, Run(cfg, Fresh(cfg, start), before), window), k);
      GlobalWindow(cfg, start, before, window, length);
      GainByRate(cfg.globalRate, cfg.clientRate, length);
    }
  }
}
