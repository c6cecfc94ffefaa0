/** What the limiter guarantees over every sequence of requests read off a clock that never runs
    backwards. */
module LimiterProof {
  import opened Limiter
  import opened Wrappers

  // ----- one bucket

  lemma {:induction false} GainAdd(rate: real, a: int, b: int)
    ensures Gain(rate, a + b) == Gain(rate, a) + Gain(rate, b)
  {
    assert (a + b) as real / SECOND as real == a as real / SECOND as real + b as real / SECOND as real;
  }

  lemma {:induction false} GainMono(rate: real, a: int, b: int)
    requires rate > 0.0 && a <= b
    ensures Gain(rate, a) <= Gain(rate, b)
  {
    var x, y := a as real / SECOND as real, b as real / SECOND as real;
    assert x <= y;
    assert rate * x <= rate * y;
  }

  /** A bucket as the limiter keeps it up to time `clock`. */
  ghost predicate Sane(b: Bucket, burst: int, clock: int) {
    0.0 <= b.tokens <= burst as real && 0 < b.last == b.lastSeen <= clock
  }

  /** The tokens there would be at time `t`. */
  function Credit(b: Bucket, rate: real, burst: int, t: int): real { Refill(b, rate, burst, t).tokens }

  function Seen(b: Bucket, rate: real, burst: int, now: int): Bucket { Refill(b, rate, burst, now).(lastSeen := now) }

  lemma {:induction false} SeenSane(b: Bucket, rate: real, burst: int, clock: int, now: int)
    requires rate > 0.0 && burst > 0 && Sane(b, burst, clock) && clock <= now
    ensures Sane(Seen(b, rate, burst, now), burst, now)
    ensures Seen(b, rate, burst, now) == Bucket(Credit(b, rate, burst, now), now, now)
  {
    GainMono(rate, 0, now - b.last);
  }

  /** Refilling early changes nothing later. */
  lemma {:induction false} SeenKeepsCredit(b: Bucket, rate: real, burst: int, clock: int, now: int, t: int)
    requires rate > 0.0 && burst > 0 && Sane(b, burst, clock) && clock <= now <= t
    ensures Credit(Seen(b, rate, burst, now), rate, burst, t) == Credit(b, rate, burst, t)
  {
    SeenSane(b, rate, burst, clock, now);
    GainAdd(rate, now - b.last, t - now);
    GainMono(rate, 0, now - b.last);
    GainMono(rate, 0, t - now);
  }

  lemma {:induction false} CreditGrows(b: Bucket, rate: real, burst: int, clock: int, t: int, u: int)
    requires rate > 0.0 && burst > 0 && Sane(b, burst, clock) && clock <= t <= u
    ensures 0.0 <= Credit(b, rate, burst, t) <= Credit(b, rate, burst, u) <=
      Credit(b, rate, burst, t) + Gain(rate, u - t)
    ensures Credit(b, rate, burst, t) <= burst as real
  {
    GainAdd(rate, t - b.last, u - t);
    GainMono(rate, 0, t - b.last);
    GainMono(rate, 0, u - t);
  }

  /** The wait is exact: it is the first nanosecond at which the bucket holds a token. */
  lemma {:induction false} WaitExact(tokens: real, rate: real, n: nat)
    requires rate > 0.0
    ensures tokens + Gain(rate, n) >= 1.0 <==> n >= Wait(tokens, rate)
    ensures Wait(tokens, rate) > 0 <==> tokens < 1.0
  {
    GainMono(rate, 0, n);
    if tokens < 1.0 {
      var x := (1.0 - tokens) / rate * SECOND as real;
      assert (1.0 - tokens) / rate > 0.0 by { DivPositive(1.0 - tokens, rate); }
      Scale(1.0 - tokens, rate, n);
      assert n as real >= x <==> n >= Ceil(x);
    }
  }

  lemma {:induction false} DivPositive(a: real, r: real)
    requires a > 0.0 && r > 0.0
    ensures a / r > 0.0
  {
    assert a / r * r == a;
  }

  lemma {:induction false} Scale(a: real, rate: real, n: nat)
    requires rate > 0.0
    ensures Gain(rate, n) >= a <==> n as real >= a / rate * SECOND as real
  {
    var m := n as real / SECOND as real;
    var q := a / rate;
    assert q * rate == a;
    assert m >= q ==> rate * m >= rate * q;
    assert m < q ==> rate * m < rate * q;
  }

  // ----- runs

  datatype Request = Request(key: string, now: int, victim: string)

  ghost predicate Proper(cfg: Config, s: State, clock: int, r: Request) {
    && clock <= r.now
    && (Crowded(cfg, s, r.key, r.now) ==> Oldest(Cleaned(cfg, s, r.now).clients, r.victim))
  }

  function Step(cfg: Config, s: State, r: Request): State
    requires Positive(cfg)
  {
    Admit(cfg, s, r.key, r.now, r.victim).0
  }

  function Answer(cfg: Config, s: State, r: Request): Decision
    requires Positive(cfg)
  {
    Admit(cfg, s, r.key, r.now, r.victim).1
  }

  ghost predicate Runs(cfg: Config, s: State, clock: int, rs: seq<Request>)
    requires Positive(cfg)
    decreases |rs|
  {
    rs == [] || (Proper(cfg, s, clock, rs[0]) && Runs(cfg, Step(cfg, s, rs[0]), rs[0].now, rs[1..]))
  }

  function Run(cfg: Config, s: State, rs: seq<Request>): State
    requires Positive(cfg)
    decreases |rs|
  {
    if rs == [] then s else Run(cfg, Step(cfg, s, rs[0]), rs[1..])
  }

  function Decisions(cfg: Config, s: State, rs: seq<Request>): (ds: seq<Decision>)
    requires Positive(cfg)
    ensures |ds| == |rs|
    decreases |rs|
  {
    if rs == [] then [] else [Answer(cfg, s, rs[0])] + Decisions(cfg, Step(cfg, s, rs[0]), rs[1..])
  }

  /** How many of the requests are admitted: those of client `k` only, or all of them. */
  function Admitted(rs: seq<Request>, ds: seq<Decision>, k: Option<string>): nat
    requires |ds| == |rs|
  {
    if rs == [] then 0
    else
      (if ds[0].allowed && (k == None || k.value == Name(rs[0].key)) then 1 else 0) + Admitted(rs[1..], ds[1..], k)
  }

  ghost predicate Inv(cfg: Config, s: State, clock: int) {
    && Sane(s.global, cfg.globalBurst, clock)
    && (forall k | k in s.clients :: k != "" && Sane(s.clients[k], cfg.clientBurst, clock))
    && |s.clients| <= cfg.maxClients
    && s.lastCleanup <= clock
  }

  lemma {:induction false} Fewer(a: map<string, Bucket>, b: map<string, Bucket>)
    requires a.Keys <= b.Keys
    ensures |a| <= |b|
  {
    assert |a.Keys| == |a| && |b.Keys| == |b|;
    Subset(a.Keys, b.Keys);
  }

  lemma {:induction false} Subset(a: set<string>, b: set<string>)
    requires a <= b
    ensures |a| <= |b|
  {
    if a != {} {
      var x :| x in a;
      Subset(a - {x}, b - {x});
    }
  }

  lemma {:induction false} RoomMade(cfg: Config, s: State, clock: int, r: Request)
    requires Positive(cfg) && Inv(cfg, s, clock) && Proper(cfg, s, clock, r)
    ensures var c := WithClient(cfg, Cleaned(cfg, s, r.now), Name(r.key), r.now, r.victim);
      && |c.clients| <= cfg.maxClients && c.global == s.global && c.lastCleanup <= r.now && Name(r.key) in c.clients
      && forall k | k in c.clients :: k != "" && Sane(c.clients[k], cfg.clientBurst, r.now)
  {
    var c := Cleaned(cfg, s, r.now);
    Fewer(c.clients, s.clients);
    var k := Name(r.key);
    if k !in c.clients {
      var kept := if |c.clients| >= cfg.maxClients then c.clients - {r.victim} else c.clients;
      assert |kept| < cfg.maxClients by {
        if |c.clients| >= cfg.maxClients {
          assert Crowded(cfg, s, r.key, r.now);
          assert kept.Keys == c.clients.Keys - {r.victim};
          assert |kept.Keys| == |kept| && |c.clients.Keys| == |c.clients|;
        }
      }
      assert kept[k := Full(cfg.clientBurst, r.now)].Keys == kept.Keys + {k};
    }
  }

  lemma {:induction false} StepInv(cfg: Config, s: State, clock: int, r: Request)
    requires Positive(cfg) && Inv(cfg, s, clock) && Proper(cfg, s, clock, r)
    ensures Inv(cfg, Step(cfg, s, r), r.now)
  {
    RoomMade(cfg, s, clock, r);
    var k := Name(r.key);
    var c := WithClient(cfg, Cleaned(cfg, s, r.now), k, r.now, r.victim);
    SeenSane(c.global, cfg.globalRate, cfg.globalBurst, clock, r.now);
    SeenSane(c.clients[k], cfg.clientRate, cfg.clientBurst, r.now, r.now);
    var g := Seen(c.global, cfg.globalRate, cfg.globalBurst, r.now);
    var b := Seen(c.clients[k], cfg.clientRate, cfg.clientBurst, r.now);
    WaitExact(g.tokens, cfg.globalRate, 0);
    WaitExact(b.tokens, cfg.clientRate, 0);
    assert Step(cfg, s, r).clients.Keys == c.clients.Keys;
    assert |Step(cfg, s, r).clients| == |c.clients|;
  }

  lemma {:induction false} FreshInv(cfg: Config, now: int)
    requires Positive(cfg) && now > 0
    ensures Inv(cfg, Fresh(cfg, now), now)
  {
  }

  /** Admission means a whole token in each bucket, and takes exactly that; a denial takes nothing. */
  lemma {:induction false} DecideSpec(cfg: Config, g: Bucket, c: Bucket, clock: int, now: int)
    requires Positive(cfg) && clock <= now && Sane(g, cfg.globalBurst, clock) && Sane(c, cfg.clientBurst, now)
    ensures var (g', c', d) := Decide(cfg, g, c, now);
      var x, y := Credit(g, cfg.globalRate, cfg.globalBurst, now), Credit(c, cfg.clientRate, cfg.clientBurst, now);
      && (d.allowed <==> x >= 1.0 && y >= 1.0)
      && g' == Bucket(if d.allowed then x - 1.0 else x, now, now)
      && c' == Bucket(if d.allowed then y - 1.0 else y, now, now)
      && Sane(g', cfg.globalBurst, now) && Sane(c', cfg.clientBurst, now)
  {
    SeenSane(g, cfg.globalRate, cfg.globalBurst, clock, now);
    SeenSane(c, cfg.clientRate, cfg.clientBurst, now, now);
    WaitExact(Credit(g, cfg.globalRate, cfg.globalBurst, now), cfg.globalRate, 0);
    WaitExact(Credit(c, cfg.clientRate, cfg.clientBurst, now), cfg.clientRate, 0);
  }

  /** The bucket a request of client `k` is judged by. */
  ghost function Judged(cfg: Config, s: State, r: Request): Bucket {
    var c := Cleaned(cfg, s, r.now);
    if Name(r.key) in c.clients then c.clients[Name(r.key)] else Full(cfg.clientBurst, r.now)
  }

  lemma {:induction false} StepDecides(cfg: Config, s: State, clock: int, r: Request)
    requires Positive(cfg) && Inv(cfg, s, clock) && Proper(cfg, s, clock, r)
    ensures var s' := Step(cfg, s, r);
      && Sane(Judged(cfg, s, r), cfg.clientBurst, r.now) && Name(r.key) in s'.clients
      && (s'.global, s'.clients[Name(r.key)], Answer(cfg, s, r)) == Decide(cfg, s.global, Judged(cfg, s, r), r.now)
  {
  }

  lemma {:induction false} RunSplit(cfg: Config, s: State, clock: int, before: seq<Request>, window: seq<Request>)
    returns (at: int)
    requires Positive(cfg) && Inv(cfg, s, clock) && Runs(cfg, s, clock, before + window)
    ensures clock <= at && Inv(cfg, Run(cfg, s, before), at) && Runs(cfg, Run(cfg, s, before), at, window)
    decreases |before|
  {
    if before == [] {
      at := clock;
      assert before + window == window;
    } else {
      StepInv(cfg, s, clock, before[0]);
      assert (before + window)[1..] == before[1..] + window;
      at := RunSplit(cfg, Step(cfg, s, before[0]), before[0].now, before[1..], window);
    }
  }

  // ----- the rate, for everybody together

  lemma {:induction false} GlobalBound(cfg: Config, s: State, clock: int, rs: seq<Request>, from: int, to: int)
    requires Positive(cfg) && Inv(cfg, s, clock) && Runs(cfg, s, clock, rs) && clock <= from <= to
    requires rs != [] ==> from <= rs[0].now
    requires forall i | 0 <= i < |rs| :: rs[i].now <= to
    ensures Admitted(rs, Decisions(cfg, s, rs), None) as real
      <= Credit(s.global, cfg.globalRate, cfg.globalBurst, from) + Gain(cfg.globalRate, to - from)
    decreases |rs|
  {
    CreditGrows(s.global, cfg.globalRate, cfg.globalBurst, clock, from, to);
    if rs != [] {
      var r := rs[0];
      var s' := Step(cfg, s, r);
      StepInv(cfg, s, clock, r);
      GlobalBound(cfg, s', r.now, rs[1..], r.now, to);
      OneRequest(cfg, s, clock, r, from, to);
      assert Decisions(cfg, s, rs)[1..] == Decisions(cfg, s', rs[1..]);
    }
  }

  /** One request uses up what its answer costs of the credit. */
  lemma {:induction false} OneRequest(cfg: Config, s: State, clock: int, r: Request, from: int, to: int)
    requires Positive(cfg) && Inv(cfg, s, clock) && Proper(cfg, s, clock, r) && clock <= from <= r.now <= to
    ensures (if Answer(cfg, s, r).allowed then 1.0 else 0.0)
      + Credit(Step(cfg, s, r).global, cfg.globalRate, cfg.globalBurst, r.now) + Gain(cfg.globalRate, to - r.now)
      <= Credit(s.global, cfg.globalRate, cfg.globalBurst, from) + Gain(cfg.globalRate, to - from)
  {
    StepDecides(cfg, s, clock, r);
    DecideSpec(cfg, s.global, Judged(cfg, s, r), clock, r.now);
    CreditGrows(s.global, cfg.globalRate, cfg.globalBurst, clock, from, r.now);
    GainAdd(cfg.globalRate, r.now - from, to - r.now);
  }

  /** In any window of any run, however long the limiter has been at work, at most
      burst + rate * length requests are admitted. */
  lemma {:induction false} GlobalWindow(cfg: Config, start: int, before: seq<Request>, window: seq<Request>,
                                        length: nat)
    requires Positive(cfg) && start > 0 && Runs(cfg, Fresh(cfg, start), start, before + window)
    requires forall i | 0 <= i < |window| :: window[i].now <= window[0].now + length
    ensures Admitted(window, Decisions(cfg, Run(cfg, Fresh(cfg, start), before), window), None) as real
      <= cfg.globalBurst as real + Gain(cfg.globalRate, length)
  {
    FreshInv(cfg, start);
    var at := RunSplit(cfg, Fresh(cfg, start), start, before, window);
    var s := Run(cfg, Fresh(cfg, start), before);
    var from := if window == [] then at else window[0].now;
    GlobalBound(cfg, s, at, window, from, from + length);
    CreditGrows(s.global, cfg.globalRate, cfg.globalBurst, at, from, from);
  }
}
