/** The two-level token bucket of the gateway: one bucket for everybody, one per client, idle clients
    forgotten, the least recently seen evicted when there are too many. Tokens are reals and times are
    nanoseconds since Go's zero time. */
module Limiter {
  import opened Wrappers

  const SECOND := 1_000_000_000

  datatype Config = Config(
    clientRate: real, clientBurst: int, globalRate: real, globalBurst: int,
    maxClients: int, ttl: int, cleanupEvery: int)

  predicate Positive(c: Config) {
    c.clientRate > 0.0 && c.clientBurst > 0 && c.globalRate > 0.0 && c.globalBurst > 0
    && c.maxClients > 0 && c.ttl > 0 && c.cleanupEvery > 0
  }

  function Normalized(c: Config): (r: Config)
    ensures Positive(r)
    ensures c.clientRate > 0.0 ==> r.clientRate == c.clientRate
    ensures c.clientBurst > 0 ==> r.clientBurst == c.clientBurst
    ensures c.globalRate > 0.0 ==> r.globalRate == c.globalRate
    ensures c.globalBurst > 0 ==> r.globalBurst == c.globalBurst
    ensures (c.maxClients > 0 ==> r.maxClients == c.maxClients) && (c.ttl > 0 ==> r.ttl == c.ttl)
    ensures c.cleanupEvery > 0 ==> r.cleanupEvery == c.cleanupEvery
  {
    Config(if c.clientRate <= 0.0 then 50.0 else c.clientRate,
           if c.clientBurst <= 0 then 100 else c.clientBurst,
           if c.globalRate <= 0.0 then 500.0 else c.globalRate,
           if c.globalBurst <= 0 then 1000 else c.globalBurst,
           if c.maxClients <= 0 then 10_000 else c.maxClients,
           if c.ttl <= 0 then 600 * SECOND else c.ttl,
           if c.cleanupEvery <= 0 then 60 * SECOND else c.cleanupEvery)
  }

  datatype Bucket = Bucket(tokens: real, last: int, lastSeen: int)

  function Full(burst: int, now: int): Bucket { Bucket(burst as real, now, now) }

  function Min(a: real, b: real): real { if a <= b then a else b }

  /** The tokens that `rate` per second yields in `ns` nanoseconds. */
  function Gain(rate: real, ns: int): real { rate * (ns as real / SECOND as real) }

  /** Zero is the zero time, which a bucket holds only if it was never filled. */
  function Refill(b: Bucket, rate: real, burst: int, now: int): Bucket {
    if b.last == 0 then b.(last := now, tokens := burst as real)
    else if now <= b.last then b
    else b.(tokens := Min(burst as real, b.tokens + Gain(rate, now - b.last)), last := now)
  }

  function Ceil(x: real): int { -((-x).Floor) }

  /** How long until the bucket holds a whole token. */
  function Wait(tokens: real, rate: real): int
    requires rate > 0.0
  {
    if tokens >= 1.0 then 0 else Ceil((1.0 - tokens) / rate * SECOND as real)
  }

  datatype State = State(global: Bucket, clients: map<string, Bucket>, lastCleanup: int)
  datatype Decision = Decision(allowed: bool, wait: int)

  function Fresh(cfg: Config, now: int): State { State(Full(cfg.globalBurst, now), map[], now) }

  function Name(key: string): string { if key == "" then "unknown" else key }

  function Cleaned(cfg: Config, s: State, now: int): State {
    if now - s.lastCleanup < cfg.cleanupEvery then s
    else
      s.(clients := map k | k in s.clients && s.clients[k].lastSeen >= now - cfg.ttl :: s.clients[k],
         lastCleanup := now)
  }

  /** Whether a request of `key` finds the client table full. */
  predicate Crowded(cfg: Config, s: State, key: string, now: int) {
    var c := Cleaned(cfg, s, now);
    Name(key) !in c.clients && |c.clients| >= cfg.maxClients
  }

  ghost predicate Oldest(clients: map<string, Bucket>, victim: string) {
    victim in clients && forall k | k in clients :: clients[victim].lastSeen <= clients[k].lastSeen
  }

  /** The bucket of client `k`, made on first sight. `victim` is who has to go if there is no room. */
  function WithClient(cfg: Config, s: State, k: string, now: int, victim: string): State {
    if k in s.clients then s
    else
      var kept := if |s.clients| >= cfg.maxClients then s.clients - {victim} else s.clients;
      s.(clients := kept[k := Full(cfg.clientBurst, now)])
  }

  /** Both buckets refilled, and a token taken from each if both have one. */
  function Decide(cfg: Config, global: Bucket, client: Bucket, now: int): (Bucket, Bucket, Decision)
    requires Positive(cfg)
  {
    var g := Refill(global, cfg.globalRate, cfg.globalBurst, now).(lastSeen := now);
    var c := Refill(client, cfg.clientRate, cfg.clientBurst, now).(lastSeen := now);
    var gw, cw := Wait(g.tokens, cfg.globalRate), Wait(c.tokens, cfg.clientRate);
    if gw > 0 || cw > 0 then (g, c, Decision(false, if cw > gw then cw else gw))
    else (g.(tokens := g.tokens - 1.0), c.(tokens := c.tokens - 1.0), Decision(true, 0))
  }

  function Admit(cfg: Config, s: State, key: string, now: int, victim: string): (State, Decision)
    requires Positive(cfg)
  {
    var k := Name(key);
    var c := WithClient(cfg, Cleaned(cfg, s, now), k, now, victim);
    var (g, b, d) := Decide(cfg, c.global, c.clients[k], now);
    (c.(global := g, clients := c.clients[k := b]), d)
  }

  /** The limiter as it is written. */
  class Limiter {
    const cfg: Config
    var global: Bucket
    var clients: map<string, Bucket>
    var lastCleanup: int

    ghost predicate Valid() reads this { Positive(cfg) && "" !in clients }

    function Contents(): State reads this { State(global, clients, lastCleanup) }

    constructor (config: Config, now: int)
      ensures Valid() && cfg == Normalized(config) && Contents() == Fresh(cfg, now)
    {
      cfg := Normalized(config);
      global := Full(Normalized(config).globalBurst, now);
      clients := map[];
      lastCleanup := now;
    }

    method Allow(key: string, now: int) returns (allowed: bool, wait: int)
      requires Valid()
      modifies this
      ensures Valid()
      ensures exists victim ::
        && (Crowded(cfg, old(Contents()), key, now) ==> Oldest(Cleaned(cfg, old(Contents()), now).clients, victim))
        && (Contents(), Decision(allowed, wait)) == Admit(cfg, old(Contents()), key, now, victim)
    {
      Cleanup(now);
      var k := Name(key);
      var victim := Client(k, now);
      allowed, wait := Spend(k, now);
      assert (Contents(), Decision(allowed, wait)) == Admit(cfg, old(Contents()), key, now, victim);
    }

    /** Refill both buckets and take a token from each if both have one. */
    method Spend(k: string, now: int) returns (allowed: bool, wait: int)
      requires Valid() && k in clients
      modifies this`global, this`clients
      ensures Valid()
      ensures var (g, c, d) := Decide(cfg, old(global), old(clients)[k], now);
        global == g && clients == old(clients)[k := c] && d == Decision(allowed, wait)
    {
      var g := Refill(global, cfg.globalRate, cfg.globalBurst, now);
      var c := Refill(clients[k], cfg.clientRate, cfg.clientBurst, now);
      global := g.(lastSeen := now);
      clients := clients[k := c.(lastSeen := now)];
      var globalWait, clientWait := Wait(g.tokens, cfg.globalRate), Wait(c.tokens, cfg.clientRate);
      if globalWait > 0 || clientWait > 0 {
        allowed, wait := false, if clientWait > globalWait then clientWait else globalWait;
      } else {
        global := global.(tokens := global.tokens - 1.0);
        clients := clients[k := clients[k].(tokens := clients[k].tokens - 1.0)];
        allowed, wait := true, 0;
      }
    }

    method Client(k: string, now: int) returns (victim: string)
      requires Valid() && k != ""
      modifies this`clients
      ensures Valid()
      ensures k !in old(clients) && |old(clients)| >= cfg.maxClients ==> Oldest(old(clients), victim)
      ensures Contents() == WithClient(cfg, old(Contents()), k, now, victim)
    {
      victim := "";
      if k in clients { return; }
      if |clients| >= cfg.maxClients {
        victim := EvictOldest();
      }
      clients := clients[k := Full(cfg.clientBurst, now)];
    }

    /** Forget every client not seen for longer than the time to live, once a cleanup is due. */
    method Cleanup(now: int)
      requires Valid()
      modifies this`clients, this`lastCleanup
      ensures Valid() && Contents() == Cleaned(cfg, old(Contents()), now)
    {
      if now - lastCleanup < cfg.cleanupEvery { return; }
      var cutoff := now - cfg.ttl;
      var todo := clients.Keys;
      while todo != {}
        invariant todo <= clients.Keys <= old(clients.Keys)
        invariant forall k | k in clients ::
          clients[k] == old(clients)[k] && (k in todo || clients[k].lastSeen >= cutoff)
        invariant forall k | k in old(clients) && k !in clients :: old(clients)[k].lastSeen < cutoff
        invariant lastCleanup == old(lastCleanup)
        decreases |todo|
      {
        var key := NextKey(todo);
        todo := todo - {key};
        if clients[key].lastSeen < cutoff {
          clients := clients - {key};
        }
      }
      lastCleanup := now;
      assert clients == Cleaned(cfg, old(Contents()), now).clients;
    }

    /** Remove a client that nobody was seen before. */
    method EvictOldest() returns (oldestKey: string)
      requires Valid() && clients != map[]
      modifies this`clients
      ensures Valid() && Oldest(old(clients), oldestKey) && clients == old(clients) - {oldestKey}
    {
      oldestKey := "";
      var oldest := 0;
      var todo := clients.Keys;
      while todo != {}
        invariant clients == old(clients) && todo <= clients.Keys
        invariant oldestKey == "" <==> todo == clients.Keys
        invariant oldestKey != "" ==> oldestKey in clients && oldest == clients[oldestKey].lastSeen
        invariant forall k | k in clients && k !in todo :: oldest <= clients[k].lastSeen
        decreases |todo|
      {
        var key := NextKey(todo);
        todo := todo - {key};
        if oldestKey == "" || clients[key].lastSeen < oldest {
          oldestKey, oldest := key, clients[key].lastSeen;
        }
      }
      assert clients.Keys != {};
      if oldestKey != "" {
        clients := clients - {oldestKey};
      }
    }
  }
}
