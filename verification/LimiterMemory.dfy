/** Forgetting idle clients is invisible when an idle client's bucket would be full again anyway: the
    limiter then decides exactly as one that never forgets anybody. From this comes the rate per
    client. Also: what a denial costs, and when to come back. */
module LimiterMemory {
  import opened Limiter
  import opened LimiterProof
  import opened Wrappers

  /** A limiter that remembers every client it ever saw. */
  datatype Book = Book(global: Bucket, clients: map<string, Bucket>)

  function Remembered(cfg: Config, b: Book, r: Request): Bucket {
    if Name(r.key) in b.clients then b.clients[Name(r.key)] else Full(cfg.clientBurst, r.now)
  }

  function Turn(cfg: Config, b: Book, r: Request): (Book, Decision)
    requires Positive(cfg)
  {
    var (g, c, d) := Decide(cfg, b.global, Remembered(cfg, b, r), r.now);
    (Book(g, b.clients[Name(r.key) := c]), d)
  }

  function Verdicts(cfg: Config, b: Book, rs: seq<Request>): (ds: seq<Decision>)
    requires Positive(cfg)
    ensures |ds| == |rs|
    decreases |rs|
  {
    if rs == [] then [] else var (b', d) := Turn(cfg, b, rs[0]); [d] + Verdicts(cfg, b', rs[1..])
  }

  /** A client out of sight for longer than the time to live has a full bucket. */
  ghost predicate Lasting(cfg: Config) { Gain(cfg.clientRate, cfg.ttl + 1) >= cfg.clientBurst as real }

  function ClientCredit(cfg: Config, b: Bucket, t: int): real { Credit(b, cfg.clientRate, cfg.clientBurst, t) }

  /** Clients known to both have the same bucket; those only in the book have a full one. */
  ghost predicate Agree(cfg: Config, s: State, b: Book, clock: int) {
    && s.global == b.global
    && (forall k | k in s.clients :: k in b.clients && b.clients[k] == s.clients[k])
    && (forall k | k in b.clients :: Sane(b.clients[k], cfg.clientBurst, clock))
    && (forall k | k in b.clients && k !in s.clients ::
         ClientCredit(cfg, b.clients[k], clock) == cfg.clientBurst as real)
  }

  lemma {:induction false} CleanedAgree(cfg: Config, s: State, b: Book, clock: int, now: int)
    requires Positive(cfg) && Lasting(cfg) && clock <= now && Agree(cfg, s, b, clock)
    ensures Agree(cfg, Cleaned(cfg, s, now), b, now)
  {
    var c := Cleaned(cfg, s, now);
    forall k | k in b.clients && k !in c.clients
      ensures ClientCredit(cfg, b.clients[k], now) == cfg.clientBurst as real
    {
      if k in s.clients {
        GainMono(cfg.clientRate, cfg.ttl + 1, now - b.clients[k].last);
      } else {
        CreditGrows(b.clients[k], cfg.clientRate, cfg.clientBurst, clock, clock, now);
        CreditGrows(b.clients[k], cfg.clientRate, cfg.clientBurst, clock, now, now);
      }
    }
  }

  lemma {:induction false} DecideAlike(cfg: Config, g: Bucket, c: Bucket, c': Bucket, now: int)
    requires Positive(cfg)
    requires Seen(c, cfg.clientRate, cfg.clientBurst, now) == Seen(c', cfg.clientRate, cfg.clientBurst, now)
    ensures Decide(cfg, g, c, now) == Decide(cfg, g, c', now)
  {
  }

  lemma {:induction false} StepAgree(cfg: Config, s: State, b: Book, clock: int, r: Request)
    requires Positive(cfg) && Lasting(cfg) && Inv(cfg, s, clock) && Agree(cfg, s, b, clock) && clock <= r.now
    requires !Crowded(cfg, s, r.key, r.now)
    ensures Answer(cfg, s, r) == Turn(cfg, b, r).1 && Agree(cfg, Step(cfg, s, r), Turn(cfg, b, r).0, r.now)
  {
    var k := Name(r.key);
    CleanedAgree(cfg, s, b, clock, r.now);
    var c := Cleaned(cfg, s, r.now);
    StepDecides(cfg, s, clock, r);
    SeenSane(Remembered(cfg, b, r), cfg.clientRate, cfg.clientBurst, r.now, r.now);
    SeenSane(Judged(cfg, s, r), cfg.clientRate, cfg.clientBurst, r.now, r.now);
    DecideAlike(cfg, s.global, Judged(cfg, s, r), Remembered(cfg, b, r), r.now);
    DecideSpec(cfg, s.global, Remembered(cfg, b, r), clock, r.now);
    var s', b' := Step(cfg, s, r), Turn(cfg, b, r).0;
    assert forall u | u in s'.clients && u != k :: u in c.clients && s'.clients[u] == c.clients[u];
    assert forall u | u in c.clients :: u in s'.clients;
  }

  /** No request of the run finds the client table full. */
  ghost predicate NeverCrowded(cfg: Config, s: State, rs: seq<Request>)
    requires Positive(cfg)
    decreases |rs|
  {
    rs == [] || (!Crowded(cfg, s, rs[0].key, rs[0].now) && NeverCrowded(cfg, Step(cfg, s, rs[0]), rs[1..]))
  }

  /** As long as the table does not fill up, and with a time to live in which a bucket does, the limiter
      makes exactly the decisions, and names exactly the waits, of one that never forgets. */
  lemma {:induction false} ForgettingIsInvisible(cfg: Config, s: State, b: Book, clock: int, rs: seq<Request>)
    requires Positive(cfg) && Lasting(cfg) && Inv(cfg, s, clock) && Agree(cfg, s, b, clock) && Runs(cfg, s, clock, rs)
    requires NeverCrowded(cfg, s, rs)
    ensures Decisions(cfg, s, rs) == Verdicts(cfg, b, rs)
    decreases |rs|
  {
    if rs != [] {
      var r := rs[0];
      StepAgree(cfg, s, b, clock, r);
      StepInv(cfg, s, clock, r);
      ForgettingIsInvisible(cfg, Step(cfg, s, r), Turn(cfg, b, r).0, r.now, rs[1..]);
    }
  }

  /** A table with room for everybody who ever asks does not fill up. */
  lemma {:induction false} RoomForAll(cfg: Config, s: State, rs: seq<Request>, names: set<string>)
    requires Positive(cfg) && s.clients.Keys <= names && |names| <= cfg.maxClients
    requires forall i | 0 <= i < |rs| :: Name(rs[i].key) in names
    ensures NeverCrowded(cfg, s, rs)
    decreases |rs|
  {
    if rs != [] {
      var c, k := Cleaned(cfg, s, rs[0].now), Name(rs[0].key);
      if k !in c.clients {
        Subset(c.clients.Keys, names - {k});
        assert |c.clients.Keys| == |c.clients|;
      }
      RoomForAll(cfg, Step(cfg, s, rs[0]), rs[1..], names);
    }
  }

  // ----- the rate of one client

  ghost function BookCredit(cfg: Config, b: Book, k: string, t: int): real {
    if k in b.clients then ClientCredit(cfg, b.clients[k], t) else cfg.clientBurst as real
  }

  ghost predicate BookSane(cfg: Config, b: Book, clock: int) {
    Sane(b.global, cfg.globalBurst, clock) && forall k | k in b.clients :: Sane(b.clients[k], cfg.clientBurst, clock)
  }

  ghost predicate InOrder(rs: seq<Request>, clock: int) {
    rs == [] || (clock <= rs[0].now && InOrder(rs[1..], rs[0].now))
  }

  lemma {:induction false} BookCreditGrows(cfg: Config, b: Book, k: string, clock: int, t: int, u: int)
    requires Positive(cfg) && BookSane(cfg, b, clock) && clock <= t <= u
    ensures 0.0 <= BookCredit(cfg, b, k, t) <= cfg.clientBurst as real
    ensures BookCredit(cfg, b, k, u) <= BookCredit(cfg, b, k, t) + Gain(cfg.clientRate, u - t)
    ensures 0.0 <= Gain(cfg.clientRate, u - t)
  {
    GainMono(cfg.clientRate, 0, u - t);
    if k in b.clients { CreditGrows(b.clients[k], cfg.clientRate, cfg.clientBurst, clock, t, u); }
  }

  /** A turn costs its own client a token if admitted, and the others nothing. */
  lemma {:induction false} TurnSpends(cfg: Config, b: Book, clock: int, r: Request, k: string)
    requires Positive(cfg) && BookSane(cfg, b, clock) && clock <= r.now
    ensures var (b', d) := Turn(cfg, b, r);
      && BookSane(cfg, b', r.now)
      && BookCredit(cfg, b', k, r.now) ==
           BookCredit(cfg, b, k, r.now) - (if d.allowed && k == Name(r.key) then 1.0 else 0.0)
  {
    DecideSpec(cfg, b.global, Remembered(cfg, b, r), clock, r.now);
  }

  lemma {:induction false} ClientBound(cfg: Config, b: Book, clock: int, rs: seq<Request>, k: string, from: int,
                                       to: int)
    requires Positive(cfg) && BookSane(cfg, b, clock) && InOrder(rs, clock) && clock <= from <= to
    requires rs != [] ==> from <= rs[0].now
    requires forall i | 0 <= i < |rs| :: rs[i].now <= to
    ensures Admitted(rs, Verdicts(cfg, b, rs), Some(k)) as real <=
      BookCredit(cfg, b, k, from) + Gain(cfg.clientRate, to - from)
    decreases |rs|
  {
    BookCreditGrows(cfg, b, k, clock, from, to);
    if rs != [] {
      var r := rs[0];
      TurnSpends(cfg, b, clock, r, k);
      ClientBound(cfg, Turn(cfg, b, r).0, r.now, rs[1..], k, r.now, to);
      BookCreditGrows(cfg, b, k, clock, from, r.now);
      GainAdd(cfg.clientRate, r.now - from, to - r.now);
      assert Verdicts(cfg, b, rs)[1..] == Verdicts(cfg, Turn(cfg, b, r).0, rs[1..]);
    }
  }

  lemma {:induction false} RunsInOrder(cfg: Config, s: State, clock: int, rs: seq<Request>)
    requires Positive(cfg) && Runs(cfg, s, clock, rs)
    ensures InOrder(rs, clock)
    decreases |rs|
  {
    if rs != [] { RunsInOrder(cfg, Step(cfg, s, rs[0]), rs[0].now, rs[1..]); }
  }

  /** The book that agrees with the limiter after `before`. */
  lemma {:induction false} AgreeAfter(cfg: Config, s: State, b: Book, clock: int, before: seq<Request>,
                                      window: seq<Request>)
    returns (b': Book, at: int)
    requires Positive(cfg) && Lasting(cfg) && Inv(cfg, s, clock) && Agree(cfg, s, b, clock)
    requires Runs(cfg, s, clock, before + window) && NeverCrowded(cfg, s, before + window)
    ensures var s' := Run(cfg, s, before);
      Inv(cfg, s', at) && Agree(cfg, s', b', at) && Runs(cfg, s', at, window) && NeverCrowded(cfg, s', window)
    decreases |before|
  {
    if before == [] {
      b', at := b, clock;
      assert before + window == window;
    } else {
      var r := before[0];
      assert (before + window)[0] == r && (before + window)[1..] == before[1..] + window;
      StepAgree(cfg, s, b, clock, r);
      StepInv(cfg, s, clock, r);
      b', at := AgreeAfter(cfg, Step(cfg, s, r), Turn(cfg, b, r).0, r.now, before[1..], window);
    }
  }

  ghost predicate Within(window: seq<Request>, length: nat) {
    forall i | 0 <= i < |window| :: window[i].now <= window[0].now + length
  }

  lemma {:induction false} ClientWindowFrom(cfg: Config, s: State, b: Book, at: int, window: seq<Request>, k: string,
                                            length: nat)
    requires Positive(cfg) && Lasting(cfg) && Inv(cfg, s, at) && Agree(cfg, s, b, at)
    requires Runs(cfg, s, at, window) && NeverCrowded(cfg, s, window) && Within(window, length)
    ensures Admitted(window, Decisions(cfg, s, window), Some(k)) as real <=
      cfg.clientBurst as real + Gain(cfg.clientRate, length)
  {
    ForgettingIsInvisible(cfg, s, b, at, window);
    RunsInOrder(cfg, s, at, window);
    var from := if window == [] then at else window[0].now;
    ClientBound(cfg, b, at, window, k, from, from + length);
    BookCreditGrows(cfg, b, k, at, from, from);
  }

  /** In any window of any run in which the table does not fill up, a single client has at most
      burst + rate * length requests admitted. */
  lemma {:induction false} ClientWindow(
    cfg: Config, start: int, before: seq<Request>, window: seq<Request>, k: string, length: nat)
    requires Positive(cfg) && Lasting(cfg) && start > 0 && Runs(cfg, Fresh(cfg, start), start, before + window)
    requires NeverCrowded(cfg, Fresh(cfg, start), before + window) && Within(window, length)
    ensures Admitted(window, Decisions(cfg, Run(cfg, Fresh(cfg, start), before), window), Some(k)) as real
      <= cfg.clientBurst as real + Gain(cfg.clientRate, length)
  {
    FreshInv(cfg, start);
    var b, at := AgreeAfter(cfg, Fresh(cfg, start), Book(Full(cfg.globalBurst, start), map[]), start, before, window);
    ClientWindowFrom(cfg, Run(cfg, Fresh(cfg, start), before), b, at, window, k, length);
  }

  // ----- denials and waits

  /** A denied request changes neither bucket's credit at any later time. The other clients are those a
      cleanup that is due leaves, with the buckets they had, less the one evicted if the table was full. */
  lemma {:induction false} DenialSpendsNothing(cfg: Config, s: State, clock: int, r: Request, t: int)
    requires Positive(cfg) && Inv(cfg, s, clock) && Proper(cfg, s, clock, r) && !Answer(cfg, s, r).allowed && r.now <= t
    ensures var s' := Step(cfg, s, r);
      && Credit(s'.global, cfg.globalRate, cfg.globalBurst, t) == Credit(s.global, cfg.globalRate, cfg.globalBurst, t)
      && ClientCredit(cfg, s'.clients[Name(r.key)], t) == ClientCredit(cfg, Judged(cfg, s, r), t)
      && var c := Cleaned(cfg, s, r.now).clients;
         && (forall k | k != Name(r.key) :: k in s'.clients <==>
              k in c && !(Crowded(cfg, s, r.key, r.now) && k == r.victim))
         && (forall k | k in s'.clients && k != Name(r.key) :: s'.clients[k] == c[k] == s.clients[k])
  {
    StepDecides(cfg, s, clock, r);
    DecideSpec(cfg, s.global, Judged(cfg, s, r), clock, r.now);
    SeenKeepsCredit(s.global, cfg.globalRate, cfg.globalBurst, clock, r.now, t);
    SeenKeepsCredit(Judged(cfg, s, r), cfg.clientRate, cfg.clientBurst, r.now, r.now, t);
    SeenSane(s.global, cfg.globalRate, cfg.globalBurst, clock, r.now);
    SeenSane(Judged(cfg, s, r), cfg.clientRate, cfg.clientBurst, r.now, r.now);
  }

  /** The returned wait is exact. With no other traffic the same client is admitted after it, and, as
      long as it is not forgotten meanwhile, not before. */
  lemma {:induction false} WaitIsExact(cfg: Config, s: State, clock: int, r: Request, again: Request)
    requires Positive(cfg) && Inv(cfg, s, clock) && Proper(cfg, s, clock, r) && !Answer(cfg, s, r).allowed
    requires Name(again.key) == Name(r.key) && Proper(cfg, Step(cfg, s, r), r.now, again)
    ensures var s', due := Step(cfg, s, r), r.now + Answer(cfg, s, r).wait;
      && due > r.now
      && (again.now >= due ==> Answer(cfg, s', again).allowed)
      && (again.now < due && Name(r.key) in Cleaned(cfg, s', again.now).clients ==> !Answer(cfg, s', again).allowed)
  {
    var s', n := Step(cfg, s, r), again.now - r.now;
    StepInv(cfg, s, clock, r);
    StepDecides(cfg, s, clock, r);
    StepDecides(cfg, s', r.now, again);
    DecideSpec(cfg, s.global, Judged(cfg, s, r), clock, r.now);
    DecideSpec(cfg, s'.global, Judged(cfg, s', again), r.now, again.now);
    WaitExact(s'.global.tokens, cfg.globalRate, n);
    WaitExact(s'.clients[Name(r.key)].tokens, cfg.clientRate, n);
    SeenSane(s.global, cfg.globalRate, cfg.globalBurst, clock, r.now);
    SeenSane(Judged(cfg, s, r), cfg.clientRate, cfg.clientBurst, r.now, r.now);
  }

  /** The Retry-After header: whole seconds, at least one. */
  function RetryAfter(wait: int): (seconds: int)
    ensures seconds >= 1 && seconds * SECOND >= wait && (wait > 0 ==> (seconds - 1) * SECOND < wait)
  {
    var seconds := Ceil(wait as real / SECOND as real);
    if seconds < 1 then 1 else seconds
  }

  /** A client that waits as the header says is admitted. */
  lemma {:induction false} RetryAfterSuffices(cfg: Config, s: State, clock: int, r: Request, again: Request)
    requires Positive(cfg) && Inv(cfg, s, clock) && Proper(cfg, s, clock, r) && !Answer(cfg, s, r).allowed
    requires Name(again.key) == Name(r.key) && Proper(cfg, Step(cfg, s, r), r.now, again)
    requires again.now >= r.now + RetryAfter(Answer(cfg, s, r).wait) * SECOND
    ensures Answer(cfg, Step(cfg, s, r), again).allowed
  {
    WaitIsExact(cfg, s, clock, r, again);
  }

  /** The client table never outgrows its limit. */
  lemma {:induction false} TableIsBounded(cfg: Config, start: int, rs: seq<Request>)
    requires Positive(cfg) && start > 0 && Runs(cfg, Fresh(cfg, start), start, rs)
    ensures |Run(cfg, Fresh(cfg, start), rs).clients| <= cfg.maxClients
  {
    FreshInv(cfg, start);
    assert rs + [] == rs;
    var at := RunSplit(cfg, Fresh(cfg, start), start, rs, []);
  }
}
