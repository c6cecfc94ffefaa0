/** The circuit breaker of the HTTP client. Callers acquire a token, which may be settled arbitrarily
    late and once only; tokens acquired half open are probes. */
module Breaker {
  const SECOND := 1_000_000_000

  datatype Config = Config(threshold: int, openInterval: int, maxProbes: int)

  predicate Positive(c: Config) { c.threshold > 0 && c.openInterval > 0 && c.maxProbes > 0 }

  function Normalized(c: Config): (r: Config)
    ensures Positive(r) && (c.threshold > 0 ==> r.threshold == c.threshold)
    ensures c.openInterval > 0 ==> r.openInterval == c.openInterval
    ensures c.maxProbes > 0 ==> r.maxProbes == c.maxProbes
  {
    Config(if c.threshold <= 0 then 5 else c.threshold,
           if c.openInterval <= 0 then 5 * SECOND else c.openInterval,
           if c.maxProbes <= 0 then 1 else c.maxProbes)
  }

  datatype Mode = Closed | Open | HalfOpen
  datatype Circuit = Circuit(mode: Mode, failed: int, openedAt: int, inFlight: int)
  datatype Permit = Granted(probe: bool) | Refused(retryAfter: int)

  const NEW := Circuit(Closed, 0, 0, 0)

  function Acquired(cfg: Config, c: Circuit, now: int): (Circuit, Permit) {
    var retryAt := c.openedAt + cfg.openInterval;
    if c.mode == Open && now < retryAt then (c, Refused(retryAt - now))
    else
      var d := if c.mode == Open then c.(mode := HalfOpen) else c;
      if d.mode == HalfOpen then
        if d.inFlight >= cfg.maxProbes then (d, Refused(cfg.openInterval))
        else (d.(inFlight := d.inFlight + 1), Granted(true))
      else (d, Granted(false))
  }

  function Opened(now: int): Circuit { Circuit(Open, 0, now, 0) }

  function Completed(cfg: Config, c: Circuit, probe: bool, success: bool, now: int): Circuit {
    if probe then
      if c.mode != HalfOpen then c
      else
        var left := if c.inFlight > 0 then c.inFlight - 1 else c.inFlight;
        if !success then Opened(now)
        else if left == 0 then Circuit(Closed, 0, c.openedAt, left)
        else c.(inFlight := left)
    else if c.mode != Closed then c
    else if success then c.(failed := 0)
    else if c.failed + 1 >= cfg.threshold then Opened(now)
    else c.(failed := c.failed + 1)
  }

  // ----- a breaker and all its callers

  /** The circuit, the tokens handed out and not yet settled with whether each is a probe, and the
      outcomes counted since the circuit last closed. */
  datatype System = System(circuit: Circuit, tokens: map<nat, bool>, next: nat, clock: int, outcomes: seq<bool>)

  datatype Event = Ask(now: int) | Settle(token: nat, success: bool, now: int)

  function Start(now: int): System { System(NEW, map[], 0, now, []) }

  function Tally(c: Circuit, c': Circuit, outcomes: seq<bool>, counted: bool, success: bool): seq<bool> {
    if c'.mode != Closed || c.mode != Closed then []
    else if counted then outcomes + [success]
    else outcomes
  }

  /** A token that is not outstanding has been settled before, and settling it again does nothing. */
  function Step(cfg: Config, s: System, e: Event): System {
    match e
    case Ask(now) =>
      var (c, p) := Acquired(cfg, s.circuit, now);
      s.(circuit := c, clock := now, outcomes := Tally(s.circuit, c, s.outcomes, false, false),
         tokens := if p.Granted? then s.tokens[s.next := p.probe] else s.tokens,
         next := if p.Granted? then s.next + 1 else s.next)
    case Settle(id, success, now) =>
      if id !in s.tokens then s.(clock := now)
      else
        var c := Completed(cfg, s.circuit, s.tokens[id], success, now);
        s.(circuit := c, clock := now, tokens := s.tokens - {id},
           outcomes := Tally(s.circuit, c, s.outcomes, !s.tokens[id], success))
  }

  predicate InOrder(clock: int, es: seq<Event>)
    decreases |es|
  {
    es == [] || (clock <= es[0].now && InOrder(es[0].now, es[1..]))
  }

  function Run(cfg: Config, s: System, es: seq<Event>): System
    decreases |es|
  {
    if es == [] then s else Run(cfg, Step(cfg, s, es[0]), es[1..])
  }

  ghost function Probes(tokens: map<nat, bool>): set<nat> { set id | id in tokens && tokens[id] }

  /** The length of the run of failures at the end. */
  function Trailing(outcomes: seq<bool>): nat {
    if outcomes == [] || outcomes[|outcomes| - 1] then 0 else 1 + Trailing(outcomes[..|outcomes| - 1])
  }

  ghost predicate Inv(cfg: Config, s: System) {
    var c := s.circuit;
    && (if c.mode == HalfOpen then 1 <= c.inFlight <= cfg.maxProbes else c.inFlight == 0)
    && c.inFlight <= |Probes(s.tokens)|
    && (cfg.maxProbes == 1 ==> c.inFlight == |Probes(s.tokens)|)
    && (if c.mode == Closed then c.failed == Trailing(s.outcomes) < cfg.threshold
         else c.failed == 0 && s.outcomes == [])
    && (c.mode == Open ==> c.openedAt <= s.clock)
    && (forall id | id in s.tokens :: id < s.next)
  }

  lemma {:induction false} ProbeAdded(tokens: map<nat, bool>, id: nat, probe: bool)
    requires id !in tokens
    ensures |Probes(tokens[id := probe])| == |Probes(tokens)| + if probe then 1 else 0
  {
    assert Probes(tokens[id := probe]) == Probes(tokens) + if probe then {id} else {};
  }

  lemma {:induction false} ProbeRemoved(tokens: map<nat, bool>, id: nat)
    requires id in tokens
    ensures |Probes(tokens - {id})| == |Probes(tokens)| - if tokens[id] then 1 else 0
  {
    assert Probes(tokens - {id}) == Probes(tokens) - if tokens[id] then {id} else {};
  }

  lemma {:induction false} TrailingSnoc(outcomes: seq<bool>, success: bool)
    ensures Trailing(outcomes + [success]) == if success then 0 else Trailing(outcomes) + 1
  {
    assert (outcomes + [success])[..|outcomes|] == outcomes;
  }

  lemma {:induction false} StepInv(cfg: Config, s: System, e: Event)
    requires Positive(cfg) && Inv(cfg, s) && s.clock <= e.now
    ensures Inv(cfg, Step(cfg, s, e))
  {
    match e {
      case Ask(now) => ProbeAdded(s.tokens, s.next, Acquired(cfg, s.circuit, now).1 == Granted(true));
      case Settle(id, success, now) =>
        if id in s.tokens {
          ProbeRemoved(s.tokens, id);
          TrailingSnoc(s.outcomes, success);
        }
    }
  }

  /** Over any interleaving of acquires and late completions: half open means between one and the
      maximum of probes in flight, and otherwise none; never more in flight than probe tokens
      outstanding, and just as many if the maximum is one; and while closed the counter is the current
      run of failures, below the threshold. */
  lemma {:induction false} RunInv(cfg: Config, s: System, es: seq<Event>)
    requires Positive(cfg) && Inv(cfg, s) && InOrder(s.clock, es)
    ensures Inv(cfg, Run(cfg, s, es))
    decreases |es|
  {
    if es != [] {
      StepInv(cfg, s, es[0]);
      RunInv(cfg, Step(cfg, s, es[0]), es[1..]);
    }
  }

  lemma {:induction false} StartInv(cfg: Config, now: int)
    requires Positive(cfg)
    ensures Inv(cfg, Start(now))
  {
    assert Probes(map[]) == {};
  }

  /** The circuit opens exactly on a failed probe while half open, and on the failure that completes a
      run of `threshold` while closed; it closes exactly when the last probe in flight succeeds. */
  lemma {:induction false} OpensAndCloses(cfg: Config, s: System, e: Event)
    requires Positive(cfg) && Inv(cfg, s) && s.clock <= e.now
    ensures var c, c' := s.circuit, Step(cfg, s, e).circuit;
      var settled := e.Settle? && e.token in s.tokens;
      && (c.mode != Open && c'.mode == Open <==>
            settled && !e.success
            && (if s.tokens[e.token] then c.mode == HalfOpen
                 else c.mode == Closed && Trailing(s.outcomes) + 1 == cfg.threshold))
      && (c.mode != Closed && c'.mode == Closed <==>
            settled && e.success && s.tokens[e.token] && c.mode == HalfOpen && c.inFlight == 1)
      && (c'.mode == Open && c.mode != Open ==> c'.openedAt == e.now)
  {
  }

  /** Nothing passes during the open interval, whatever is settled meanwhile. */
  lemma {:induction false} NothingPassesWhileOpen(cfg: Config, s: System, es: seq<Event>)
    requires Positive(cfg) && Inv(cfg, s) && s.circuit.mode == Open && InOrder(s.clock, es)
    requires forall i | 0 <= i < |es| :: es[i].now < s.circuit.openedAt + cfg.openInterval
    ensures Run(cfg, s, es).circuit == s.circuit && Run(cfg, s, es).next == s.next
    decreases |es|
  {
    if es != [] {
      StepInv(cfg, s, es[0]);
      NothingPassesWhileOpen(cfg, Step(cfg, s, es[0]), es[1..]);
    }
  }

  /** The wait named while open is exact. */
  lemma {:induction false} RetryAfterIsExact(cfg: Config, c: Circuit, now: int, again: int)
    requires Positive(cfg) && c.mode == Open && c.inFlight == 0 && Acquired(cfg, c, now).1.Refused? && now <= again
    ensures Acquired(cfg, c, again).1.Granted? <==> again >= now + Acquired(cfg, c, now).1.retryAfter
  {
  }

  /** No wedging: once all tokens are settled, whatever their outcomes, the breaker is not half open,
      and after at most one open interval it lets the next caller through. */
  lemma {:induction false} NeverWedges(cfg: Config, start: int, es: seq<Event>, now: int)
    requires Positive(cfg) && InOrder(start, es)
    requires var s := Run(cfg, Start(start), es); s.tokens == map[] && now >= s.clock + cfg.openInterval
    ensures var s := Run(cfg, Start(start), es); s.circuit.mode != HalfOpen && Acquired(cfg, s.circuit, now).1.Granted?
  {
    StartInv(cfg, start);
    RunInv(cfg, Start(start), es);
    assert Probes(map[]) == {};
  }

  // ----- the limit on probes

  /** `es` can be appended to a run that is at `s` and leads on to `s'`. */
  ghost predicate Leads(cfg: Config, s: System, es: seq<Event>, s': System) {
    InOrder(s.clock, es) && Run(cfg, s, es) == s'
  }

  lemma {:induction false} LeadsOn(cfg: Config, s: System, a: seq<Event>, s': System, b: seq<Event>, s'': System)
    requires Leads(cfg, s, a, s') && Leads(cfg, s', b, s'')
    ensures Leads(cfg, s, a + b, s'')
    decreases |a|
  {
    if a == [] {
      assert a + b == b;
    } else {
      assert (a + b)[1..] == a[1..] + b;
      LeadsOn(cfg, Step(cfg, s, a[0]), a[1..], s', b, s'');
    }
  }

  lemma {:induction false} LeadsOne(cfg: Config, s: System, e: Event)
    requires s.clock <= e.now
    ensures Leads(cfg, s, [e], Step(cfg, s, e))
  {
    assert [e][1..] == [];
  }

  /** `n` more failures open a closed circuit. */
  lemma {:induction false} FailUntilOpen(cfg: Config, s: System, n: nat) returns (es: seq<Event>, s': System)
    requires Positive(cfg) && Inv(cfg, s) && s.circuit.mode == Closed && s.tokens == map[]
    requires s.circuit.failed + n == cfg.threshold
    ensures Leads(cfg, s, es, s') && Inv(cfg, s') && s'.circuit.mode == Open && s'.tokens == map[]
    decreases n
  {
    var e1 := Ask(s.clock);
    var s1 := Step(cfg, s, e1);
    var e2 := Settle(s.next, false, s.clock);
    var s2 := Step(cfg, s1, e2);
    StepInv(cfg, s, e1);
    StepInv(cfg, s1, e2);
    LeadsOne(cfg, s, e1);
    LeadsOne(cfg, s1, e2);
    LeadsOn(cfg, s, [e1], s1, [e2], s2);
    assert s2.tokens == map[];
    if n == 1 {
      es, s' := [e1] + [e2], s2;
    } else {
      var rest;
      rest, s' := FailUntilOpen(cfg, s2, n - 1);
      LeadsOn(cfg, s, [e1] + [e2], s2, rest, s');
      es := [e1] + [e2] + rest;
    }
  }

  /** From an open circuit, `n` probes can be sent out at once. */
  lemma {:induction false} SendProbes(cfg: Config, s: System, n: nat) returns (es: seq<Event>, s': System)
    requires Positive(cfg) && Inv(cfg, s) && s.circuit.mode == Open && 1 <= n <= cfg.maxProbes
    ensures Leads(cfg, s, es, s') && Inv(cfg, s') && s'.circuit.mode == HalfOpen && s'.circuit.inFlight == n
    ensures |Probes(s'.tokens)| == |Probes(s.tokens)| + n
    decreases n
  {
    var at := s;
    es := [];
    var e := Ask(s.clock + cfg.openInterval);
    if n > 1 {
      es, at := SendProbes(cfg, s, n - 1);
      e := Ask(at.clock);
    }
    s' := Step(cfg, at, e);
    StepInv(cfg, at, e);
    ProbeAdded(at.tokens, at.next, true);
    LeadsOne(cfg, at, e);
    LeadsOn(cfg, s, es, at, [e], s');
    es := es + [e];
  }

  /** With a larger limit, a failed probe opens the circuit and resets the count while its fellow is
      still out; the next round then adds its own probes to it. */
  lemma {:induction false} ProbesPileUp(cfg: Config, start: int) returns (es: seq<Event>)
    requires Positive(cfg) && cfg.maxProbes > 1
    ensures InOrder(start, es) && |Probes(Run(cfg, Start(start), es).tokens)| > cfg.maxProbes
  {
    StartInv(cfg, start);
    var es1, s1 := FailUntilOpen(cfg, Start(start), cfg.threshold);
    assert Probes(s1.tokens) == {};
    var es2, s2 := SendProbes(cfg, s1, 2);
    var id :| id in Probes(s2.tokens);
    var e := Settle(id, false, s2.clock);
    var s3 := Step(cfg, s2, e);
    StepInv(cfg, s2, e);
    ProbeRemoved(s2.tokens, id);
    LeadsOne(cfg, s2, e);
    var es4, s4 := SendProbes(cfg, s3, cfg.maxProbes);
    LeadsOn(cfg, Start(start), es1, s1, es2, s2);
    LeadsOn(cfg, Start(start), es1 + es2, s2, [e], s3);
    LeadsOn(cfg, Start(start), es1 + es2 + [e], s3, es4, s4);
    es := es1 + es2 + [e] + es4;
  }

  /** The limit on probes in flight bounds the probe tokens outstanding exactly when it is one: opening
      again resets the count while tokens of the last round are still out. */
  lemma {:induction false} ProbeLimitHoldsIffOne(cfg: Config, start: int)
    requires Positive(cfg)
    ensures cfg.maxProbes == 1 <==>
      forall es | InOrder(start, es) :: |Probes(Run(cfg, Start(start), es).tokens)| <= cfg.maxProbes
  {
    if cfg.maxProbes == 1 {
      StartInv(cfg, start);
      forall es | InOrder(start, es) ensures |Probes(Run(cfg, Start(start), es).tokens)| <= 1 {
        RunInv(cfg, Start(start), es);
      }
    } else {
      var es := ProbesPileUp(cfg, start);
    }
  }

  // ----- the breaker as it is written

  /** What another caller does, and how long after the last event. */
  datatype Move = Asks(elapsed: nat) | Settles(elapsed: nat, token: nat, success: bool)

  datatype Ticket = Token(id: nat) | CircuitOpen(retryAfter: int)

  /** The ticket for a permit: the next token, or the wait that was named. */
  predicate Ticketed(r: Ticket, p: Permit, next: nat) {
    match p
    case Granted(_) => r == Token(next)
    case Refused(retryAfter) => r == CircuitOpen(retryAfter)
  }

  /** Event `k` of `es` asks the breaker, which answers with `r`. */
  ghost predicate Asked(cfg: Config, s: System, es: seq<Event>, k: nat, r: Ticket) {
    && k < |es| && es[k].Ask?
    && var met := Run(cfg, s, es[..k]);
       Ticketed(r, Acquired(cfg, met.circuit, es[k].now).1, met.next)
  }

  lemma {:induction false} AskedLater(cfg: Config, s: System, a: seq<Event>, s': System, b: seq<Event>,
                                      k: nat, r: Ticket)
    requires Run(cfg, s, a) == s' && Asked(cfg, s', b, k, r)
    ensures Asked(cfg, s, a + b, |a| + k, r)
    decreases |a|
  {
    if a == [] {
      assert a + b == b;
    } else {
      AskedLater(cfg, Step(cfg, s, a[0]), a[1..], s', b, k, r);
      var es, n := a + b, |a| + k;
      assert es[1..] == a[1..] + b && es[..n][0] == a[0] && es[..n][1..] == es[1..][..n - 1];
    }
  }

  /** What has been asked stays so, whatever follows. */
  lemma {:induction false} AskedBefore(cfg: Config, s: System, a: seq<Event>, b: seq<Event>, k: nat, r: Ticket)
    requires Asked(cfg, s, a, k, r)
    ensures Asked(cfg, s, a + b, k, r)
  {
    assert (a + b)[..k] == a[..k];
  }

  class CircuitBreaker {
    const cfg: Config
    var mode: Mode
    var failed: int
    var openedAt: int
    var inFlight: int
    var tokens: map<nat, bool>  // the completion functions handed out and not yet called
    var next: nat
    var clock: int  // the last reading
    ghost var outcomes: seq<bool>

    ghost function Contents(): System reads this {
      System(Circuit(mode, failed, openedAt, inFlight), tokens, next, clock, outcomes)
    }

    ghost predicate Valid() reads this { Positive(cfg) && Inv(cfg, Contents()) }

    constructor (config: Config, now: int)
      ensures cfg == Normalized(config) && Contents() == Start(now) && Valid()
    {
      cfg := Normalized(config);
      mode, failed, openedAt, inFlight := Closed, 0, 0, 0;
      tokens, next, clock, outcomes := map[], 0, now, [];
      new;
      StartInv(cfg, now);
    }

    method Acquire(now: int) returns (r: Ticket)
      requires Valid() && clock <= now
      modifies this
      ensures Valid() && Contents() == Step(cfg, old(Contents()), Ask(now))
      ensures Ticketed(r, Acquired(cfg, old(Contents()).circuit, now).1, old(next))
      ensures r.Token? ==> r.id == old(next) && next == old(next) + 1 && r.id in tokens
      ensures r.CircuitOpen? ==> next == old(next) && tokens == old(tokens)
    {
      ghost var before := Contents();
      StepInv(cfg, before, Ask(now));
      clock := now;
      if mode == Open {
        var retryAt := openedAt + cfg.openInterval;
        if now < retryAt {
          return CircuitOpen(retryAt - now);
        }
        mode := HalfOpen;
      }
      var probe := mode == HalfOpen;
      outcomes := if probe then [] else outcomes;
      if probe {
        if inFlight >= cfg.maxProbes {
          return CircuitOpen(cfg.openInterval);
        }
        inFlight := inFlight + 1;
      }
      r := Token(next);
      tokens, next := tokens[next := probe], next + 1;
    }

    /** Calling a completion function: the first call counts, later ones do nothing. */
    method Finish(id: nat, success: bool, now: int)
      requires Valid() && clock <= now
      modifies this
      ensures Valid() && Contents() == Step(cfg, old(Contents()), Settle(id, success, now))
      ensures id !in tokens && next == old(next)
    {
      ghost var before := Contents();
      StepInv(cfg, before, Settle(id, success, now));
      clock := now;
      if id in tokens {
        var probe := tokens[id];
        tokens := tokens - {id};
        Complete(probe, success, now);
        outcomes := Tally(before.circuit, Contents().circuit, before.outcomes, !probe, success);
      }
    }

    method Complete(probe: bool, success: bool, now: int)
      requires Positive(cfg)
      modifies this`mode, this`failed, this`openedAt, this`inFlight
      ensures Contents().circuit == Completed(cfg, old(Contents().circuit), probe, success, now)
    {
      if probe {
        if mode != HalfOpen { return; }
        if inFlight > 0 { inFlight := inFlight - 1; }
        if !success {
          OpenCircuit(now);
          return;
        }
        if inFlight == 0 {
          failed := 0;
          mode := Closed;
        }
        return;
      }
      if mode != Closed { return; }
      if success {
        failed := 0;
        return;
      }
      failed := failed + 1;
      if failed >= cfg.threshold { OpenCircuit(now); }
    }

    method OpenCircuit(now: int)
      modifies this`mode, this`failed, this`openedAt, this`inFlight
      ensures Contents().circuit == Opened(now)
    {
      openedAt, failed, inFlight, mode := now, 0, 0, Open;
    }

    /** Other callers at work. They settle their own tokens only, not those in `spare`. */
    method Others(moves: seq<Move>, spare: set<nat>) returns (ghost trace: seq<Event>)
      requires Valid()
      modifies this
      ensures Valid() && Leads(cfg, old(Contents()), trace, Contents())
      ensures old(next) <= next && forall id | id in tokens :: id in old(tokens) || old(next) <= id
      ensures forall id | id in spare && id in old(tokens) :: id in tokens
    {
      trace := [];
      for i := 0 to |moves|
        invariant Valid() && Leads(cfg, old(Contents()), trace, Contents())
        invariant old(next) <= next && forall id | id in tokens :: id in old(tokens) || old(next) <= id
        invariant forall id | id in spare && id in old(tokens) :: id in tokens
      {
        ghost var before := Contents();
        var now := clock + moves[i].elapsed;
        ghost var e := Ask(now);
        match moves[i] {
          case Asks(_) =>
            var _ := Acquire(now);
          case Settles(_, id, success) =>
            if id !in spare {
              e := Settle(id, success, now);
              Finish(id, success, now);
            } else {
              var _ := Acquire(now);
            }
        }
        LeadsOne(cfg, before, e);
        LeadsOn(cfg, old(Contents()), trace, before, [e], Contents());
        trace := trace + [e];
      }
    }
  }
}
