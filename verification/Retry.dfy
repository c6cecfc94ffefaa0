/** Retrying: the doubling delay shared by the HTTP client and the reconciliation worker, and the retry
    loop around the circuit breaker. Durations are int64 nanoseconds. */
module Retry {
  import opened Wrappers
  import opened Breaker
  import opened Items

  // ----- the delay

  /** `base` times two to the `n`. */
  function Doubled(base: int, n: nat): int { if n == 0 then base else 2 * Doubled(base, n - 1) }

  /** The capped exponential that is meant. */
  function Ideal(base: int, max: int, n: nat): int
    requires n > 0
  {
    if Doubled(base, n - 1) < max then Doubled(base, n - 1) else max
  }

  /** The delay that is computed: the cap is reached one nanosecond early if the exponential comes to
      just one less. */
  function Delay(base: int, max: int, n: nat): int
    requires n > 0
  {
    if n > 1 && Doubled(base, n - 1) == max - 1 then max else Ideal(base, max, n)
  }

  lemma {:induction false} DoubledGrows(base: int, m: nat, n: nat)
    requires base > 0 && m <= n
    ensures 0 < base <= Doubled(base, m) <= Doubled(base, n)
    ensures m < n ==> 2 * Doubled(base, m) <= Doubled(base, n)
    decreases n
  {
    if m < n {
      DoubledGrows(base, m, n - 1);
    } else if m > 0 {
      DoubledGrows(base, m - 1, n - 1);
    }
  }

  /** The loop: `delay` doubles until it is at least half the cap. No doubling overflows, since the
      wrapped product is the product. */
  method Doubling(base: int, max: int, attempt: int) returns (r: int)
    requires 0 < base <= max <= MAX64
    ensures r == Delay(base, max, if attempt < 1 then 1 else attempt)
  {
    var n := if attempt < 1 then 1 else attempt;
    var delay := base;
    for current := 1 to n
      invariant delay == Doubled(base, current - 1) && base <= delay <= max
      invariant current > 1 ==> delay <= max - 2
    {
      if delay >= max / 2 {
        DelayCapped(base, max, current, n);
        return max;
      }
      delay := Wrap(delay * 2);
    }
    r := if delay > max then max else delay;
  }

  lemma {:induction false} DelayCapped(base: int, max: int, current: nat, n: nat)
    requires 0 < base <= max && 0 < current < n && Doubled(base, current - 1) >= max / 2
    ensures Delay(base, max, n) == max
  {
    DoubledGrows(base, current - 1, n - 1);
    if current < n - 1 { DoubledGrows(base, current, n - 1); }
  }

  /** The delay lies between the capped exponential and one more, is exactly it if the cap is even,
      and never falls as attempts go on. */
  lemma {:induction false} DelayIsCappedDoubling(base: int, max: int, n: nat)
    requires 0 < base <= max && n > 0
    ensures Ideal(base, max, n) <= Delay(base, max, n) <= Ideal(base, max, n) + 1
    ensures max % 2 == 0 ==> Delay(base, max, n) == Ideal(base, max, n)
    ensures base <= Delay(base, max, n) <= Delay(base, max, n + 1) <= max
  {
    DoubledGrows(base, 0, n - 1);
    DoubledGrows(base, n - 1, n);
  }

  // ----- the policies

  datatype Policy = Policy(maxAttempts: int, base: int, max: int, gap: int)

  const MILLISECOND := 1_000_000

  predicate Usable(p: Policy) { p.maxAttempts > 0 && 0 < p.base <= p.max && p.gap > 0 }

  function Normalized(p: Policy): (r: Policy)
    ensures Usable(r) && (Usable(p) ==> r == p)
  {
    var max := if p.max <= 0 then 500 * MILLISECOND else p.max;
    var base := if p.base <= 0 then 50 * MILLISECOND else p.base;
    Policy(if p.maxAttempts <= 0 then 1 else p.maxAttempts, if base > max then max else base, max,
           if p.gap <= 0 then 100 * MILLISECOND else p.gap)
  }

  /** The delays of a reconciliation worker's configuration: here the cap gives way, not the base. */
  function WorkerDelays(base: int, max: int): (r: (int, int))
    ensures 0 < r.0 <= r.1 && (0 < base <= max ==> r == (base, max))
  {
    var b := if base <= 0 then 5 * SECOND else base;
    var m := if max <= 0 then 300 * SECOND else max;
    (b, if m < b then b else m)
  }

  method Backoff(policy: Policy, attempt: int) returns (r: int)
    requires Usable(policy) && policy.max <= MAX64
    ensures r == Delay(policy.base, policy.max, if attempt < 1 then 1 else attempt)
  {
    r := Doubling(policy.base, policy.max, attempt);
  }

  method RetryDelay(base: int, max: int, attempts: int) returns (r: int)
    requires base <= MAX64 && max <= MAX64
    ensures var (b, m) := WorkerDelays(base, max); r == Delay(b, m, if attempts < 1 then 1 else attempts)
  {
    var (b, m) := WorkerDelays(base, max);
    r := Doubling(b, m, attempts);
  }

  // ----- the retry loop

  datatype Reply = Responded(status: int) | NoResponse | Errored(network: bool, expired: bool)

  predicate Retryable(reply: Reply) {
    match reply
    case Responded(status) => status == 502 || status == 503 || status == 504
    case NoResponse => false
    case Errored(network, expired) => network && !expired
  }

  /** What the world has in store for one attempt: whether the request is cancelled already, the
      budget left before and after, what other callers do to the breaker before and during the call,
      the time that passes, and how the call goes. */
  datatype Attempt = Attempt(
    cancelled: bool, budget: Option<int>, before: seq<Move>, askAfter: nat, unbuildable: bool,
    during: seq<Move>, reply: Reply, doneAfter: nat, left: Option<int>, interrupted: bool)

  datatype Result =
    | Answered(reply: Reply)
    | Cancelled
    | InsufficientBudget
    | Barred(retryAfter: int)
    | Unbuildable

  /** An attempt after the first that is worth starting. */
  predicate Affordable(p: Policy, a: Attempt) { a.budget.Some? ==> a.budget.value > p.gap }

  /** Whether the loop stops after attempt `n` although the reply could be retried. */
  predicate NoRoom(p: Policy, a: Attempt, delay: int) { a.left.Some? && a.left.value <= delay + p.gap }

  /** The last thing that happens is that the token is settled, as a failure exactly if the reply could
      be retried. */
  predicate EndsIn(trace: seq<Event>, id: nat, a: Attempt) {
    trace != [] && var e := trace[|trace| - 1];
    e.Settle? && e.token == id && e.success == (a.unbuildable || !Retryable(a.reply))
  }

  /** Attempt `n` can be made, as far as the caller is concerned. */
  predicate Begins(p: Policy, n: nat, a: Attempt) { !a.cancelled && (n > 1 ==> Affordable(p, a)) }

  /** After attempt `n` the loop goes on. */
  predicate GoesOn(p: Policy, n: nat, a: Attempt, jitter: (nat, int) -> int)
    requires n > 0
  {
    Retryable(a.reply) && n != p.maxAttempts && !NoRoom(p, a, jitter(n, Delay(p.base, p.max, n))) && !a.interrupted
  }

  /** Every call that was made could be made, and every retry followed an attempt after which the loop goes on. */
  ghost predicate Lawful(p: Policy, world: nat -> Attempt, jitter: (nat, int) -> int, calls: nat) {
    && calls <= p.maxAttempts
    && (forall k | 1 <= k <= calls :: Begins(p, k, world(k)) && !world(k).unbuildable)
    && (forall k | 1 <= k < calls :: GoesOn(p, k, world(k), jitter))
  }

  /** Why the loop ended as it did. The result is the reply of the last call if the loop does not go on after it;
      a cancellation is found before an attempt or while waiting for one; a budget is found insufficient only if
      it is; and what the breaker or the request factory refused ends the loop before a call. */
  ghost predicate Justified(p: Policy, world: nat -> Attempt, jitter: (nat, int) -> int, calls: nat, result: Result) {
    var next := world(calls + 1);
    match result
    case Answered(reply) =>
      && calls > 0 && reply == world(calls).reply
      && (Retryable(reply) ==>
           calls == p.maxAttempts || NoRoom(p, world(calls), jitter(calls, Delay(p.base, p.max, calls))))
    case Cancelled =>
      || (calls > 0 && Interrupted(p, calls, world(calls), jitter))
      || (Reaches(p, world, jitter, calls) && next.cancelled)
    case InsufficientBudget => calls > 0 && Reaches(p, world, jitter, calls) && !next.cancelled && !Affordable(p, next)
    case Barred(_) => Reaches(p, world, jitter, calls) && Begins(p, calls + 1, next)
    case Unbuildable => Reaches(p, world, jitter, calls) && Begins(p, calls + 1, next) && next.unbuildable
  }

  /** The loop comes to attempt `calls + 1`. */
  ghost predicate Reaches(p: Policy, world: nat -> Attempt, jitter: (nat, int) -> int, calls: nat) {
    calls < p.maxAttempts && (calls > 0 ==> GoesOn(p, calls, world(calls), jitter))
  }

  /** The caller gives up while it waits for the next attempt. */
  predicate Interrupted(p: Policy, n: nat, a: Attempt, jitter: (nat, int) -> int)
    requires n > 0
  {
    Retryable(a.reply) && n != p.maxAttempts && !NoRoom(p, a, jitter(n, Delay(p.base, p.max, n))) && a.interrupted
  }

  /** Ask the breaker, make the call if it lets us, and settle the token: as a failure exactly if the
      reply could be retried. */
  method Try(breaker: CircuitBreaker, a: Attempt) returns (ticket: Ticket, ghost trace: seq<Event>, ghost k: nat)
    requires breaker.Valid()
    modifies breaker
    ensures breaker.Valid() && Leads(breaker.cfg, old(breaker.Contents()), trace, breaker.Contents())
    ensures old(breaker.next) <= breaker.next
    ensures forall id | id in breaker.tokens :: id in old(breaker.tokens) || old(breaker.next) <= id
    ensures ticket.Token? ==> old(breaker.next) <= ticket.id < breaker.next && ticket.id !in breaker.tokens
    ensures ticket.Token? ==> EndsIn(trace, ticket.id, a)
    ensures Asked(breaker.cfg, old(breaker.Contents()), trace, k, ticket)
  {
    ghost var t1 := breaker.Others(a.before, {});
    var asked := breaker.clock + a.askAfter;
    label Asking:
    ticket := breaker.Acquire(asked);
    LeadsOne(breaker.cfg, old@Asking(breaker.Contents()), Ask(asked));
    LeadsOn(breaker.cfg, old(breaker.Contents()), t1, old@Asking(breaker.Contents()), [Ask(asked)], breaker.Contents());
    trace, k := t1 + [Ask(asked)], |t1|;
    assert trace[..k] == t1;
    if ticket.Token? {
      label Calling:
      ghost var t2 := Call(breaker, ticket.id, a);
      LeadsOn(breaker.cfg, old(breaker.Contents()), trace, old@Calling(breaker.Contents()), t2, breaker.Contents());
      AskedBefore(breaker.cfg, old(breaker.Contents()), trace, t2, k, ticket);
      trace := trace + t2;
    }
  }

  method Call(breaker: CircuitBreaker, id: nat, a: Attempt) returns (ghost trace: seq<Event>)
    requires breaker.Valid() && id in breaker.tokens
    modifies breaker
    ensures breaker.Valid() && Leads(breaker.cfg, old(breaker.Contents()), trace, breaker.Contents())
    ensures old(breaker.next) <= breaker.next && id !in breaker.tokens
    ensures forall id | id in breaker.tokens :: id in old(breaker.tokens) || old(breaker.next) <= id
    ensures EndsIn(trace, id, a)
  {
    trace := [];
    if !a.unbuildable {
      trace := breaker.Others(a.during, {id});
    }
    var done, success := breaker.clock + a.doneAfter, a.unbuildable || !Retryable(a.reply);
    label Settling:
    breaker.Finish(id, success, done);
    LeadsOne(breaker.cfg, old@Settling(breaker.Contents()), Settle(id, success, done));
    LeadsOn(breaker.cfg, old(breaker.Contents()), trace, old@Settling(breaker.Contents()), [Settle(id, success, done)],
        breaker.Contents());
    trace := trace + [Settle(id, success, done)];
  }

  /** One pass of the loop: whether a call was made, and the result if the loop ends here. */
  datatype Pass = Pass(called: bool, token: Option<nat>, result: Option<Result>)

  /** What one pass comes to, given the ticket if the breaker was asked. */
  predicate Fair(p: Policy, n: nat, a: Attempt, jitter: (nat, int) -> int, ticket: Option<Ticket>, r: Pass)
    requires n > 0
  {
    && (ticket == None <==> !Begins(p, n, a))
    && match ticket
       case None => r == Pass(false, None, Some(if a.cancelled then Cancelled else InsufficientBudget))
       case Some(CircuitOpen(wait)) => r == Pass(false, None, Some(Barred(wait)))
       case Some(Token(id)) =>
         if a.unbuildable then r == Pass(false, Some(id), Some(Unbuildable))
         else r == Pass(true, Some(id), if GoesOn(p, n, a, jitter) then None
                                        else if Interrupted(p, n, a, jitter) then Some(Cancelled)
                                        else Some(Answered(a.reply)))
  }

  method Round(breaker: CircuitBreaker, policy: Policy, n: nat, a: Attempt, jitter: (nat, int) -> int)
    returns (r: Pass, ghost trace: seq<Event>, ghost ticket: Option<Ticket>, ghost k: nat)
    requires breaker.Valid() && Usable(policy) && policy.max <= MAX64 && n > 0
    modifies breaker
    ensures breaker.Valid() && Leads(breaker.cfg, old(breaker.Contents()), trace, breaker.Contents())
    ensures old(breaker.next) <= breaker.next
    ensures forall id | id in breaker.tokens :: id in old(breaker.tokens) || old(breaker.next) <= id
    ensures r.token.Some? ==> old(breaker.next) <= r.token.value < breaker.next && r.token.value !in breaker.tokens
    ensures Fair(policy, n, a, jitter, ticket, r)
    ensures ticket.Some? ==> Asked(breaker.cfg, old(breaker.Contents()), trace, k, ticket.value)
  {
    trace, ticket, k := [], None, 0;
    if a.cancelled { return Pass(false, None, Some(Cancelled)), trace, ticket, k; }
    if n > 1 && !Affordable(policy, a) { return Pass(false, None, Some(InsufficientBudget)), trace, ticket, k; }
    var got;
    got, trace, k := Try(breaker, a);
    ticket := Some(got);
    if got.CircuitOpen? { return Pass(false, None, Some(Barred(got.retryAfter))), trace, ticket, k; }
    if a.unbuildable { return Pass(false, Some(got.id), Some(Unbuildable)), trace, ticket, k; }
    var result;
    if !Retryable(a.reply) || n == policy.maxAttempts {
      result := Some(Answered(a.reply));
    } else {
      var delay := Backoff(policy, n);
      result := if NoRoom(policy, a, jitter(n, delay)) then Some(Answered(a.reply))
                else if a.interrupted then Some(Cancelled) else None;
    }
    r := Pass(true, Some(got.id), result);
  }

  /** A pass after those that have led from `start` to here. */
  method Pursue(breaker: CircuitBreaker, policy: Policy, n: nat, a: Attempt, jitter: (nat, int) -> int,
                ghost start: System, ghost before: seq<Event>)
    returns (r: Pass, ghost trace: seq<Event>, ghost ticket: Option<Ticket>)
    requires breaker.Valid() && Usable(policy) && policy.max <= MAX64 && n > 0
    requires Leads(breaker.cfg, start, before, breaker.Contents())
    modifies breaker
    ensures breaker.Valid() && Leads(breaker.cfg, start, trace, breaker.Contents())
    ensures old(breaker.next) <= breaker.next
    ensures forall id | id in breaker.tokens :: id in old(breaker.tokens) || old(breaker.next) <= id
    ensures r.token.Some? ==> old(breaker.next) <= r.token.value < breaker.next && r.token.value !in breaker.tokens
    ensures Fair(policy, n, a, jitter, ticket, r)
    ensures ticket.Some? ==> exists k :: Asked(breaker.cfg, start, trace, k, ticket.value)
  {
    ghost var k;
    r, trace, ticket, k := Round(breaker, policy, n, a, jitter);
    LeadsOn(breaker.cfg, start, before, old(breaker.Contents()), trace, breaker.Contents());
    if ticket.Some? { AskedLater(breaker.cfg, start, before, old(breaker.Contents()), trace, k, ticket.value); }
    trace := before + trace;
  }

  lemma {:induction false} PassLawful(p: Policy, world: nat -> Attempt, jitter: (nat, int) -> int, n: nat,
                                      ticket: Option<Ticket>, r: Pass)
    requires 0 < n <= p.maxAttempts && Lawful(p, world, jitter, n - 1) && Reaches(p, world, jitter, n - 1)
    requires Fair(p, n, world(n), jitter, ticket, r)
    ensures var calls := if r.called then n else n - 1;
      && Lawful(p, world, jitter, calls) && (r.result == None ==> n < p.maxAttempts && Reaches(p, world, jitter, n))
      && (r.result.Some? ==> Justified(p, world, jitter, calls, r.result.value))
  {
  }

  /** The loop settles every token it takes, calls at most `maxAttempts` times, starts a retry only
      after a reply that can be retried and with more than the minimum gap left, and ends only for a cause: a
      retryable reply is handed back only when out of attempts or of time, and the wait named to a barred caller
      is the breaker's. */
  method Do(breaker: CircuitBreaker, wanted: Policy, world: nat -> Attempt, jitter: (nat, int) -> int)
    returns (result: Result, calls: nat, mine: seq<nat>, ghost trace: seq<Event>)
    requires breaker.Valid() && wanted.max <= MAX64
    modifies breaker
    ensures breaker.Valid() && Leads(breaker.cfg, old(breaker.Contents()), trace, breaker.Contents())
    ensures |mine| >= calls && forall i | 0 <= i < |mine| :: mine[i] !in breaker.tokens
    ensures Lawful(Normalized(wanted), world, jitter, calls)
    ensures Justified(Normalized(wanted), world, jitter, calls, result)
    ensures result.Barred? ==>
      exists k :: Asked(breaker.cfg, old(breaker.Contents()), trace, k, CircuitOpen(result.retryAfter))
  {
    var policy := Normalized(wanted);
    calls, mine, trace := 0, [], [];
    for n := 1 to policy.maxAttempts + 1
      invariant breaker.Valid() && Leads(breaker.cfg, old(breaker.Contents()), trace, breaker.Contents())
      invariant n <= policy.maxAttempts && calls == n - 1 && |mine| == calls
      invariant forall i | 0 <= i < |mine| :: mine[i] < breaker.next && mine[i] !in breaker.tokens
      invariant Lawful(policy, world, jitter, calls) && Reaches(policy, world, jitter, calls)
    {
      ghost var ticket;
      var pass;
      pass, trace, ticket := Pursue(breaker, policy, n, world(n), jitter, old(breaker.Contents()), trace);
      PassLawful(policy, world, jitter, n, ticket, pass);
      if pass.token.Some? { mine := mine + [pass.token.value]; }
      if pass.called { calls := n; }
      if pass.result.Some? { return pass.result.value, calls, mine, trace; }
    }
    assert false;  // the last attempt has returned
  }
}
