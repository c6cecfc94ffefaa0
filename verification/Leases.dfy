/** Rows that several workers claim under a lease: the timeout outbox and the reconciliation tasks.
    One shared clock is assumed and worker identifiers are distinct and not empty. */
module Leases {
  import opened Wrappers

  datatype RowStatus = Pending | Failed | Published | Completed | Unresolved
  datatype Row = Row(status: RowStatus, attempts: int, nextAttemptAt: int, owner: string, until: Option<int>)

  /** `claimCounts`: reconciliation tasks count an attempt when they are claimed, outbox rows when
      they are marked. `maxRetry` bounds how far ahead a retry may be scheduled. */
  datatype Config = Config(duration: nat, maxRetry: nat, claimCounts: bool)

  // ----- what the statements do to one row

  /** The WHERE clause of both claim queries. */
  predicate Claimable(r: Row, now: int) {
    && (r.status == Pending || r.status == Failed)
    && r.nextAttemptAt <= now
    && (r.until == None || r.until.value < now)
  }

  function Take(cfg: Config, r: Row, worker: string, now: int): Row {
    r.(owner := worker, until := Some(now + cfg.duration), attempts := r.attempts + if cfg.claimCounts then 1 else 0)
  }

  /** A write guarded by `lease_owner = worker`; it also gives the lease up. */
  function Mark(cfg: Config, r: Row, worker: string, status: RowStatus, next: int): Row {
    if r.owner != worker then r
    else Row(status, r.attempts + if cfg.claimCounts then 0 else 1, next, "", None)
  }

  function Drop(r: Row, worker: string): Row {
    if r.owner != worker then r else r.(owner := "", until := None)
  }

  /** Completion by the order's own transaction, which leaves a lease alone. */
  function Close(r: Row): Row {
    if r.status == Pending || r.status == Published || r.status == Failed then r.(status := Completed) else r
  }

  /** Completion after a delivery, which clears any lease. */
  function Finish(r: Row): Row {
    r.(status := Completed, owner := "", until := None)
  }

  // ----- the table, its workers and the clock

  /** `held` is what each worker remembers of its current batch: row and end of lease. */
  datatype System = System(rows: map<nat, Row>, clock: int, held: map<string, map<nat, int>>)

  datatype Event =
    | Tick(now: int)
    | Insert(id: nat, next: int)
    | Claim(worker: string, readAt: int, ids: set<nat>)
    | Write(worker: string, id: nat, status: RowStatus, next: int)
    | Unlease(worker: string, ids: set<nat>)
    | CloseRow(id: nat)
    | FinishRow(id: nat)
    | Crash(worker: string)

  function Batch(s: System, w: string): map<nat, int> {
    if w in s.held then s.held[w] else map[]
  }

  /** A worker reads the clock before its claim transaction runs, and claims only when it has worked
      off its previous batch. */
  ghost predicate Enabled(cfg: Config, s: System, e: Event) {
    match e
    case Tick(now) => s.clock <= now
    case Insert(id, next) => id !in s.rows && next <= s.clock
    case Claim(w, readAt, ids) =>
      && w != "" && readAt <= s.clock && Batch(s, w) == map[]
      && forall id | id in ids :: id in s.rows && Claimable(s.rows[id], readAt)
    case Write(w, id, _, next) => w != "" && id in Batch(s, w) && next <= s.clock + cfg.maxRetry
    case Unlease(w, ids) => w != "" && ids <= Batch(s, w).Keys
    case CloseRow(id) => id in s.rows
    case FinishRow(id) => id in s.rows
    case Crash(_) => true
  }

  function Next(cfg: Config, s: System, e: Event): System
    requires Enabled(cfg, s, e)
  {
    match e
    case Tick(now) => s.(clock := now)
    case Insert(id, next) => s.(rows := s.rows[id := Row(Pending, 0, next, "", None)])
    case Claim(w, readAt, ids) =>
      s.(rows := map id | id in s.rows :: if id in ids then Take(cfg, s.rows[id], w, readAt) else s.rows[id],
         held := s.held[w := map id | id in ids :: readAt + cfg.duration])
    case Write(w, id, status, next) =>
      s.(rows := if id in s.rows then s.rows[id := Mark(cfg, s.rows[id], w, status, next)] else s.rows,
         held := s.held[w := Batch(s, w) - {id}])
    case Unlease(w, ids) =>
      s.(rows := map id | id in s.rows :: if id in ids then Drop(s.rows[id], w) else s.rows[id],
         held := s.held[w := Batch(s, w) - ids])
    case CloseRow(id) => s.(rows := s.rows[id := Close(s.rows[id])])
    case FinishRow(id) => s.(rows := s.rows[id := Finish(s.rows[id])])
    case Crash(w) => s.(held := s.held - {w})
  }

  ghost predicate Runs(cfg: Config, s: System, es: seq<Event>)
    decreases |es|
  {
    es == [] || (Enabled(cfg, s, es[0]) && Runs(cfg, Next(cfg, s, es[0]), es[1..]))
  }

  ghost function Run(cfg: Config, s: System, es: seq<Event>): System
    requires Runs(cfg, s, es)
    decreases |es|
  {
    if es == [] then s else Run(cfg, Next(cfg, s, es[0]), es[1..])
  }

  function Start(clock: int): System { System(map[], clock, map[]) }

  // ----- the invariant

  /** Worker `w` remembers row `id` and its lease has not run out. */
  ghost predicate Holds(s: System, w: string, id: nat) {
    id in Batch(s, w) && s.clock <= Batch(s, w)[id]
  }

  /** The row still shows the remembered lease, or a delivery has completed it for good. */
  ghost predicate Backed(s: System, w: string, id: nat)
    requires id in Batch(s, w)
  {
    && w != "" && id in s.rows
    && var r := s.rows[id];
       (r.owner == w && r.until == Some(Batch(s, w)[id])) || (r.owner == "" && r.until == None && r.status == Completed)
  }

  ghost predicate Exclusive(s: System) {
    forall w1, w2, id: nat | Holds(s, w1, id) && Holds(s, w2, id) :: w1 == w2
  }

  ghost predicate Soon(cfg: Config, s: System, r: Row) {
    r.nextAttemptAt <= s.clock + cfg.maxRetry && (r.until.Some? ==> r.until.value <= s.clock + cfg.duration)
  }

  ghost predicate Inv(cfg: Config, s: System) {
    && (forall w, id: nat | Holds(s, w, id) :: Backed(s, w, id))
    && Exclusive(s)
    && (forall id: nat | id in s.rows :: Soon(cfg, s, s.rows[id]))
  }

  lemma {:induction false} NextSoon(cfg: Config, s: System, e: Event)
    requires Enabled(cfg, s, e) && forall id: nat | id in s.rows :: Soon(cfg, s, s.rows[id])
    ensures var s' := Next(cfg, s, e); forall id: nat | id in s'.rows :: Soon(cfg, s', s'.rows[id])
  {
  }

  /** What a worker remembers after a step, it remembered before or has just claimed. */
  lemma {:induction false} HeldBefore(cfg: Config, s: System, e: Event, w: string, id: nat)
    requires Enabled(cfg, s, e) && Holds(Next(cfg, s, e), w, id)
    ensures (e.Claim? && e.worker == w && id in e.ids && Batch(Next(cfg, s, e), w)[id] == e.readAt + cfg.duration)
      || (Holds(s, w, id) && Batch(Next(cfg, s, e), w)[id] == Batch(s, w)[id])
  {
  }

  lemma {:induction false} NextBacked(cfg: Config, s: System, e: Event, w: string, id: nat)
    requires Inv(cfg, s) && Enabled(cfg, s, e) && Holds(Next(cfg, s, e), w, id)
    ensures Backed(Next(cfg, s, e), w, id)
  {
    HeldBefore(cfg, s, e, w, id);
    if Holds(s, w, id) { assert Backed(s, w, id); }
  }

  lemma {:induction false} NextExclusive(cfg: Config, s: System, e: Event, w1: string, w2: string, id: nat)
    requires Inv(cfg, s) && Enabled(cfg, s, e)
    requires Holds(Next(cfg, s, e), w1, id) && Holds(Next(cfg, s, e), w2, id)
    ensures w1 == w2
  {
    HeldBefore(cfg, s, e, w1, id);
    HeldBefore(cfg, s, e, w2, id);
    if Holds(s, w1, id) { assert Backed(s, w1, id); }
    if Holds(s, w2, id) { assert Backed(s, w2, id); }
  }

  lemma {:induction false} NextInv(cfg: Config, s: System, e: Event)
    requires Inv(cfg, s) && Enabled(cfg, s, e)
    ensures Inv(cfg, Next(cfg, s, e))
  {
    var s' := Next(cfg, s, e);
    NextSoon(cfg, s, e);
    forall w, id: nat | Holds(s', w, id) ensures Backed(s', w, id) { NextBacked(cfg, s, e, w, id); }
    forall w1, w2, id: nat | Holds(s', w1, id) && Holds(s', w2, id) ensures w1 == w2 {
      NextExclusive(cfg, s, e, w1, w2, id);
    }
  }

  lemma {:induction false} RunInv(cfg: Config, s: System, es: seq<Event>)
    requires Inv(cfg, s) && Runs(cfg, s, es)
    ensures Inv(cfg, Run(cfg, s, es))
    decreases |es|
  {
    if es != [] {
      NextInv(cfg, s, es[0]);
      RunInv(cfg, Next(cfg, s, es[0]), es[1..]);
    }
  }

  // ----- what the leases are for

  /** After any run two workers never both hold an unexpired claim on a row. */
  lemma {:induction false} OneHolder(cfg: Config, clock: int, es: seq<Event>, w1: string, w2: string, id: nat)
    requires Runs(cfg, Start(clock), es)
    requires var s := Run(cfg, Start(clock), es); Holds(s, w1, id) && Holds(s, w2, id)
    ensures w1 == w2
  {
    RunInv(cfg, Start(clock), es);
  }

  /** After any run, while one worker holds an unexpired claim nothing another worker still remembers
      of the row lets it write there: neither its marks nor its lease release change any row. */
  lemma {:induction false} StaleWritesChangeNothing(cfg: Config, clock: int, es: seq<Event>, w: string, stale: string,
                                                    id: nat, status: RowStatus, next: int)
    requires Runs(cfg, Start(clock), es)
    requires var s := Run(cfg, Start(clock), es);
      Holds(s, w, id) && stale != w && Enabled(cfg, s, Write(stale, id, status, next))
    ensures var s := Run(cfg, Start(clock), es);
      && Next(cfg, s, Write(stale, id, status, next)).rows == s.rows
      && Next(cfg, s, Unlease(stale, {id})).rows == s.rows
  {
    RunInv(cfg, Start(clock), es);
    var s := Run(cfg, Start(clock), es);
    assert Backed(s, w, id);
  }

  lemma {:induction false} StepKeepsStale(cfg: Config, s: System, e: Event, stale: string, id: nat)
    requires Enabled(cfg, s, e) && stale != "" && id in s.rows && s.rows[id].owner != stale
    requires !(e.Claim? && e.worker == stale && id in e.ids)
    ensures id in Next(cfg, s, e).rows && Next(cfg, s, e).rows[id].owner != stale
  {
  }

  /** And once a row has been claimed by another, the stale worker's writes come to nothing for good: as
      long as it does not claim the row afresh, no later mark or lease release of its changes a row. */
  lemma {:induction false} StaleForGood(cfg: Config, s: System, es: seq<Event>, stale: string, id: nat)
    requires Runs(cfg, s, es) && stale != "" && id in s.rows && s.rows[id].owner != stale
    requires forall i | 0 <= i < |es| :: !(es[i].Claim? && es[i].worker == stale && id in es[i].ids)
    ensures var s' := Run(cfg, s, es);
      && id in s'.rows && s'.rows[id].owner != stale
      && forall st, next :: Mark(cfg, s'.rows[id], stale, st, next) == s'.rows[id] == Drop(s'.rows[id], stale)
    decreases |es|
  {
    if es != [] {
      StepKeepsStale(cfg, s, es[0], stale, id);
      StaleForGood(cfg, Next(cfg, s, es[0]), es[1..], stale, id);
    }
  }

  /** No crash point strands a row: after any run a pending or failed row can be claimed, by any
      worker that is idle then, once the lease and retry times have passed. */
  lemma {:induction false} NeverStranded(cfg: Config, clock: int, es: seq<Event>, id: nat, now: int, w: string)
    requires Runs(cfg, Start(clock), es) && w != ""
    requires var s := Run(cfg, Start(clock), es);
      && id in s.rows && (s.rows[id].status == Pending || s.rows[id].status == Failed)
      && now > s.clock + cfg.duration && now >= s.clock + cfg.maxRetry && Batch(s, w) == map[]
    ensures var s := Run(cfg, Start(clock), es);
      && Enabled(cfg, s, Tick(now))
      && Enabled(cfg, Next(cfg, s, Tick(now)), Claim(w, now, {id}))
  {
    RunInv(cfg, Start(clock), es);
    var s := Run(cfg, Start(clock), es);
    assert Soon(cfg, s, s.rows[id]);
  }

  lemma {:induction false} StepKeepsTime(cfg: Config, s: System, e: Event, id: nat)
    requires Enabled(cfg, s, e) && id in s.rows && s.rows[id].owner == "" && s.clock < s.rows[id].nextAttemptAt
    ensures !(e.Claim? && id in e.ids)
    ensures var s' := Next(cfg, s, e);
      && s.clock <= s'.clock && id in s'.rows && s'.rows[id].owner == ""
      && s'.rows[id].nextAttemptAt == s.rows[id].nextAttemptAt
  {
  }

  lemma {:induction false} ClockGrows(cfg: Config, s: System, es: seq<Event>)
    requires Runs(cfg, s, es)
    ensures s.clock <= Run(cfg, s, es).clock
    decreases |es|
  {
    if es != [] { ClockGrows(cfg, Next(cfg, s, es[0]), es[1..]); }
  }

  /** A row that is leased to nobody is claimed by nobody, and keeps its time, as long as that time has not come. */
  lemma {:induction false} NotBeforeItsTime(cfg: Config, s: System, es: seq<Event>, id: nat)
    requires Runs(cfg, s, es) && id in s.rows && s.rows[id].owner == ""
    requires Run(cfg, s, es).clock < s.rows[id].nextAttemptAt
    ensures forall i | 0 <= i < |es| :: !(es[i].Claim? && id in es[i].ids)
    ensures var s' := Run(cfg, s, es);
      id in s'.rows && s'.rows[id].owner == "" && s'.rows[id].nextAttemptAt == s.rows[id].nextAttemptAt
    decreases |es|
  {
    if es != [] {
      var s1 := Next(cfg, s, es[0]);
      ClockGrows(cfg, s1, es[1..]);
      ClockGrows(cfg, s, es);
      StepKeepsTime(cfg, s, es[0], id);
      NotBeforeItsTime(cfg, s1, es[1..], id);
      assert forall i | 0 < i < |es| :: es[i] == es[1..][i - 1];
    }
  }

  // ----- what a worker may rely on between its statements

  ghost predicate Reachable(cfg: Config, s: System) { exists clock, es :: Reaches(cfg, clock, es, s) }

  ghost predicate Reaches(cfg: Config, clock: int, es: seq<Event>, s: System) {
    Runs(cfg, Start(clock), es) && Run(cfg, Start(clock), es) == s
  }

  lemma {:induction false} RunConcat(cfg: Config, s: System, a: seq<Event>, b: seq<Event>)
    requires Runs(cfg, s, a) && Runs(cfg, Run(cfg, s, a), b)
    ensures Runs(cfg, s, a + b) && Run(cfg, s, a + b) == Run(cfg, Run(cfg, s, a), b)
    decreases |a|
  {
    if a == [] {
      assert a + b == b;
    } else {
      RunConcat(cfg, Next(cfg, s, a[0]), a[1..], b);
      assert (a + b)[0] == a[0] && (a + b)[1..] == a[1..] + b;
    }
  }

  lemma {:induction false} StaysReachable(cfg: Config, s: System, es: seq<Event>)
    requires Reachable(cfg, s) && Runs(cfg, s, es)
    ensures Reachable(cfg, Run(cfg, s, es))
  {
    var clock, before :| Reaches(cfg, clock, before, s);
    RunConcat(cfg, Start(clock), before, es);
    assert Reaches(cfg, clock, before + es, Run(cfg, s, es));
  }

  lemma {:induction false} RunOne(cfg: Config, s: System, e: Event, es: seq<Event>)
    requires Enabled(cfg, s, e) && Runs(cfg, Next(cfg, s, e), es)
    ensures Runs(cfg, s, [e] + es) && Run(cfg, s, [e] + es) == Run(cfg, Next(cfg, s, e), es)
  {
    assert ([e] + es)[1..] == es;
  }

  lemma {:induction false} StepReachable(cfg: Config, s: System, e: Event)
    requires Reachable(cfg, s) && Enabled(cfg, s, e)
    ensures Reachable(cfg, Next(cfg, s, e))
  {
    RunOne(cfg, s, e, []);
    StaysReachable(cfg, s, [e] + []);
  }

  lemma {:induction false} ReachableInv(cfg: Config, s: System)
    requires Reachable(cfg, s)
    ensures Inv(cfg, s)
  {
    var clock, es :| Reaches(cfg, clock, es, s);
    RunInv(cfg, Start(clock), es);
  }

  /** The worker an event is an action of. */
  function Author(e: Event): Option<string> {
    match e
    case Claim(w, _, _) => Some(w)
    case Write(w, _, _, _) => Some(w)
    case Unlease(w, _) => Some(w)
    case Crash(w) => Some(w)
    case _ => None
  }

  ghost predicate Foreign(es: seq<Event>, w: string) { forall i | 0 <= i < |es| :: Author(es[i]) != Some(w) }

  /** Published or completed, and leased to nobody. */
  predicate Over(r: Row) { (r.status == Published || r.status == Completed) && r.owner == "" }

  /** What the others leave alone of the table while worker `w` pauses: its batch, the rows that are over,
      and the rows it does not own. */
  ghost predicate Spared(s: System, w: string, s': System) {
    && Batch(s', w) == Batch(s, w) && s.clock <= s'.clock && s.rows.Keys <= s'.rows.Keys
    && (forall id: nat | id in s.rows && Over(s.rows[id]) :: Over(s'.rows[id]))
    && (forall id: nat | id in s.rows && Over(s.rows[id]) && s.rows[id].status == Completed ::
         s'.rows[id].status == Completed)
    && (forall id: nat | id in s.rows && s.rows[id].owner != w :: s'.rows[id].owner != w)
  }

  lemma {:induction false} StepSpares(cfg: Config, s: System, e: Event, w: string)
    requires Enabled(cfg, s, e) && Author(e) != Some(w) && w != ""
    ensures Spared(s, w, Next(cfg, s, e))
  {
  }

  /** Whatever the others do, for however long, they spare a worker's batch, everything that is over, and
      its having lost a row. */
  lemma {:induction false} OthersSpare(cfg: Config, s: System, es: seq<Event>, w: string)
    requires Runs(cfg, s, es) && Foreign(es, w) && w != ""
    ensures Spared(s, w, Run(cfg, s, es))
    decreases |es|
  {
    if es != [] {
      StepSpares(cfg, s, es[0], w);
      assert Foreign(es[1..], w);
      OthersSpare(cfg, Next(cfg, s, es[0]), es[1..], w);
    }
  }
}
