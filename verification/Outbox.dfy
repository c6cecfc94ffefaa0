/** One pass of the timeout worker over its outbox table: claim a batch, publish each event and mark
    it, and on the first failure record it and give the rest of the batch back. */
module Outbox {
  import opened Wrappers
  import T = Leases

  // ----- the claim query

  /** `ids` are the first `limit` claimable rows in identifier order that nobody else has locked. */
  ghost predicate FirstClaimable(rows: map<nat, T.Row>, now: int, locked: set<nat>, limit: nat, ids: seq<nat>) {
    && |ids| <= limit
    && (forall i, j | 0 <= i < j < |ids| :: ids[i] < ids[j])
    && (forall i | 0 <= i < |ids| :: ids[i] in rows && ids[i] !in locked && T.Claimable(rows[ids[i]], now))
    && (forall id | id in rows && id !in locked && T.Claimable(rows[id], now) && id !in ids ::
          |ids| == limit && forall i | 0 <= i < |ids| :: ids[i] < id)
  }

  method Least(s: set<nat>) returns (m: nat)
    requires s != {}
    ensures m in s && forall x | x in s :: m <= x
  {
    m := NextKey(s);
    var todo := s - {m};
    while todo != {}
      invariant todo <= s && m in s && forall x | x in s && x !in todo :: m <= x
      decreases |todo|
    {
      var x := NextKey(todo);
      todo := todo - {x};
      if x < m { m := x; }
    }
  }

  method SelectClaimable(rows: map<nat, T.Row>, now: int, locked: set<nat>, limit: nat) returns (ids: seq<nat>)
    ensures FirstClaimable(rows, now, locked, limit, ids)
  {
    ids := [];
    var todo := set id | id in rows && id !in locked && T.Claimable(rows[id], now);
    while todo != {} && |ids| < limit
      invariant |ids| <= limit
      invariant forall i, j | 0 <= i < j < |ids| :: ids[i] < ids[j]
      invariant forall i | 0 <= i < |ids| :: ids[i] in rows && ids[i] !in locked && T.Claimable(rows[ids[i]], now)
      invariant forall id | id in todo :: id in rows && id !in locked && T.Claimable(rows[id], now)
      invariant forall id, i | id in todo && 0 <= i < |ids| :: ids[i] < id
      invariant forall id | id in rows && id !in locked && T.Claimable(rows[id], now) :: id in ids || id in todo
      decreases |todo|
    {
      var id := Least(todo);
      todo := todo - {id};
      ids := ids + [id];
    }
  }

  /** The rows after the statement `f` on those listed. */
  ghost predicate Changed(rows: map<nat, T.Row>, ids: seq<nat>, f: T.Row -> T.Row, rows': map<nat, T.Row>) {
    && rows'.Keys == rows.Keys
    && forall id | id in rows :: rows'[id] == if id in ids then f(rows[id]) else rows[id]
  }

  // ----- the table, which others work on between any two statements

  datatype Statement = ClaimRows | MarkEvent(n: nat) | ReleaseRows

  /** What the others do before a statement. */
  type World = (Statement, T.System) -> T.System

  ghost predicate Interlude(cfg: T.Config, s: T.System, worker: string, es: seq<T.Event>, s': T.System) {
    T.Runs(cfg, s, es) && T.Foreign(es, worker) && T.Run(cfg, s, es) == s'
  }

  ghost predicate Meanwhile(cfg: T.Config, s: T.System, worker: string, s': T.System) {
    exists es :: Interlude(cfg, s, worker, es, s')
  }

  ghost predicate Possible(cfg: T.Config, worker: string, world: World) {
    forall k, s :: Meanwhile(cfg, s, worker, world(k, s))
  }

  /** Nobody else does anything. */
  ghost predicate Quiet(world: World) { forall k, s :: world(k, s) == s }

  class Table {
    const cfg: T.Config
    var s: T.System

    ghost predicate Valid() reads this { !cfg.claimCounts && T.Reachable(cfg, s) }

    constructor (duration: nat, retry: nat, clock: int)
      ensures Valid() && cfg == T.Config(duration, retry, false) && s == T.Start(clock)
    {
      cfg := T.Config(duration, retry, false);
      s := T.Start(clock);
      new;
      assert T.Reaches(cfg, clock, [], s);
    }

    method Step(e: T.Event)
      requires Valid() && T.Enabled(cfg, s, e)
      modifies this
      ensures Valid() && s == T.Next(cfg, old(s), e)
    {
      T.StepReachable(cfg, s, e);
      s := T.Next(cfg, s, e);
    }

    method Pause(world: World, k: Statement, worker: string)
      requires Valid() && Possible(cfg, worker, world) && worker != ""
      modifies this
      ensures Valid() && s == world(k, old(s)) && T.Spared(old(s), worker, s)
    {
      assert Meanwhile(cfg, s, worker, world(k, s));
      ghost var es :| Interlude(cfg, s, worker, es, world(k, s));
      T.StaysReachable(cfg, s, es);
      T.OthersSpare(cfg, s, es, worker);
      s := world(k, s);
    }

    /** `readAt` is the time the worker read before its transaction. */
    method ClaimPending(worker: string, readAt: int, locked: set<nat>, limit: nat) returns (ids: seq<nat>)
      requires Valid() && worker != "" && readAt <= s.clock && T.Batch(s, worker) == map[]
      modifies this
      ensures Valid() && FirstClaimable(old(s).rows, readAt, locked, limit, ids)
      ensures Changed(old(s).rows, ids, r => T.Take(cfg, r, worker, readAt), s.rows) && s.clock == old(s).clock
      ensures T.Batch(s, worker) == Leased(ids, readAt + cfg.duration)
    {
      ids := SelectClaimable(s.rows, readAt, locked, limit);
      Step(T.Claim(worker, readAt, set id | id in ids));
    }

    /** Both marks: refused, and without effect, once the lease has passed to somebody else, and refused
        only if the lease has run out or the row has been completed. */
    method MarkRow(worker: string, id: nat, status: T.RowStatus, next: int) returns (ok: bool)
      requires Valid() && worker != "" && id in T.Batch(s, worker) && next <= s.clock + cfg.maxRetry
      modifies this
      ensures Valid() && T.Batch(s, worker) == T.Batch(old(s), worker) - {id} && s.clock == old(s).clock
      ensures ok <==> id in old(s).rows && old(s).rows[id].owner == worker
      ensures Changed(old(s).rows, [id], r => T.Mark(cfg, r, worker, status, next), s.rows)
      ensures !ok ==>
        && s.rows == old(s).rows
        && (s.clock > T.Batch(old(s), worker)[id]
             || (id in s.rows && T.Completed == s.rows[id].status && T.Over(s.rows[id])))
    {
      T.ReachableInv(cfg, s);
      ok := id in s.rows && s.rows[id].owner == worker;
      if s.clock <= T.Batch(s, worker)[id] { assert T.Holds(s, worker, id); }
      Step(T.Write(worker, id, status, next));
    }

    method ReleaseClaimed(worker: string, ids: seq<nat>)
      requires Valid() && worker != "" && forall id | id in ids :: id in T.Batch(s, worker)
      modifies this
      ensures Valid() && s.clock == old(s).clock
      ensures T.Batch(s, worker) == T.Batch(old(s), worker) - (set id | id in ids)
      ensures Changed(old(s).rows, ids, r => T.Drop(r, worker), s.rows)
    {
      if ids != [] { Step(T.Unlease(worker, set id | id in ids)); }
    }
  }

  // ----- publishing

  datatype Fate = SendFails(reached: bool) | Confirmed | ChannelClosed | TimedOut
  datatype Outcome = Acked | Nacked | PublishError | ConfirmClosed | ConfirmTimeout

  /** A channel in confirm mode. `verdict(k)` is what the broker decides on the k-th message. */
  class Channel {
    const verdict: nat -> bool
    var sent: seq<nat>
    var read: nat

    constructor (verdict: nat -> bool)
      ensures this.verdict == verdict && sent == [] && read == 0
    {
      this.verdict := verdict;
      sent, read := [], 0;
    }

    method Publish(id: nat, fate: Fate) returns (out: Outcome)
      requires read == |sent|
      modifies this
      ensures old(sent) <= sent <= old(sent) + [id]
      ensures out == Acked <==> fate == Confirmed && verdict(|old(sent)|)
      ensures fate == Confirmed ==> (out == Acked || out == Nacked) && sent == old(sent) + [id]
      ensures out == Acked || out == Nacked ==> read == |sent|
    {
      match fate
      case SendFails(reached) =>
        if reached { sent := sent + [id]; }
        out := PublishError;
      case Confirmed =>
        sent := sent + [id];
        var ack := verdict(read);
        read := read + 1;
        out := if ack then Acked else Nacked;
      case ChannelClosed =>
        sent := sent + [id];
        out := ConfirmClosed;
      case TimedOut =>
        sent := sent + [id];
        out := ConfirmTimeout;
    }
  }

  /** What one pass leaves of a claimed batch: the first `n` rows published, the next one failed and to
      be retried, and the others as they were before the claim but for the lease. */
  function Left(cfg: T.Config, r: T.Row, worker: string, now: int, i: nat, n: nat): T.Row {
    var taken := T.Take(cfg, r, worker, now);
    if i < n then T.Mark(cfg, taken, worker, T.Published, now)
    else if i == n then T.Mark(cfg, taken, worker, T.Failed, now + cfg.maxRetry)
    else T.Drop(taken, worker)
  }

  /** The first `n` rows of the batch are marked, everything else is as claimed. */
  ghost predicate Done(cfg: T.Config, claimed: map<nat, T.Row>, ids: seq<nat>, n: nat, worker: string, now: int,
                       rows: map<nat, T.Row>)
    requires n <= |ids|
  {
    && rows.Keys == claimed.Keys
    && forall id | id in claimed ::
         rows[id] == if id in ids[..n] then T.Mark(cfg, claimed[id], worker, T.Published, now) else claimed[id]
  }

  ghost predicate Distinct(ids: seq<nat>) { forall i, j | 0 <= i < j < |ids| :: ids[i] != ids[j] }

  lemma {:induction false} DoneStep(cfg: T.Config, claimed: map<nat, T.Row>, ids: seq<nat>, n: nat, worker: string,
                                    now: int, rows: map<nat, T.Row>, rows': map<nat, T.Row>)
    requires n < |ids| && Distinct(ids) && Done(cfg, claimed, ids, n, worker, now, rows)
    requires Changed(rows, [ids[n]], r => T.Mark(cfg, r, worker, T.Published, now), rows')
    ensures Done(cfg, claimed, ids, n + 1, worker, now, rows')
  {
    assert ids[..n + 1] == ids[..n] + [ids[n]];
  }

  /** The rows of the batch as `Left` says, all others untouched. */
  ghost predicate Settled(cfg: T.Config, rows: map<nat, T.Row>, ids: seq<nat>, n: nat, worker: string, now: int,
                          rows': map<nat, T.Row>) {
    && rows'.Keys == rows.Keys
    && (forall i | 0 <= i < |ids| :: ids[i] in rows && rows'[ids[i]] == Left(cfg, rows[ids[i]], worker, now, i, n))
    && (forall id | id in rows && id !in ids :: rows'[id] == rows[id])
  }

  lemma {:induction false} AllDone(cfg: T.Config, rows: map<nat, T.Row>, claimed: map<nat, T.Row>, ids: seq<nat>,
                                   worker: string, now: int, rows': map<nat, T.Row>)
    requires Claimed(cfg, rows, ids, worker, now, claimed)
    requires Done(cfg, claimed, ids, |ids|, worker, now, rows')
    ensures Settled(cfg, rows, ids, |ids|, worker, now, rows')
  {
    assert ids[..|ids|] == ids;
  }

  /** After `before`, the messages about `ids` were sent in turn, and the verdict on each of them was an
      acknowledgement. */
  ghost predicate Confirmations(verdict: nat -> bool, before: seq<nat>, ids: seq<nat>, sent: seq<nat>) {
    before + ids <= sent && forall k | |before| <= k < |before| + |ids| :: verdict(k)
  }

  /** A batch `ids` of the table `rows`, as `worker` has claimed it. */
  ghost predicate Claimed(cfg: T.Config, rows: map<nat, T.Row>, ids: seq<nat>, worker: string, now: int,
                          claimed: map<nat, T.Row>) {
    && Distinct(ids) && (forall i | 0 <= i < |ids| :: ids[i] in rows)
    && claimed.Keys == rows.Keys
    && forall id | id in rows :: claimed[id] == if id in ids then T.Take(cfg, rows[id], worker, now) else rows[id]
  }

  /** The k-th event of a pass that began with `before` on the channel is confirmed, and acknowledged. */
  predicate Acks(verdict: nat -> bool, before: seq<nat>, fates: nat -> Fate, k: nat) {
    fates(k) == Confirmed && verdict(|before| + k)
  }

  ghost predicate AllAck(verdict: nat -> bool, before: seq<nat>, fates: nat -> Fate, n: nat) {
    forall k | 0 <= k < n :: Acks(verdict, before, fates, k)
  }

  /** Why a pass stopped at the n-th event: it was not acknowledged, its mark was refused, or a statement failed. */
  ghost predicate StopCause(verdict: nat -> bool, before: seq<nat>, fates: nat -> Fate, fails: Statement -> bool,
                            n: nat, end: Ending) {
    && AllAck(verdict, before, fates, n)
    && (end == NotConfirmed ==> !Acks(verdict, before, fates, n))
    && (end == StatementFailed ==>
         fails(MarkEvent(n)) || (!Acks(verdict, before, fates, n) && fails(ReleaseRows)))
  }

  /** How a pass ends. `LeaseLost`: a mark was refused; `StatementFailed`: the database failed. */
  datatype Ending = Complete | Unclaimed | NotConfirmed | LeaseLost | StatementFailed

  /** The worker is at the n-th event of its batch, leased until `until`; those before are over. */
  ghost predicate InHand(s: T.System, worker: string, ids: seq<nat>, n: nat, until: int) {
    && n <= |ids| && Distinct(ids)
    && (forall i | 0 <= i < |ids| :: ids[i] in s.rows)
    && (forall i | 0 <= i < n :: T.Over(s.rows[ids[i]]))
    && T.Batch(s, worker) == Leased(ids[n..], until)
  }

  function Leased(ids: seq<nat>, until: int): map<nat, int> { map id | id in ids :: until }

  lemma {:induction false} InHandSpared(s: T.System, s': T.System, worker: string, ids: seq<nat>, n: nat, until: int)
    requires InHand(s, worker, ids, n, until) && T.Spared(s, worker, s')
    ensures InHand(s', worker, ids, n, until)
  {
  }

  /** What is known when a pass has ended at the n-th event: the events before are over; after a failed
      publication the others are not the worker's any more; and a mark was refused only because the lease
      had run out or the row had been completed. */
  ghost predicate Ended(s: T.System, worker: string, ids: seq<nat>, n: nat, until: int, end: Ending) {
    && n <= |ids| && (forall i | 0 <= i < |ids| :: ids[i] in s.rows)
    && (forall i | 0 <= i < n :: T.Over(s.rows[ids[i]]))
    && end != Unclaimed && (n == |ids| <==> end == Complete)
    && (end == NotConfirmed ==> forall i | n <= i < |ids| :: s.rows[ids[i]].owner != worker)
    && (end == LeaseLost ==> s.clock > until || s.rows[ids[n]].status == T.Completed)
  }

  /** Nobody else is at work and no statement fails. */
  ghost predicate Calm(world: World, fails: Statement -> bool) { Quiet(world) && forall k :: !fails(k) }

  /** In a calm pass the n-th event of the batch is still the worker's own. */
  lemma {:induction false} StillOwned(cfg: T.Config, rows: map<nat, T.Row>, claimed: map<nat, T.Row>, ids: seq<nat>,
                                      n: nat, worker: string, now: int, rows': map<nat, T.Row>)
    requires n < |ids| && Claimed(cfg, rows, ids, worker, now, claimed)
    requires Done(cfg, claimed, ids, n, worker, now, rows')
    ensures ids[n] in rows' && rows'[ids[n]].owner == worker
  {
    assert ids[n] !in ids[..n];
  }

  lemma {:induction false} OneFewer(ids: seq<nat>, n: nat, until: int)
    requires n < |ids| && Distinct(ids)
    ensures ids[n] in ids[n..] && Leased(ids[n..], until) - {ids[n]} == Leased(ids[n + 1..], until)
  {
    assert ids[n..] == [ids[n]] + ids[n + 1..];
  }

  /** The mark of an event that was confirmed. */
  method MarkPublished(table: Table, worker: string, ids: seq<nat>, n: nat, now: int, ghost until: int)
    returns (ok: bool)
    requires table.Valid() && now == table.s.clock && worker != "" && n < |ids|
    requires InHand(table.s, worker, ids, n, until)
    modifies table
    ensures table.Valid() && table.s.clock == old(table.s).clock
    ensures ok ==> InHand(table.s, worker, ids, n + 1, until)
    ensures !ok ==> Ended(table.s, worker, ids, n, until, LeaseLost)
    ensures ok <==> ids[n] in old(table.s).rows && old(table.s).rows[ids[n]].owner == worker
    ensures Changed(old(table.s).rows, [ids[n]], r => T.Mark(table.cfg, r, worker, T.Published, now), table.s.rows)
  {
    OneFewer(ids, n, until);
    ok := table.MarkRow(worker, ids[n], T.Published, now);
  }

  /** The n-th event marked failed, the later ones given back. */
  ghost predicate GivenBack(cfg: T.Config, a: map<nat, T.Row>, ids: seq<nat>, n: nat, worker: string, now: int,
                            rows': map<nat, T.Row>)
    requires n < |ids|
  {
    && rows'.Keys == a.Keys
    && forall id | id in a :: rows'[id] ==
         if id == ids[n] then T.Mark(cfg, a[id], worker, T.Failed, now + cfg.maxRetry)
         else if id in ids[n + 1..] then T.Drop(a[id], worker) else a[id]
  }

  /** The n-th event has been recorded as failed; the rest of the batch is still leased. */
  ghost predicate Recorded(s: T.System, worker: string, ids: seq<nat>, n: nat, until: int) {
    && n < |ids| && Distinct(ids)
    && (forall i | 0 <= i < |ids| :: ids[i] in s.rows)
    && (forall i | 0 <= i < n :: T.Over(s.rows[ids[i]]))
    && s.rows[ids[n]].owner != worker
    && T.Batch(s, worker) == Leased(ids[n + 1..], until)
  }

  lemma {:induction false} RecordedSpared(s: T.System, s': T.System, worker: string, ids: seq<nat>, n: nat, until: int)
    requires Recorded(s, worker, ids, n, until) && T.Spared(s, worker, s')
    ensures Recorded(s', worker, ids, n, until)
  {
  }

  /** The record of an event that was not confirmed. */
  method MarkFailed(table: Table, worker: string, ids: seq<nat>, n: nat, now: int, ghost until: int) returns (ok: bool)
    requires table.Valid() && now == table.s.clock && worker != "" && n < |ids|
    requires InHand(table.s, worker, ids, n, until)
    modifies table
    ensures table.Valid()
    ensures ok ==> Recorded(table.s, worker, ids, n, until)
    ensures !ok ==> Ended(table.s, worker, ids, n, until, LeaseLost)
    ensures ok <==> old(table.s).rows[ids[n]].owner == worker
    ensures
      var mark := r => T.Mark(table.cfg, r, worker, T.Failed, now + table.cfg.maxRetry);
      Changed(old(table.s).rows, [ids[n]], mark, table.s.rows)
  {
    OneFewer(ids, n, until);
    ok := table.MarkRow(worker, ids[n], T.Failed, now + table.cfg.maxRetry);
  }

  method ReleaseRest(table: Table, worker: string, ids: seq<nat>, n: nat, ghost until: int)
    requires table.Valid() && worker != "" && Recorded(table.s, worker, ids, n, until)
    modifies table
    ensures table.Valid() && Ended(table.s, worker, ids, n, until, NotConfirmed)
    ensures Changed(old(table.s).rows, ids[n + 1..], r => T.Drop(r, worker), table.s.rows)
  {
    table.ReleaseClaimed(worker, ids[n + 1..]);
    forall i | n <= i < |ids| ensures table.s.rows[ids[i]].owner != worker {
      if i > n { assert ids[i] == ids[n + 1..][i - n - 1]; }
    }
  }

  lemma {:induction false} GivenBackInTwo(cfg: T.Config, a: map<nat, T.Row>, b: map<nat, T.Row>, ids: seq<nat>, n: nat,
                                          worker: string, now: int, rows': map<nat, T.Row>)
    requires n < |ids| && Distinct(ids)
    requires Changed(a, [ids[n]], r => T.Mark(cfg, r, worker, T.Failed, now + cfg.maxRetry), b)
    requires Changed(b, ids[n + 1..], r => T.Drop(r, worker), rows')
    ensures GivenBack(cfg, a, ids, n, worker, now, rows')
  {
    assert ids[n] !in ids[n + 1..];
  }

  /** An event was not confirmed: record it, and give the rest of the batch back. */
  method GiveUp(table: Table, worker: string, ids: seq<nat>, n: nat, world: World, fails: Statement -> bool,
                ghost until: int)
    returns (end: Ending)
    requires table.Valid() && worker != "" && n < |ids| && InHand(table.s, worker, ids, n, until)
    requires Possible(table.cfg, worker, world)
    modifies table
    ensures table.Valid() && Ended(table.s, worker, ids, n, until, end)
    ensures end == StatementFailed ==> fails(MarkEvent(n)) || fails(ReleaseRows)
    ensures end == NotConfirmed || end == LeaseLost || end == StatementFailed
    ensures Calm(world, fails) && old(table.s).rows[ids[n]].owner == worker ==>
      end == NotConfirmed && GivenBack(table.cfg, old(table.s).rows, ids, n, worker, old(table.s).clock, table.s.rows)
  {
    if fails(MarkEvent(n)) { return StatementFailed; }
    ghost var now := table.s.clock;
    var ok := MarkFailed(table, worker, ids, n, table.s.clock, until);
    if !ok { return LeaseLost; }
    ghost var b := table.s;
    table.Pause(world, ReleaseRows, worker);
    RecordedSpared(b, table.s, worker, ids, n, until);
    if fails(ReleaseRows) { return StatementFailed; }
    ReleaseRest(table, worker, ids, n, until);
    end := NotConfirmed;
    if Calm(world, fails) { GivenBackInTwo(table.cfg, old(table.s).rows, b.rows, ids, n, worker, now, table.s.rows); }
  }

  lemma {:induction false} GivenUp(cfg: T.Config, rows: map<nat, T.Row>, claimed: map<nat, T.Row>, ids: seq<nat>,
                                   n: nat, worker: string, now: int, a: map<nat, T.Row>, rows': map<nat, T.Row>)
    requires n < |ids| && Claimed(cfg, rows, ids, worker, now, claimed) && Done(cfg, claimed, ids, n, worker, now, a)
    requires GivenBack(cfg, a, ids, n, worker, now, rows')
    ensures Settled(cfg, rows, ids, n, worker, now, rows')
  {
    forall i | 0 <= i < |ids| ensures rows'[ids[i]] == Left(cfg, rows[ids[i]], worker, now, i, n) {
      assert ids[i] in ids[..n] <==> i < n;
      assert ids[i] in ids[n + 1..] <==> i > n;
    }
    assert ids == ids[..n] + [ids[n]] + ids[n + 1..];
  }

  /** The n-th event of the batch: publish it and mark it, or record the failure and give the rest up. */
  method PublishOne(table: Table, channel: Channel, worker: string, ids: seq<nat>, n: nat, fate: Fate, world: World,
                    fails: Statement -> bool, ghost until: int, ghost rows: map<nat, T.Row>,
                    ghost claimed: map<nat, T.Row>, ghost now: int)
    returns (end: Option<Ending>)
    requires table.Valid() && worker != "" && channel.read == |channel.sent| && n < |ids|
    requires Possible(table.cfg, worker, world)
    requires InHand(table.s, worker, ids, n, until)
    requires Calm(world, fails) ==>
      && table.s.clock == now && Claimed(table.cfg, rows, ids, worker, now, claimed)
      && Done(table.cfg, claimed, ids, n, worker, now, table.s.rows)
    modifies table, channel
    ensures table.Valid() && old(channel.sent) <= channel.sent
    ensures end == None ==> InHand(table.s, worker, ids, n + 1, until)
    ensures end == None ==>
      && channel.read == |channel.sent| && channel.sent == old(channel.sent) + [ids[n]]
      && channel.verdict(|old(channel.sent)|)
    ensures end == None ==> fate == Confirmed
    ensures end.Some? ==> Ended(table.s, worker, ids, n, until, end.value)
    ensures end == Some(NotConfirmed) ==> !(fate == Confirmed && channel.verdict(|old(channel.sent)|))
    ensures end == Some(StatementFailed) ==>
      || fails(MarkEvent(n))
      || (!(fate == Confirmed && channel.verdict(|old(channel.sent)|)) && fails(ReleaseRows))
    ensures Calm(world, fails) && end == None ==>
      table.s.clock == now && Done(table.cfg, claimed, ids, n + 1, worker, now, table.s.rows)
    ensures Calm(world, fails) && end.Some? ==>
      end.value == NotConfirmed && Settled(table.cfg, rows, ids, n, worker, now, table.s.rows)
  {
    var out := channel.Publish(ids[n], fate);
    ghost var was := table.s;
    table.Pause(world, MarkEvent(n), worker);
    InHandSpared(was, table.s, worker, ids, n, until);
    ghost var a := table.s.rows;
    if Calm(world, fails) { StillOwned(table.cfg, rows, claimed, ids, n, worker, now, a); }
    if out == Acked {
      if fails(MarkEvent(n)) { return Some(StatementFailed); }
      var ok := MarkPublished(table, worker, ids, n, table.s.clock, until);
      if !ok { return Some(LeaseLost); }
      if Calm(world, fails) { DoneStep(table.cfg, claimed, ids, n, worker, now, a, table.s.rows); }
      end := None;
    } else {
      var stop := GiveUp(table, worker, ids, n, world, fails, until);
      if Calm(world, fails) { GivenUp(table.cfg, rows, claimed, ids, n, worker, now, a, table.s.rows); }
      end := Some(stop);
    }
  }

  /** The first `n` events are all that was sent since `before`, and each was acknowledged. */
  ghost predicate InTurn(verdict: nat -> bool, before: seq<nat>, ids: seq<nat>, fates: nat -> Fate, n: nat,
                         sent: seq<nat>)
    requires n <= |ids|
  {
    sent == before + ids[..n] && AllAck(verdict, before, fates, n)
  }

  lemma {:induction false} OneMore(verdict: nat -> bool, before: seq<nat>, ids: seq<nat>, fates: nat -> Fate, n: nat,
                                   sent: seq<nat>)
    requires n < |ids| && InTurn(verdict, before, ids, fates, n, sent) && fates(n) == Confirmed && verdict(|sent|)
    ensures InTurn(verdict, before, ids, fates, n + 1, sent + [ids[n]])
  {
    assert ids[..n + 1] == ids[..n] + [ids[n]];
  }

  lemma {:induction false} Longer(verdict: nat -> bool, before: seq<nat>, ids: seq<nat>, fates: nat -> Fate, n: nat,
                                  sent: seq<nat>, sent': seq<nat>)
    requires n <= |ids| && InTurn(verdict, before, ids, fates, n, sent) && sent <= sent'
    ensures Confirmations(verdict, before, ids[..n], sent')
  {
    forall k | |before| <= k < |before| + n ensures verdict(k) {
      assert Acks(verdict, before, fates, k - |before|);
    }
  }

  method PublishBatch(table: Table, channel: Channel, worker: string, ids: seq<nat>, fates: nat -> Fate, world: World,
                      fails: Statement -> bool, ghost until: int, ghost rows: map<nat, T.Row>, ghost now: int)
    returns (n: nat, end: Ending)
    requires table.Valid() && worker != "" && channel.read == |channel.sent| && Possible(table.cfg, worker, world)
    requires InHand(table.s, worker, ids, 0, until)
    requires Calm(world, fails) ==> table.s.clock == now && Claimed(table.cfg, rows, ids, worker, now, table.s.rows)
    modifies table, channel
    ensures table.Valid() && Ended(table.s, worker, ids, n, until, end)
    ensures StopCause(channel.verdict, old(channel.sent), fates, fails, n, end)
    ensures Confirmations(channel.verdict, old(channel.sent), ids[..n], channel.sent)
    ensures end == Complete ==> channel.read == |channel.sent|
    ensures Calm(world, fails) ==>
      (end == Complete || end == NotConfirmed) && Settled(table.cfg, rows, ids, n, worker, now, table.s.rows)
  {
    n := 0;
    ghost var claimed, before := table.s.rows, channel.sent;
    while n < |ids|
      invariant table.Valid() && InHand(table.s, worker, ids, n, until)
      invariant channel.read == |channel.sent| && InTurn(channel.verdict, before, ids, fates, n, channel.sent)
      invariant Calm(world, fails) ==>
        table.s.clock == now && Done(table.cfg, claimed, ids, n, worker, now, table.s.rows)
    {
      ghost var sent := channel.sent;
      var stop := PublishOne(table, channel, worker, ids, n, fates(n), world, fails, until, rows, claimed, now);
      if stop.Some? {
        Longer(channel.verdict, before, ids, fates, n, sent, channel.sent);
        return n, stop.value;
      }
      OneMore(channel.verdict, before, ids, fates, n, sent);
      n := n + 1;
    }
    Longer(channel.verdict, before, ids, fates, n, channel.sent, channel.sent);
    if Calm(world, fails) { AllDone(table.cfg, rows, claimed, ids, worker, now, table.s.rows); }
    end := Complete;
  }

  /** The claim, as the batch the pass works on. */
  method TakeBatch(table: Table, worker: string, readAt: int, locked: set<nat>, limit: nat) returns (ids: seq<nat>)
    requires table.Valid() && worker != "" && readAt <= table.s.clock && T.Batch(table.s, worker) == map[]
    modifies table
    ensures table.Valid() && FirstClaimable(old(table.s).rows, readAt, locked, limit, ids)
    ensures table.s.clock == old(table.s).clock
    ensures InHand(table.s, worker, ids, 0, readAt + table.cfg.duration)
    ensures Claimed(table.cfg, old(table.s).rows, ids, worker, readAt, table.s.rows)
  {
    ids := table.ClaimPending(worker, readAt, locked, limit);
    assert ids[0..] == ids;
  }

  /** The batch is forgotten when the pass returns. */
  method Forget(table: Table, worker: string)
    requires table.Valid()
    modifies table
    ensures table.Valid() && T.Batch(table.s, worker) == map[] && table.s.rows == old(table.s).rows
    ensures table.s.clock == old(table.s).clock
  {
    table.Step(T.Crash(worker));
  }

  /** One pass, with the others at work between any two statements. Every row it marks Published was sent in
      turn on the channel, the broker's verdict on that very message was an acknowledgement, and the row is
      over; it stops short only for a cause; a pass nobody disturbs publishes every row before the first that is
      not acknowledged and leaves exactly the table `Left` tells. `claim` is the state claimed from. */
  method PublishPending(table: Table, channel: Channel, worker: string, locked: set<nat>, limit: nat,
                        fates: nat -> Fate, world: World, fails: Statement -> bool)
    returns (ids: seq<nat>, n: nat, end: Ending, ghost claim: T.System)
    requires table.Valid() && worker != "" && T.Batch(table.s, worker) == map[]
    requires Possible(table.cfg, worker, world) && channel.read == |channel.sent|
    modifies table, channel
    ensures table.Valid() && T.Batch(table.s, worker) == map[]
    ensures claim == world(ClaimRows, old(table.s)) && (end == Unclaimed <==> fails(ClaimRows))
    ensures end == Unclaimed ==> ids == [] && n == 0 && table.s.rows == claim.rows && channel.sent == old(channel.sent)
    ensures end != Unclaimed ==>
      && FirstClaimable(claim.rows, old(table.s).clock, locked, limit, ids)
      && Ended(table.s, worker, ids, n, old(table.s).clock + table.cfg.duration, end)
    ensures n <= |ids| && Confirmations(channel.verdict, old(channel.sent), ids[..n], channel.sent)
    ensures end != Unclaimed ==> StopCause(channel.verdict, old(channel.sent), fates, fails, n, end)
    ensures end == Complete ==> channel.read == |channel.sent|
    ensures Calm(world, fails) ==>
      && end == (if n == |ids| then Complete else NotConfirmed)
      && Settled(table.cfg, old(table.s).rows, ids, n, worker, old(table.s).clock, table.s.rows)
  {
    var readAt := table.s.clock;
    table.Pause(world, ClaimRows, worker);
    claim := table.s;
    if fails(ClaimRows) { return [], 0, Unclaimed, claim; }
    ids := TakeBatch(table, worker, readAt, locked, limit);
    n, end :=
        PublishBatch(table, channel, worker, ids, fates, world, fails, readAt + table.cfg.duration, claim.rows, readAt);
    Forget(table, worker);
  }
}
