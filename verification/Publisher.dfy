/** Confirmed publishing. Every worker session has a channel of its own; the broker decides on the
    messages of a channel in the order in which they were sent, at any time, even long after the
    session has ended; and the publisher reads one confirmation per message without looking at its
    delivery tag. */
module Publisher {
  import T = Leases

  /** Verdict number k is about message number k; `read` confirmations have been read. */
  datatype Channel = Channel(sent: seq<nat>, verdicts: seq<bool>, read: nat)

  datatype Phase = Idle | Waiting(id: nat) | Marking(id: nat)
  datatype Session = Session(channel: nat, phase: Phase)
  datatype System =
    | System(rows: map<nat, T.RowStatus>, channels: map<nat, Channel>, sessions: map<string, Session>, next: nat)

  const START := System(map[], map[], map[], 0)

  datatype Event =
    | Open(worker: string)
    | Send(worker: string, id: nat)
    | SendError(worker: string, id: nat, reached: bool)
    | Decide(channel: nat, ack: bool)
    | Read(worker: string)
    | Timeout(worker: string)
    | Mark(worker: string, applied: bool)
    | GiveUp(worker: string)
    | Other(id: nat, status: T.RowStatus)

  ghost predicate Enabled(s: System, e: Event) {
    match e
    case Open(w) => w !in s.sessions
    case Send(w, _) => w in s.sessions && s.sessions[w].phase == Idle && s.sessions[w].channel in s.channels
    case SendError(w, _, _) => w in s.sessions && s.sessions[w].phase == Idle && s.sessions[w].channel in s.channels
    case Decide(c, _) => c in s.channels && |s.channels[c].verdicts| < |s.channels[c].sent|
    case Read(w) =>
      && w in s.sessions && s.sessions[w].phase.Waiting? && s.sessions[w].channel in s.channels
      && s.channels[s.sessions[w].channel].read < |s.channels[s.sessions[w].channel].verdicts|
    case Timeout(w) => w in s.sessions && s.sessions[w].phase.Waiting?
    case Mark(w, _) => w in s.sessions && s.sessions[w].phase.Marking?
    case GiveUp(w) => w in s.sessions
    case Other(_, st) => st != T.Published
  }

  /** `lenient` is a publisher that goes on with the same channel after a confirmation has timed out;
      the real one is not. */
  ghost function Next(lenient: bool, s: System, e: Event): System
    requires Enabled(s, e)
  {
    match e
    case Open(w) =>
      s.(channels := s.channels[s.next := Channel([], [], 0)],
         sessions := s.sessions[w := Session(s.next, Idle)],
         next := s.next + 1)
    case Send(w, id) =>
      var c := s.sessions[w].channel;
      s.(channels := s.channels[c := s.channels[c].(sent := s.channels[c].sent + [id])],
         sessions := s.sessions[w := Session(c, Waiting(id))])
    case SendError(w, id, reached) =>
      var c := s.sessions[w].channel;
      s.(channels := if reached then s.channels[c := s.channels[c].(sent := s.channels[c].sent + [id])] else s.channels,
         sessions := s.sessions - {w})
    case Decide(c, ack) => s.(channels := s.channels[c := s.channels[c].(verdicts := s.channels[c].verdicts + [ack])])
    case Read(w) =>
      var c := s.sessions[w].channel;
      var ch := s.channels[c];
      s.(channels := s.channels[c := ch.(read := ch.read + 1)],
         sessions :=
           if ch.verdicts[ch.read] then s.sessions[w := Session(c, Marking(s.sessions[w].phase.id))]
           else s.sessions - {w})
    case Timeout(w) =>
      s.(sessions := if lenient then s.sessions[w := s.sessions[w].(phase := Idle)] else s.sessions - {w})
    case Mark(w, applied) =>
      s.(rows := if applied then s.rows[s.sessions[w].phase.id := T.Published] else s.rows,
         sessions := if applied then s.sessions[w := s.sessions[w].(phase := Idle)] else s.sessions - {w})
    case GiveUp(w) => s.(sessions := s.sessions - {w})
    case Other(id, st) => s.(rows := s.rows[id := st])
  }

  ghost predicate Runs(lenient: bool, s: System, es: seq<Event>)
    decreases |es|
  {
    es == [] || (Enabled(s, es[0]) && Runs(lenient, Next(lenient, s, es[0]), es[1..]))
  }

  ghost function Run(lenient: bool, s: System, es: seq<Event>): System
    requires Runs(lenient, s, es)
    decreases |es|
  {
    if es == [] then s else Run(lenient, Next(lenient, s, es[0]), es[1..])
  }

  /** The broker acknowledged message `k` of a channel, and that message was about row `id`. */
  ghost predicate AckedAs(channels: map<nat, Channel>, c: nat, k: nat, id: nat) {
    && c in channels && k < |channels[c].verdicts| && k < |channels[c].sent|
    && channels[c].verdicts[k] && channels[c].sent[k] == id
  }

  ghost predicate Acked(channels: map<nat, Channel>, id: nat) { exists c, k :: AckedAs(channels, c, k, id) }

  /** The session is in step: all confirmations read but the one it waits for. */
  ghost predicate InStep(s: System, w: string)
    requires w in s.sessions
  {
    var c := s.sessions[w].channel;
    && c in s.channels
    && var ch := s.channels[c];
       match s.sessions[w].phase
       case Idle => ch.read == |ch.sent|
       case Waiting(id) => ch.read + 1 == |ch.sent| && ch.sent[ch.read] == id
       case Marking(id) => ch.read == |ch.sent| && ch.read > 0 && AckedAs(s.channels, c, ch.read - 1, id)
  }

  ghost predicate Inv(s: System) {
    && (forall c | c in s.channels ::
         c < s.next && s.channels[c].read <= |s.channels[c].verdicts| <= |s.channels[c].sent|)
    && (forall w | w in s.sessions :: InStep(s, w))
    && (forall v, w | v in s.sessions && w in s.sessions && s.sessions[v].channel == s.sessions[w].channel :: v == w)
    && (forall id | id in s.rows && s.rows[id] == T.Published :: Acked(s.channels, id))
  }

  /** Channels only grow, so what was acknowledged stays so. */
  ghost predicate Grown(a: map<nat, Channel>, b: map<nat, Channel>) {
    forall c | c in a :: c in b && a[c].sent <= b[c].sent && a[c].verdicts <= b[c].verdicts
  }

  lemma {:induction false} NextGrows(s: System, e: Event)
    requires Inv(s) && Enabled(s, e)
    ensures Grown(s.channels, Next(false, s, e).channels)
  {
  }

  lemma {:induction false} AckedStays(a: map<nat, Channel>, b: map<nat, Channel>, id: nat)
    requires Grown(a, b) && Acked(a, id)
    ensures Acked(b, id)
  {
    var c, k :| AckedAs(a, c, k, id);
    assert AckedAs(b, c, k, id);
  }

  lemma {:induction false} NextInStep(s: System, e: Event, w: string)
    requires Enabled(s, e) && w in Next(false, s, e).sessions
    requires forall c | c in s.channels ::
      c < s.next && s.channels[c].read <= |s.channels[c].verdicts| <= |s.channels[c].sent|
    requires w in s.sessions ==>
      InStep(s, w) && forall v | v in s.sessions && v != w :: s.sessions[v].channel != s.sessions[w].channel
    ensures InStep(Next(false, s, e), w)
  {
  }

  lemma {:induction false} NextApart(s: System, e: Event, v: string, w: string)
    requires Inv(s) && Enabled(s, e)
    requires var s' := Next(false, s, e);
      v in s'.sessions && w in s'.sessions && s'.sessions[v].channel == s'.sessions[w].channel
    ensures v == w
  {
    assert v in s.sessions ==> InStep(s, v);
    assert w in s.sessions ==> InStep(s, w);
  }

  lemma {:induction false} NextPublished(s: System, e: Event, id: nat)
    requires Inv(s) && Enabled(s, e)
    requires var s' := Next(false, s, e); id in s'.rows && s'.rows[id] == T.Published
    ensures Acked(Next(false, s, e).channels, id)
  {
    if id in s.rows && s.rows[id] == T.Published {
      NextGrows(s, e);
      AckedStays(s.channels, Next(false, s, e).channels, id);
    } else {
      assert InStep(s, e.worker);
    }
  }

  lemma {:induction false} NextInv(s: System, e: Event)
    requires Inv(s) && Enabled(s, e)
    ensures Inv(Next(false, s, e))
  {
    var s' := Next(false, s, e);
    forall w | w in s'.sessions ensures InStep(s', w) { NextInStep(s, e, w); }
    forall v, w | v in s'.sessions && w in s'.sessions && s'.sessions[v].channel == s'.sessions[w].channel
      ensures v == w
    {
      NextApart(s, e, v, w);
    }
    forall id | id in s'.rows && s'.rows[id] == T.Published ensures Acked(s'.channels, id) {
      NextPublished(s, e, id);
    }
    assert e.Send? || e.SendError? || e.Read? ==> InStep(s, e.worker);
  }

  lemma {:induction false} RunInv(s: System, es: seq<Event>)
    requires Inv(s) && Runs(false, s, es)
    ensures Inv(Run(false, s, es))
    decreases |es|
  {
    if es != [] {
      NextInv(s, es[0]);
      RunInv(Next(false, s, es[0]), es[1..]);
    }
  }

  /** After any run a session that waits for a confirmation will read the one about its own message:
      the k-th publish of a channel consumes the k-th confirmation. */
  lemma {:induction false} ReadsItsOwnConfirmation(es: seq<Event>, w: string)
    requires Runs(false, START, es)
    requires var s := Run(false, START, es); w in s.sessions && s.sessions[w].phase.Waiting?
    ensures var s := Run(false, START, es);
      var c := s.sessions[w].channel;
      && c in s.channels && s.channels[c].read + 1 == |s.channels[c].sent|
      && s.channels[c].sent[s.channels[c].read] == s.sessions[w].phase.id
  {
    RunInv(START, es);
    assert InStep(Run(false, START, es), w);
  }

  /** After any run a row is Published only if the broker acknowledged that row's own message. */
  lemma {:induction false} PublishedWasAcked(es: seq<Event>, id: nat)
    requires Runs(false, START, es)
    requires var s := Run(false, START, es); id in s.rows && s.rows[id] == T.Published
    ensures Acked(Run(false, START, es).channels, id)
  {
    RunInv(START, es);
  }

  /** Ending the session on a timeout is what makes this true: a publisher that went on would take the
      late acknowledgement of row 1 for one of row 2. */
  lemma {:induction false} GoingOnWouldMislead()
    ensures var es :=
      [Open("w"), Send("w", 1), Timeout("w"), Send("w", 2), Decide(0, true), Read("w"), Mark("w", true)];
      && Runs(true, START, es)
      && var s := Run(true, START, es); 2 in s.rows && s.rows[2] == T.Published && !Acked(s.channels, 2)
  {
    var es := [Open("w"), Send("w", 1), Timeout("w"), Send("w", 2), Decide(0, true), Read("w"), Mark("w", true)];
    var s1 := Next(true, START, es[0]);
    var s2 := Next(true, s1, es[1]);
    var s3 := Next(true, s2, es[2]);
    MisleadingEnd(s3);
    var end := Run(true, s3, es[3..]);
    Unfold(s2, es[2..], end);
    Unfold(s1, es[1..], end);
    Unfold(START, es, end);
  }

  lemma {:induction false} MisleadingEnd(s3: System)
    requires s3.channels.Keys == {0} && s3.channels[0] == Channel([1], [], 0)
    requires "w" in s3.sessions && s3.sessions["w"] == Session(0, Idle)
    ensures var es := [Send("w", 2), Decide(0, true), Read("w"), Mark("w", true)];
      && Runs(true, s3, es)
      && var s := Run(true, s3, es); 2 in s.rows && s.rows[2] == T.Published && !Acked(s.channels, 2)
  {
    var es := [Send("w", 2), Decide(0, true), Read("w"), Mark("w", true)];
    var s4 := Next(true, s3, es[0]);
    var s5 := Next(true, s4, es[1]);
    var s6 := Next(true, s5, es[2]);
    var s7 := Next(true, s6, es[3]);
    assert s7.channels.Keys == {0} && s7.channels[0] == Channel([1, 2], [true], 1);
    Unfold(s6, es[3..], s7);
    Unfold(s5, es[2..], s7);
    Unfold(s4, es[1..], s7);
    Unfold(s3, es, s7);
  }

  lemma {:induction false} Unfold(s: System, es: seq<Event>, end: System)
    requires es != [] && Enabled(s, es[0]) && Runs(true, Next(true, s, es[0]), es[1..])
    requires Run(true, Next(true, s, es[0]), es[1..]) == end
    ensures Runs(true, s, es) && Run(true, s, es) == end
  {
  }
}
