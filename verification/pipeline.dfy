/**
 The ingest pipeline: publisher confirms (services/ingest-service/internal/app/ingest.go,
 pkg/broker/broker.go), manual acknowledgement, bounded persist retries and dead-lettering
 (services/processor/internal/app/processor.go). Any number of publishers and consumers;
 the broker and the store are abstract state, and every call on them may fail.
 */
module IngestPipeline {
  import opened Common
  import ColdQuery

  datatype Envelope = Envelope(tenant: string, receivedAt: int, raw: string)

  /** A publish as called: the authenticated tenant and the envelope handed in. */
  datatype Request = Request(tc: string, env: Envelope)

  /** Retry setting, and which payloads decode to a JSON object. */
  datatype Config = Config(maxRetries: int, isObject: string -> bool)

  datatype PublishOutcome = Confirmed | Unconfirmed | Lost

  /** An append commits or not, and reports success or not; only a committed one reports success. */
  datatype AppendOutcome = Stored | Failed | StoredUnreported

  /** One delivery of a message and the progress of its handler. `open`: the broker still awaits its ack. */
  datatype Delivery = Delivery(id: nat, attempts: nat, ok: bool, open: bool, finished: bool)

  datatype Row = Row(tenant: string, raw: string, from: nat)

  /**
   Publishes are numbered; `bodies` are the messages on the wire. `queue`, `unacked`, `dlq`
   and `acked` hold message numbers, `rows` the stored events with the delivery that wrote them.
   */
  datatype State = State(
    requests: seq<Request>, bodies: seq<Envelope>, enqueued: set<nat>, confirmed: set<nat>,
    queue: multiset<nat>, unacked: multiset<nat>, dlq: multiset<nat>, acked: multiset<nat>,
    deliveries: seq<Delivery>, rows: seq<Row>, stopping: bool)

  datatype Step =
    | Publish(tc: string, env: Envelope, outcome: PublishOutcome)
    | Deliver(id: nat)
    | Append(d: nat, result: AppendOutcome)
    | Settle(d: nat, arrives: bool)
    | Drop(d: nat)
    | Shutdown

  const EMPTY := State([], [], {}, {}, multiset{}, multiset{}, multiset{}, multiset{}, [], [], false)

  /** Append attempts per delivery. */
  function Budget(maxRetries: int): (b: nat)
    ensures b >= 1
  {
    if maxRetries + 1 < 1 then 1 else maxRetries + 1
  }

  /** A payload that can never be normalized. */
  predicate Poison(c: Config, raw: string) { raw == "" || !c.isObject(raw) }

  predicate Unusable(c: Config, env: Envelope) { !ColdQuery.IsUuid(env.tenant) || Poison(c, env.raw) }

  predicate Handling(s: State, d: nat) {
    d < |s.deliveries| && !s.deliveries[d].finished && s.deliveries[d].id < |s.bodies|
  }

  function BodyOf(s: State, d: nat): Envelope
    requires Handling(s, d)
  {
    s.bodies[s.deliveries[d].id]
  }

  /** The handler has decided: success, or a failure it will not retry. */
  predicate Decided(c: Config, s: State, d: nat)
    requires Handling(s, d)
  {
    var w := s.deliveries[d];
    w.ok || Unusable(c, BodyOf(s, d)) || (w.attempts > 0 && (w.attempts == Budget(c.maxRetries) || s.stopping))
  }

  predicate Enabled(c: Config, s: State, e: Step) {
    match e
    case Publish(_, _, _) => true
    case Deliver(id) => id in s.queue
    case Append(d, _) =>
      && Handling(s, d) && !Unusable(c, BodyOf(s, d))
      && !s.deliveries[d].ok && s.deliveries[d].attempts < Budget(c.maxRetries)
    case Settle(d, _) => Handling(s, d) && Decided(c, s, d)
    case Drop(d) => d < |s.deliveries| && s.deliveries[d].open
    case Shutdown => true
  }

  function Apply(c: Config, s: State, e: Step): State
    requires Enabled(c, s, e)
  {
    match e
    case Publish(tc, env, outcome) =>
      if !ColdQuery.IsUuid(tc) then s
      else
        var n := |s.requests|;
        var s1 := s.(requests := s.requests + [Request(tc, env)], bodies := s.bodies + [env.(tenant := tc)]);
        if outcome == Lost then s1
        else s1.(enqueued := s.enqueued + {n}, queue := s.queue + multiset{n},
                 confirmed := if outcome == Confirmed then s.confirmed + {n} else s.confirmed)
    case Deliver(id) =>
      s.(queue := s.queue - multiset{id}, unacked := s.unacked + multiset{id},
         deliveries := s.deliveries + [Delivery(id, 0, false, true, false)])
    case Append(d, result) =>
      var w := s.deliveries[d];
      s.(deliveries := s.deliveries[d := w.(attempts := w.attempts + 1, ok := result == Stored)],
         rows := if result == Failed then s.rows else s.rows + [Row(BodyOf(s, d).tenant, BodyOf(s, d).raw, d)])
    case Settle(d, arrives) =>
      var w := s.deliveries[d];
      if !arrives || !w.open then s.(deliveries := s.deliveries[d := w.(finished := true)])
      else s.(deliveries := s.deliveries[d := w.(finished := true, open := false)],
              unacked := s.unacked - multiset{w.id},
              acked := if w.ok then s.acked + multiset{w.id} else s.acked,
              dlq := if w.ok then s.dlq else s.dlq + multiset{w.id})
    case Drop(d) =>
      var w := s.deliveries[d];
      s.(deliveries := s.deliveries[d := w.(open := false)],
         unacked := s.unacked - multiset{w.id}, queue := s.queue + multiset{w.id})
    case Shutdown => s.(stopping := true)
  }

  // ------------------------------------------------------------------
  // What every step keeps
  // ------------------------------------------------------------------

  /** The wire body is the request under the authenticated tenant. */
  ghost predicate Published(s: State) {
    && |s.bodies| == |s.requests| && s.confirmed <= s.enqueued
    && (forall id | id in s.enqueued :: id < |s.requests| && ColdQuery.IsUuid(s.requests[id].tc))
    && forall i | 0 <= i < |s.requests| :: s.bodies[i] == s.requests[i].env.(tenant := s.requests[i].tc)
  }

  /** Every enqueued message is in exactly one place. */
  ghost predicate Conserved(s: State) {
    s.queue + s.unacked + s.dlq + s.acked == multiset(s.enqueued)
  }

  ghost predicate Tracked(c: Config, s: State) {
    && (forall d | 0 <= d < |s.deliveries| ::
          && s.deliveries[d].id in s.enqueued && s.deliveries[d].attempts <= Budget(c.maxRetries)
          && (s.deliveries[d].open ==> s.deliveries[d].id in s.unacked))
    && forall d, e | 0 <= d < e < |s.deliveries| && s.deliveries[d].open && s.deliveries[e].open ::
         s.deliveries[d].id != s.deliveries[e].id
  }

  /** How many rows delivery d wrote. */
  function RowsFrom(rows: seq<Row>, d: nat): nat {
    if rows == [] then 0 else RowsFrom(rows[..|rows| - 1], d) + if rows[|rows| - 1].from == d then 1 else 0
  }

  /** Rows carry their message's tenant and payload; a reported success left a row. */
  ghost predicate Written(s: State) {
    && (forall r | r in s.rows ::
          && r.from < |s.deliveries| && s.deliveries[r.from].id < |s.bodies|
          && r.tenant == s.bodies[s.deliveries[r.from].id].tenant && r.raw == s.bodies[s.deliveries[r.from].id].raw)
    && forall d | 0 <= d < |s.deliveries| ::
         && RowsFrom(s.rows, d) <= s.deliveries[d].attempts
         && (s.deliveries[d].ok ==> RowsFrom(s.rows, d) > 0)
  }

  /** No stored row holds a payload that cannot be normalized. */
  ghost predicate Clean(c: Config, s: State) {
    forall r | r in s.rows :: r.raw != "" && c.isObject(r.raw)
  }

  /** A delivery that succeeded. */
  ghost predicate Succeeded(s: State, id: nat) {
    exists d :: 0 <= d < |s.deliveries| && s.deliveries[d].id == id && s.deliveries[d].ok
  }

  /** A delivery whose handler gave up: its payload is unusable, or its attempts ran out or were cut short. */
  ghost predicate GaveUp(c: Config, s: State, id: nat) {
    exists d :: 0 <= d < |s.deliveries| && s.deliveries[d].id == id && Hopeless(c, s, d)
  }

  ghost predicate Hopeless(c: Config, s: State, d: nat)
    requires d < |s.deliveries|
  {
    var w := s.deliveries[d];
    && w.finished && !w.ok && w.id < |s.bodies|
    && (Unusable(c, s.bodies[w.id]) || w.attempts == Budget(c.maxRetries) || (s.stopping && w.attempts > 0))
  }

  ghost predicate Outcomes(c: Config, s: State) {
    && (forall id | id in s.acked :: Succeeded(s, id))
    && forall id | id in s.dlq :: GaveUp(c, s, id)
  }

  ghost predicate Inv(c: Config, s: State) {
    Published(s) && Conserved(s) && Tracked(c, s) && Written(s) && Clean(c, s) && Outcomes(c, s)
  }

  lemma PublishPublished(s: State, tc: string, env: Envelope, t: State)
    requires Published(s) && ColdQuery.IsUuid(tc)
    requires t.requests == s.requests + [Request(tc, env)] && t.bodies == s.bodies + [env.(tenant := tc)]
    requires s.enqueued <= t.enqueued <= s.enqueued + {|s.requests|}
    requires t.confirmed <= t.enqueued
    ensures Published(t)
  {
    hide ColdQuery.IsUuid;
  }

  lemma PublishApplied(c: Config, s: State, tc: string, env: Envelope, outcome: PublishOutcome)
    requires Published(s)
    ensures Published(Apply(c, s, Publish(tc, env, outcome)))
  {
    assert s.confirmed <= s.enqueued;
    hide ColdQuery.IsUuid, Published;
    var t := Apply(c, s, Publish(tc, env, outcome));
    if ColdQuery.IsUuid(tc) {
      PublishPublished(s, tc, env, t);
    }
  }

  lemma KeepsPublished(c: Config, s: State, e: Step)
    requires Published(s) && Enabled(c, s, e)
    ensures Published(Apply(c, s, e))
  {
    hide ColdQuery.IsUuid, Budget, Unusable, Decided, Published;
    var t := Apply(c, s, e);
    match e
    case Publish(tc, env, outcome) => hide Apply; PublishApplied(c, s, tc, env, outcome);
    case Deliver(_) => PublishedSame(s, t);
    case Append(_, _) => PublishedSame(s, t);
    case Settle(_, _) => PublishedSame(s, t);
    case Drop(_) => PublishedSame(s, t);
    case Shutdown => PublishedSame(s, t);
  }

  lemma PublishedSame(s: State, t: State)
    requires Published(s) && t.requests == s.requests && t.bodies == s.bodies
    requires t.enqueued == s.enqueued && t.confirmed == s.confirmed
    ensures Published(t)
  {
  }

  lemma PublishConserved(c: Config, s: State, tc: string, env: Envelope, outcome: PublishOutcome)
    requires Published(s) && Conserved(s)
    ensures Conserved(Apply(c, s, Publish(tc, env, outcome)))
  {
    hide ColdQuery.IsUuid;
    var n := |s.requests|;
    assert n !in s.enqueued;
    assert multiset(s.enqueued + {n}) == multiset(s.enqueued) + multiset{n};
  }

  lemma SettleConserved(c: Config, s: State, e: Step)
    requires Conserved(s) && Enabled(c, s, e) && (e.Settle? || e.Drop?)
    requires s.deliveries[e.d].open ==> s.deliveries[e.d].id in s.unacked
    ensures Conserved(Apply(c, s, e))
  {
    hide Decided;
  }

  lemma KeepsConserved(c: Config, s: State, e: Step)
    requires Published(s) && Conserved(s) && Tracked(c, s) && Enabled(c, s, e)
    ensures Conserved(Apply(c, s, e))
  {
    hide ColdQuery.IsUuid, Budget, Unusable, Decided;
    match e
    case Publish(tc, env, outcome) => hide Apply, Enabled; PublishConserved(c, s, tc, env, outcome);
    case Deliver(id) => hide Published, Tracked;
    case Append(d, result) => hide Published, Tracked;
    case Settle(d, arrives) => hide Apply; SettleConserved(c, s, e);
    case Drop(d) => hide Apply; SettleConserved(c, s, e);
    case Shutdown => hide Published, Tracked;
  }

  /** A queued message has no open delivery. */
  lemma QueuedNotOpen(c: Config, s: State, id: nat, d: nat)
    requires Conserved(s) && Tracked(c, s) && id in s.queue && d < |s.deliveries| && s.deliveries[d].open
    ensures s.deliveries[d].id != id
  {
    assert (s.queue + s.unacked + s.dlq + s.acked)[id] == multiset(s.enqueued)[id] <= 1;
    assert s.deliveries[d].id in s.unacked;
  }

  /** One delivery changes; the broker's books lose at most that one message. */
  lemma TrackedUpdate(c: Config, s: State, t: State, d: nat, w: Delivery)
    requires Tracked(c, s) && d < |s.deliveries| && t.deliveries == s.deliveries[d := w] && t.enqueued == s.enqueued
    requires w.id == s.deliveries[d].id && w.attempts <= Budget(c.maxRetries)
    requires || (t.unacked == s.unacked && (w.open ==> s.deliveries[d].open))
             || (t.unacked == s.unacked - multiset{w.id} && !w.open && s.deliveries[d].open)
    ensures Tracked(c, t)
  {
    hide Budget;
    forall k | 0 <= k < |t.deliveries| && k != d && t.deliveries[k].open ensures t.deliveries[k].id in t.unacked {
      assert s.deliveries[k].id in s.unacked;
      assert s.deliveries[d].open ==> s.deliveries[k].id != s.deliveries[d].id;
    }
  }

  lemma TrackedDeliver(c: Config, s: State, id: nat)
    requires Conserved(s) && Tracked(c, s) && id in s.queue
    ensures Tracked(c, Apply(c, s, Deliver(id)))
  {
    hide Budget, Conserved;
    QueuedEnqueued(s, id);
    forall d | 0 <= d < |s.deliveries| && s.deliveries[d].open ensures s.deliveries[d].id != id {
      QueuedNotOpen(c, s, id, d);
    }
  }

  lemma PublishTracked(c: Config, s: State, tc: string, env: Envelope, outcome: PublishOutcome)
    requires Tracked(c, s)
    ensures Tracked(c, Apply(c, s, Publish(tc, env, outcome)))
  {
    hide ColdQuery.IsUuid, Budget;
  }

  lemma HandlerTracked(c: Config, s: State, e: Step)
    requires Tracked(c, s) && Enabled(c, s, e) && (e.Append? || e.Settle? || e.Drop?)
    ensures Tracked(c, Apply(c, s, e))
  {
    hide Budget, Tracked, Decided, Unusable;
    var t := Apply(c, s, e);
    TrackedSettled(c, s, e.d);
    TrackedUpdate(c, s, t, e.d, t.deliveries[e.d]);
  }

  lemma KeepsTracked(c: Config, s: State, e: Step)
    requires Conserved(s) && Tracked(c, s) && Enabled(c, s, e)
    ensures Tracked(c, Apply(c, s, e))
  {
    match e
    case Publish(tc, env, outcome) => hide Apply, Tracked, Enabled; PublishTracked(c, s, tc, env, outcome);
    case Deliver(id) => hide Apply, Tracked; TrackedDeliver(c, s, id);
    case Append(d, result) => hide Apply, Tracked, Enabled; HandlerTracked(c, s, e);
    case Settle(d, arrives) => hide Apply, Tracked, Enabled; HandlerTracked(c, s, e);
    case Drop(d) => hide Apply, Tracked, Enabled; HandlerTracked(c, s, e);
    case Shutdown => hide Budget;
  }

  lemma TrackedSettled(c: Config, s: State, d: nat)
    requires Tracked(c, s) && d < |s.deliveries|
    ensures s.deliveries[d].attempts <= Budget(c.maxRetries)
  {
  }

  lemma QueuedEnqueued(s: State, id: nat)
    requires Conserved(s) && id in s.queue
    ensures id in s.enqueued
  {
    assert (s.queue + s.unacked + s.dlq + s.acked)[id] == multiset(s.enqueued)[id];
  }

  lemma RowsFromSnoc(rows: seq<Row>, r: Row, d: nat)
    ensures RowsFrom(rows + [r], d) == RowsFrom(rows, d) + if r.from == d then 1 else 0
  {
    assert (rows + [r])[..|rows|] == rows;
  }

  lemma {:induction false} RowsFromNone(rows: seq<Row>, d: nat)
    requires forall r | r in rows :: r.from != d
    ensures RowsFrom(rows, d) == 0
    decreases |rows|
  {
    if rows != [] {
      assert rows[|rows| - 1] in rows;
      RowsFromNone(rows[..|rows| - 1], d);
    }
  }

  /** A reported or unreported commit adds one row of delivery d, and one attempt. */
  lemma WrittenAppend(s: State, t: State, d: nat, ok: bool)
    requires Written(s) && Handling(s, d) && t.bodies == s.bodies && !s.deliveries[d].ok
    requires t.deliveries == s.deliveries[d := s.deliveries[d].(attempts := s.deliveries[d].attempts + 1, ok := ok)]
    requires t.rows == s.rows + [Row(BodyOf(s, d).tenant, BodyOf(s, d).raw, d)]
    ensures Written(t)
  {
    var r := Row(BodyOf(s, d).tenant, BodyOf(s, d).raw, d);
    forall k | 0 <= k < |t.deliveries|
      ensures RowsFrom(t.rows, k) <= t.deliveries[k].attempts && (t.deliveries[k].ok ==> RowsFrom(t.rows, k) > 0)
    {
      RowsFromSnoc(s.rows, r, k);
    }
    hide RowsFrom;
  }

  /** Nothing written, and at most one delivery changes: it gains attempts and does not newly succeed. */
  lemma WrittenSame(s: State, t: State, d: nat, w: Delivery)
    requires Written(s) && t.rows == s.rows && s.bodies <= t.bodies
    requires t.deliveries == s.deliveries ||
             (d < |s.deliveries| && t.deliveries == s.deliveries[d := w] && w.id == s.deliveries[d].id
              && w.attempts >= s.deliveries[d].attempts && (w.ok ==> s.deliveries[d].ok))
    ensures Written(t)
  {
    hide RowsFrom;
  }

  lemma WrittenDeliver(c: Config, s: State, id: nat)
    requires Written(s) && id in s.queue
    ensures Written(Apply(c, s, Deliver(id)))
  {
    RowsFromNone(s.rows, |s.deliveries|);
    hide RowsFrom;
  }

  lemma AppendWritten(c: Config, s: State, d: nat, result: AppendOutcome)
    requires Written(s) && Enabled(c, s, Append(d, result))
    ensures Written(Apply(c, s, Append(d, result)))
  {
    hide Budget, Written, Unusable;
    var t := Apply(c, s, Append(d, result));
    if result == Failed {
      WrittenSame(s, t, d, t.deliveries[d]);
    } else {
      WrittenAppend(s, t, d, result == Stored);
    }
  }

  lemma PublishWritten(c: Config, s: State, tc: string, env: Envelope, outcome: PublishOutcome)
    requires Written(s)
    ensures Written(Apply(c, s, Publish(tc, env, outcome)))
  {
    hide ColdQuery.IsUuid, Written;
    WrittenSame(s, Apply(c, s, Publish(tc, env, outcome)), 0, Delivery(0, 0, false, false, false));
  }

  lemma SettleWritten(c: Config, s: State, e: Step)
    requires Written(s) && Enabled(c, s, e) && (e.Settle? || e.Drop?)
    ensures Written(Apply(c, s, e))
  {
    hide Written, Decided;
    var t := Apply(c, s, e);
    WrittenSame(s, t, e.d, t.deliveries[e.d]);
  }

  lemma KeepsWritten(c: Config, s: State, e: Step)
    requires Written(s) && Enabled(c, s, e)
    ensures Written(Apply(c, s, e))
  {
    match e
    case Publish(tc, env, outcome) => hide Apply, Written, Enabled; PublishWritten(c, s, tc, env, outcome);
    case Deliver(id) => hide Apply, Written; WrittenDeliver(c, s, id);
    case Append(d, result) => hide Apply, Written, Enabled; AppendWritten(c, s, d, result);
    case Settle(d, _) => hide Apply, Written, Enabled; SettleWritten(c, s, e);
    case Drop(d) => hide Apply, Written, Enabled; SettleWritten(c, s, e);
    case Shutdown => hide RowsFrom;
  }

  /** Facts about a delivery that no step undoes. */
  ghost predicate Later(s: State, t: State) {
    && |s.deliveries| <= |t.deliveries| && s.bodies <= t.bodies && (s.stopping ==> t.stopping)
    && forall d | 0 <= d < |s.deliveries| ::
         && t.deliveries[d].id == s.deliveries[d].id
         && (s.deliveries[d].ok ==> t.deliveries[d].ok)
         && (s.deliveries[d].finished ==>
               && t.deliveries[d].finished && t.deliveries[d].ok == s.deliveries[d].ok
               && t.deliveries[d].attempts == s.deliveries[d].attempts)
  }

  lemma HandlerLater(c: Config, s: State, e: Step)
    requires Enabled(c, s, e) && (e.Append? || e.Settle? || e.Drop?)
    ensures Later(s, Apply(c, s, e))
  {
    hide Budget, Decided, Unusable, Later;
    OneDelivery(s, Apply(c, s, e), e.d);
  }

  lemma StepLater(c: Config, s: State, e: Step)
    requires Enabled(c, s, e)
    ensures Later(s, Apply(c, s, e))
  {
    if e.Append? || e.Settle? || e.Drop? {
      hide Apply, Enabled, Later;
      HandlerLater(c, s, e);
    } else {
      hide ColdQuery.IsUuid;
      assert forall d | 0 <= d < |s.deliveries| :: Apply(c, s, e).deliveries[d] == s.deliveries[d];
    }
  }

  lemma OneDelivery(s: State, t: State, d: nat)
    requires d < |s.deliveries| == |t.deliveries| && t.bodies == s.bodies && t.stopping == s.stopping
    requires t.deliveries == s.deliveries[d := t.deliveries[d]] && t.deliveries[d].id == s.deliveries[d].id
    requires s.deliveries[d].ok ==> t.deliveries[d].ok
    requires s.deliveries[d].finished ==>
               && t.deliveries[d].finished && t.deliveries[d].ok == s.deliveries[d].ok
               && t.deliveries[d].attempts == s.deliveries[d].attempts
    ensures Later(s, t)
  {
  }

  lemma LaterOutcomes(c: Config, s: State, t: State, id: nat)
    requires Later(s, t)
    ensures Succeeded(s, id) ==> Succeeded(t, id)
    ensures GaveUp(c, s, id) ==> GaveUp(c, t, id)
  {
    hide ColdQuery.IsUuid, Budget;
    if Succeeded(s, id) {
      var d :| 0 <= d < |s.deliveries| && s.deliveries[d].id == id && s.deliveries[d].ok;
      assert t.deliveries[d].id == id && t.deliveries[d].ok;
    }
    if GaveUp(c, s, id) {
      var d :| 0 <= d < |s.deliveries| && s.deliveries[d].id == id && Hopeless(c, s, d);
      assert t.deliveries[d].id == id && Hopeless(c, t, d);
    }
  }

  lemma KeepsOutcomes(c: Config, s: State, e: Step)
    requires Outcomes(c, s) && Enabled(c, s, e)
    ensures Outcomes(c, Apply(c, s, e))
  {
    hide ColdQuery.IsUuid, Budget, Succeeded, GaveUp, Later, Unusable;
    var t := Apply(c, s, e);
    StepLater(c, s, e);
    if e.Settle? {
      SettleOutcome(c, s, e.d, e.arrives);
      assert t.acked == s.acked || (s.deliveries[e.d].ok && t.acked == s.acked + multiset{s.deliveries[e.d].id});
      assert t.dlq == s.dlq || (!s.deliveries[e.d].ok && t.dlq == s.dlq + multiset{s.deliveries[e.d].id});
    } else {
      assert t.acked == s.acked && t.dlq == s.dlq;
    }
    hide Apply, Enabled;
    forall id | id in t.acked ensures Succeeded(t, id) {
      if id in s.acked { LaterOutcomes(c, s, t, id); }
    }
    forall id | id in t.dlq ensures GaveUp(c, t, id) {
      if id in s.dlq { LaterOutcomes(c, s, t, id); }
    }
  }

  lemma SettleOutcome(c: Config, s: State, d: nat, arrives: bool)
    requires Enabled(c, s, Settle(d, arrives))
    ensures var t := Apply(c, s, Settle(d, arrives));
            if s.deliveries[d].ok then Succeeded(t, s.deliveries[d].id) else GaveUp(c, t, s.deliveries[d].id)
  {
    hide ColdQuery.IsUuid, Budget;
    var t := Apply(c, s, Settle(d, arrives));
    assert t.deliveries[d].id == s.deliveries[d].id && t.deliveries[d].ok == s.deliveries[d].ok;
    if !s.deliveries[d].ok {
      assert Hopeless(c, t, d);
    }
  }

  lemma KeepsClean(c: Config, s: State, e: Step)
    requires Clean(c, s) && Enabled(c, s, e)
    ensures Clean(c, Apply(c, s, e))
  {
    hide ColdQuery.IsUuid, Budget, Decided, Clean;
    var t := Apply(c, s, e);
    assert e.Append? ==> !Unusable(c, BodyOf(s, e.d));
    assert t.rows == s.rows || (e.Append? && t.rows == s.rows + [Row(BodyOf(s, e.d).tenant, BodyOf(s, e.d).raw, e.d)]);
    hide Apply, Enabled;
    CleanMore(c, s, t);
  }

  lemma CleanMore(c: Config, s: State, t: State)
    requires Clean(c, s) && s.rows <= t.rows && |t.rows| <= |s.rows| + 1
    requires t.rows != s.rows ==> t.rows[|s.rows|].raw != "" && c.isObject(t.rows[|s.rows|].raw)
    ensures Clean(c, t)
  {
    forall r | r in t.rows ensures r.raw != "" && c.isObject(r.raw) {
      var i :| 0 <= i < |t.rows| && t.rows[i] == r;
      if i < |s.rows| { assert s.rows[i] == r; }
    }
  }

  lemma StepInv(c: Config, s: State, e: Step)
    requires Inv(c, s) && Enabled(c, s, e)
    ensures Inv(c, Apply(c, s, e))
  {
    hide Published, Conserved, Tracked, Written, Clean, Outcomes, Apply, Enabled;
    KeepsClean(c, s, e);
    KeepsPublished(c, s, e);
    KeepsConserved(c, s, e);
    KeepsTracked(c, s, e);
    KeepsWritten(c, s, e);
    KeepsOutcomes(c, s, e);
  }

  // ------------------------------------------------------------------
  // Runs
  // ------------------------------------------------------------------

  predicate Runs(c: Config, s: State, steps: seq<Step>, t: State)
    decreases |steps|
  {
    if steps == [] then s == t else Enabled(c, s, steps[0]) && Runs(c, Apply(c, s, steps[0]), steps[1..], t)
  }

  lemma {:induction false} RunsInv(c: Config, s: State, steps: seq<Step>, t: State)
    requires Inv(c, s) && Runs(c, s, steps, t)
    ensures Inv(c, t)
    decreases |steps|
  {
    hide Inv, Apply, Enabled;
    if steps != [] {
      StepInv(c, s, steps[0]);
      RunsInv(c, Apply(c, s, steps[0]), steps[1..], t);
    }
  }

  ghost predicate Reachable(c: Config, s: State) {
    exists steps :: Runs(c, EMPTY, steps, s)
  }

  lemma ReachableInv(c: Config, s: State)
    requires Reachable(c, s)
    ensures Inv(c, s)
  {
    var steps :| Runs(c, EMPTY, steps, s);
    assert Inv(c, EMPTY);
    hide Inv;
    RunsInv(c, EMPTY, steps, s);
  }

  lemma {:induction false} RunsSnoc(c: Config, s: State, steps: seq<Step>, t: State, e: Step)
    requires Runs(c, s, steps, t) && Enabled(c, t, e)
    ensures Runs(c, s, steps + [e], Apply(c, t, e))
    decreases |steps|
  {
    hide Apply, Enabled;
    if steps == [] {
      assert [e][1..] == [];
      assert Runs(c, Apply(c, t, e), [e][1..], Apply(c, t, e));
      assert steps + [e] == [e];
    } else {
      RunsSnoc(c, Apply(c, s, steps[0]), steps[1..], t, e);
      assert (steps + [e])[1..] == steps[1..] + [e];
    }
  }

  lemma ReachStep(c: Config, s: State, e: Step)
    requires Reachable(c, s) && Enabled(c, s, e)
    ensures Reachable(c, Apply(c, s, e))
  {
    var steps :| Runs(c, EMPTY, steps, s);
    RunsSnoc(c, EMPTY, steps, s, e);
  }

  /** There is a stored row written by a delivery of message `id`. */
  ghost predicate HasRow(s: State, id: nat) {
    exists r :: r in s.rows && r.from < |s.deliveries| && s.deliveries[r.from].id == id
  }

  lemma {:induction false} RowsFromSome(rows: seq<Row>, d: nat) returns (r: Row)
    requires RowsFrom(rows, d) > 0
    ensures r in rows && r.from == d
    decreases |rows|
  {
    if rows[|rows| - 1].from == d {
      r := rows[|rows| - 1];
    } else {
      r := RowsFromSome(rows[..|rows| - 1], d);
    }
  }

  /** An acknowledged message was stored. */
  lemma AckedIsStored(c: Config, s: State, id: nat)
    requires Reachable(c, s) && id in s.acked
    ensures HasRow(s, id)
  {
    ReachableInv(c, s);
    assert Succeeded(s, id);
    var d :| 0 <= d < |s.deliveries| && s.deliveries[d].id == id && s.deliveries[d].ok;
    var r := RowsFromSome(s.rows, d);
    assert r in s.rows && s.deliveries[r.from].id == id;
  }

  /** Nothing confirmed is lost: it waits, is being handled, is dead-lettered or is stored. */
  lemma ConfirmedIsKept(c: Config, s: State, id: nat)
    requires Reachable(c, s) && id in s.confirmed
    ensures id in s.queue || id in s.unacked || id in s.dlq || HasRow(s, id)
  {
    ReachableInv(c, s);
    assert id in s.enqueued;
    assert (s.queue + s.unacked + s.dlq + s.acked)[id] == multiset(s.enqueued)[id] == 1;
    if id in s.acked {
      AckedIsStored(c, s, id);
    }
  }

  /** Each enqueued message is in exactly one place, the others in none. */
  lemma ExactlyOnePlace(c: Config, s: State, id: nat)
    requires Reachable(c, s)
    ensures s.queue[id] + s.unacked[id] + s.dlq[id] + s.acked[id] == if id in s.enqueued then 1 else 0
  {
    ReachableInv(c, s);
    assert (s.queue + s.unacked + s.dlq + s.acked)[id] == multiset(s.enqueued)[id];
  }

  /**
   Every stored row has the tenant and the payload of its authenticated ingest, whatever the
   envelope claimed, and the payload is a non-empty JSON object.
   */
  lemma RowsAreAuthentic(c: Config, s: State, r: Row)
    requires Reachable(c, s) && r in s.rows
    ensures r.from < |s.deliveries| && s.deliveries[r.from].id < |s.requests|
    ensures var q := s.requests[s.deliveries[r.from].id];
            && r.tenant == q.tc && r.raw == q.env.raw && ColdQuery.IsUuid(q.tc)
            && r.raw != "" && c.isObject(r.raw)
  {
    ReachableInv(c, s);
    hide ColdQuery.IsUuid;
    assert s.deliveries[r.from].id in s.enqueued;
  }

  /** A delivery appends at most max(1, maxRetries + 1) times, and writes no more rows than that. */
  lemma AttemptsAreBounded(c: Config, s: State, d: nat)
    requires Reachable(c, s) && d < |s.deliveries|
    ensures RowsFrom(s.rows, d) <= s.deliveries[d].attempts <= Max(1, c.maxRetries + 1)
  {
    ReachableInv(c, s);
  }

  /** Before any shutdown, a dead letter is unusable or had a delivery with every allowed attempt failing. */
  lemma DeadLettersAreEarned(c: Config, s: State, id: nat)
    requires Reachable(c, s) && id in s.dlq && !s.stopping
    ensures id < |s.bodies|
    ensures ColdQuery.IsUuid(s.bodies[id].tenant) && s.bodies[id].raw != "" && c.isObject(s.bodies[id].raw) ==>
              exists d :: 0 <= d < |s.deliveries| && s.deliveries[d].id == id && !s.deliveries[d].ok
                          && s.deliveries[d].attempts == Max(1, c.maxRetries + 1)
  {
    ReachableInv(c, s);
    hide ColdQuery.IsUuid;
    assert GaveUp(c, s, id);
    var d :| 0 <= d < |s.deliveries| && s.deliveries[d].id == id && Hopeless(c, s, d);
    assert Unusable(c, s.bodies[id]) || s.deliveries[d].attempts == Max(1, c.maxRetries + 1);
  }

  // ------------------------------------------------------------------
  // The services
  // ------------------------------------------------------------------

  /** What a process may rely on while others run. */
  ghost predicate Grows(s: State, t: State) {
    Later(s, t) && s.requests <= t.requests && s.confirmed <= t.confirmed && s.rows <= t.rows
  }

  lemma StepGrows(c: Config, s: State, e: Step)
    requires Enabled(c, s, e)
    ensures Grows(s, Apply(c, s, e))
  {
    hide Later, ColdQuery.IsUuid;
    StepLater(c, s, e);
  }

  lemma GrowsTrans(s: State, t: State, u: State)
    requires Grows(s, t) && Grows(t, u)
    ensures Grows(s, u)
  {
  }

  /** Only its own handler moves a delivery forward; the broker may take it back. */
  ghost predicate SameHandler(s: State, t: State, d: nat) {
    && d < |s.deliveries| && d < |t.deliveries|
    && t.deliveries[d] == s.deliveries[d].(open := t.deliveries[d].open)
    && (t.deliveries[d].open ==> s.deliveries[d].open)
  }

  lemma SameHandlerSelf(s: State, d: nat)
    ensures d < |s.deliveries| ==> SameHandler(s, s, d)
  {
  }

  lemma SameHandlerTrans(s: State, t: State, u: State, d: nat)
    requires Grows(s, t)
    requires d < |s.deliveries| ==> SameHandler(s, t, d)
    requires d < |t.deliveries| ==> SameHandler(t, u, d)
    ensures d < |s.deliveries| ==> SameHandler(s, u, d)
  {
  }

  lemma StillHandling(s: State, t: State, d: nat)
    requires Grows(s, t) && SameHandler(s, t, d) && Handling(s, d)
    ensures Handling(t, d) && BodyOf(t, d) == BodyOf(s, d)
  {
  }

  /** How many of the archive calls left a copy. */
  function ArchiveCopies(results: seq<AppendOutcome>): nat {
    if results == [] then 0
    else ArchiveCopies(results[..|results| - 1]) + if results[|results| - 1] == Failed then 0 else 1
  }

  lemma CopiesSnoc(results: seq<AppendOutcome>, n: nat)
    requires n < |results|
    ensures ArchiveCopies(results[..n + 1]) == ArchiveCopies(results[..n]) + if results[n] == Failed then 0 else 1
  {
    assert results[..n + 1][..n] == results[..n];
  }

  lemma OneCopy()
    ensures ArchiveCopies([Stored]) == 1
  {
    assert [Stored][..0] == [];
  }

  /** A process of the system: the services' code, with the broker and the store as `st`. */
  class Process {
    const cfg: Config
    var stopping: bool            // the lifecycle context is cancelled
    var archive: multiset<nat>    // deliveries whose event reached the cold archive, once per copy
    ghost var st: State

    ghost predicate Valid()
      reads this
    {
      Reachable(cfg, st) && stopping == st.stopping
    }

    constructor (cfg: Config)
      ensures Valid() && this.cfg == cfg && st == EMPTY && archive == multiset{}
    {
      this.cfg := cfg;
      stopping := false;
      archive := multiset{};
      st := EMPTY;
      new;
      assert Runs(cfg, EMPTY, [], EMPTY);
    }

    ghost method Take(e: Step)
      requires Reachable(cfg, st) && Enabled(cfg, st, e)
      modifies this`st
      ensures st == Apply(cfg, old(st), e) && Reachable(cfg, st) && Grows(old(st), st)
    {
      ReachStep(cfg, st, e);
      StepGrows(cfg, st, e);
      st := Apply(cfg, st, e);
    }

    /** Anyone else runs, a shutdown may begin, the broker may drop deliveries; callers may use only the contract. */
    method Others(ghost mine: nat)
      requires Valid()
      modifies this`st, this`stopping
      ensures Valid() && Grows(old(st), st)
      ensures mine < |old(st).deliveries| ==> SameHandler(old(st), st, mine)
    {
    }

    /** `Publish`: success is reported only for a confirmed enqueue. */
    method Publish(tc: string, env: Envelope, outcome: PublishOutcome) returns (err: bool)
      requires Valid()
      modifies this`st
      ensures Valid() && Grows(old(st), st)
      ensures err <==> !ColdQuery.IsUuid(tc) || outcome != Confirmed
      ensures !err ==> |old(st.requests)| in st.confirmed && st.requests == old(st.requests) + [Request(tc, env)]
    {
      hide Reachable, Grows, ColdQuery.IsUuid;
      Take(Step.Publish(tc, env, outcome));
      err := !ColdQuery.IsUuid(tc) || outcome != Confirmed;
    }

    /** Message ids[i] is confirmed and is raws[i] under the caller's tenant. */
    ghost predicate AllConfirmed(tc: string, now: int, raws: seq<string>, ids: seq<nat>)
      reads this
      requires |ids| <= |raws|
    {
      forall i | 0 <= i < |ids| ::
        && ids[i] in st.confirmed && ids[i] < |st.requests|
        && st.requests[ids[i]] == Request(tc, Envelope(tc, now, raws[i]))
    }

    /** `Ingest`: publishes in order and stops at the first failure; `published` counts exactly the confirmed prefix. */
    method Ingest(tc: string, raws: seq<string>, now: int, outcomes: seq<PublishOutcome>)
      returns (published: nat, err: bool, ghost ids: seq<nat>)
      requires Valid() && |outcomes| == |raws|
      modifies this`st, this`stopping
      ensures Valid() && Grows(old(st), st) && published == |ids| <= |raws|
      ensures AllConfirmed(tc, now, raws, ids)
      ensures forall i, j | 0 <= i < j < |ids| :: ids[i] < ids[j]
      ensures err <==> !ColdQuery.IsUuid(tc) || published < |raws|
      ensures ColdQuery.IsUuid(tc) ==>
                && (forall i | 0 <= i < published :: outcomes[i] == Confirmed)
                && (published < |raws| ==> outcomes[published] != Confirmed)
    {
      hide Reachable, Later, ColdQuery.IsUuid;
      published, ids := 0, [];
      GrowsSelf(st);
      if !ColdQuery.IsUuid(tc) {
        return 0, true, [];
      }
      while published < |raws|
        invariant Valid() && Grows(old(st), st) && published == |ids| <= |raws|
        invariant AllConfirmed(tc, now, raws, ids)
        invariant forall i, j | 0 <= i < j < |ids| :: ids[i] < ids[j]
        invariant forall i | 0 <= i < |ids| :: ids[i] < |st.requests|
        invariant forall i | 0 <= i < published :: outcomes[i] == Confirmed
      {
        ghost var s0 := st;
        Others(|st.deliveries|);
        ghost var s1 := st;
        var perr := Publish(tc, Envelope(tc, now, raws[published]), outcomes[published]);
        GrowsTrans(s0, s1, st);
        GrowsTrans(old(st), s0, st);
        if perr {
          return published, true, ids;
        }
        ids := ids + [|s1.requests|];
        published := published + 1;
      }
      err := false;
    }

    /** `persist`: the first attempt always runs; later ones only while not shutting down. */
    method Persist(ghost d: nat, results: seq<AppendOutcome>) returns (err: bool)
      requires Valid() && Handling(st, d) && !Unusable(cfg, BodyOf(st, d)) && |results| == Budget(cfg.maxRetries)
      requires st.deliveries[d].attempts == 0 && !st.deliveries[d].ok
      modifies this`st, this`stopping
      ensures Valid() && Grows(old(st), st) && Handling(st, d) && Decided(cfg, st, d)
      ensures err <==> !st.deliveries[d].ok
      ensures var n := st.deliveries[d].attempts;
              && 1 <= n <= Budget(cfg.maxRetries)
              && (forall i | 0 <= i < n - 1 :: results[i] != Stored)
              && (!err <==> results[n - 1] == Stored)
              && (err ==> n == Max(1, cfg.maxRetries + 1) || stopping)
      ensures st.deliveries[d].open ==> old(st).deliveries[d].open
    {
      hide Reachable, Unusable, Grows, Later;
      GrowsSelf(st);
      var attempts := Budget(cfg.maxRetries);
      var attempt := 0;
      while attempt < attempts
        invariant Valid() && Grows(old(st), st) && attempt <= attempts
        invariant Handling(st, d) && BodyOf(st, d) == old(BodyOf(st, d)) && !st.deliveries[d].ok
        invariant st.deliveries[d].attempts == attempt
        invariant st.deliveries[d].open ==> old(st).deliveries[d].open
        invariant forall i | 0 <= i < attempt :: results[i] != Stored
      {
        ghost var s0 := st;
        Others(d);
        GrowsTrans(old(st), s0, st);
        StillHandling(s0, st, d);
        if attempt > 0 && stopping {
          return true;
        }
        ghost var s1 := st;
        Take(Append(d, results[attempt]));
        GrowsTrans(old(st), s1, st);
        attempt := attempt + 1;
        if results[attempt - 1] == Stored {
          return false;
        }
      }
      err := true;
    }

    /** `archiveCold`: the same bounded loop on the cold archive. It touches nothing but the archive. */
    method ArchiveCold(d: nat, results: seq<AppendOutcome>) returns (err: bool, tries: nat)
      requires Valid() && |results| == Budget(cfg.maxRetries)
      modifies this
      ensures Valid() && Grows(old(st), st) && (d < |old(st).deliveries| ==> SameHandler(old(st), st, d))
      ensures 1 <= tries <= Budget(cfg.maxRetries)
      ensures (forall i | 0 <= i < tries - 1 :: results[i] != Stored) && (!err <==> results[tries - 1] == Stored)
      ensures err ==> tries == Budget(cfg.maxRetries) || stopping
      ensures archive == old(archive)[d := old(archive)[d] + ArchiveCopies(results[..tries])]
    {
      hide Reachable, Budget, Grows, Later, SameHandler;
      GrowsSelf(st);
      SameHandlerSelf(st, d);
      assert results[..0] == [] && ArchiveCopies([]) == 0;
      hide ArchiveCopies;
      tries := 0;
      while tries < Budget(cfg.maxRetries)
        invariant Valid() && Grows(old(st), st) && tries <= Budget(cfg.maxRetries)
        invariant d < |old(st).deliveries| ==> SameHandler(old(st), st, d)
        invariant forall i | 0 <= i < tries :: results[i] != Stored
        invariant archive == old(archive)[d := old(archive)[d] + ArchiveCopies(results[..tries])]
      {
        ghost var s0 := st;
        Others(d);
        GrowsTrans(old(st), s0, st);
        SameHandlerTrans(old(st), s0, st, d);
        if tries > 0 && stopping {
          return true, tries;
        }
        CopiesSnoc(results, tries);
        if results[tries] != Failed {
          archive := archive[d := archive[d] + 1];
        }
        tries := tries + 1;
        if results[tries - 1] == Stored {
          return false, tries;
        }
      }
      err := true;
    }

    /**
     `Handle`: an error iff the payload is poison or was not stored; the cold tee never changes that.
     `tries` counts its calls: at least one unless there is no cold port or a shutdown has begun.
     */
    method Handle(d: nat, env: Envelope, results: seq<AppendOutcome>, cold: Option<seq<AppendOutcome>>)
      returns (err: bool, ghost tries: nat)
      requires Valid() && Handling(st, d) && env == BodyOf(st, d) && ColdQuery.IsUuid(env.tenant)
      requires st.deliveries[d].attempts == 0 && !st.deliveries[d].ok
      requires |results| == Budget(cfg.maxRetries) && (cold.Some? ==> |cold.value| == Budget(cfg.maxRetries))
      modifies this
      ensures Valid() && Grows(old(st), st) && Handling(st, d) && Decided(cfg, st, d)
      ensures err <==> !st.deliveries[d].ok
      ensures Poison(cfg, env.raw) ==> err && st.deliveries[d].attempts == 0
      ensures err || cold.None? || old(stopping) ==> tries == 0
      ensures !err && cold.Some? && !stopping ==> tries > 0
      ensures tries == 0 ==> archive == old(archive)
      ensures tries > 0 ==>
                && cold.Some? && tries <= |cold.value|
                && archive == old(archive)[d := old(archive)[d] + ArchiveCopies(cold.value[..tries])]
                && (forall i | 0 <= i < tries - 1 :: cold.value[i] != Stored)
                && (cold.value[tries - 1] == Stored || tries == |cold.value| || stopping)
      ensures !err && cold.Some? && !stopping && cold.value[0] == Stored ==>
                archive == old(archive)[d := old(archive)[d] + 1]
      ensures st.deliveries[d].open ==> old(st).deliveries[d].open
    {
      hide Reachable, Budget, ColdQuery.IsUuid, ArchiveCopies;
      GrowsSelf(st);
      tries := 0;
      if env.raw == "" || !cfg.isObject(env.raw) {
        return true, 0;
      }
      err := Persist(d, results);
      if err {
        return;
      }
      if cold.Some? && !stopping {
        ghost var s0 := st;
        var _, n := ArchiveCold(d, cold.value);
        tries := n;
        assert cold.value[0] == Stored ==> n == 1 && cold.value[..n] == [Stored];
        OneCopy();
        GrowsTrans(old(st), s0, st);
      }
    }

    /**
     `handleDelivery`: ack on success, dead-letter on anything else; either may fail to arrive.
     `held` is whether the broker was still waiting for this delivery when it was settled.
     */
    method HandleDelivery(d: nat, env: Envelope, results: seq<AppendOutcome>, cold: Option<seq<AppendOutcome>>,
                          arrives: bool)
      returns (ghost held: bool)
      requires Valid() && Handling(st, d) && env == BodyOf(st, d)
      requires st.deliveries[d].attempts == 0 && !st.deliveries[d].ok
      requires |results| == Budget(cfg.maxRetries) && (cold.Some? ==> |cold.value| == Budget(cfg.maxRetries))
      modifies this
      ensures Valid() && Grows(old(st), st) && d < |st.deliveries| && st.deliveries[d].finished
      ensures arrives ==> !st.deliveries[d].open
      ensures arrives && held ==>
                if st.deliveries[d].ok then st.deliveries[d].id in st.acked else st.deliveries[d].id in st.dlq
      ensures Unusable(cfg, env) ==> !st.deliveries[d].ok && st.deliveries[d].attempts == 0
      ensures held ==> old(st).deliveries[d].open
    {
      hide Reachable, Budget, ColdQuery.IsUuid;
      if ColdQuery.IsUuid(env.tenant) {
        var err, tries := Handle(d, env, results, cold);
      } else {
        GrowsSelf(st);
      }
      held := st.deliveries[d].open;
      ghost var s1 := st;
      Take(Settle(d, arrives));
      GrowsTrans(old(st), s1, st);
    }
  }

  lemma GrowsSelf(s: State)
    ensures Grows(s, s)
  {
  }
}
