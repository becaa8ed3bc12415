/**
 Alert evaluation and its transactional outbox
 (services/alert-evaluator/internal/app/evaluator.go, state.go, ports.go).

 Any number of evaluators hold snapshots of rules, however stale; `Transition` is an
 atomic compare-and-swap plus outbox insert; any number of relays deliver the rows.
 Thresholds are reals.
 */
module Alerts {
  import opened Common
  import PredicateGate
  import KeysetPaging

  datatype RuleState = OK | Firing | NoData

  datatype Comparator = Gt | Gte | Lt | Lte | Eq | Unknown

  datatype RuleQuery = RuleQuery(text: string, service: string, level: Option<string>, labels: map<string, string>) {
    predicate IsEmpty() {
      PredicateGate.TrimSpace(text) == "" && PredicateGate.TrimSpace(service) == "" && level.None? && |labels| == 0
    }
  }

  predicate Crosses(v: real, cmp: Comparator, threshold: real) {
    match cmp
    case Gt => v > threshold
    case Gte => v >= threshold
    case Lt => v < threshold
    case Lte => v <= threshold
    case Eq => v == threshold
    case Unknown => false
  }

  function Decide(count: int, cmp: Comparator, threshold: real): RuleState {
    if Crosses(count as real, cmp, threshold) then Firing else OK
  }

  /**
   The comparators against each other: two pairs of opposites, equality where two of them meet,
   and more rows never silence a rule that fires on many. `margin` is how far the count is above.
   */
  lemma DecideLaws(count: int, more: nat, threshold: real, margin: real)
    ensures Decide(count, Lt, threshold) == Firing <==> Decide(count, Gte, threshold) == OK
    ensures Decide(count, Lte, threshold) == Firing <==> Decide(count, Gt, threshold) == OK
    ensures Decide(count, Eq, threshold) == Firing <==>
            Decide(count, Gte, threshold) == Firing && Decide(count, Lte, threshold) == Firing
    ensures forall cmp | cmp == Gt || cmp == Gte ::
              Decide(count, cmp, threshold) == Firing ==> Decide(count + more, cmp, threshold) == Firing
    ensures Decide(count, Gt, count as real - margin) == Firing <==> margin > 0.0
    ensures Decide(count, Gte, count as real - margin) == Firing <==> margin >= 0.0
    ensures Decide(count, Unknown, threshold) == OK
  {
    assert (count + more) as real >= count as real;
  }

  /** The search a rule counts with, its window aside. */
  function SearchOf(q: RuleQuery): KeysetPaging.Search {
    KeysetPaging.Search(q.text, q.service, q.level, q.labels, None, None, None, 0)
  }

  /** A query is empty iff it would count every row of its tenant, however the database searches text. */
  lemma EmptyQuerySelectsAll(q: RuleQuery, tenant: string)
    ensures q.IsEmpty() <==>
            forall fts: KeysetPaging.TextSearch, e: KeysetPaging.Event | e.tenant == tenant ::
              KeysetPaging.Matches(tenant, SearchOf(q), fts, e)
  {
    hide PredicateGate.TrimSpace;
    var none: KeysetPaging.TextSearch := (text, row) => false;
    var level := if q.level.Some? then q.level.value + "x" else "";
    var e := KeysetPaging.Event(
      tenant, KeysetPaging.Key(0, 0), PredicateGate.TrimSpace(q.service) + "x", level, map[], "");
    if KeysetPaging.Matches(tenant, SearchOf(q), none, e) {
      assert forall k :: k !in q.labels;
      assert q.labels == map[];
    }
  }

  datatype Rule = Rule(
    id: nat, tenant: string, cmp: Comparator, threshold: real, query: RuleQuery, state: RuleState, seq_: nat)

  /** One outbox row: the immutable record of one transition. */
  datatype Row = Row(rule: nat, tenant: string, seq_: nat, to: RuleState, count: int, threshold: real)

  /** Delivery marks of one outbox row; the two counters are history. */
  datatype Delivery = Delivery(dispatched: bool, notified: nat, unmarked: nat)

  /** A relay working through the rows it listed; `sent` once the first of them was notified. */
  datatype Relay = Relay(todo: seq<nat>, sent: bool)

  datatype State = State(
    rules: map<nat, Rule>, rows: seq<Row>, mail: seq<Delivery>,
    snaps: set<Rule>,         // every snapshot any evaluator ever took
    relays: map<nat, Relay>)

  const INIT := State(map[], [], [], {}, map[])

  datatype Reply = Done | Refused | Lost

  datatype Step =
    | AddRule(id: nat, tenant: string, cmp: Comparator, threshold: real, query: RuleQuery)
    | EditRule(id: nat, cmp: Comparator, threshold: real, query: RuleQuery)
    | Snapshot(id: nat, query: RuleQuery)
    | Evaluate(r: Rule, count: int)
    | List(p: nat, limit: nat)
    | Notify(p: nat, ok: bool)
    | Mark(p: nat, reply: Reply)
    | Crash(p: nat)

  // ------------------------------------------------------------------
  // The store
  // ------------------------------------------------------------------

  /** The state after n transitions of a rule: it starts OK and only ever flips. */
  function Parity(n: nat): RuleState {
    if n % 2 == 0 then OK else Firing
  }

  predicate CasWins(rules: map<nat, Rule>, r: Rule) {
    r.id in rules && rules[r.id].state == r.state
  }

  function NewRow(rules: map<nat, Rule>, r: Rule, to: RuleState, count: int): Row
    requires CasWins(rules, r)
  {
    Row(r.id, r.tenant, rules[r.id].seq_ + 1, to, count, r.threshold)
  }

  /** `evaluateRule` up to its write: what it asks the store to do. */
  function Target(r: Rule, count: int): Option<RuleState> {
    if r.query.IsEmpty() || Decide(count, r.cmp, r.threshold) == r.state then None
    else Some(Decide(count, r.cmp, r.threshold))
  }

  /** The transition an evaluation asks for, if any; a failed count asks for nothing. */
  function Asks(r: Rule, count: Option<int>): seq<(Rule, int)> {
    if count.Some? && Target(r, count.value).Some? then [(r, count.value)] else []
  }

  function AllAsks(due: seq<Rule>, counts: seq<Option<int>>): seq<(Rule, int)>
    requires |due| == |counts|
  {
    if due == [] then [] else Asks(due[0], counts[0]) + AllAsks(due[1..], counts[1..])
  }

  /** `Transition`: the compare-and-swap and the outbox insert, or nothing. */
  function Transition(s: State, r: Rule, to: RuleState, count: int): State {
    if !CasWins(s.rules, r) then s
    else s.(
      rules := s.rules[r.id := s.rules[r.id].(state := to, seq_ := s.rules[r.id].seq_ + 1)],
      rows := s.rows + [NewRow(s.rules, r, to, count)],
      mail := s.mail + [Delivery(false, 0, 0)])
  }

  /** Indices of the undelivered rows, oldest first. */
  function Pending(mail: seq<Delivery>): (r: seq<nat>)
    ensures forall k | 0 <= k < |r| :: r[k] < |mail| && !mail[r[k]].dispatched
    ensures forall j, k | 0 <= j < k < |r| :: r[j] < r[k]
    ensures forall i | 0 <= i < |mail| && !mail[i].dispatched :: i in r
  {
    if mail == [] then []
    else
      var n := |mail| - 1;
      var init := Pending(mail[..n]);
      if mail[n].dispatched then init else init + [n]
  }

  function SetMail(s: State, i: nat, d: Delivery): State
    requires i < |s.mail|
  {
    s.(mail := s.mail[i := d])
  }

  function MarkMail(d: Delivery, reply: Reply): Delivery {
    match reply
    case Done => d.(dispatched := true)
    case Refused => d.(unmarked := d.unmarked + 1)
    case Lost => d.(dispatched := true, unmarked := d.unmarked + 1)
  }

  predicate Busy(s: State, p: nat, sent: bool) {
    && p in s.relays && s.relays[p].sent == sent && s.relays[p].todo != []
    && s.relays[p].todo[0] < |s.mail|
  }

  predicate Enabled(s: State, e: Step) {
    match e
    case AddRule(id, _, _, _, _) => id !in s.rules
    case EditRule(id, _, _, _) => id in s.rules
    case Snapshot(id, _) => id in s.rules
    case Evaluate(r, _) => r in s.snaps
    case List(p, _) => p !in s.relays
    case Notify(p, _) => Busy(s, p, false)
    case Mark(p, _) => Busy(s, p, true)
    case Crash(p) => p in s.relays && (s.relays[p].sent ==> Busy(s, p, true))
  }

  function Apply(s: State, e: Step): State
    requires Enabled(s, e)
  {
    match e
    case AddRule(id, tenant, cmp, threshold, query) =>
      s.(rules := s.rules[id := Rule(id, tenant, cmp, threshold, query, OK, 0)])
    case EditRule(id, cmp, threshold, query) =>
      s.(rules := s.rules[id := s.rules[id].(cmp := cmp, threshold := threshold, query := query)])
    case Snapshot(id, query) => s.(snaps := s.snaps + {s.rules[id].(query := query)})
    case Evaluate(r, count) =>
      (match Target(r, count) case None => s case Some(to) => Transition(s, r, to, count))
    case List(p, limit) => s.(relays := s.relays[p := Relay(FirstN(Pending(s.mail), limit), false)])
    case Notify(p, ok) =>
      var i := s.relays[p].todo[0];
      if ok then SetMail(s, i, s.mail[i].(notified := s.mail[i].notified + 1)).(
        relays := s.relays[p := s.relays[p].(sent := true)])
      else s.(relays := s.relays[p := Relay(s.relays[p].todo[1..], false)])
    case Mark(p, reply) =>
      var i := s.relays[p].todo[0];
      SetMail(s, i, MarkMail(s.mail[i], reply)).(relays := s.relays[p := Relay(s.relays[p].todo[1..], false)])
    case Crash(p) =>
      if s.relays[p].sent then
        var i := s.relays[p].todo[0];
        SetMail(s, i, MarkMail(s.mail[i], Refused)).(relays := s.relays - {p})
      else s.(relays := s.relays - {p})
  }

  ghost predicate Run(from: State, steps: seq<Step>, to: State)
    decreases |steps|
  {
    if steps == [] then from == to
    else Enabled(from, steps[0]) && Run(Apply(from, steps[0]), steps[1..], to)
  }

  ghost predicate Reachable(s: State) {
    exists steps :: Run(INIT, steps, s)
  }

  // ------------------------------------------------------------------
  // Transitions: the invariant over every run
  // ------------------------------------------------------------------

  /** The rows of one rule, in outbox order. */
  function RowsOf(rows: seq<Row>, id: nat): seq<Row> {
    if rows == [] then []
    else
      var init := RowsOf(rows[..|rows| - 1], id);
      if rows[|rows| - 1].rule == id then init + [rows[|rows| - 1]] else init
  }

  ghost predicate History(s: State, id: nat)
    requires id in s.rules
  {
    var h := RowsOf(s.rows, id);
    && s.rules[id].id == id
    && |h| == s.rules[id].seq_ && s.rules[id].state == Parity(s.rules[id].seq_)
    && forall k | 0 <= k < |h| :: h[k].rule == id && h[k].seq_ == k + 1 && h[k].to == Parity(k + 1)
  }

  /** Some snapshot, with a real query, decided this row from its count. */
  ghost predicate Decided(s: State, row: Row) {
    exists r :: r in s.snaps && r.id == row.rule && r.tenant == row.tenant && !r.query.IsEmpty()
      && r.threshold == row.threshold && row.to == Decide(row.count, r.cmp, r.threshold) && row.to != r.state
  }

  ghost predicate SnapOk(s: State, r: Rule) {
    r.id in s.rules && r.seq_ <= s.rules[r.id].seq_ && r.state == Parity(r.seq_)
  }

  ghost predicate Inv(s: State) {
    && (forall id | id in s.rules :: History(s, id))
    && (forall k | 0 <= k < |s.rows| :: s.rows[k].rule in s.rules && Decided(s, s.rows[k]))
    && (forall r | r in s.snaps :: SnapOk(s, r))
    && |s.mail| == |s.rows|
  }

  lemma RowsOfSnoc(rows: seq<Row>, row: Row, id: nat)
    ensures RowsOf(rows + [row], id) == RowsOf(rows, id) + (if row.rule == id then [row] else [])
  {
    assert (rows + [row])[..|rows|] == rows;
  }

  lemma {:induction false} RowsOfNone(rows: seq<Row>, id: nat)
    requires forall k | 0 <= k < |rows| :: rows[k].rule != id
    ensures RowsOf(rows, id) == []
    decreases |rows|
  {
    if rows != [] {
      RowsOfNone(rows[..|rows| - 1], id);
    }
  }

  lemma TransitionInv(s: State, r: Rule, count: int)
    requires Inv(s) && r in s.snaps && Target(r, count).Some? && CasWins(s.rules, r)
    ensures Inv(Transition(s, r, Target(r, count).value, count))
  {
    hide RuleQuery.IsEmpty, RowsOf;
    var to := Target(r, count).value;
    var s' := Transition(s, r, to, count);
    var row := NewRow(s.rules, r, to, count);
    assert SnapOk(s, r) && History(s, r.id);
    assert to == Parity(s.rules[r.id].seq_ + 1);
    forall id | id in s'.rules ensures History(s', id) {
      RowsOfSnoc(s.rows, row, id);
      assert History(s, id);
    }
    forall k | 0 <= k < |s'.rows| ensures s'.rows[k].rule in s'.rules && Decided(s', s'.rows[k]) {
      if k < |s.rows| {
        assert Decided(s, s.rows[k]);
      }
    }
    forall x | x in s'.snaps ensures SnapOk(s', x) {
      assert SnapOk(s, x);
    }
  }

  lemma StepInv(s: State, e: Step)
    requires Inv(s) && Enabled(s, e)
    ensures Inv(Apply(s, e))
  {
    hide RuleQuery.IsEmpty, RowsOf;
    var s' := Apply(s, e);
    if e.Evaluate? {
      if Target(e.r, e.count).Some? && CasWins(s.rules, e.r) {
        TransitionInv(s, e.r, e.count);
      }
    } else {
      if e.AddRule? {
        RowsOfNone(s.rows, e.id);
      }
      forall id | id in s'.rules ensures History(s', id) {
        if id in s.rules { assert History(s, id); }
      }
      forall k | 0 <= k < |s'.rows| ensures s'.rows[k].rule in s'.rules && Decided(s', s'.rows[k]) {
        assert Decided(s, s.rows[k]);
      }
      forall x | x in s'.snaps ensures SnapOk(s', x) {
        if x in s.snaps { assert SnapOk(s, x); } else { assert History(s, x.id); }
      }
    }
  }

  lemma {:induction false} RunInv(from: State, steps: seq<Step>, to: State)
    requires Inv(from) && Run(from, steps, to)
    ensures Inv(to)
    decreases |steps|
  {
    hide Inv, Apply, Enabled;
    if steps != [] {
      StepInv(from, steps[0]);
      RunInv(Apply(from, steps[0]), steps[1..], to);
    }
  }

  lemma ReachableInv(s: State)
    requires Reachable(s)
    ensures Inv(s)
  {
    var steps :| Run(INIT, steps, s);
    RunInv(INIT, steps, s);
  }

  /**
   Whatever the evaluators saw, each rule's rows are numbered 1, 2, 3, ... once each,
   neighbours have different targets, and the rule's state and number are the last row's.
   */
  lemma OutboxIsALedger(s: State, id: nat)
    requires Reachable(s) && id in s.rules
    ensures var h := RowsOf(s.rows, id);
            && |h| == s.rules[id].seq_
            && (forall k | 0 <= k < |h| :: h[k].rule == id && h[k].seq_ == k + 1)
            && (forall k | 0 <= k < |h| - 1 :: h[k].to != h[k + 1].to)
            && s.rules[id].state == (if h == [] then OK else h[|h| - 1].to)
  {
    hide RowsOf;
    ReachableInv(s);
    assert History(s, id);
    hide Inv;
  }

  /** Every row's target is what `Decide` says of its count, for a snapshot with a real query and another state. */
  lemma RowsAreDecided(s: State, k: nat)
    requires Reachable(s) && k < |s.rows|
    ensures exists r :: r in s.snaps && r.id == s.rows[k].rule && r.tenant == s.rows[k].tenant && !r.query.IsEmpty()
              && s.rows[k].to == Decide(s.rows[k].count, r.cmp, s.rows[k].threshold) && s.rows[k].to != r.state
  {
    ReachableInv(s);
    assert Decided(s, s.rows[k]);
  }

  /** Evaluating a rule as it stands leaves it in the state its count calls for, in one transition if that is new. */
  lemma EvaluationSettles(s: State, r: Rule, count: int)
    requires r in s.snaps && r.id in s.rules && s.rules[r.id] == r && !r.query.IsEmpty()
    ensures var t := Apply(s, Evaluate(r, count));
            var decided := Decide(count, r.cmp, r.threshold);
            && t.rules == s.rules[r.id := r.(state := decided, seq_ := r.seq_ + if decided == r.state then 0 else 1)]
            && t.rows == s.rows +
               if decided == r.state then [] else [Row(r.id, r.tenant, r.seq_ + 1, decided, count, r.threshold)]
  {
    hide RuleQuery.IsEmpty;
  }

  /** A rule that was only ever seen with an empty query never produced a row. */
  lemma EmptyQueryNeverFires(s: State, id: nat)
    requires Reachable(s) && id in s.rules
    requires forall r | r in s.snaps && r.id == id :: r.query.IsEmpty()
    ensures RowsOf(s.rows, id) == [] && s.rules[id].state == OK && s.rules[id].seq_ == 0
  {
    hide RowsOf, RuleQuery.IsEmpty;
    ReachableInv(s);
    forall k | 0 <= k < |s.rows| ensures s.rows[k].rule != id {
      assert Decided(s, s.rows[k]);
    }
    RowsOfNone(s.rows, id);
    assert History(s, id);
  }

  /**
   The compare-and-swap looks at the state only, so a stale snapshot can win. It does
   so exactly when the rule has made an even number of transitions since.
   */
  lemma StaleSnapshotWinsIffEven(s: State, r: Rule)
    requires Reachable(s) && r in s.snaps
    ensures r.id in s.rules && r.seq_ <= s.rules[r.id].seq_
    ensures CasWins(s.rules, r) <==> (s.rules[r.id].seq_ - r.seq_) % 2 == 0
  {
    ReachableInv(s);
    assert SnapOk(s, r) && History(s, r.id);
    ParityAgrees(s.rules[r.id].seq_, r.seq_);
  }

  lemma ParityAgrees(m: nat, n: nat)
    requires n <= m
    ensures Parity(m) == Parity(n) <==> (m - n) % 2 == 0
  {
  }

  // ------------------------------------------------------------------
  // Delivery
  // ------------------------------------------------------------------

  function Count(b: bool): nat { if b then 1 else 0 }

  /** With any number of relays: a row is marked only after a successful notify of that row. */
  ghost predicate MarkedWasSent(s: State) {
    && (forall i | 0 <= i < |s.mail| :: s.mail[i].dispatched ==> s.mail[i].notified >= 1)
    && (forall p | p in s.relays :: RelayOk(s, p))
  }

  ghost predicate RelayOk(s: State, p: nat)
    requires p in s.relays
  {
    && (forall k | 0 <= k < |s.relays[p].todo| :: s.relays[p].todo[k] < |s.mail|)
    && (s.relays[p].sent ==> s.relays[p].todo != [] && s.mail[s.relays[p].todo[0]].notified >= 1)
  }

  lemma StepMarked(s: State, e: Step)
    requires MarkedWasSent(s) && Enabled(s, e)
    ensures MarkedWasSent(Apply(s, e))
  {
    hide RuleQuery.IsEmpty, Pending;
    var s' := Apply(s, e);
    assert |s'.mail| >= |s.mail|;
    assert forall i | 0 <= i < |s.mail| :: s'.mail[i].notified >= s.mail[i].notified;
    forall p | p in s'.relays ensures RelayOk(s', p) {
      if p in s.relays { assert RelayOk(s, p); }
    }
  }

  /** Rows only ever get appended, and marks are never taken back: nothing is lost. */
  ghost predicate Grows(s: State, s': State) {
    && s.rows <= s'.rows && |s.mail| <= |s'.mail|
    && (forall i | 0 <= i < |s.mail| ::
          && (s.mail[i].dispatched ==> s'.mail[i].dispatched)
          && s.mail[i].notified <= s'.mail[i].notified)
    && (forall id | id in s.rules :: id in s'.rules && s.rules[id].seq_ <= s'.rules[id].seq_)
  }

  lemma StepGrows(s: State, e: Step)
    requires Enabled(s, e)
    ensures Grows(s, Apply(s, e))
  {
    hide RuleQuery.IsEmpty, Pending;
  }

  /**
   Only a mark the store took makes a row delivered, only a send that succeeded counts as one, and
   each for the first row of that relay's list only. So a failed send, a refused mark or a crash
   leaves the row pending.
   */
  lemma DeliveryMoves(s: State, e: Step, i: nat)
    requires Enabled(s, e) && i < |s.mail|
    ensures var t := Apply(s, e);
            && i < |t.mail|
            && (t.mail[i].dispatched <==>
                  || s.mail[i].dispatched
                  || (e.Mark? && !e.reply.Refused? && i == s.relays[e.p].todo[0]))
            && t.mail[i].notified == s.mail[i].notified + Count(e.Notify? && e.ok && i == s.relays[e.p].todo[0])
  {
    hide RuleQuery.IsEmpty, Pending;
  }

  lemma {:induction false} RunDelivery(from: State, steps: seq<Step>, to: State)
    requires MarkedWasSent(from) && Run(from, steps, to)
    ensures MarkedWasSent(to) && Grows(from, to)
    decreases |steps|
  {
    hide MarkedWasSent, Apply, Enabled, Grows;
    if steps == [] {
      GrowsSelf(from);
    } else {
      var mid := Apply(from, steps[0]);
      StepMarked(from, steps[0]);
      StepGrows(from, steps[0]);
      RunDelivery(mid, steps[1..], to);
      GrowsTrans(from, mid, to);
    }
  }

  lemma GrowsSelf(s: State)
    ensures Grows(s, s)
  {
  }

  lemma GrowsTrans(a: State, b: State, c: State)
    requires Grows(a, b) && Grows(b, c)
    ensures Grows(a, c)
  {
  }

  /**
   No row is lost: from any reachable state, in every later state the row is still there,
   and it is either pending, so the next listing shows it, or was delivered at least once.
   */
  lemma RowsAreNeverLost(s: State, steps: seq<Step>, later: State, i: nat)
    requires Reachable(s) && i < |s.rows| && Run(s, steps, later)
    ensures i < |later.rows| && later.rows[i] == s.rows[i] && i < |later.mail|
    ensures i in Pending(later.mail) || later.mail[i].notified >= 1
  {
    ReachableInv(s);
    var pre :| Run(INIT, pre, s);
    RunDelivery(INIT, pre, s);
    RunDelivery(s, steps, later);
  }

  // With one evaluator, so one relay p at a time.

  /** The relay has notified row i and not marked it yet. */
  predicate Sending(s: State, p: nat, i: nat) {
    p in s.relays && s.relays[p].sent && s.relays[p].todo != [] && s.relays[p].todo[0] == i
  }

  /** What the relay still has to do is undelivered, each row once. */
  ghost predicate Solo(s: State, p: nat) {
    p in s.relays ==>
      var todo := s.relays[p].todo;
      && (forall k | 0 <= k < |todo| :: todo[k] < |s.mail| && !s.mail[todo[k]].dispatched)
      && (forall j, k | 0 <= j < k < |todo| :: todo[j] != todo[k])
      && (s.relays[p].sent ==> todo != [])
  }

  ghost predicate Bounded(s: State, p: nat) {
    forall i | 0 <= i < |s.mail| ::
      s.mail[i].notified <= Count(s.mail[i].dispatched || Sending(s, p, i)) + s.mail[i].unmarked
  }

  ghost predicate SoloInv(s: State, p: nat) {
    Solo(s, p) && Bounded(s, p)
  }

  /** Only relay p works. */
  predicate By(e: Step, p: nat) {
    e.List? || e.Notify? || e.Mark? || e.Crash? ==> e.p == p
  }

  lemma NotifySolo(s: State, p: nat, ok: bool)
    requires SoloInv(s, p) && Busy(s, p, false)
    ensures SoloInv(Apply(s, Notify(p, ok)), p)
  {
    hide Pending, RuleQuery.IsEmpty;
    var s' := Apply(s, Notify(p, ok));
    forall i | 0 <= i < |s'.mail|
      ensures s'.mail[i].notified <= Count(s'.mail[i].dispatched || Sending(s', p, i)) + s'.mail[i].unmarked
    {
      assert !Sending(s, p, i);
    }
  }

  lemma MarkSolo(s: State, p: nat, reply: Reply)
    requires SoloInv(s, p) && Busy(s, p, true)
    ensures SoloInv(Apply(s, Mark(p, reply)), p)
  {
    hide Pending, RuleQuery.IsEmpty;
    var s' := Apply(s, Mark(p, reply));
    forall i | 0 <= i < |s'.mail|
      ensures s'.mail[i].notified <= Count(s'.mail[i].dispatched || Sending(s', p, i)) + s'.mail[i].unmarked
    {
      assert Sending(s, p, i) <==> i == s.relays[p].todo[0];
    }
  }

  lemma CrashSolo(s: State, p: nat)
    requires SoloInv(s, p) && Enabled(s, Crash(p))
    ensures SoloInv(Apply(s, Crash(p)), p)
  {
    hide Pending, RuleQuery.IsEmpty;
    var s' := Apply(s, Crash(p));
    forall i | 0 <= i < |s'.mail|
      ensures s'.mail[i].notified <= Count(s'.mail[i].dispatched || Sending(s', p, i)) + s'.mail[i].unmarked
    {
      assert Sending(s, p, i) <==> s.relays[p].sent && i == s.relays[p].todo[0];
    }
  }

  lemma StepSolo(s: State, p: nat, e: Step)
    requires SoloInv(s, p) && Enabled(s, e) && By(e, p)
    ensures SoloInv(Apply(s, e), p)
  {
    hide RuleQuery.IsEmpty;
    match e {
      case Notify(_, ok) => NotifySolo(s, p, ok);
      case Mark(_, reply) => MarkSolo(s, p, reply);
      case Crash(_) => CrashSolo(s, p);
      case _ =>
        var s' := Apply(s, e);
        assert s.mail <= s'.mail;
        assert forall i: nat | i < |s.mail| :: Sending(s', p, i) == Sending(s, p, i);
    }
  }

  lemma {:induction false} RunSolo(from: State, steps: seq<Step>, to: State, p: nat)
    requires SoloInv(from, p) && Run(from, steps, to) && forall e | e in steps :: By(e, p)
    ensures SoloInv(to, p)
    decreases |steps|
  {
    hide SoloInv, Apply, Enabled;
    if steps != [] {
      StepSolo(from, p, steps[0]);
      RunSolo(Apply(from, steps[0]), steps[1..], to, p);
    }
  }

  /**
   With one evaluator a row is notified at most once, plus once for every time a notify
   was not followed by a successful mark.
   */
  lemma AtMostOncePlusMarkFailures(steps: seq<Step>, s: State, p: nat, i: nat)
    requires Run(INIT, steps, s) && i < |s.mail|
    requires forall e | e in steps :: By(e, p)
    ensures s.mail[i].notified <= 1 + s.mail[i].unmarked
  {
    RunSolo(INIT, steps, s, p);
  }

  lemma ReachStep(s: State, e: Step)
    requires Reachable(s) && Enabled(s, e)
    ensures Reachable(Apply(s, e))
  {
    hide Apply, Enabled;
    var steps :| Run(INIT, steps, s);
    RunSnoc(INIT, steps, s, e);
  }

  lemma {:induction false} RunSnoc(from: State, steps: seq<Step>, mid: State, e: Step)
    requires Run(from, steps, mid) && Enabled(mid, e)
    ensures Run(from, steps + [e], Apply(mid, e))
    decreases |steps|
  {
    hide Apply, Enabled;
    var all := steps + [e];
    if steps == [] {
      assert all == [e] && all[1..] == [];
    } else {
      assert all[0] == steps[0] && all[1..] == steps[1..] + [e];
      RunSnoc(Apply(from, steps[0]), steps[1..], mid, e);
    }
  }

  lemma OneRow(q: RuleQuery) returns (s: State)
    requires !q.IsEmpty()
    ensures Reachable(s) && s.mail == [Delivery(false, 0, 0)] && s.relays == map[]
  {
    hide RuleQuery.IsEmpty;
    var r := Rule(0, "t", Gt, 0.0, q, OK, 0);
    assert Run(INIT, [], INIT);
    ReachStep(INIT, AddRule(0, "t", Gt, 0.0, q));
    var s1 := INIT.(rules := map[0 := r]);
    ReachStep(s1, Snapshot(0, q));
    var s2 := s1.(snaps := {r});
    assert Apply(s1, Snapshot(0, q)) == s2;
    ReachStep(s2, Evaluate(r, 1));
    s := Apply(s2, Evaluate(r, 1));
  }

  /** The one-evaluator condition is needed: two relays can both deliver a row with every call succeeding. */
  lemma TwoRelaysCanRepeat(q: RuleQuery)
    requires !q.IsEmpty()
    ensures exists s :: Reachable(s) && |s.mail| == 1 && s.mail[0].notified == 2 && s.mail[0].unmarked == 0
  {
    hide RuleQuery.IsEmpty, Reachable;
    var s := OneRow(q);
    assert Pending(s.mail) == [0] by {
      assert s.mail[..0] == [];
    }
    ReachStep(s, List(1, 10));
    var s1 := Apply(s, List(1, 10));
    ReachStep(s1, List(2, 10));
    var s2 := Apply(s1, List(2, 10));
    ReachStep(s2, Notify(1, true));
    var s3 := Apply(s2, Notify(1, true));
    ReachStep(s3, Notify(2, true));
    var s4 := Apply(s3, Notify(2, true));
    assert s4.mail[0].notified == 2;
  }

  // ------------------------------------------------------------------
  // Draining
  // ------------------------------------------------------------------

  /** A relay round with no failure: the first n pending rows are delivered and marked. */
  function Drain(mail: seq<Delivery>, n: nat): (r: seq<Delivery>)
    ensures |r| == |mail|
  {
    seq(|mail|, i requires 0 <= i < |mail| =>
      if i in FirstN(Pending(mail), n) then mail[i].(dispatched := true, notified := mail[i].notified + 1) else mail[i])
  }

  function Rounds(mail: seq<Delivery>, batch: nat, k: nat): seq<Delivery>
    decreases k
  {
    if k == 0 then mail else Rounds(Drain(mail, batch), batch, k - 1)
  }

  /** Two increasing lists with the same elements are the same list. */
  lemma {:induction false} IncreasingUnique(a: seq<nat>, b: seq<nat>)
    requires Increasing(a) && Increasing(b) && forall x :: x in a <==> x in b
    ensures a == b
    decreases |a|
  {
    assert |a| > 0 ==> a[0] in a && a[0] in b;
    assert |b| > 0 ==> b[0] in b && b[0] in a;
    if a != [] {
      assert a[0] == b[0];
      assert forall x :: x in a[1..] <==> x in a && x != a[0];
      assert forall x :: x in b[1..] <==> x in b && x != b[0];
      IncreasingUnique(a[1..], b[1..]);
    }
  }

  lemma PendingAfterDrain(mail: seq<Delivery>, n: nat)
    ensures Pending(Drain(mail, n)) == Pending(mail)[Min(n, |Pending(mail)|)..]
  {
    var p := Pending(mail);
    var d := Drain(mail, n);
    var rest := p[Min(n, |p|)..];
    hide Pending;
    assert p == FirstN(p, n) + rest;
    forall x ensures x in Pending(d) <==> x in rest {
      if x in Pending(d) {
        assert x < |d| && !d[x].dispatched;
      }
      if x in rest {
        var k :| 0 <= k < |rest| && rest[k] == x;
        assert rest[k] == p[Min(n, |p|) + k];
        assert x !in FirstN(p, n);
      }
    }
    IncreasingUnique(Pending(d), rest);
  }

  lemma {:induction false} RoundsLeft(mail: seq<Delivery>, batch: nat, k: nat)
    ensures |Pending(Rounds(mail, batch, k))| == Max(0, |Pending(mail)| - k * batch)
    decreases k
  {
    hide Pending, Drain;
    if k > 0 {
      PendingAfterDrain(mail, batch);
      RoundsLeft(Drain(mail, batch), batch, k - 1);
      assert k * batch == (k - 1) * batch + batch;
    }
  }

  /** With no failure and no new transition, P pending rows are gone after k rounds iff k >= ceil(P / batch). */
  lemma DrainsInCeilRounds(mail: seq<Delivery>, batch: nat, k: nat)
    requires batch > 0
    ensures Pending(Rounds(mail, batch, k)) == [] <==> k >= CeilDiv(|Pending(mail)|, batch)
  {
    hide Pending, Rounds, CeilDiv;
    RoundsLeft(mail, batch, k);
    CeilDivBound(|Pending(mail)|, batch, k);
  }

  // ------------------------------------------------------------------
  // The evaluator's own code
  // ------------------------------------------------------------------

  /** How the notifier and the store answer for one listed row. */
  datatype Attempt = Attempt(notified: bool, mark: Reply)

  function Attempted(d: Delivery, a: Attempt): Delivery {
    if !a.notified then d else MarkMail(d.(notified := d.notified + 1), a.mark)
  }

  /** `dispatchPending` on the rows it listed. */
  function Deliver(mail: seq<Delivery>, todo: seq<nat>, attempts: seq<Attempt>): seq<Delivery>
    requires |todo| == |attempts| && forall k | 0 <= k < |todo| :: todo[k] < |mail|
    decreases |todo|
  {
    if todo == [] then mail
    else Deliver(mail[todo[0] := Attempted(mail[todo[0]], attempts[0])], todo[1..], attempts[1..])
  }

  const ALL_WELL := Attempt(true, Done)

  lemma {:induction false} DeliverAt(mail: seq<Delivery>, todo: seq<nat>, attempts: seq<Attempt>, i: nat)
    requires |todo| == |attempts| && (forall k | 0 <= k < |todo| :: todo[k] < |mail|) && i < |mail|
    requires Increasing(todo) && forall k | 0 <= k < |attempts| :: attempts[k] == ALL_WELL
    ensures |Deliver(mail, todo, attempts)| == |mail|
    ensures Deliver(mail, todo, attempts)[i]
         == if i in todo then mail[i].(dispatched := true, notified := mail[i].notified + 1) else mail[i]
    decreases |todo|
  {
    if todo != [] {
      var mail' := mail[todo[0] := Attempted(mail[todo[0]], attempts[0])];
      DeliverAt(mail', todo[1..], attempts[1..], i);
      assert i in todo <==> i == todo[0] || i in todo[1..];
      assert todo[0] !in todo[1..];
    }
  }

  lemma DeliverIsDrain(mail: seq<Delivery>, batch: nat, attempts: seq<Attempt>)
    requires |attempts| == |FirstN(Pending(mail), batch)| && forall k | 0 <= k < |attempts| :: attempts[k] == ALL_WELL
    ensures Deliver(mail, FirstN(Pending(mail), batch), attempts) == Drain(mail, batch)
  {
    hide Deliver, Pending;
    var todo := FirstN(Pending(mail), batch);
    assert |todo| > 0 ==> todo[0] < |mail|;
    if mail == [] {
      DeliverNothing(mail, attempts);
    } else {
      DeliverAt(mail, todo, attempts, 0);
      forall i | 0 <= i < |mail| ensures Deliver(mail, todo, attempts)[i] == Drain(mail, batch)[i] {
        DeliverAt(mail, todo, attempts, i);
      }
    }
  }

  lemma DeliverNothing(mail: seq<Delivery>, attempts: seq<Attempt>)
    requires attempts == []
    ensures Deliver(mail, [], attempts) == mail
  {
  }

  /** The steps an evaluation takes: none when there is nothing to ask or the store refuses. */
  function EvalSteps(r: Rule, count: Option<int>, reply: Reply): seq<Step> {
    if Asks(r, count) != [] && !reply.Refused? then [Evaluate(r, count.value)] else []
  }

  function AllEvalSteps(due: seq<Rule>, counts: seq<Option<int>>, replies: seq<Reply>): seq<Step>
    requires |due| == |counts| == |replies|
  {
    if due == [] then []
    else EvalSteps(due[0], counts[0], replies[0]) + AllEvalSteps(due[1..], counts[1..], replies[1..])
  }

  /** The steps of one listed row: notify, and mark only what was sent. */
  function AttemptSteps(p: nat, a: Attempt): seq<Step> {
    if a.notified then [Notify(p, true), Mark(p, a.mark)] else [Notify(p, false)]
  }

  function AllAttemptSteps(p: nat, attempts: seq<Attempt>): seq<Step> {
    if attempts == [] then [] else AttemptSteps(p, attempts[0]) + AllAttemptSteps(p, attempts[1..])
  }

  /** Whatever else happened to the row, this attempt's send and mark are on it. */
  predicate Reached(before: Delivery, after: Delivery, a: Attempt) {
    && before.notified <= after.notified
    && (a.notified ==> before.notified < after.notified && (!a.mark.Refused? ==> after.dispatched))
  }

  lemma RelayMoves(s: State, e: Step)
    requires Enabled(s, e) && (e.Notify? || e.Mark?)
    ensures var t, i, todo := Apply(s, e), s.relays[e.p].todo[0], s.relays[e.p].todo;
            && t.rules == s.rules && t.rows == s.rows
            && t.mail == (if e.Mark? then s.mail[i := MarkMail(s.mail[i], e.reply)]
                          else if e.ok then s.mail[i := s.mail[i].(notified := s.mail[i].notified + 1)] else s.mail)
            && t.relays == s.relays[e.p := if e.Notify? && e.ok then Relay(todo, true) else Relay(todo[1..], false)]
  {
  }

  class Evaluator {
    var rules: map<nat, Rule>
    var rows: seq<Row>
    var mail: seq<Delivery>
    ghost var st: State                                // the machine this evaluator is a process of
    ghost var asked: seq<(Rule, int)>                  // the transitions it asked of the store, in order
    ghost var mine: seq<Step>                          // the steps it took itself
    ghost var listings: seq<(nat, seq<Delivery>)>      // the outbox at each of its listings, with |mine| then

    ghost predicate Valid()
      reads this
    {
      rules == st.rules && rows == st.rows && mail == st.mail && Reachable(st)
    }

    ghost method Record(e: Step)
      requires Reachable(st) && Enabled(st, e)
      modifies this`st, this`mine
      ensures st == Apply(old(st), e) && Reachable(st) && Grows(old(st), st) && mine == old(mine) + [e]
    {
      ReachStep(st, e);
      StepGrows(st, e);
      st := Apply(st, e);
      mine := mine + [e];
    }

    /** Other evaluators, relays and rule edits run; callers may use only the contract. */
    method Others(ghost p: nat)
      requires Valid()
      modifies this`rules, this`rows, this`mail, this`st
      ensures Valid() && Grows(old(st), st) && old(st).snaps <= st.snaps
      ensures p in st.relays <==> p in old(st).relays
      ensures p in st.relays ==> st.relays[p] == old(st).relays[p]
    {
      GrowsSelf(st);
    }

    /** A point between two calls: others run, unless this evaluator is alone. */
    method Pause(alone: bool, ghost p: nat)
      requires Valid()
      modifies this`rules, this`rows, this`mail, this`st
      ensures Valid() && Grows(old(st), st)
      ensures p in st.relays <==> p in old(st).relays
      ensures p in st.relays ==> st.relays[p] == old(st).relays[p]
      ensures alone ==> mail == old(mail)
    {
      GrowsSelf(st);
      if !alone {
        Others(p);
      }
    }

    /** `evaluateRule` on a snapshot; `count` is None when the count failed. */
    method EvaluateRule(r: Rule, count: Option<int>, reply: Reply) returns (won: bool)
      requires Valid() && r in st.snaps
      modifies this`rules, this`rows, this`mail, this`st, this`asked, this`mine
      ensures Valid() && Grows(old(st), st) && st.snaps == old(st).snaps && st.relays == old(st).relays
      ensures asked == old(asked) + Asks(r, count) && mine == old(mine) + EvalSteps(r, count, reply)
      ensures won <==> count.Some? && Target(r, count.value).Some? && !reply.Refused? && CasWins(old(rules), r)
      ensures rows == old(rows) +
                if won then [NewRow(old(rules), r, Target(r, count.value).value, count.value)] else []
      ensures rules ==
                if won then old(rules)[r.id := old(rules)[r.id].(state := Target(r, count.value).value,
                                                                 seq_ := old(rules)[r.id].seq_ + 1)]
                else old(rules)
    {
      hide RuleQuery.IsEmpty, Reachable, Grows;
      GrowsSelf(st);
      if r.query.IsEmpty() || count.None? {
        return false;
      }
      var target := Decide(count.value, r.cmp, r.threshold);
      if target == r.state {
        return false;
      }
      asked := asked + [(r, count.value)];
      if reply.Refused? {
        return false;
      }
      won := CasWins(rules, r);
      if won {
        rows := rows + [NewRow(rules, r, target, count.value)];
        mail := mail + [Delivery(false, 0, 0)];
        rules := rules[r.id := rules[r.id].(state := target, seq_ := rules[r.id].seq_ + 1)];
      }
      Record(Evaluate(r, count.value));
    }

    /** One listed row: notify, then mark; either call may fail, and others may run before each. */
    method DeliverOne(ghost p: nat, i: nat, a: Attempt, alone: bool)
      requires Valid() && i < |mail| && Busy(st, p, false) && st.relays[p].todo[0] == i
      modifies this`rules, this`rows, this`mail, this`st, this`mine
      ensures Valid() && Grows(old(st), st) && mine == old(mine) + AttemptSteps(p, a)
      ensures |old(mail)| <= |mail| && Reached(old(mail)[i], mail[i], a)
      ensures alone ==> mail == old(mail)[i := Attempted(old(mail)[i], a)]
      ensures p in st.relays && st.relays[p] == Relay(old(st).relays[p].todo[1..], false)
    {
      hide Reachable, Pending, Apply, Grows;
      Pause(alone, p);
      ghost var s1 := st;
      StillThere(old(st), s1, i);
      if !a.notified {
        RelayMoves(st, Notify(p, false));
        Record(Notify(p, false));
      } else {
        SendAndMark(p, i, a.mark, alone);
      }
      StillThere(s1, st, i);
      GrowsTrans(old(st), s1, st);
    }

    /** The send succeeds; the mark has its reply. */
    method SendAndMark(ghost p: nat, i: nat, mark: Reply, alone: bool)
      requires Valid() && i < |mail| && Busy(st, p, false) && st.relays[p].todo[0] == i
      modifies this`rules, this`rows, this`mail, this`st, this`mine
      ensures Valid() && Grows(old(st), st) && mine == old(mine) + [Notify(p, true), Mark(p, mark)]
      ensures |old(mail)| <= |mail| && Reached(old(mail)[i], mail[i], Attempt(true, mark))
      ensures alone ==> mail == old(mail)[i := Attempted(old(mail)[i], Attempt(true, mark))]
      ensures p in st.relays && st.relays[p] == Relay(old(st).relays[p].todo[1..], false)
    {
      hide Reachable, Pending, Apply, Grows;
      RelayMoves(st, Notify(p, true));
      mail := mail[i := mail[i].(notified := mail[i].notified + 1)];
      Record(Notify(p, true));
      ghost var s2 := st;
      Pause(alone, p);
      ghost var s3 := st;
      StillThere(s2, s3, i);
      GrowsTrans(old(st), s2, s3);
      RelayMoves(st, Mark(p, mark));
      mail := mail[i := MarkMail(mail[i], mark)];
      Record(Mark(p, mark));
      GrowsTrans(old(st), s3, st);
    }

    /**
     `dispatchPending`: list, then notify and mark row by row; every call may fail. `alone` is
     whether nobody else runs during the round.
     */
    method DispatchPending(ghost p: nat, batch: nat, attempts: seq<Attempt>, alone: bool)
      requires Valid() && p !in st.relays && |attempts| == |FirstN(Pending(mail), batch)|
      modifies this`rules, this`rows, this`mail, this`st, this`mine, this`listings
      ensures Valid() && Grows(old(st), st) && listings == old(listings) + [(|old(mine)|, old(mail))]
      ensures mine == old(mine) + ([List(p, batch)] + AllAttemptSteps(p, attempts))
      ensures |old(mail)| <= |mail|
      ensures forall k | 0 <= k < |attempts| ::
                var i := FirstN(Pending(old(mail)), batch)[k]; Reached(old(mail)[i], mail[i], attempts[k])
      ensures alone ==> mail == Deliver(old(mail), FirstN(Pending(old(mail)), batch), attempts)
      ensures alone && (forall k | 0 <= k < |attempts| :: attempts[k] == ALL_WELL) ==> mail == Drain(old(mail), batch)
    {
      hide Reachable, Grows, Pending, Drain, Deliver, AllAttemptSteps, Reached;
      var pending := FirstN(Pending(mail), batch);
      listings := listings + [(|mine|, mail)];
      ghost var s0 := st;
      Record(List(p, batch));
      assert mail == old(mail);
      DispatchListed(p, pending, attempts, alone);
      GrowsTrans(s0, Apply(s0, List(p, batch)), st);
      hide FirstN;
      if alone && forall k | 0 <= k < |attempts| :: attempts[k] == ALL_WELL {
        DeliverIsDrain(old(mail), batch, attempts);
      }
    }

    /** The relay loop over the listed rows. */
    method DispatchListed(ghost p: nat, pending: seq<nat>, attempts: seq<Attempt>, alone: bool)
      requires Valid() && |attempts| == |pending| && forall k | 0 <= k < |pending| :: pending[k] < |mail|
      requires p in st.relays && st.relays[p] == Relay(pending, false)
      modifies this`rules, this`rows, this`mail, this`st, this`mine
      ensures Valid() && Grows(old(st), st) && mine == old(mine) + AllAttemptSteps(p, attempts)
      ensures |old(mail)| <= |mail|
      ensures forall k | 0 <= k < |attempts| :: Reached(old(mail)[pending[k]], mail[pending[k]], attempts[k])
      ensures alone ==> mail == Deliver(old(mail), pending, attempts)
    {
      hide Reachable, Grows, Pending, Attempted, AttemptSteps, Reached;
      GrowsSelf(st);
      ghost var todo := AllAttemptSteps(p, attempts);
      for k := 0 to |pending|
        invariant Valid() && Grows(old(st), st) && |mail| >= |old(mail)|
        invariant p in st.relays && st.relays[p] == Relay(pending[k..], false)
        invariant todo == AllAttemptSteps(p, attempts[k..]) && mine + todo == old(mine) + AllAttemptSteps(p, attempts)
        invariant forall j | 0 <= j < k :: Reached(old(mail)[pending[j]], mail[pending[j]], attempts[j])
        invariant alone ==>
                    && |mail| == |old(mail)|
                    && Deliver(mail, pending[k..], attempts[k..]) == Deliver(old(mail), pending, attempts)
      {
        ghost var s1 := st;
        assert pending[k..][0] == pending[k] && pending[k..][1..] == pending[k + 1..];
        assert attempts[k..][0] == attempts[k] && attempts[k..][1..] == attempts[k + 1..];
        todo := AllAttemptSteps(p, attempts[k + 1..]);
        DeliverOne(p, pending[k], attempts[k], alone);
        GrowsTrans(old(st), s1, st);
        ReachedLater(old(st), s1, st, pending, attempts, k);
        hide AllAttemptSteps;
      }
      assert pending[|pending|..] == [] && attempts[|pending|..] == [];
    }

    /** The rule loop of `EvaluateDue`: every rule is evaluated, and a failed one does not stop the batch. */
    method EvaluateRules(due: seq<Rule>, counts: seq<Option<int>>, replies: seq<Reply>, ghost p: nat)
      requires Valid() && |due| == |counts| == |replies| && forall r | r in due :: r in st.snaps
      requires p !in st.relays
      modifies this`rules, this`rows, this`mail, this`st, this`asked, this`mine
      ensures Valid() && Grows(old(st), st) && p !in st.relays
      ensures asked == old(asked) + AllAsks(due, counts) && mine == old(mine) + AllEvalSteps(due, counts, replies)
    {
      hide Reachable, Grows, RuleQuery.IsEmpty, Pending, Asks, EvalSteps;
      GrowsSelf(st);
      ghost var asks, steps := AllAsks(due, counts), AllEvalSteps(due, counts, replies);
      for k := 0 to |due|
        invariant Valid() && Grows(old(st), st) && p !in st.relays && forall r | r in due :: r in st.snaps
        invariant asks == AllAsks(due[k..], counts[k..]) && asked + asks == old(asked) + AllAsks(due, counts)
        invariant steps == AllEvalSteps(due[k..], counts[k..], replies[k..])
        invariant mine + steps == old(mine) + AllEvalSteps(due, counts, replies)
      {
        assert due[k..][0] == due[k] && due[k..][1..] == due[k + 1..];
        assert counts[k..][0] == counts[k] && counts[k..][1..] == counts[k + 1..];
        assert replies[k..][0] == replies[k] && replies[k..][1..] == replies[k + 1..];
        asks := AllAsks(due[k + 1..], counts[k + 1..]);
        steps := AllEvalSteps(due[k + 1..], counts[k + 1..], replies[k + 1..]);
        ghost var s1 := st;
        EvaluateNext(due[k], counts[k], replies[k], p);
        GrowsTrans(old(st), s1, st);
        hide AllAsks, AllEvalSteps;
      }
      assert due[|due|..] == [] && counts[|due|..] == [] && replies[|due|..] == [];
    }

    /** One turn of the loop; others run before it. */
    method EvaluateNext(r: Rule, count: Option<int>, reply: Reply, ghost p: nat)
      requires Valid() && r in st.snaps && p !in st.relays
      modifies this`rules, this`rows, this`mail, this`st, this`asked, this`mine
      ensures Valid() && Grows(old(st), st) && old(st).snaps <= st.snaps && p !in st.relays
      ensures asked == old(asked) + Asks(r, count) && mine == old(mine) + EvalSteps(r, count, reply)
    {
      hide Reachable, Grows, RuleQuery.IsEmpty, Pending, Asks, EvalSteps;
      Others(p);
      ghost var s1 := st;
      var won := EvaluateRule(r, count, reply);
      GrowsTrans(old(st), s1, st);
    }

    /**
     `EvaluateDue` on the listed rules: the rule loop, then one relay round on the outbox as it is
     when the loop is through. Others run in between; `attempts` answers as many rows as are listed.
     */
    method EvaluateDue(due: seq<Rule>, counts: seq<Option<int>>, replies: seq<Reply>,
                       ghost p: nat, batch: nat, attempts: seq<Attempt>, alone: bool)
      returns (n: nat)
      requires Valid() && |due| == |counts| == |replies| && forall r | r in due :: r in st.snaps
      requires p !in st.relays && |attempts| == batch
      modifies this
      ensures Valid() && Grows(old(st), st) && n == |due|
      ensures asked == old(asked) + AllAsks(due, counts)
      ensures |listings| == |old(listings)| + 1 && old(listings) <= listings
      ensures var evals, (at, outbox) := AllEvalSteps(due, counts, replies), listings[|old(listings)|];
              var k := |FirstN(Pending(outbox), batch)|;
              && at == |old(mine)| + |evals|
              && mine == old(mine) + evals + ([List(p, batch)] + AllAttemptSteps(p, attempts[..k]))
              && (alone ==> mail == Deliver(outbox, FirstN(Pending(outbox), batch), attempts[..k]))
    {
      hide Reachable, Grows, RuleQuery.IsEmpty, Pending, Deliver, Drain, Reached;
      hide AllAsks, AllEvalSteps, AllAttemptSteps;
      EvaluateRules(due, counts, replies, p);
      n := |due|;
      ghost var s1 := st;
      DispatchPending(p, batch, attempts[..|FirstN(Pending(mail), batch)|], alone);
      GrowsTrans(old(st), s1, st);
    }
  }

  lemma StillThere(s: State, t: State, i: nat)
    requires Grows(s, t) && i < |s.mail|
    ensures |s.mail| <= |t.mail| && s.mail[i].notified <= t.mail[i].notified
    ensures s.mail[i].dispatched ==> t.mail[i].dispatched
  {
  }

  /** What an attempt did to a row stays done. */
  lemma ReachedLater(s0: State, s1: State, s2: State, todo: seq<nat>, attempts: seq<Attempt>, k: nat)
    requires Grows(s0, s1) && Grows(s1, s2) && k < |todo| == |attempts|
    requires forall j | 0 <= j < |todo| :: todo[j] < |s0.mail|
    requires forall j | 0 <= j < k :: Reached(s0.mail[todo[j]], s1.mail[todo[j]], attempts[j])
    requires Reached(s1.mail[todo[k]], s2.mail[todo[k]], attempts[k])
    ensures forall j | 0 <= j <= k :: Reached(s0.mail[todo[j]], s2.mail[todo[j]], attempts[j])
  {
  }
}
