/**
 The live tail (services/query-service/internal/app/tail.go): a pump that never waits and a
 consumer that may, over a bounded buffer and a drop counter. Matched events are numbered in
 arrival order; the counter is kept as the list of the numbers it counts.
 */
module LiveTail {
  import opened Common

  datatype Event = Event(level: string, service: string, message: string)

  datatype Filter = Filter(level: Option<string>, service: string)

  /** `Filter.Match`. */
  predicate Match(f: Filter, ev: Event) {
    (f.level.Some? ==> ev.level == f.level.value) && (f.service != "" ==> ev.service == f.service)
  }

  function Filtered(f: Filter, evs: seq<Event>): (r: seq<Event>) {
    if evs == [] then []
    else Filtered(f, evs[..|evs| - 1]) + if Match(f, evs[|evs| - 1]) then [evs[|evs| - 1]] else []
  }

  /** An event passes iff every field the filter sets is its own; a filter that sets none passes everything. */
  lemma {:induction false} FilteredIs(f: Filter, evs: seq<Event>, ev: Event)
    ensures ev in Filtered(f, evs) <==>
            ev in evs && (f.level == None || f.level == Some(ev.level)) && (f.service == "" || f.service == ev.service)
    ensures f == Filter(None, "") ==> Filtered(f, evs) == evs
  {
    if evs != [] {
      var front, last := evs[..|evs| - 1], evs[|evs| - 1];
      FilteredIs(f, front, ev);
      assert evs == front + [last];
    }
  }

  const DEFAULT_BUFFER := 256

  /** The depth of the buffer channel. */
  function Depth(buffer: int): (d: nat)
    ensures d > 0 && (d == buffer || (buffer <= 0 && d == 256))
  {
    if buffer <= 0 then DEFAULT_BUFFER else buffer
  }

  /** What the sink was told. */
  datatype Frame = Data(i: nat) | Gap(ids: seq<nat>) | Beat

  /** `Counting`: the send has failed and the counter is not yet raised. */
  datatype Pump = Idle | Counting(j: nat) | Stopped

  /** Where the consumer is; `Done` keeps what it held when the sink failed. */
  datatype Consumer =
    | Top | Gapping(ids: seq<nat>) | Select | Sending(i: nat) | Done(swapped: seq<nat>, hand: seq<nat>)

  datatype State = State(
    seen: seq<Event>, matched: seq<Event>, buf: seq<nat>, dropped: seq<nat>, pump: Pump, consumer: Consumer,
    frames: seq<Frame>)

  datatype Config = Config(filter: Filter, depth: nat)

  const START := State([], [], [], [], Idle, Top, [])

  datatype Step =
    | Arrive(ev: Event) | Count | PumpStop
    | Swap | EmitGap(ok: bool) | Receive | EmitData(ok: bool) | Tick(ok: bool) | Quit

  predicate IsPumpStep(e: Step) { e.Arrive? || e.Count? || e.PumpStop? }

  /** No pump step looks at the consumer, and no consumer step but Receive looks at the buffer. */
  predicate Enabled(s: State, e: Step) {
    match e
    case Arrive(_) => s.pump == Idle
    case PumpStop => s.pump == Idle
    case Count => s.pump.Counting?
    case Swap => s.consumer == Top
    case EmitGap(_) => s.consumer.Gapping?
    case Receive => s.consumer == Select && s.buf != []
    case EmitData(_) => s.consumer.Sending?
    case Tick(_) => s.consumer == Select
    case Quit => s.consumer == Select
  }

  function Apply(c: Config, s: State, e: Step): State
    requires Enabled(s, e)
  {
    match e
    case Arrive(ev) =>
      if !Match(c.filter, ev) then s.(seen := s.seen + [ev])
      else
        var n := |s.matched|;
        var s1 := s.(seen := s.seen + [ev], matched := s.matched + [ev]);
        if |s.buf| < c.depth then s1.(buf := s.buf + [n]) else s1.(pump := Counting(n))
    case Count => s.(dropped := s.dropped + [s.pump.j], pump := Idle)
    case PumpStop => s.(pump := Stopped)
    case Swap => if s.dropped == [] then s.(consumer := Select) else s.(consumer := Gapping(s.dropped), dropped := [])
    case EmitGap(ok) =>
      if ok then s.(frames := s.frames + [Gap(s.consumer.ids)], consumer := Select)
      else s.(consumer := Done(s.consumer.ids, []))
    case Receive => s.(buf := s.buf[1..], consumer := Sending(s.buf[0]))
    case EmitData(ok) =>
      if ok then s.(frames := s.frames + [Data(s.consumer.i)], consumer := Top)
      else s.(consumer := Done([], [s.consumer.i]))
    case Tick(ok) =>
      if ok then s.(frames := s.frames + [Beat], consumer := Top) else s.(consumer := Done([], []))
    case Quit => s.(consumer := Done([], []))
  }

  /** The numbers of the events sent, in order. */
  function Delivered(frames: seq<Frame>): seq<nat> {
    if frames == [] then []
    else Delivered(frames[..|frames| - 1]) + if frames[|frames| - 1].Data? then [frames[|frames| - 1].i] else []
  }

  /** The numbers of the events reported as dropped. */
  function Reported(frames: seq<Frame>): seq<nat> {
    if frames == [] then []
    else Reported(frames[..|frames| - 1]) + if frames[|frames| - 1].Gap? then frames[|frames| - 1].ids else []
  }

  /** What the Gap frames add up to. */
  function GapTotal(frames: seq<Frame>): nat {
    if frames == [] then 0
    else GapTotal(frames[..|frames| - 1]) + if frames[|frames| - 1].Gap? then |frames[|frames| - 1].ids| else 0
  }

  function InHand(k: Consumer): seq<nat> {
    match k
    case Sending(i) => [i]
    case Done(_, hand) => hand
    case _ => []
  }

  /** Swapped out of the counter, not yet told. */
  function Swapped(k: Consumer): seq<nat> {
    match k
    case Gapping(ids) => ids
    case Done(swapped, _) => swapped
    case _ => []
  }

  function Uncounted(p: Pump): seq<nat> {
    if p.Counting? then [p.j] else []
  }

  /** 0, ..., n - 1, once each. */
  function Upto(n: nat): multiset<nat> {
    if n == 0 then multiset{} else Upto(n - 1) + multiset{n - 1}
  }

  // ------------------------------------------------------------------
  // Invariants
  // ------------------------------------------------------------------

  /** What got into the buffer: sent, in hand, buffered. */
  function Stream(s: State): seq<nat> {
    Delivered(s.frames) + InHand(s.consumer) + s.buf
  }

  /** What did not: reported, swapped out, counted, being counted. */
  function Losses(s: State): seq<nat> {
    Reported(s.frames) + Swapped(s.consumer) + s.dropped + Uncounted(s.pump)
  }

  /** Every matched event is in exactly one place. */
  ghost predicate Conserved(s: State) {
    multiset(Stream(s)) + multiset(Losses(s)) == Upto(|s.matched|)
  }

  predicate Below(xs: seq<nat>, n: nat) {
    forall i | 0 <= i < |xs| :: xs[i] < n
  }

  /** Both are in arrival order, and nothing got past an event being counted. */
  ghost predicate Ordered(s: State) {
    && Increasing(Stream(s)) && Below(Stream(s), |s.matched|)
    && Increasing(Losses(s)) && Below(Losses(s), |s.matched|)
    && (s.pump.Counting? ==> s.pump.j == |s.matched| - 1 && Below(Stream(s), s.pump.j))
  }

  /** How many data frames overtook event j. */
  function Over(frames: seq<Frame>, j: nat): nat {
    if frames == [] then 0
    else Over(frames[..|frames| - 1], j) +
         if frames[|frames| - 1].Data? && frames[|frames| - 1].i > j then 1 else 0
  }

  /** Drops not yet told have been overtaken at most once, and only since the last look at the counter. */
  ghost predicate Prompt(s: State) {
    && (forall j | j in s.dropped :: Over(s.frames, j) <= if s.consumer == Top then 1 else 0)
    && (forall j | j in Swapped(s.consumer) :: Over(s.frames, j) <= 1)
    && forall p | 0 <= p < |s.frames| && s.frames[p].Gap? ::
         forall j | j in s.frames[p].ids :: Over(s.frames[..p], j) <= 1
  }

  ghost predicate Inv(c: Config, s: State) {
    Conserved(s) && Ordered(s) && Prompt(s) && |s.buf| <= c.depth && s.matched == Filtered(c.filter, s.seen)
  }

  lemma FramesSnoc(frames: seq<Frame>, f: Frame, j: nat)
    ensures Delivered(frames + [f]) == Delivered(frames) + if f.Data? then [f.i] else []
    ensures Reported(frames + [f]) == Reported(frames) + if f.Gap? then f.ids else []
    ensures GapTotal(frames + [f]) == GapTotal(frames) + if f.Gap? then |f.ids| else 0
    ensures Over(frames + [f], j) == Over(frames, j) + if f.Data? && f.i > j then 1 else 0
  {
    assert (frames + [f])[..|frames|] == frames;
  }

  lemma EmitMoves(c: Config, s: State, e: Step)
    requires Enabled(s, e) && (e.EmitGap? || e.EmitData? || e.Tick?)
    ensures Stream(Apply(c, s, e)) == Stream(s) && Losses(Apply(c, s, e)) == Losses(s)
  {
    hide Delivered, Reported, Uncounted;
    match e
    case EmitGap(ok) => FramesSnoc(s.frames, Gap(s.consumer.ids), 0);
    case EmitData(ok) => FramesSnoc(s.frames, Data(s.consumer.i), 0);
    case Tick(ok) => FramesSnoc(s.frames, Beat, 0);
  }

  lemma ConsumerMoves(c: Config, s: State, e: Step)
    requires Enabled(s, e) && !IsPumpStep(e)
    ensures Stream(Apply(c, s, e)) == Stream(s) && Losses(Apply(c, s, e)) == Losses(s)
    ensures Apply(c, s, e).matched == s.matched
  {
    hide Delivered, Reported, Uncounted;
    match e
    case Swap =>
    case Receive =>
    case Quit =>
    case EmitGap(ok) => hide Stream, Losses; EmitMoves(c, s, e);
    case EmitData(ok) => hide Stream, Losses; EmitMoves(c, s, e);
    case Tick(ok) => hide Stream, Losses; EmitMoves(c, s, e);
  }

  lemma PumpMoves(c: Config, s: State, e: Step)
    requires Enabled(s, e) && IsPumpStep(e)
    ensures var t, n := Apply(c, s, e), |s.matched|;
            if t.matched == s.matched then Stream(t) == Stream(s) && Losses(t) == Losses(s)
            else
              && |t.matched| == n + 1
              && (t.pump.Counting? ==> t.pump.j == n && Stream(t) == Stream(s) && Losses(t) == Losses(s) + [n])
              && (!t.pump.Counting? ==> Stream(t) == Stream(s) + [n] && Losses(t) == Losses(s))
  {
    hide Delivered, Reported, InHand, Swapped, Match;
  }

  lemma BagSnoc(xs: seq<nat>, n: nat)
    ensures multiset(xs + [n]) == multiset(xs) + multiset{n}
  {
  }

  lemma UptoStep(n: nat)
    ensures Upto(n + 1) == Upto(n) + multiset{n}
  {
  }

  lemma KeepsConserved(c: Config, s: State, e: Step)
    requires Conserved(s) && Enabled(s, e)
    ensures Conserved(Apply(c, s, e))
  {
    hide Apply, Stream, Losses, Upto, Enabled;
    if IsPumpStep(e) {
      PumpMoves(c, s, e);
      UptoStep(|s.matched|);
      BagSnoc(Stream(s), |s.matched|);
      BagSnoc(Losses(s), |s.matched|);
    } else {
      ConsumerMoves(c, s, e);
    }
  }

  lemma KeepsOrdered(c: Config, s: State, e: Step)
    requires Ordered(s) && Enabled(s, e)
    ensures Ordered(Apply(c, s, e))
  {
    var t := Apply(c, s, e);
    if IsPumpStep(e) {
      PumpMoves(c, s, e);
      assert t.matched == s.matched ==> t.pump == s.pump || !t.pump.Counting?;
    } else {
      assert t.matched == s.matched && t.pump == s.pump;
      ConsumerMoves(c, s, e);
    }
    hide Apply, Stream, Losses, Enabled;
  }

  lemma {:induction false} OverNone(frames: seq<Frame>, j: nat)
    requires forall i | i in Delivered(frames) :: i <= j
    ensures Over(frames, j) == 0
    decreases |frames|
  {
    if frames != [] {
      var front, last := frames[..|frames| - 1], frames[|frames| - 1];
      assert forall i | i in Delivered(front) :: i in Delivered(frames);
      OverNone(front, j);
      assert last.Data? ==> last.i in Delivered(frames);
    }
  }

  lemma GapsPrompt(s: State, f: Frame)
    requires Prompt(s) && (f.Gap? ==> f.ids == Swapped(s.consumer))
    ensures forall p | 0 <= p < |s.frames + [f]| && (s.frames + [f])[p].Gap? ::
              forall j | j in (s.frames + [f])[p].ids :: Over((s.frames + [f])[..p], j) <= 1
  {
    hide Over;
    var g := s.frames + [f];
    forall p | 0 <= p < |g| && g[p].Gap? ensures forall j | j in g[p].ids :: Over(g[..p], j) <= 1 {
      assert g[..p] == s.frames[..p];
      assert p == |s.frames| ==> s.frames[..p] == s.frames;
    }
  }

  lemma CountPrompt(c: Config, s: State)
    requires Ordered(s) && Prompt(s) && s.pump.Counting?
    ensures Prompt(Apply(c, s, Count))
  {
    forall i | i in Delivered(s.frames) ensures i <= s.pump.j {
      var k :| 0 <= k < |Delivered(s.frames)| && Delivered(s.frames)[k] == i;
      assert Stream(s)[k] == i;
    }
    OverNone(s.frames, s.pump.j);
    hide Over, Delivered, Ordered;
  }

  lemma EmitPrompt(c: Config, s: State, e: Step)
    requires Prompt(s) && Enabled(s, e) && (e.EmitGap? || e.EmitData? || e.Tick?) && e.ok
    ensures Prompt(Apply(c, s, e))
  {
    hide Over;
    var t := Apply(c, s, e);
    var f := t.frames[|s.frames|];
    GapsPrompt(s, f);
    assert t.frames == s.frames + [f] && t.dropped == s.dropped && Swapped(t.consumer) == [];
    forall j | j in t.dropped ensures Over(t.frames, j) <= if t.consumer == Top then 1 else 0 {
      FramesSnoc(s.frames, f, j);
    }
  }

  lemma KeepsPrompt(c: Config, s: State, e: Step)
    requires Ordered(s) && Prompt(s) && Enabled(s, e)
    ensures Prompt(Apply(c, s, e))
  {
    hide Match, Over, Ordered;
    if e.Count? {
      CountPrompt(c, s);
    } else if (e.EmitGap? || e.EmitData? || e.Tick?) && e.ok {
      hide Apply, Prompt;
      EmitPrompt(c, s, e);
    } else {
      assert Apply(c, s, e).frames == s.frames;
    }
  }

  lemma KeepsFiltered(c: Config, s: State, e: Step)
    requires s.matched == Filtered(c.filter, s.seen) && Enabled(s, e)
    ensures Apply(c, s, e).matched == Filtered(c.filter, Apply(c, s, e).seen)
  {
    if e.Arrive? {
      assert (s.seen + [e.ev])[..|s.seen|] == s.seen;
    }
  }

  lemma KeepsDepth(c: Config, s: State, e: Step)
    requires |s.buf| <= c.depth && Enabled(s, e)
    ensures |Apply(c, s, e).buf| <= c.depth
  {
    hide Match;
  }

  lemma StepInv(c: Config, s: State, e: Step)
    requires Inv(c, s) && Enabled(s, e)
    ensures Inv(c, Apply(c, s, e))
  {
    hide Conserved, Ordered, Prompt, Filtered, Match, Apply, Enabled;
    KeepsConserved(c, s, e);
    KeepsOrdered(c, s, e);
    KeepsPrompt(c, s, e);
    KeepsFiltered(c, s, e);
    KeepsDepth(c, s, e);
  }

  // ------------------------------------------------------------------
  // Runs
  // ------------------------------------------------------------------

  predicate Runs(c: Config, s: State, steps: seq<Step>, t: State)
    decreases |steps|
  {
    if steps == [] then s == t else Enabled(s, steps[0]) && Runs(c, Apply(c, s, steps[0]), steps[1..], t)
  }

  lemma {:induction false} RunsInv(c: Config, s: State, steps: seq<Step>, t: State)
    requires Inv(c, s) && Runs(c, s, steps, t)
    ensures Inv(c, t)
    decreases |steps|
  {
    hide Inv, Apply, Enabled;
    if steps != [] {
      StepInv(c, s, steps[0]);
      RunsInv(c, Apply(c, s, steps[0]), steps[1..], t);
    }
  }

  lemma StartInv(c: Config)
    ensures Inv(c, START)
  {
  }

  lemma {:induction false} SizesAgree(frames: seq<Frame>, n: nat)
    ensures |Reported(frames)| == GapTotal(frames) && |Upto(n)| == n
    decreases |frames| + n
  {
    if frames != [] {
      SizesAgree(frames[..|frames| - 1], n);
    } else if n > 0 {
      SizesAgree(frames, n - 1);
    }
  }

  /** For every schedule: matched = delivered + in hand + buffered + reported + swapped + counted + being counted. */
  lemma NothingUnaccounted(c: Config, steps: seq<Step>, s: State)
    requires Runs(c, START, steps, s)
    ensures |Filtered(c.filter, s.seen)| ==
            |Delivered(s.frames)| + |InHand(s.consumer)| + |s.buf| + GapTotal(s.frames)
            + |Swapped(s.consumer)| + |s.dropped| + |Uncounted(s.pump)|
  {
    hide Runs;
    StartInv(c);
    RunsInv(c, START, steps, s);
    SizesAgree(s.frames, |s.matched|);
    hide Delivered, Reported, Upto, Filtered, GapTotal, Prompt, Ordered;
    assert |multiset(Stream(s))| == |Stream(s)| && |multiset(Losses(s))| == |Losses(s)|;
  }

  /** What was sent, then what is buffered, is a subsequence of the filtered input; the buffer keeps its depth. */
  lemma StreamIsASubsequence(c: Config, steps: seq<Step>, s: State)
    requires Runs(c, START, steps, s)
    ensures Increasing(Delivered(s.frames) + s.buf) && Below(Delivered(s.frames) + s.buf, |Filtered(c.filter, s.seen)|)
    ensures |s.buf| <= c.depth
  {
    hide Runs, Delivered, Filtered, Conserved, Prompt;
    StartInv(c);
    RunsInv(c, START, steps, s);
    MiddleOut(Delivered(s.frames), InHand(s.consumer), s.buf, |s.matched|);
  }

  lemma MiddleOut(a: seq<nat>, h: seq<nat>, b: seq<nat>, n: nat)
    requires Increasing(a + h + b) && Below(a + h + b, n)
    ensures Increasing(a + b) && Below(a + b, n)
  {
    var whole, part := a + h + b, a + b;
    assert forall i | 0 <= i < |part| :: part[i] == whole[if i < |a| then i else i + |h|];
  }

  /** Drops are told in order too: the reported numbers only go up. */
  lemma GapsGoUp(c: Config, steps: seq<Step>, s: State)
    requires Runs(c, START, steps, s)
    ensures Increasing(Reported(s.frames))
  {
    hide Runs, Reported, Filtered, Conserved, Prompt, Delivered;
    StartInv(c);
    RunsInv(c, START, steps, s);
    var r := Reported(s.frames);
    assert forall i | 0 <= i < |r| :: r[i] == Losses(s)[i];
  }

  /** A gap is told late by at most one data frame: when it is told, at most one newer event has been sent. */
  lemma GapsAreAlmostInOrder(c: Config, steps: seq<Step>, s: State, p: nat, j: nat)
    requires Runs(c, START, steps, s)
    requires p < |s.frames| && s.frames[p].Gap? && j in s.frames[p].ids
    ensures Over(s.frames[..p], j) <= 1
  {
    hide Runs, Over;
    StartInv(c);
    RunsInv(c, START, steps, s);
  }

  ghost predicate Reachable(c: Config, s: State) {
    exists steps :: Runs(c, START, steps, s)
  }

  lemma {:induction false} RunsSnoc(c: Config, s: State, steps: seq<Step>, t: State, e: Step)
    requires Runs(c, s, steps, t) && Enabled(t, e)
    ensures Runs(c, s, steps + [e], Apply(c, t, e))
    decreases |steps|
  {
    hide Apply, Enabled;
    if steps == [] {
      assert [e][1..] == [];
      assert Runs(c, Apply(c, t, e), [e][1..], Apply(c, t, e));
      assert steps + [e] == [e];
    } else {
      RunsSnoc(c, Apply(c, s, steps[0]), steps[1..], t, e);
      assert (steps + [e])[1..] == steps[1..] + [e];
    }
  }

  lemma ReachStep(c: Config, s: State, e: Step)
    requires Reachable(c, s) && Enabled(s, e)
    ensures Reachable(c, Apply(c, s, e))
  {
    var steps :| Runs(c, START, steps, s);
    RunsSnoc(c, START, steps, s, e);
  }

  lemma ReachStart(c: Config)
    ensures Reachable(c, START)
  {
    assert Runs(c, START, [], START);
  }

  lemma Reach(c: Config, s: State, e: Step, t: State)
    requires Reachable(c, s) && Enabled(s, e) && Apply(c, s, e) == t
    ensures Reachable(c, t)
  {
    ReachStep(c, s, e);
  }

  // ------------------------------------------------------------------
  // When a gap is told before every newer event
  // ------------------------------------------------------------------

  ghost predicate Told(frames: seq<Frame>, j: nat) {
    exists p :: 0 <= p < |frames| && frames[p].Gap? && j in frames[p].ids
  }

  /** No data frame newer than j. */
  predicate NoneNewer(frames: seq<Frame>, j: nat) {
    forall q | 0 <= q < |frames| && frames[q].Data? :: frames[q].i < j
  }

  /** Every data frame newer than j comes after a gap that tells j. */
  ghost predicate ToldFirst(frames: seq<Frame>, j: nat) {
    forall q | 0 <= q < |frames| && frames[q].Data? && frames[q].i > j :: Told(frames[..q], j)
  }

  /** With drop j just counted: nothing newer can be taken before the consumer looks at the counter again. */
  predicate Shielded(s: State, j: nat) {
    match s.consumer
    case Top => true
    case Done(_, _) => true
    case Sending(i) => i < j
    case Select => s.buf != [] && s.buf[0] < j
    case Gapping(_) => s.buf != [] && s.buf[0] < j
  }

  /** Drop j is told, or is sure to be told before anything newer is sent. */
  ghost predicate Sure(s: State, j: nat) {
    || (Told(s.frames, j) && ToldFirst(s.frames, j))
    || (NoneNewer(s.frames, j) && (j in Swapped(s.consumer) || (j in s.dropped && Shielded(s, j))))
  }

  lemma ToldSnoc(frames: seq<Frame>, f: Frame, j: nat)
    requires Told(frames, j) && ToldFirst(frames, j)
    ensures Told(frames + [f], j) && ToldFirst(frames + [f], j)
  {
    var g := frames + [f];
    var p :| 0 <= p < |frames| && frames[p].Gap? && j in frames[p].ids;
    assert g[p] == frames[p];
    forall q | 0 <= q < |g| && g[q].Data? && g[q].i > j ensures Told(g[..q], j) {
      if q < |frames| {
        assert g[..q] == frames[..q];
      } else {
        assert g[..q] == frames;
      }
    }
  }

  lemma TellingTells(frames: seq<Frame>, ids: seq<nat>, j: nat)
    requires NoneNewer(frames, j) && j in ids
    ensures Told(frames + [Gap(ids)], j) && ToldFirst(frames + [Gap(ids)], j)
  {
    assert (frames + [Gap(ids)])[|frames|] == Gap(ids);
  }

  lemma SureEmit(c: Config, s: State, e: Step, j: nat)
    requires Sure(s, j) && Enabled(s, e) && (e.EmitGap? || e.EmitData? || e.Tick?) && e.ok
    ensures Sure(Apply(c, s, e), j)
  {
    var t := Apply(c, s, e);
    var f := t.frames[|s.frames|];
    assert t.frames == s.frames + [f];
    if Told(s.frames, j) && ToldFirst(s.frames, j) {
      ToldSnoc(s.frames, f, j);
    } else if e.EmitGap? && j in s.consumer.ids {
      TellingTells(s.frames, s.consumer.ids, j);
    } else {
      hide Told, ToldFirst;
      assert NoneNewer(t.frames, j);
    }
  }

  lemma StepSure(c: Config, s: State, e: Step, j: nat)
    requires Sure(s, j) && Enabled(s, e)
    ensures Sure(Apply(c, s, e), j)
  {
    if (e.EmitGap? || e.EmitData? || e.Tick?) && e.ok {
      hide Sure, Apply;
      SureEmit(c, s, e, j);
    } else {
      hide Match, Told, ToldFirst, NoneNewer;
      assert Apply(c, s, e).frames == s.frames;
    }
  }

  lemma {:induction false} RunsSure(c: Config, s: State, steps: seq<Step>, t: State, j: nat)
    requires Sure(s, j) && Runs(c, s, steps, t)
    ensures Sure(t, j)
    decreases |steps|
  {
    hide Sure, Apply, Enabled;
    if steps != [] {
      StepSure(c, s, steps[0], j);
      RunsSure(c, Apply(c, s, steps[0]), steps[1..], t, j);
    }
  }

  lemma SureIsToldFirst(s: State, j: nat)
    requires Sure(s, j)
    ensures ToldFirst(s.frames, j)
  {
  }

  lemma {:induction false} ToldReported(frames: seq<Frame>, j: nat)
    requires Told(frames, j)
    ensures j in Reported(frames)
    decreases |frames|
  {
    var p :| 0 <= p < |frames| && frames[p].Gap? && j in frames[p].ids;
    if p < |frames| - 1 {
      var front := frames[..|frames| - 1];
      assert front[p] == frames[p];
      ToldReported(front, j);
    }
  }

  lemma {:induction false} DataDelivered(frames: seq<Frame>, q: nat)
    requires q < |frames| && frames[q].Data?
    ensures frames[q].i in Delivered(frames)
    decreases |frames|
  {
    if q < |frames| - 1 {
      DataDelivered(frames[..|frames| - 1], q);
    }
  }

  lemma InOrderLast(a: seq<nat>, b: seq<nat>, d: seq<nat>, j: nat)
    requires Increasing(a + b + d + [j])
    ensures j !in a && j !in b
  {
    var all := a + b + d + [j];
    assert forall i | 0 <= i < |a| :: a[i] == all[i] && all[i] < all[|all| - 1];
    assert forall i | 0 <= i < |b| :: b[i] == all[|a| + i] && all[|a| + i] < all[|all| - 1];
  }

  /** What the moment after the count of drop j looks like: nothing newer has gone anywhere, and j is not told. */
  lemma CountedFacts(c: Config, s: State)
    requires Inv(c, s) && s.pump.Counting?
    ensures var j := s.pump.j;
            && NoneNewer(s.frames, j) && !Told(s.frames, j) && j !in Swapped(s.consumer)
            && j < |s.matched| && Below(InHand(s.consumer), j) && Below(s.buf, j)
  {
    var j := s.pump.j;
    hide Conserved, Prompt, Filtered, Delivered, Reported;
    PartsBelow(Delivered(s.frames), InHand(s.consumer), s.buf, j);
    forall q | 0 <= q < |s.frames| && s.frames[q].Data? ensures s.frames[q].i < j {
      DataDelivered(s.frames, q);
      var d := Delivered(s.frames);
      var k :| 0 <= k < |d| && d[k] == s.frames[q].i;
      assert Stream(s)[k] == d[k];
    }
    InOrderLast(Reported(s.frames), Swapped(s.consumer), s.dropped, j);
    if Told(s.frames, j) {
      ToldReported(s.frames, j);
      assert false;
    }
  }

  /** Some event passes every filter. */
  function Passing(f: Filter): (ev: Event)
    ensures Match(f, ev)
  {
    Event(if f.level.Some? then f.level.value else "", f.service, "")
  }

  predicate Exposed(s: State) { s.buf == [] && (s.consumer == Select || s.consumer.Gapping?) }

  lemma LateAtSelect(c: Config, s: State, j: nat) returns (steps: seq<Step>, t: State)
    requires s.consumer == Select && s.buf == [] && s.pump == Idle && c.depth > 0
    requires j < |s.matched| && !Told(s.frames, j)
    ensures Runs(c, s, steps, t) && !ToldFirst(t.frames, j)
    ensures t.consumer == Top && t.dropped == s.dropped && t.frames == s.frames + [Data(|s.matched|)]
  {
    hide Match, Runs;
    var ev, n := Passing(c.filter), |s.matched|;
    var s1 := s.(seen := s.seen + [ev], matched := s.matched + [ev], buf := [n]);
    assert [] + [n] == [n] && [n][1..] == [];
    RunsNone(c, s);
    RunsTo(c, s, [], s, Arrive(ev), s1);
    var s2 := s1.(buf := [], consumer := Sending(n));
    RunsTo(c, s, [] + [Arrive(ev)], s1, Receive, s2);
    t := s2.(consumer := Top, frames := s.frames + [Data(n)]);
    RunsTo(c, s, [] + [Arrive(ev)] + [Receive], s2, EmitData(true), t);
    steps := [] + [Arrive(ev)] + [Receive] + [EmitData(true)];
    assert t.frames[|s.frames|] == Data(n) && t.frames[..|s.frames|] == s.frames;
  }

  lemma RunsNone(c: Config, s: State)
    ensures Runs(c, s, [], s)
  {
  }

  lemma RunsTo(c: Config, s: State, steps: seq<Step>, t: State, e: Step, u: State)
    requires Runs(c, s, steps, t) && Enabled(t, e) && Apply(c, t, e) == u
    ensures Runs(c, s, steps + [e], u)
  {
    RunsSnoc(c, s, steps, t, e);
  }

  lemma LateAtGapping(c: Config, s: State, j: nat) returns (steps: seq<Step>, t: State)
    requires s.consumer.Gapping? && s.buf == [] && s.pump == Idle && c.depth > 0
    requires j < |s.matched| && !Told(s.frames, j) && j !in s.consumer.ids
    ensures Runs(c, s, steps, t) && !ToldFirst(t.frames, j)
  {
    hide Runs, ToldFirst;
    var u := s.(frames := s.frames + [Gap(s.consumer.ids)], consumer := Select);
    RunsNone(c, s);
    RunsTo(c, s, [], s, EmitGap(true), u);
    assert !Told(u.frames, j);
    var more;
    more, t := LateAtSelect(c, u, j);
    RunsConcat(c, s, [] + [EmitGap(true)], u, more, t);
    steps := [] + [EmitGap(true)] + more;
  }

  lemma {:induction false} RunsConcat(c: Config, s: State, a: seq<Step>, t: State, b: seq<Step>, u: State)
    requires Runs(c, s, a, t) && Runs(c, t, b, u)
    ensures Runs(c, s, a + b, u)
    decreases |a|
  {
    hide Apply, Enabled;
    if a == [] {
      assert a + b == b;
    } else {
      RunsConcat(c, Apply(c, s, a[0]), a[1..], t, b, u);
      assert (a + b)[1..] == a[1..] + b;
    }
  }

  /**
   When drop j has just been counted, every continuation tells it before any newer event iff the
   buffer still holds something or the consumer is not between looking at the counter and taking
   its next event.
   */
  lemma GapIsToldFirstIff(c: Config, s: State)
    requires Inv(c, s) && s.pump.Counting? && c.depth > 0
    ensures (forall steps, t | Runs(c, Apply(c, s, Count), steps, t) :: ToldFirst(t.frames, s.pump.j)) <==>
            !Exposed(s)
  {
    var j := s.pump.j;
    var u := Apply(c, s, Count);
    CountedFacts(c, s);
    hide Runs, Inv;
    if Exposed(s) {
      hide Told, ToldFirst, NoneNewer;
      var steps, t;
      if s.consumer == Select {
        steps, t := LateAtSelect(c, u, j);
      } else {
        steps, t := LateAtGapping(c, u, j);
      }
      assert !ToldFirst(t.frames, j);
    } else {
      assert u.dropped[|s.dropped|] == j;
      assert s.consumer.Sending? ==> InHand(s.consumer)[0] == s.consumer.i;
      assert Sure(u, j);
      hide Sure, ToldFirst;
      forall steps, t | Runs(c, u, steps, t) ensures ToldFirst(t.frames, j) {
        RunsSure(c, u, steps, t, j);
        SureIsToldFirst(t, j);
      }
    }
  }

  // ------------------------------------------------------------------
  // The late gap, at any depth
  // ------------------------------------------------------------------

  /** The buffer filled to k by matching events, the consumer not yet started. */
  lemma {:induction false} Fill(c: Config, k: nat) returns (s: State)
    requires k <= c.depth
    ensures Reachable(c, s) && |s.buf| == k && s.pump == Idle && s.consumer == Top && s.dropped == []
  {
    if k == 0 {
      ReachStart(c);
      s := START;
    } else {
      var p := Fill(c, k - 1);
      hide Match, Reachable;
      s := Apply(c, p, Arrive(Passing(c.filter)));
      Reach(c, p, Arrive(Passing(c.filter)), s);
    }
  }

  /** The consumer sends everything that is buffered while a drop waits to be counted. */
  lemma {:induction false} DrainUncounted(c: Config, s: State) returns (t: State)
    requires Reachable(c, s) && s.pump.Counting? && s.consumer == Top && s.dropped == []
    ensures Reachable(c, t) && t.pump == s.pump && t.consumer == Select && t.dropped == [] && t.buf == []
    decreases |s.buf|
  {
    hide Reachable;
    var s1 := s.(consumer := Select);
    Reach(c, s, Swap, s1);
    if s.buf == [] {
      t := s1;
    } else {
      var s2 := Apply(c, s1, Receive);
      Reach(c, s1, Receive, s2);
      var s3 := Apply(c, s2, EmitData(true));
      Reach(c, s2, EmitData(true), s3);
      t := DrainUncounted(c, s3);
    }
  }

  /** At every depth the bound of one late frame is reached: a gap told after exactly one newer event. */
  lemma GapCanTrailData(c: Config) returns (s: State, p: nat, j: nat)
    requires c.depth > 0
    ensures Reachable(c, s) && p < |s.frames| && s.frames[p].Gap? && j in s.frames[p].ids
    ensures Over(s.frames[..p], j) == 1
  {
    var full := Fill(c, c.depth);
    hide Match, Reachable, Runs;
    var late := Apply(c, full, Arrive(Passing(c.filter)));
    Reach(c, full, Arrive(Passing(c.filter)), late);
    var empty := DrainUncounted(c, late);
    ReachableInv(c, empty);
    CountedFacts(c, empty);
    hide Inv;
    j := empty.pump.j;
    var counted := Apply(c, empty, Count);
    Reach(c, empty, Count, counted);
    var steps, sent := LateAtSelect(c, counted, j);
    ReachRuns(c, counted, steps, sent);
    var gap := Apply(c, sent, Swap);
    Reach(c, sent, Swap, gap);
    s := Apply(c, gap, EmitGap(true));
    Reach(c, gap, EmitGap(true), s);
    p := |sent.frames|;
    assert s.frames[..p] == sent.frames && counted.dropped == [j];
    OverOne(empty.frames, j, |empty.matched|);
  }

  lemma OverOne(frames: seq<Frame>, j: nat, n: nat)
    requires NoneNewer(frames, j) && n > j
    ensures Over(frames + [Data(n)], j) == 1
  {
    forall i | i in Delivered(frames) ensures i <= j {
      DeliveredData(frames, i);
    }
    OverNone(frames, j);
    FramesSnoc(frames, Data(n), j);
  }

  lemma {:induction false} DeliveredData(frames: seq<Frame>, i: nat)
    requires i in Delivered(frames)
    ensures exists q :: 0 <= q < |frames| && frames[q] == Data(i)
    decreases |frames|
  {
    var front, last := frames[..|frames| - 1], frames[|frames| - 1];
    if last == Data(i) {
      assert frames[|frames| - 1] == Data(i);
    } else {
      DeliveredData(front, i);
      var q :| 0 <= q < |front| && front[q] == Data(i);
      assert frames[q] == Data(i);
    }
  }

  lemma ReachRuns(c: Config, s: State, steps: seq<Step>, t: State)
    requires Reachable(c, s) && Runs(c, s, steps, t)
    ensures Reachable(c, t)
  {
    var before :| Runs(c, START, before, s);
    RunsConcat(c, START, before, s, steps, t);
  }

  lemma ReachableInv(c: Config, s: State)
    requires Reachable(c, s)
    ensures Inv(c, s)
  {
    var steps :| Runs(c, START, steps, s);
    hide Runs, Inv;
    StartInv(c);
    RunsInv(c, START, steps, s);
  }

  // ------------------------------------------------------------------
  // The pump on its own
  // ------------------------------------------------------------------

  /** The pump takes one event, whatever the consumer is doing. */
  function PumpOne(c: Config, s: State, ev: Event): (t: State)
    requires s.pump == Idle
    ensures t.pump == Idle
  {
    var t := Apply(c, s, Arrive(ev));
    if t.pump.Counting? then Apply(c, t, Count) else t
  }

  function PumpAll(c: Config, s: State, evs: seq<Event>): (t: State)
    requires s.pump == Idle
    ensures t.pump == Idle
  {
    if evs == [] then s else PumpOne(c, PumpAll(c, s, evs[..|evs| - 1]), evs[|evs| - 1])
  }

  /** lo, ..., hi - 1. */
  function Range(lo: nat, hi: nat): (r: seq<nat>)
    requires lo <= hi
    ensures |r| == hi - lo
  {
    seq(hi - lo, i requires 0 <= i < hi - lo => lo + i)
  }

  lemma PumpOneShape(c: Config, s: State, ev: Event)
    requires s.pump == Idle && |s.buf| <= c.depth
    ensures var t, n := PumpOne(c, s, ev), |s.matched|;
            && t.consumer == s.consumer && t.frames == s.frames
            && (if !Match(c.filter, ev) then |t.matched| == n && t.buf == s.buf && t.dropped == s.dropped
                else if |s.buf| < c.depth then |t.matched| == n + 1 && t.buf == s.buf + [n] && t.dropped == s.dropped
                else |t.matched| == n + 1 && t.buf == s.buf && t.dropped == s.dropped + [n])
  {
  }

  lemma RangeSnoc(lo: nat, hi: nat)
    requires lo <= hi
    ensures Range(lo, hi) + [hi] == Range(lo, hi + 1) && Range(hi, hi) == []
  {
  }

  /** `t` is `s` after m matched events with no help from the consumer. */
  predicate Burst(c: Config, s: State, m: nat, t: State)
    requires |s.buf| <= c.depth
  {
    var n, kept := |s.matched|, Min(m, c.depth - |s.buf|);
    && t.buf == s.buf + Range(n, n + kept) && t.dropped == s.dropped + Range(n + kept, n + m)
    && |t.matched| == n + m && t.consumer == s.consumer && t.frames == s.frames
  }

  lemma BurstNext(c: Config, s: State, m: nat, t: State, ev: Event)
    requires |s.buf| <= c.depth && Burst(c, s, m, t) && t.pump == Idle
    ensures Burst(c, s, if Match(c.filter, ev) then m + 1 else m, PumpOne(c, t, ev))
  {
    PumpOneShape(c, t, ev);
    hide PumpOne, Match, Range;
    var n, kept := |s.matched|, Min(m, c.depth - |s.buf|);
    RangeSnoc(n, n + kept);
    RangeSnoc(n + kept, n + m);
    RangeSnoc(n + kept + 1, n + kept + 1);
    assert s.buf + Range(n, n + kept) + [n + kept] == s.buf + (Range(n, n + kept) + [n + kept]);
    assert s.dropped + Range(n + kept, n + m) + [n + m] == s.dropped + (Range(n + kept, n + m) + [n + m]);
  }

  /**
   With the consumer stalled anywhere, the pump still takes a whole burst: the first events fill
   the buffer, every further one is dropped and counted, and the consumer's side is untouched.
   */
  lemma {:induction false} BurstFillsThenDrops(c: Config, s: State, evs: seq<Event>)
    requires s.pump == Idle && |s.buf| <= c.depth
    ensures Burst(c, s, |Filtered(c.filter, evs)|, PumpAll(c, s, evs))
    decreases |evs|
  {
    if evs != [] {
      hide Burst, PumpOne, Match;
      var front := evs[..|evs| - 1];
      BurstFillsThenDrops(c, s, front);
      BurstNext(c, s, |Filtered(c.filter, front)|, PumpAll(c, s, front), evs[|evs| - 1]);
    }
  }

  // ------------------------------------------------------------------
  // The two loops
  // ------------------------------------------------------------------

  /** A frame as the client gets it. */
  datatype Sent = SentData(ev: Event) | SentGap(n: nat) | SentBeat

  function EventsAt(matched: seq<Event>, ids: seq<nat>): (r: seq<Event>)
    requires Below(ids, |matched|)
    ensures |r| == |ids|
  {
    seq(|ids|, i requires 0 <= i < |ids| => matched[ids[i]])
  }

  predicate ShowsFrame(matched: seq<Event>, f: Frame, x: Sent) {
    match f
    case Data(i) => i < |matched| && x == SentData(matched[i])
    case Gap(ids) => x == SentGap(|ids|)
    case Beat => x == SentBeat
  }

  /** The sink's log is the machine's, with numbers for lists of numbers. */
  predicate Shows(matched: seq<Event>, frames: seq<Frame>, sink: seq<Sent>) {
    |sink| == |frames| && forall k | 0 <= k < |frames| :: ShowsFrame(matched, frames[k], sink[k])
  }

  lemma ReachableFacts(c: Config, s: State)
    requires Reachable(c, s)
    ensures Below(s.buf, |s.matched|) && |s.buf| <= c.depth && Below(InHand(s.consumer), |s.matched|)
  {
    var steps :| Runs(c, START, steps, s);
    hide Runs, Delivered, Conserved, Prompt, Filtered;
    StartInv(c);
    RunsInv(c, START, steps, s);
    PartsBelow(Delivered(s.frames), InHand(s.consumer), s.buf, |s.matched|);
  }

  lemma PartsBelow(a: seq<nat>, h: seq<nat>, b: seq<nat>, n: nat)
    requires Below(a + h + b, n)
    ensures Below(h, n) && Below(b, n)
  {
    var whole := a + h + b;
    assert forall i | 0 <= i < |b| :: b[i] == whole[|a| + |h| + i];
    assert forall i | 0 <= i < |h| :: h[i] == whole[|a| + i];
  }

  lemma SameEvents(m: seq<Event>, m2: seq<Event>, ids: seq<nat>)
    requires Below(ids, |m|) && m <= m2
    ensures EventsAt(m2, ids) == EventsAt(m, ids)
  {
  }

  datatype Choice = Incoming | Heartbeat | Cancelled

  /** One connection's stream: the buffer channel, the drop counter and the sink. */
  class Streamer {
    const c: Config
    var buf: seq<Event>
    var dropped: nat
    var sink: seq<Sent>
    ghost var st: State

    ghost predicate Valid()
      reads this
    {
      && Reachable(c, st) && Below(st.buf, |st.matched|)
      && buf == EventsAt(st.matched, st.buf) && dropped == |st.dropped| && Shows(st.matched, st.frames, sink)
    }

    constructor (filter: Filter, buffer: int)
      ensures Valid() && st == START && c == Config(filter, Depth(buffer))
    {
      c := Config(filter, Depth(buffer));
      buf, dropped, sink, st := [], 0, [], START;
      new;
      ReachStart(c);
    }

    ghost method Take(e: Step)
      requires Reachable(c, st) && Enabled(st, e)
      modifies this`st
      ensures st == Apply(c, old(st), e) && Reachable(c, st) && Below(st.buf, |st.matched|) && |st.buf| <= c.depth
    {
      hide Reachable;
      ReachStep(c, st, e);
      st := Apply(c, st, e);
      ReachableFacts(c, st);
    }

    /** The consumer runs while the pump is busy: it takes from the front and may swap the counter. */
    method ConsumerRuns()
      requires Valid()
      modifies this
      ensures Valid() && st.pump == old(st).pump && st.seen == old(st).seen && st.matched == old(st).matched
    {
    }

    /** The pump runs while the consumer is busy: it only adds to the buffer and to the counter. */
    method PumpRuns()
      requires Valid()
      modifies this`buf, this`dropped, this`st
      ensures Valid() && st.consumer == old(st).consumer && st.frames == old(st).frames
      ensures old(st).matched <= st.matched && old(st).buf <= st.buf && old(st).dropped <= st.dropped
      ensures old(buf) <= buf
    {
    }

    /** The pump's turn for one event: it waits for nobody. */
    method PumpEvent(ev: Event)
      requires Valid() && st.pump == Idle
      modifies this
      ensures Valid() && st.pump == Idle
      ensures st.seen == old(st).seen + [ev]
      ensures st.matched == old(st).matched + if Match(c.filter, ev) then [ev] else []
      ensures !Match(c.filter, ev) ==> buf == old(buf) && dropped == old(dropped) && sink == old(sink)
      ensures Match(c.filter, ev) && |old(buf)| < c.depth ==>
                buf == old(buf) + [ev] && dropped == old(dropped) && sink == old(sink)
      ensures Match(c.filter, ev) && |old(buf)| >= c.depth ==>
                dropped > 0 && st.dropped != [] && st.dropped[|st.dropped| - 1] == |old(st).matched|
    {
      hide Reachable, Match;
      ReachableFacts(c, st);
      var room := |buf| < c.depth;
      Take(Arrive(ev));
      if !Match(c.filter, ev) {
        return;
      }
      SameEvents(old(st).matched, st.matched, old(st).buf);
      if room {
        buf := buf + [ev];
      } else {
        ConsumerRuns();
        dropped := dropped + 1;
        Take(Count);
      }
    }

    /**
     One turn of the consumer loop. A turn sends at most a Gap, for exactly the drops it took
     out of the counter, and then at most one other frame.
     */
    method Turn(gapOk: bool, choice: Choice, frameOk: bool) returns (done: bool)
      requires Valid() && st.consumer == Top
      modifies this
      ensures Valid() && if done then st.consumer.Done? else st.consumer == Top
      ensures done <==> (old(dropped) > 0 && !gapOk) || choice == Cancelled || !frameOk
      ensures !done ==> |sink| == |old(sink)| + if old(dropped) > 0 then 2 else 1
      ensures !done && choice == Incoming && old(buf) != [] ==> sink[|sink| - 1] == SentData(old(buf)[0])
      ensures !done && choice == Heartbeat ==> sink[|sink| - 1] == SentBeat
      ensures old(sink) <= sink && |sink| <= |old(sink)| + 2
      ensures old(dropped) > 0 && gapOk ==> |sink| > |old(sink)| && sink[|old(sink)|] == SentGap(old(dropped))
      ensures forall k | |old(sink)| <= k < |sink| && sink[k].SentGap? ::
                k == |old(sink)| && sink[k].n == old(dropped) > 0
    {
      hide Reachable, EventsAt;
      var d := dropped;
      dropped := 0;
      Take(Swap);
      PumpRuns();
      if d > 0 {
        if !gapOk {
          Take(EmitGap(false));
          return true;
        }
        sink := sink + [SentGap(d)];
        Take(EmitGap(true));
        PumpRuns();
      }
      done := Choose(choice, frameOk);
    }

    /** The select of the consumer loop. An empty buffer leaves the tick and the cancellation. */
    method Choose(choice: Choice, frameOk: bool) returns (done: bool)
      requires Valid() && st.consumer == Select
      modifies this
      ensures Valid() && if done then st.consumer.Done? else st.consumer == Top
      ensures done <==> choice == Cancelled || !frameOk
      ensures done ==> sink == old(sink)
      ensures !done ==> |sink| == |old(sink)| + 1 && old(sink) <= sink && !sink[|old(sink)|].SentGap?
      ensures !done && choice == Incoming && old(buf) != [] ==> sink == old(sink) + [SentData(old(buf)[0])]
      ensures !done && (choice == Heartbeat || old(buf) == []) ==> sink == old(sink) + [SentBeat]
      ensures if choice == Incoming && old(buf) != [] then old(buf)[1..] <= buf else buf == old(buf)
    {
      hide Reachable;
      if choice == Incoming && buf != [] {
        var ev := buf[0];
        buf := buf[1..];
        Take(Receive);
        assert ev == st.matched[st.consumer.i];
        PumpRuns();
        ReachableFacts(c, st);
        if !frameOk {
          Take(EmitData(false));
          return true;
        }
        sink := sink + [SentData(ev)];
        Take(EmitData(true));
        return false;
      }
      if choice == Cancelled {
        Take(Quit);
        return true;
      }
      if !frameOk {
        Take(Tick(false));
        return true;
      }
      sink := sink + [SentBeat];
      Take(Tick(true));
      return false;
    }
  }
}
