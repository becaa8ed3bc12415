/**
 The search hook of the web app (apps/web/src/features/log-search/use-log-search.ts):
 runs, page loads and their responses in any order. Each callback and each setState
 is one atomic step.
 */
module SearchClient {
  import opened Common
  import opened KeysetPaging

  /** The search box's filters as one opaque value. */
  type Filters = string

  const MAX_SEARCH_RESULTS := 1000

  datatype Status = Idle | Loading | Success | LoadingMore | Error

  /** What a request resolves to. */
  datatype Outcome = Page(events: seq<Event>, next: Option<string>) | Rejected(message: string)

  datatype Request = Request(filters: Filters, cursor: Option<string>)

  /** The rendered state. */
  datatype View = View(
    status: Status, events: seq<Event>, nextCursor: Option<string>, error: Option<string>,
    hasSearched: bool, capped: bool)

  /** The refs of the hook and its rendered state. */
  datatype Hook = Hook(
    reqId: nat, lastFilters: Option<Filters>, cursorRef: Option<string>, inFlight: bool, view: View)

  /**
   The hook with its history: request number i is `sent[i - 1]`, `answers` holds the
   responses that have arrived, and `generation` is the number of the latest run.
   */
  datatype State = State(hook: Hook, sent: seq<Request>, answers: map<nat, Outcome>, generation: nat)

  datatype Step = Run(filters: Filters) | LoadMore | Respond(id: nat, out: Outcome)

  function Initial(): State {
    State(Hook(0, None, None, false, View(Idle, [], None, None, false, false)), [], map[], 0)
  }

  /** Each request is answered at most once, at any time and in any order. */
  predicate Enabled(s: State, e: Step) {
    e.Respond? ==> 1 <= e.id <= |s.sent| && e.id !in s.answers
  }

  function Cap(events: seq<Event>): seq<Event> {
    if |events| >= MAX_SEARCH_RESULTS then events[..MAX_SEARCH_RESULTS] else events
  }

  predicate CanLoadMore(h: Hook) {
    h.lastFilters.Some? && h.cursorRef.Some? && h.cursorRef.value != "" && !h.inFlight
  }

  /** A page is appended to what was shown before; at the ceiling the cursor goes. */
  function Extend(before: seq<Event>, page: seq<Event>, next: Option<string>): View {
    var combined := before + page;
    var capped := |combined| >= MAX_SEARCH_RESULTS;
    View(Success, Cap(combined), if capped then None else next, None, true, capped)
  }

  function Settle(h: Hook, first: bool, out: Outcome): Hook {
    match out
    case Page(page, next) =>
      var view := Extend(if first then [] else h.view.events, page, next);
      h.(inFlight := false, cursorRef := view.nextCursor, view := view)
    case Rejected(message) =>
      if first then
        h.(inFlight := false, cursorRef := None, view := View(Error, [], None, Some(message), true, false))
      else
        h.(inFlight := false, view := h.view.(status := Success, error := Some(message)))
  }

  function Apply(s: State, e: Step): State
    requires Enabled(s, e)
  {
    match e
    case Run(filters) =>
      State(Hook(s.hook.reqId + 1, Some(filters), None, true, View(Loading, [], None, None, false, false)),
            s.sent + [Request(filters, None)], s.answers, |s.sent| + 1)
    case LoadMore =>
      if !CanLoadMore(s.hook) then s
      else s.(hook := s.hook.(reqId := s.hook.reqId + 1, inFlight := true,
                              view := s.hook.view.(status := LoadingMore, error := None)),
              sent := s.sent + [Request(s.hook.lastFilters.value, s.hook.cursorRef)])
    case Respond(id, out) =>
      var s1 := s.(answers := s.answers[id := out]);
      if id != s.hook.reqId then s1
      else s1.(hook := Settle(s.hook, s.sent[id - 1].cursor.None?, out))
  }

  // ------------------------------------------------------------------
  // Chains
  // ------------------------------------------------------------------

  /** A successful page with the request it answers. */
  datatype Link = Link(request: Request, events: seq<Event>, next: Option<string>)

  /** The successful pages among requests lo..hi - 1, in request order. */
  function Links(sent: seq<Request>, answers: map<nat, Outcome>, lo: nat, hi: nat): (r: seq<Link>)
    requires 1 <= lo <= hi <= |sent| + 1
    decreases hi
  {
    if lo == hi then []
    else
      var before := Links(sent, answers, lo, hi - 1);
      if hi - 1 in answers && answers[hi - 1].Page? then
        before + [Link(sent[hi - 2], answers[hi - 1].events, answers[hi - 1].next)]
      else before
  }

  function Concat(links: seq<Link>): seq<Event> {
    if links == [] then [] else Concat(links[..|links| - 1]) + links[|links| - 1].events
  }

  /** The first link starts without a cursor, and each further one asked with the cursor of the one before. */
  predicate IsChain(links: seq<Link>, filters: Filters) {
    links != [] ==>
      var n := |links| - 1;
      && links[n].request.filters == filters
      && links[n].request.cursor == (if n == 0 then None else links[n - 1].next)
      && (n > 0 ==> links[n].request.cursor.Some?)
      && IsChain(links[..n], filters)
  }

  lemma {:induction false} LinksAgree(
      s: seq<Request>, a: map<nat, Outcome>, s2: seq<Request>, a2: map<nat, Outcome>, lo: nat, hi: nat)
    requires 1 <= lo <= hi <= |s| + 1 && s <= s2
    requires forall id | lo <= id < hi :: (id in a <==> id in a2) && (id in a ==> a[id] == a2[id])
    ensures Links(s, a, lo, hi) == Links(s2, a2, lo, hi)
    decreases hi
  {
    if lo < hi {
      LinksAgree(s, a, s2, a2, lo, hi - 1);
      assert hi - 1 in a <==> hi - 1 in a2;
    }
  }

  /** The successful pages of the latest run so far. */
  function Loaded(s: State): seq<Link>
    requires 1 <= s.generation <= |s.sent|
  {
    Links(s.sent, s.answers, s.generation, |s.sent| + 1)
  }

  ghost predicate Sound(s: State) {
    && |s.sent| == s.hook.reqId && s.generation <= s.hook.reqId
    && (forall id | id in s.answers :: 1 <= id <= |s.sent|)
    && (s.hook.reqId == 0 ==> s == Initial())
    && (s.hook.reqId > 0 ==> s.generation > 0 && OfLatestRun(s) && Shown(s))
  }

  /** Requests after the latest run belong to it, and only the newest of them may be pending. */
  ghost predicate OfLatestRun(s: State)
    requires 1 <= s.generation <= |s.sent|
  {
    && s.sent[s.generation - 1].cursor == None
    && (forall i | s.generation <= i < |s.sent| :: s.sent[i].cursor.Some?)
    && s.hook.lastFilters == Some(s.sent[s.generation - 1].filters)
    && (forall id | s.generation <= id < |s.sent| :: id in s.answers)
    && (s.hook.inFlight <==> |s.sent| !in s.answers)
  }

  /** What is on the screen. */
  ghost predicate Shown(s: State)
    requires 1 <= s.generation <= |s.sent|
  {
    var links, h, v := Loaded(s), s.hook, s.hook.view;
    && IsChain(links, s.sent[s.generation - 1].filters)
    && v.events == Cap(Concat(links)) && (v.capped <==> |Concat(links)| >= MAX_SEARCH_RESULTS)
    && h.cursorRef == v.nextCursor
    && h.cursorRef == (if links == [] || v.capped then None else links[|links| - 1].next)
    && (h.inFlight && s.generation == |s.sent| ==> links == [])
    && (h.inFlight && s.generation < |s.sent| ==>
          h.cursorRef.Some? && s.sent[|s.sent| - 1] == Request(s.sent[s.generation - 1].filters, h.cursorRef))
  }

  lemma RunSound(s: State, filters: Filters)
    requires Sound(s)
    ensures Sound(Apply(s, Run(filters)))
  {
    var t := Apply(s, Run(filters));
    assert |t.sent| !in t.answers;
    assert Loaded(t) == [] by { assert Links(t.sent, t.answers, |t.sent|, |t.sent|) == []; }
    assert Concat(Loaded(t)) == [];
  }

  lemma LoadMoreLinks(s: State)
    requires Sound(s) && CanLoadMore(s.hook)
    ensures Loaded(Apply(s, LoadMore)) == Loaded(s)
  {
    var t := Apply(s, LoadMore);
    assert |t.sent| !in t.answers;
    LinksAgree(s.sent, s.answers, t.sent, t.answers, s.generation, |s.sent| + 1);
    assert Links(t.sent, t.answers, s.generation, |t.sent| + 1) == Links(t.sent, t.answers, s.generation, |t.sent|);
  }

  lemma LoadMoreSound(s: State)
    requires Sound(s)
    ensures Sound(Apply(s, LoadMore))
  {
    hide Links, Concat, IsChain;
    if CanLoadMore(s.hook) {
      LoadMoreLinks(s);
      var t := Apply(s, LoadMore);
      assert |t.sent| !in t.answers;
      hide Loaded;
      assert OfLatestRun(t);
      assert Shown(t);
    }
  }

  lemma StaleLinks(s: State, id: nat, out: Outcome)
    requires Sound(s) && Enabled(s, Respond(id, out)) && id != s.hook.reqId
    ensures id < s.generation && Loaded(Apply(s, Respond(id, out))) == Loaded(s)
  {
    hide Shown, Links;
    var t := Apply(s, Respond(id, out));
    assert id < s.generation;
    LinksAgree(s.sent, s.answers, t.sent, t.answers, s.generation, |s.sent| + 1);
  }

  /** A response to any request but the newest changes nothing the user sees. */
  lemma StaleSound(s: State, id: nat, out: Outcome)
    requires Sound(s) && Enabled(s, Respond(id, out)) && id != s.hook.reqId
    ensures Sound(Apply(s, Respond(id, out)))
  {
    hide Links, Concat, IsChain, Loaded;
    var t := Apply(s, Respond(id, out));
    StaleLinks(s, id, out);
    assert OfLatestRun(t);
    assert Shown(t);
  }

  /** The response to the newest request adds its page, if it is one, to the end of the chain. */
  lemma CurrentLinks(s: State, out: Outcome)
    requires Sound(s) && Enabled(s, Respond(s.hook.reqId, out))
    ensures Loaded(Apply(s, Respond(s.hook.reqId, out))) ==
            if out.Page? then Loaded(s) + [Link(s.sent[|s.sent| - 1], out.events, out.next)] else Loaded(s)
  {
    var n := |s.sent|;
    var answers := s.answers[n := out];
    LinksAgree(s.sent, s.answers, s.sent, answers, s.generation, n);
  }

  lemma CapAppend(a: seq<Event>, b: seq<Event>)
    requires |a| < MAX_SEARCH_RESULTS
    ensures Cap(Cap(a) + b) == Cap(a + b)
  {
  }

  lemma ChainAppend(links: seq<Link>, last: Link, filters: Filters)
    requires IsChain(links, filters) && last.request.filters == filters
    requires links == [] ==> last.request.cursor == None
    requires links != [] ==> last.request.cursor == links[|links| - 1].next && last.request.cursor.Some?
    ensures IsChain(links + [last], filters) && Concat(links + [last]) == Concat(links) + last.events
  {
    assert (links + [last])[..|links|] == links;
  }

  lemma CurrentLatest(s: State, out: Outcome)
    requires Sound(s) && Enabled(s, Respond(s.hook.reqId, out))
    ensures s.hook.inFlight && OfLatestRun(Apply(s, Respond(s.hook.reqId, out)))
  {
    hide Shown, Loaded;
  }

  lemma CurrentPageSound(s: State, out: Outcome)
    requires Sound(s) && Enabled(s, Respond(s.hook.reqId, out)) && out.Page?
    ensures Sound(Apply(s, Respond(s.hook.reqId, out)))
  {
    hide Links, Loaded, IsChain, Concat;
    var t := Apply(s, Respond(s.hook.reqId, out));
    CurrentLatest(s, out);
    CurrentLinks(s, out);
    var links, last := Loaded(s), Link(s.sent[|s.sent| - 1], out.events, out.next);
    assert Shown(s);
    assert OfLatestRun(s);
    hide OfLatestRun;
    ChainAppend(links, last, s.sent[s.generation - 1].filters);
    if s.generation < |s.sent| {
      CapAppend(Concat(links), out.events);
    } else {
      NoLinksNoEvents();
    }
    assert Shown(t);
  }

  lemma NoLinksNoEvents()
    ensures Concat([]) == [] && forall e: seq<Event> :: [] + e == e
  {
  }

  lemma CurrentErrorSound(s: State, out: Outcome)
    requires Sound(s) && Enabled(s, Respond(s.hook.reqId, out)) && out.Rejected?
    ensures Sound(Apply(s, Respond(s.hook.reqId, out)))
  {
    var t := Apply(s, Respond(s.hook.reqId, out));
    CurrentLinks(s, out);
    hide Links, Loaded, IsChain;
    assert Loaded(s) == [] ==> Concat(Loaded(s)) == [];
    hide Concat;
    assert OfLatestRun(t);
    assert Shown(t);
  }

  lemma StepSound(s: State, e: Step)
    requires Sound(s) && Enabled(s, e)
    ensures Sound(Apply(s, e))
  {
    hide Sound, Apply;
    match e
    case Run(f) => RunSound(s, f);
    case LoadMore => LoadMoreSound(s);
    case Respond(id, out) =>
      if id == s.hook.reqId {
        if out.Page? { CurrentPageSound(s, out); } else { CurrentErrorSound(s, out); }
      } else {
        StaleSound(s, id, out);
      }
  }

  /**
   What the screen says about the latest request: whether it is under way and which kind it is, how
   it failed, and whether a search has been answered. No request ever carries an empty cursor.
   */
  ghost predicate Told(s: State)
    requires Sound(s)
  {
    && (forall r | r in s.sent :: r.cursor != Some(""))
    && (s.hook.reqId > 0 ==>
          var v, last := s.hook.view, |s.sent|;
          var settled, first := last in s.answers, s.generation == last;
          var failed := settled && s.answers[last].Rejected?;
          && v.status == (if !settled then if first then Loading else LoadingMore
                          else if failed && first then Error else Success)
          && v.error == (if failed then Some(s.answers[last].message) else None)
          && (failed && first ==> v.nextCursor == None)
          && (v.hasSearched <==> s.generation in s.answers))
  }

  lemma StepTold(s: State, e: Step)
    requires Sound(s) && Told(s) && Enabled(s, e)
    ensures Sound(Apply(s, e)) && Told(Apply(s, e))
  {
    StepSound(s, e);
    hide Told, Apply;
    match e
    case Run(f) => RunTold(s, f);
    case LoadMore => LoadMoreTold(s);
    case Respond(id, out) => if id == s.hook.reqId { CurrentTold(s, out); } else { StaleTold(s, id, out); }
  }

  lemma RunTold(s: State, filters: Filters)
    requires Sound(s) && Told(s) && Sound(Apply(s, Run(filters)))
    ensures Told(Apply(s, Run(filters)))
  {
    hide Shown, OfLatestRun;
    var t := Apply(s, Run(filters));
    assert |t.sent| !in t.answers;
  }

  lemma LoadMoreTold(s: State)
    requires Sound(s) && Told(s) && Sound(Apply(s, LoadMore))
    ensures Told(Apply(s, LoadMore))
  {
    hide Shown;
    var t := Apply(s, LoadMore);
    assert |s.sent| + 1 !in s.answers;
  }

  lemma StaleTold(s: State, id: nat, out: Outcome)
    requires Sound(s) && Told(s) && Enabled(s, Respond(id, out)) && id != s.hook.reqId
    requires Sound(Apply(s, Respond(id, out)))
    ensures Told(Apply(s, Respond(id, out)))
  {
    StaleLinks(s, id, out);
    hide Shown, Loaded;
  }

  lemma CurrentTold(s: State, out: Outcome)
    requires Sound(s) && Told(s) && Enabled(s, Respond(s.hook.reqId, out))
    requires Sound(Apply(s, Respond(s.hook.reqId, out)))
    ensures Told(Apply(s, Respond(s.hook.reqId, out)))
  {
    hide Shown, Cap;
    assert s.generation == |s.sent| <==> s.sent[|s.sent| - 1].cursor.None?;
  }

  /** `steps` can be taken from `s` and leads to `t`. */
  predicate Runs(s: State, steps: seq<Step>, t: State)
    decreases |steps|
  {
    if steps == [] then s == t else Enabled(s, steps[0]) && Runs(Apply(s, steps[0]), steps[1..], t)
  }

  lemma {:induction false} RunsSound(s: State, steps: seq<Step>, t: State)
    requires Sound(s) && Runs(s, steps, t)
    ensures Sound(t)
    decreases |steps|
  {
    hide Sound, Apply;
    if steps != [] {
      StepSound(s, steps[0]);
      RunsSound(Apply(s, steps[0]), steps[1..], t);
    }
  }

  /**
   After any interleaving: what is shown is the capped concatenation of a cursor chain of the
   latest run's filters, made of exactly the pages answered since that run; it stays within the
   ceiling; and of the requests since that run at most one is unanswered.
   */
  lemma ShowsOneChain(steps: seq<Step>, s: State, id1: nat, id2: nat)
    requires Runs(Initial(), steps, s) && s.hook.reqId > 0
    ensures 1 <= s.generation <= |s.sent| == s.hook.reqId
    ensures s.sent[s.generation - 1].cursor == None && forall i | s.generation <= i < |s.sent| :: s.sent[i].cursor.Some?
    ensures s.hook.view.events == Cap(Concat(Loaded(s))) && |s.hook.view.events| <= MAX_SEARCH_RESULTS
    ensures IsChain(Loaded(s), s.sent[s.generation - 1].filters)
    ensures s.generation <= id1 <= |s.sent| && s.generation <= id2 <= |s.sent| && id1 !in s.answers && id2 !in s.answers
            ==> id1 == id2
  {
    hide Runs, Links, Loaded, IsChain, Concat;
    RunsSound(Initial(), steps, s);
  }

  lemma {:induction false} RunsTold(s: State, steps: seq<Step>, t: State)
    requires Sound(s) && Told(s) && Runs(s, steps, t)
    ensures Sound(t) && Told(t)
    decreases |steps|
  {
    hide Sound, Told, Apply;
    if steps != [] {
      StepTold(s, steps[0]);
      RunsTold(Apply(s, steps[0]), steps[1..], t);
    }
  }

  /** More can be asked for iff the screen shows a result with a cursor. */
  lemma MoreIffCursorShown(s: State)
    requires Sound(s) && Told(s)
    ensures CanLoadMore(s.hook) <==>
            s.hook.view.status == Success && s.hook.view.nextCursor.Some? && s.hook.view.nextCursor.value != ""
  {
    hide IsChain, Concat, Links;
  }

  /** After any interleaving the screen tells how the latest request stands, and offers more exactly when there is. */
  lemma ScreenTellsLatest(steps: seq<Step>, s: State)
    requires Runs(Initial(), steps, s)
    ensures Sound(s) && Told(s)
    ensures CanLoadMore(s.hook) <==>
            s.hook.view.status == Success && s.hook.view.nextCursor.Some? && s.hook.view.nextCursor.value != ""
  {
    hide Runs;
    RunsTold(Initial(), steps, s);
    MoreIffCursorShown(s);
  }

  // ------------------------------------------------------------------
  // Over the real store
  // ------------------------------------------------------------------

  /** The server's reading of an opaque cursor. */
  function KeyOf(cursor: Option<string>, decode: string -> Key): Option<Key> {
    if cursor.None? then None else Some(decode(cursor.value))
  }

  /** The page was the store's answer on some table of matching rows. */
  ghost predicate Served(link: Link, table: set<Event>, decode: string -> Key, limit: nat)
    requires limit > 0
  {
    && Distinct(table)
    && PageOf(table, KeyOf(link.request.cursor, decode), limit) ==
       KeysetPaging.Page(link.events, KeyOf(link.next, decode))
  }

  /** Keyset pages chained by the hook are strictly descending, even if the table changed between them. */
  lemma {:induction false} ChainDescends(
      links: seq<Link>, filters: Filters, tables: seq<set<Event>>, decode: string -> Key, limit: nat)
    requires IsChain(links, filters) && limit > 0 && |tables| == |links|
    requires forall k | 0 <= k < |links| :: Served(links[k], tables[k], decode, limit)
    ensures Descending(Concat(links))
    ensures links != [] && links[|links| - 1].next.Some? ==>
              && Concat(links) != []
              && Concat(links)[|Concat(links)| - 1].key == decode(links[|links| - 1].next.value)
    decreases |links|
  {
    hide PageOf, Descending;
    if links == [] {
      EmptyDescends();
    } else {
      var n := |links| - 1;
      var link := links[n];
      ChainDescends(links[..n], filters, tables[..n], decode, limit);
      assert Served(link, tables[n], decode, limit);
      PageFacts(tables[n], KeyOf(link.request.cursor, decode), limit);
      if n > 0 {
        DescendingConcat(Concat(links[..n]), link.events);
      } else {
        assert Concat(links) == [] + link.events == link.events;
      }
    }
  }

  lemma EmptyDescends()
    ensures Descending([])
  {
  }

  /** What the user sees is in strictly descending order with no row twice. */
  lemma ShowsNoRowTwice(steps: seq<Step>, s: State, tables: seq<set<Event>>, decode: string -> Key, limit: nat)
    requires Runs(Initial(), steps, s) && s.hook.reqId > 0 && limit > 0
    requires 1 <= s.generation <= |s.sent| && |tables| == |Loaded(s)|
    requires forall k | 0 <= k < |Loaded(s)| :: Served(Loaded(s)[k], tables[k], decode, limit)
    ensures Descending(s.hook.view.events)
  {
    hide Runs, Loaded, IsChain, Served;
    ShowsOneChain(steps, s, 0, 0);
    ChainDescends(Loaded(s), s.sent[s.generation - 1].filters, tables, decode, limit);
  }

  // ------------------------------------------------------------------
  // The hook
  // ------------------------------------------------------------------

  /** `useLogSearch`: its refs, its rendered state, and (ghost) the requests and responses so far. */
  class LogSearch {
    var reqId: nat
    var lastFilters: Option<Filters>
    var cursorRef: Option<string>
    var inFlight: bool
    var view: View
    ghost var st: State

    ghost predicate Valid()
      reads this
    {
      Sound(st) && Told(st) && st.hook == Hook(reqId, lastFilters, cursorRef, inFlight, view)
    }

    constructor ()
      ensures Valid() && st == Initial()
    {
      reqId, lastFilters, cursorRef, inFlight := 0, None, None, false;
      view := View(Idle, [], None, None, false, false);
      st := Initial();
    }

    /** Starts a search; the request with its number goes to the executor. */
    method Run(filters: Filters) returns (id: nat, request: Request)
      requires Valid()
      modifies this
      ensures Valid() && st == Apply(old(st), Step.Run(filters))
      ensures id == reqId && st.sent == old(st.sent) + [request]
    {
      hide Sound, Told;
      StepTold(st, Step.Run(filters));
      st := Apply(st, Step.Run(filters));
      reqId := reqId + 1;
      id := reqId;
      lastFilters := Some(filters);
      cursorRef := None;
      inFlight := true;
      view := View(Loading, [], None, None, false, false);
      request := Request(filters, None);
    }

    /** The response to a run. */
    method OnRunResponse(id: nat, out: Outcome)
      requires Valid() && Enabled(st, Respond(id, out)) && st.sent[id - 1].cursor == None
      modifies this
      ensures Valid() && st == Apply(old(st), Respond(id, out))
    {
      hide Sound, Told;
      StepTold(st, Respond(id, out));
      st := Apply(st, Respond(id, out));
      if id != reqId {
        return;
      }
      inFlight := false;
      match out {
        case Page(page, next) =>
          var capped := |page| >= MAX_SEARCH_RESULTS;
          var events := if capped then page[..MAX_SEARCH_RESULTS] else page;
          var nextCursor := if capped then None else next;
          cursorRef := nextCursor;
          view := View(Success, events, nextCursor, None, true, capped);
          assert [] + page == page;
        case Rejected(message) =>
          cursorRef := None;
          view := View(Error, [], None, Some(message), true, false);
      }
    }

    /** Asks for the next page; does nothing without a usable cursor or while a request is in flight. */
    method LoadMore() returns (asked: Option<Request>)
      requires Valid()
      modifies this
      ensures Valid() && st == Apply(old(st), Step.LoadMore)
      ensures st.sent == old(st.sent) + (if asked.Some? then [asked.value] else [])
      ensures asked.Some? <==>
                old(view).status == Success && old(view).nextCursor.Some? && old(view).nextCursor.value != ""
      ensures asked.Some? ==> old(lastFilters).Some? && asked.value == Request(old(lastFilters).value, old(cursorRef))
    {
      hide Sound, Told;
      MoreIffCursorShown(st);
      StepTold(st, Step.LoadMore);
      st := Apply(st, Step.LoadMore);
      if lastFilters.None? || cursorRef.None? || cursorRef.value == "" || inFlight {
        return None;
      }
      reqId := reqId + 1;
      inFlight := true;
      view := view.(status := LoadingMore, error := None);
      asked := Some(Request(lastFilters.value, cursorRef));
    }

    /** The response to a page load. */
    method OnLoadResponse(id: nat, out: Outcome)
      requires Valid() && Enabled(st, Respond(id, out)) && st.sent[id - 1].cursor.Some?
      modifies this
      ensures Valid() && st == Apply(old(st), Respond(id, out))
    {
      hide Sound, Told;
      StepTold(st, Respond(id, out));
      st := Apply(st, Respond(id, out));
      if id != reqId {
        return;
      }
      inFlight := false;
      match out {
        case Page(page, next) =>
          var combined := view.events + page;
          var capped := |combined| >= MAX_SEARCH_RESULTS;
          var events := if capped then combined[..MAX_SEARCH_RESULTS] else combined;
          var nextCursor := if capped then None else next;
          cursorRef := nextCursor;
          view := View(Success, events, nextCursor, None, true, capped);
        case Rejected(message) =>
          view := view.(status := Success, error := Some(message));
      }
    }
  }
}
