/**
 Keyset search over the hot store (pkg/logstore/logstore.go): the filter-to-SQL
 builder, the page cut, and what a client gets by following the cursor while the
 table changes under it.
 */
module KeysetPaging {
  import opened Common
  import opened PredicateGate
  import ColdQuery

  /** A row's place in the order; a uuid is its 128-bit value. */
  datatype Key = Key(ts: int, id: nat)

  predicate Less(a: Key, b: Key) {
    a.ts < b.ts || (a.ts == b.ts && a.id < b.id)
  }

  datatype Event = Event(
    tenant: string, key: Key, service: string, level: string, labels: map<string, string>, message: string)

  /** The primary key at work inside one tenant: different rows have different keys. */
  predicate Distinct(s: set<Event>) {
    forall a, b | a in s && b in s && a.key == b.key :: a == b
  }

  predicate Newest(s: set<Event>, m: Event) {
    m in s && forall e | e in s && e != m :: Less(e.key, m.key)
  }

  lemma {:induction false} NewestExists(s: set<Event>)
    requires s != {} && Distinct(s)
    ensures exists m :: Newest(s, m)
    decreases |s|
  {
    var x :| x in s;
    var rest := s - {x};
    if rest == {} {
      assert s == {x};
      assert Newest(s, x);
    } else {
      NewestExists(rest);
      var m :| Newest(rest, m);
      if Less(m.key, x.key) {
        assert Newest(s, x);
      } else {
        assert Newest(s, m);
      }
    }
  }

  /** ORDER BY ts DESC, id DESC. */
  ghost function SortDesc(s: set<Event>): (r: seq<Event>)
    requires Distinct(s)
    ensures |r| == |s| && Descending(r) && forall e :: e in r <==> e in s
    decreases |s|
  {
    if s == {} then []
    else
      NewestExists(s);
      var m :| Newest(s, m);
      assert |s - {m}| == |s| - 1;
      [m] + SortDesc(s - {m})
  }

  ghost predicate Descending(r: seq<Event>) {
    forall i, j | 0 <= i < j < |r| :: Less(r[j].key, r[i].key)
  }

  /** A descending list is determined by its elements. */
  lemma {:induction false} DescendingUnique(a: seq<Event>, b: seq<Event>)
    requires Descending(a) && Descending(b) && forall e :: e in a <==> e in b
    ensures a == b
    decreases |a|
  {
    assert |a| > 0 ==> a[0] in a && a[0] in b;
    assert |b| > 0 ==> b[0] in b && b[0] in a;
    if a != [] {
      assert a[0] == b[0];
      assert forall e :: e in a[1..] <==> e in a && e != a[0];
      assert forall e :: e in b[1..] <==> e in b && e != b[0];
      DescendingUnique(a[1..], b[1..]);
    }
  }

  // ------------------------------------------------------------------
  // Pages
  // ------------------------------------------------------------------

  datatype Page = Page(events: seq<Event>, next: Option<Key>)

  /** `paginate`: one row more than the page was fetched; its presence means another page. */
  function Paginate(events: seq<Event>, limit: nat): Page
    requires limit > 0
  {
    if |events| <= limit then Page(events, None)
    else Page(events[..limit], Some(events[limit - 1].key))
  }

  function Below(s: set<Event>, cursor: Option<Key>): set<Event> {
    set e | e in s && (cursor.Some? ==> Less(e.key, cursor.value))
  }

  /** One search on the rows that match the filters. */
  ghost function PageOf(matching: set<Event>, cursor: Option<Key>, limit: nat): Page
    requires Distinct(matching) && limit > 0
  {
    Paginate(FirstN(SortDesc(Below(matching, cursor)), limit + 1), limit)
  }

  datatype Walk = Walk(events: seq<Event>, pages: nat, complete: bool)

  /** Following the cursor; `tables[k]` is what matches when page k is asked for. */
  ghost function Follow(tables: seq<set<Event>>, cursor: Option<Key>, limit: nat): (w: Walk)
    requires (forall t | t in tables :: Distinct(t)) && limit > 0
    ensures w.pages <= |tables|
    decreases |tables|
  {
    if tables == [] then Walk([], 0, false)
    else
      var p := PageOf(tables[0], cursor, limit);
      if p.next.None? then Walk(p.events, 1, true)
      else
        var rest := Follow(tables[1..], p.next, limit);
        Walk(p.events + rest.events, 1 + rest.pages, rest.complete)
  }

  ghost predicate AllBelow(r: seq<Event>, cursor: Option<Key>) {
    cursor.Some? ==> forall i | 0 <= i < |r| :: Less(r[i].key, cursor.value)
  }

  /** Cutting a descending list after `limit` rows: what is cut off is below the last kept key. */
  lemma CutFacts(sorted: seq<Event>, limit: nat)
    requires Descending(sorted) && limit > 0
    ensures var p := Paginate(FirstN(sorted, limit + 1), limit);
            && p.events <= sorted && Descending(p.events)
            && (p.next.None? <==> |sorted| <= limit) && (p.next.None? ==> p.events == sorted)
            && (p.next.Some? ==>
                  && |p.events| == limit && p.next.value == p.events[limit - 1].key
                  && forall e | e in sorted :: e in p.events || Less(e.key, p.next.value))
  {
    var p := Paginate(FirstN(sorted, limit + 1), limit);
    if p.next.Some? {
      assert p.events == sorted[..limit];
      forall e | e in sorted ensures e in p.events || Less(e.key, p.next.value) {
        var i :| 0 <= i < |sorted| && sorted[i] == e;
        if i < limit { assert p.events[i] == e; }
      }
    }
  }

  /** A page is the newest part of what is below the cursor, and its own cursor is its last key. */
  lemma PageFacts(matching: set<Event>, cursor: Option<Key>, limit: nat)
    requires Distinct(matching) && limit > 0
    ensures var p := PageOf(matching, cursor, limit);
            && Descending(p.events) && AllBelow(p.events, cursor)
            && (forall e | e in p.events :: e in Below(matching, cursor))
            && (p.next.None? <==> |Below(matching, cursor)| <= limit)
            && (p.next.Some? ==>
                  && |p.events| == limit && p.next.value == p.events[limit - 1].key
                  && forall e | e in Below(matching, cursor) :: e in p.events || Less(e.key, p.next.value))
            && (p.next.None? ==> forall e | e in Below(matching, cursor) :: e in p.events)
  {
    hide SortDesc, Paginate, FirstN;
    var sorted := SortDesc(Below(matching, cursor));
    CutFacts(sorted, limit);
    hide Descending;
    var p := PageOf(matching, cursor, limit);
    forall e | e in p.events ensures e in Below(matching, cursor) {
      var i :| 0 <= i < |p.events| && p.events[i] == e;
      assert e == sorted[i] && e in sorted;
    }
    forall i | 0 <= i < |p.events| ensures cursor.Some? ==> Less(p.events[i].key, cursor.value) {
      assert p.events[i] in p.events;
    }
  }

  lemma DescendingConcat(a: seq<Event>, b: seq<Event>)
    requires Descending(a) && Descending(b)
    requires a != [] && forall i | 0 <= i < |b| :: Less(b[i].key, a[|a| - 1].key)
    ensures Descending(a + b)
  {
    var c := a + b;
    forall i, j | 0 <= i < j < |c| ensures Less(c[j].key, c[i].key) {
      if i < |a| && j >= |a| && i < |a| - 1 {
        assert Less(a[|a| - 1].key, a[i].key);
      }
    }
  }

  /** Whatever happens to the table between pages, the keys come strictly descending: no repeats. */
  lemma {:induction false} FollowDescends(tables: seq<set<Event>>, cursor: Option<Key>, limit: nat)
    requires (forall t | t in tables :: Distinct(t)) && limit > 0
    ensures Descending(Follow(tables, cursor, limit).events) && AllBelow(Follow(tables, cursor, limit).events, cursor)
    decreases |tables|
  {
    hide PageOf;
    if tables != [] {
      assert tables[0] in tables;
      PageFacts(tables[0], cursor, limit);
      var p := PageOf(tables[0], cursor, limit);
      if p.next.Some? {
        FollowDescends(tables[1..], p.next, limit);
        DescendingConcat(p.events, Follow(tables[1..], p.next, limit).events);
      }
    }
  }

  /** A row that matches at every page request of a finished walk, and was below the start, is returned. */
  lemma {:induction false} FollowFindsStable(tables: seq<set<Event>>, cursor: Option<Key>, limit: nat, e: Event)
    requires (forall t | t in tables :: Distinct(t)) && limit > 0
    requires Follow(tables, cursor, limit).complete && e in Below({e}, cursor)
    requires forall k | 0 <= k < Follow(tables, cursor, limit).pages :: e in tables[k]
    ensures e in Follow(tables, cursor, limit).events
    decreases |tables|
  {
    hide PageOf;
    assert tables[0] in tables;
    PageFacts(tables[0], cursor, limit);
    var p := PageOf(tables[0], cursor, limit);
    assert e in Below(tables[0], cursor);
    if p.next.Some? && e !in p.events {
      forall k | 0 <= k < Follow(tables[1..], p.next, limit).pages ensures e in tables[1..][k] {
        assert tables[1..][k] == tables[k + 1];
      }
      FollowFindsStable(tables[1..], p.next, limit, e);
    }
  }

  /** Nothing is invented: every returned row matched when its page was read. */
  lemma {:induction false} FollowIsSound(tables: seq<set<Event>>, cursor: Option<Key>, limit: nat, e: Event)
    requires (forall t | t in tables :: Distinct(t)) && limit > 0
    requires e in Follow(tables, cursor, limit).events
    ensures exists k | 0 <= k < |tables| :: e in tables[k]
    decreases |tables|
  {
    hide PageOf;
    if tables != [] {
      assert tables[0] in tables;
      PageFacts(tables[0], cursor, limit);
      var p := PageOf(tables[0], cursor, limit);
      if e !in p.events {
        FollowIsSound(tables[1..], p.next, limit, e);
        var k :| 0 <= k < |tables[1..]| && e in tables[1..][k];
        assert e in tables[k + 1];
      }
    }
  }

  function PageCount(n: nat, limit: nat): nat
    requires limit > 0
  {
    Max(1, CeilDiv(n, limit))
  }

  lemma PageCountStep(n: nat, limit: nat)
    requires limit > 0
    ensures PageCount(n, limit) >= 1
    ensures n <= limit ==> PageCount(n, limit) == 1
    ensures n > limit ==> PageCount(n, limit) == 1 + PageCount(n - limit, limit)
  {
    hide CeilDiv;
    CeilDivBound(n, limit, 1);
    if n > limit {
      var all, rest := CeilDiv(n, limit), CeilDiv(n - limit, limit);
      CeilDivBound(n - limit, limit, rest);
      CeilDivBound(n, limit, rest + 1);
      CeilDivBound(n, limit, all);
      CeilDivBound(n - limit, limit, all - 1);
      CeilDivBound(n - limit, limit, 0);
      assert (rest + 1) * limit == rest * limit + limit;
      assert (all - 1) * limit == all * limit - limit;
    }
  }

  /** Of the rows below the cursor, a page that was not the last keeps exactly those not below its own cursor. */
  lemma KeptOrBelow(matching: set<Event>, cursor: Option<Key>, limit: nat, e: Event)
    requires Distinct(matching) && limit > 0 && PageOf(matching, cursor, limit).next.Some?
    ensures var p := PageOf(matching, cursor, limit);
            e in Below(matching, p.next) <==> e in Below(matching, cursor) && e !in p.events
  {
    PageFacts(matching, cursor, limit);
    hide PageOf, Distinct, SortDesc;
    var p := PageOf(matching, cursor, limit);
    if e in p.events {
      var i :| 0 <= i < |p.events| && p.events[i] == e;
      assert i < limit - 1 ==> Less(p.events[limit - 1].key, p.events[i].key);
    }
    assert cursor.Some? ==> Less(p.events[limit - 1].key, cursor.value);
  }

  /** So the next page starts from a smaller set. */
  lemma BelowNext(matching: set<Event>, cursor: Option<Key>, limit: nat)
    requires Distinct(matching) && limit > 0 && PageOf(matching, cursor, limit).next.Some?
    ensures |Below(matching, PageOf(matching, cursor, limit).next)| == |Below(matching, cursor)| - limit
  {
    PageFacts(matching, cursor, limit);
    hide PageOf, Distinct, SortDesc;
    var p := PageOf(matching, cursor, limit);
    DescendingSize(p.events);
    hide Descending, AllBelow;
    var kept := set e | e in p.events;
    forall e ensures e in Below(matching, p.next) <==> e in Below(matching, cursor) - kept {
      KeptOrBelow(matching, cursor, limit, e);
    }
    assert Below(matching, p.next) == Below(matching, cursor) - kept;
    assert kept <= Below(matching, cursor);
    hide Below;
  }

  lemma {:induction false} DescendingSize(r: seq<Event>)
    requires Descending(r)
    ensures |set e | e in r| == |r|
    decreases |r|
  {
    if r != [] {
      DescendingSize(r[1..]);
      assert (set e | e in r) == (set e | e in r[1..]) + {r[0]};
      assert r[0] !in r[1..];
    }
  }

  /** On a table that stays put, a walk finishes after max(1, ceil(n / limit)) pages. */
  lemma {:induction false} FollowFinishes(
      tables: seq<set<Event>>, matching: set<Event>, cursor: Option<Key>, limit: nat)
    requires Distinct(matching) && limit > 0 && forall t | t in tables :: t == matching
    requires |tables| >= PageCount(|Below(matching, cursor)|, limit)
    ensures var w := Follow(tables, cursor, limit);
            w.complete && w.pages == PageCount(|Below(matching, cursor)|, limit)
    decreases |tables|
  {
    hide PageOf, PageCount, Distinct, SortDesc, Descending, AllBelow;
    PageCountStep(|Below(matching, cursor)|, limit);
    assert tables[0] in tables;
    PageFacts(matching, cursor, limit);
    var p := PageOf(matching, cursor, limit);
    if p.next.Some? {
      BelowNext(matching, cursor, limit);
      hide Below;
      forall t | t in tables[1..] ensures t == matching {
        assert t in tables;
      }
      FollowFinishes(tables[1..], matching, p.next, limit);
    }
  }

  /** On a table that stays put, the pages concatenate to the one big sorted result. */
  lemma FixedTableWalk(tables: seq<set<Event>>, matching: set<Event>, limit: nat)
    requires Distinct(matching) && limit > 0 && forall t | t in tables :: t == matching
    requires |tables| >= PageCount(|matching|, limit)
    ensures var w := Follow(tables, None, limit);
            w.events == SortDesc(matching) && w.pages == PageCount(|matching|, limit) && w.complete
  {
    hide Follow, SortDesc, PageCount, Distinct;
    assert Below(matching, None) == matching;
    FollowFinishes(tables, matching, None, limit);
    FollowDescends(tables, None, limit);
    var w := Follow(tables, None, limit);
    forall e ensures e in w.events <==> e in matching {
      if e in w.events {
        FollowIsSound(tables, None, limit, e);
        var k :| 0 <= k < |tables| && e in tables[k];
        assert tables[k] in tables;
      }
      if e in matching {
        forall k | 0 <= k < w.pages ensures e in tables[k] {
          assert tables[k] in tables;
        }
        FollowFindsStable(tables, None, limit, e);
      }
    }
    DescendingUnique(w.events, SortDesc(matching));
  }

  /**
   The promise to a client while rows come and go: strictly descending keys, so no
   repeats, and every row that matches throughout a finished walk exactly once.
   */
  lemma ChangingTableWalk(tables: seq<set<Event>>, limit: nat, e: Event)
    requires (forall t | t in tables :: Distinct(t)) && limit > 0
    ensures var w := Follow(tables, None, limit);
            && Descending(w.events)
            && (forall i, j | 0 <= i < |w.events| && 0 <= j < |w.events| && w.events[i] == w.events[j] :: i == j)
            && (w.complete && (forall k | 0 <= k < w.pages :: e in tables[k]) ==> e in w.events)
  {
    hide Follow;
    FollowDescends(tables, None, limit);
    var w := Follow(tables, None, limit);
    if w.complete && forall k | 0 <= k < w.pages :: e in tables[k] {
      FollowFindsStable(tables, None, limit, e);
    }
  }

  /** Rows inserted while a client pages neither hide nor repeat a row that was there at the start. */
  lemma InsertsKeepTheWalk(tables: seq<set<Event>>, limit: nat, e: Event)
    requires (forall t | t in tables :: Distinct(t)) && limit > 0 && tables != []
    requires forall k | 0 <= k < |tables| :: tables[0] <= tables[k]
    requires Follow(tables, None, limit).complete && e in tables[0]
    ensures var r := Follow(tables, None, limit).events;
            exists i :: 0 <= i < |r| && r[i] == e && forall j | 0 <= j < |r| && j != i :: r[j].key != e.key
  {
    hide Follow;
    var w := Follow(tables, None, limit);
    assert forall k | 0 <= k < w.pages :: tables[0] <= tables[k] && e in tables[k];
    ChangingTableWalk(tables, limit, e);
    var i :| 0 <= i < |w.events| && w.events[i] == e;
    forall j | 0 <= j < |w.events| && j != i ensures w.events[j].key != e.key {
      assert if j < i then Less(w.events[i].key, w.events[j].key) else Less(w.events[j].key, w.events[i].key);
    }
  }

  // ------------------------------------------------------------------
  // From a query to a statement and back
  // ------------------------------------------------------------------

  /** A search; absent bounds are the zero times of the source. */
  datatype Search = Search(
    text: string, service: string, level: Option<string>, labels: map<string, string>,
    from: Option<int>, to: Option<int>, cursor: Option<Key>, limit: int)

  /** Full-text match of a query against a row, as the database decides it. */
  type TextSearch = (string, Event) -> bool

  /** The half-open time range [from, to). */
  predicate InWindow(from: Option<int>, to: Option<int>, ts: int) {
    (from.Some? ==> from.value <= ts) && (to.Some? ==> ts < to.value)
  }

  /** What the query asks of a row, cursor aside. */
  predicate Matches(tenant: string, q: Search, fts: TextSearch, e: Event) {
    && e.tenant == tenant && InWindow(q.from, q.to, e.key.ts)
    && (TrimSpace(q.text) != "" ==> fts(TrimSpace(q.text), e))
    && HasLabels(e, q.labels)
    && (TrimSpace(q.service) != "" ==> e.service == TrimSpace(q.service))
    && (q.level.Some? ==> e.level == q.level.value)
  }

  predicate HasLabels(e: Event, labels: map<string, string>) {
    forall k | k in labels :: k in e.labels && e.labels[k] == labels[k]
  }

  lemma TrimTwice(s: string)
    ensures TrimSpace(TrimSpace(s)) == TrimSpace(s)
  {
  }

  /** Every filter narrows by its own field and nothing else; blanks around a text or a service do not count. */
  lemma FiltersNarrow(tenant: string, q: Search, fts: TextSearch, e: Event)
    ensures Matches(tenant, Search("", "", None, map[], None, None, q.cursor, q.limit), fts, e) <==> e.tenant == tenant
    ensures Matches(tenant, q, fts, e) <==>
            Matches(tenant, q.(level := None), fts, e) && (q.level == None || q.level == Some(e.level))
    ensures Matches(tenant, q, fts, e) <==>
            && Matches(tenant, q.(labels := map[]), fts, e)
            && forall k | k in q.labels :: k in e.labels && e.labels[k] == q.labels[k]
    ensures Matches(tenant, q, fts, e) <==>
            && Matches(tenant, q.(service := ""), fts, e)
            && (TrimSpace(q.service) == "" || TrimSpace(q.service) == e.service)
    ensures Matches(tenant, q, fts, e) <==>
            Matches(tenant, q.(text := ""), fts, e) && (TrimSpace(q.text) == "" || fts(TrimSpace(q.text), e))
    ensures Matches(tenant, q, fts, e) <==>
            Matches(tenant, q.(from := None), fts, e) && (q.from == None || q.from.value <= e.key.ts)
    ensures Matches(tenant, q, fts, e) <==>
            Matches(tenant, q.(to := None), fts, e) && (q.to == None || e.key.ts < q.to.value)
    ensures Matches(tenant, q, fts, e) <==>
            Matches(tenant, q.(text := TrimSpace(q.text), service := TrimSpace(q.service)), fts, e)
  {
    TrimTwice(q.text);
    TrimTwice(q.service);
    assert TrimSpace("") == "";
    hide TrimSpace;
  }

  /** A bound argument. */
  datatype Arg = Text(s: string) | Time(t: int) | Id(n: nat) | Labels(m: map<string, string>) | Count(c: nat)

  /** A conjunct of the WHERE; the numbers are its placeholders. */
  datatype Clause =
    | TenantIs(p: nat) | TsFrom(p: nat) | TsBefore(p: nat) | TextMatches(p: nat) | LabelsContain(p: nat)
    | ServiceIs(p: nat) | LevelIs(p: nat) | KeyBelow(p: nat, p2: nat)

  /** The parameter $p; positions count from one. */
  function Bound(args: seq<Arg>, p: nat): Option<Arg> {
    if 1 <= p <= |args| then Some(args[p - 1]) else None
  }

  /** What a conjunct says of a row when its first parameter is `a`. */
  predicate Means(c: Clause, a: Arg, args: seq<Arg>, fts: TextSearch, e: Event) {
    match c
    case TenantIs(_) => a.Text? && e.tenant == a.s
    case TsFrom(_) => a.Time? && a.t <= e.key.ts
    case TsBefore(_) => a.Time? && e.key.ts < a.t
    case TextMatches(_) => a.Text? && fts(a.s, e)
    case LabelsContain(_) => a.Labels? && HasLabels(e, a.m)
    case ServiceIs(_) => a.Text? && e.service == a.s
    case LevelIs(_) => a.Text? && e.level == a.s
    case KeyBelow(_, p2) =>
      var id := Bound(args, p2);
      a.Time? && id.Some? && id.value.Id? && Less(e.key, Key(a.t, id.value.n))
  }

  predicate Holds(c: Clause, args: seq<Arg>, fts: TextSearch, e: Event) {
    Bound(args, c.p).Some? && Means(c, Bound(args, c.p).value, args, fts, e)
  }

  predicate Selects(where: seq<Clause>, args: seq<Arg>, fts: TextSearch, e: Event) {
    forall c | c in where :: Holds(c, args, fts, e)
  }

  function ClausePlaceholders(c: Clause): seq<nat> {
    if c.KeyBelow? then [c.p, c.p2] else [c.p]
  }

  function Placeholders(where: seq<Clause>): seq<nat> {
    if where == [] then [] else Placeholders(where[..|where| - 1]) + ClausePlaceholders(where[|where| - 1])
  }

  /** $1, $2, ..., $n, each once and in order. */
  function Upto(n: nat): (r: seq<nat>)
    ensures |r| == n
  {
    seq(n, i requires 0 <= i < n => i + 1)
  }

  lemma {:induction false} PlaceholdersBounded(where: seq<Clause>, n: nat, d: Clause)
    requires d in where && forall p | p in Placeholders(where) :: 1 <= p <= n
    ensures 1 <= d.p <= n && (d.KeyBelow? ==> 1 <= d.p2 <= n)
    decreases |where|
  {
    var front, last := where[..|where| - 1], where[|where| - 1];
    if d == last {
      assert ClausePlaceholders(d)[0] in Placeholders(where);
      assert d.KeyBelow? ==> ClausePlaceholders(d)[1] in Placeholders(where);
    } else {
      forall p | p in Placeholders(front) ensures 1 <= p <= n {
        assert p in Placeholders(where);
      }
      PlaceholdersBounded(front, n, d);
    }
  }

  /** Arguments appended later leave the conjuncts already written alone. */
  lemma MoreArgs(where: seq<Clause>, args: seq<Arg>, more: seq<Arg>, fts: TextSearch, e: Event)
    requires Placeholders(where) == Upto(|args|)
    ensures Selects(where, args + more, fts, e) <==> Selects(where, args, fts, e)
  {
    forall c | c in where ensures Holds(c, args + more, fts, e) <==> Holds(c, args, fts, e) {
      PlaceholdersBounded(where, |args|, c);
    }
  }

  lemma PlaceholdersSnoc(where: seq<Clause>, args: seq<Arg>, c: Clause)
    requires Placeholders(where) == Upto(|args|)
    requires ClausePlaceholders(c) == [|args| + 1] || ClausePlaceholders(c) == [|args| + 1, |args| + 2]
    ensures Placeholders(where + [c]) == Upto(|args| + |ClausePlaceholders(c)|)
  {
    assert (where + [c])[..|where|] == where;
  }

  /** A new conjunct over freshly bound arguments adds exactly its own condition. */
  lemma AddClause(where: seq<Clause>, args: seq<Arg>, c: Clause, more: seq<Arg>, fts: TextSearch)
    requires Placeholders(where) == Upto(|args|) && |ClausePlaceholders(c)| == |more|
    requires ClausePlaceholders(c) == [|args| + 1] || ClausePlaceholders(c) == [|args| + 1, |args| + 2]
    ensures Placeholders(where + [c]) == Upto(|args + more|)
    ensures forall e :: Selects(where + [c], args + more, fts, e) <==>
                        Selects(where, args, fts, e) && Holds(c, args + more, fts, e)
  {
    PlaceholdersSnoc(where, args, c);
    hide Placeholders, Holds, ClausePlaceholders;
    forall e
      ensures Selects(where + [c], args + more, fts, e) <==>
              Selects(where, args, fts, e) && Holds(c, args + more, fts, e)
    {
      MoreArgs(where, args, more, fts, e);
      assert forall d :: d in where + [c] <==> d in where || d == c;
    }
  }

  /** Adds a conjunct with one parameter when its filter is set. */
  method AddIf(isSet: bool, where: seq<Clause>, args: seq<Arg>, c: Clause, a: Arg, ghost fts: TextSearch)
    returns (w: seq<Clause>, b: seq<Arg>)
    requires Placeholders(where) == Upto(|args|) && ClausePlaceholders(c) == [|args| + 1]
    ensures Placeholders(w) == Upto(|b|)
    ensures forall e :: Selects(w, b, fts, e) <==>
                        Selects(where, args, fts, e) && (isSet ==> Means(c, a, [], fts, e))
  {
    w, b := where, args;
    if isSet {
      w, b := where + [c], args + [a];
      AddClause(where, args, c, [a], fts);
      hide Selects, Placeholders;
    }
  }

  /** The conjuncts for the tenant and the time range. */
  method BuildWindow(tenant: string, q: Search, ghost fts: TextSearch) returns (where: seq<Clause>, args: seq<Arg>)
    ensures Placeholders(where) == Upto(|args|)
    ensures forall e :: Selects(where, args, fts, e) <==> e.tenant == tenant && InWindow(q.from, q.to, e.key.ts)
  {
    hide Placeholders, Selects, Upto;
    FirstClause(tenant, fts);
    where, args := [TenantIs(1)], [Text(tenant)];
    var from, to := if q.from.Some? then q.from.value else 0, if q.to.Some? then q.to.value else 0;
    where, args := AddIf(q.from.Some?, where, args, TsFrom(|args| + 1), Time(from), fts);
    where, args := AddIf(q.to.Some?, where, args, TsBefore(|args| + 1), Time(to), fts);
  }

  /** The conjuncts for everything but the cursor. */
  method BuildFilters(tenant: string, q: Search, ghost fts: TextSearch) returns (where: seq<Clause>, args: seq<Arg>)
    ensures Placeholders(where) == Upto(|args|)
    ensures forall e :: Selects(where, args, fts, e) <==> Matches(tenant, q, fts, e)
  {
    hide Placeholders, Selects, TrimSpace, Upto, InWindow;
    where, args := BuildWindow(tenant, q, fts);
    var text := TrimSpace(q.text);
    where, args := AddIf(text != "", where, args, TextMatches(|args| + 1), Text(text), fts);
    where, args := AddIf(|q.labels| > 0, where, args, LabelsContain(|args| + 1), Labels(q.labels), fts);
    var svc := TrimSpace(q.service);
    where, args := AddIf(svc != "", where, args, ServiceIs(|args| + 1), Text(svc), fts);
    var level := if q.level.Some? then q.level.value else "";
    where, args := AddIf(q.level.Some?, where, args, LevelIs(|args| + 1), Text(level), fts);
  }

  /**
   `buildSearch`: the tenant first, each filter only when set, every value a fresh
   placeholder. The statement selects exactly the rows the query asks for.
   */
  method BuildSearch(tenant: string, q: Search, fetch: nat, ghost fts: TextSearch)
    returns (where: seq<Clause>, limitAt: nat, args: seq<Arg>)
    ensures Placeholders(where) + [limitAt] == Upto(|args|)
    ensures Bound(args, limitAt) == Some(Count(fetch))
    ensures forall e :: Selects(where, args, fts, e) <==>
                        Matches(tenant, q, fts, e) && (q.cursor.Some? ==> Less(e.key, q.cursor.value))
  {
    hide Placeholders, Selects, TrimSpace, Matches;
    where, args := BuildFilters(tenant, q, fts);
    if q.cursor.Some? {
      var c, more := KeyBelow(|args| + 1, |args| + 2), [Time(q.cursor.value.ts), Id(q.cursor.value.id)];
      AddClause(where, args, c, more, fts);
      where, args := where + [c], args + more;
    }
    forall e ensures Selects(where, args + [Count(fetch)], fts, e) <==> Selects(where, args, fts, e) {
      MoreArgs(where, args, [Count(fetch)], fts, e);
    }
    args := args + [Count(fetch)];
    limitAt := |args|;
  }

  lemma FirstClause(tenant: string, fts: TextSearch)
    ensures Placeholders([TenantIs(1)]) == Upto(1)
    ensures forall e :: Selects([TenantIs(1)], [Text(tenant)], fts, e) <==> e.tenant == tenant
  {
    assert Placeholders([TenantIs(1)][..0]) == [];
    forall e ensures Selects([TenantIs(1)], [Text(tenant)], fts, e) <==> e.tenant == tenant {
      assert TenantIs(1) in [TenantIs(1)];
      assert Holds(TenantIs(1), [Text(tenant)], fts, e) <==> e.tenant == tenant;
    }
  }

  // ------------------------------------------------------------------
  // Search
  // ------------------------------------------------------------------

  /** PRIMARY KEY (tenant_id, ts, id). */
  ghost predicate PrimaryKey(table: set<Event>) {
    forall a, b | a in table && b in table && a.tenant == b.tenant && a.key == b.key :: a == b
  }

  function Matching(table: set<Event>, tenant: string, q: Search, fts: TextSearch): set<Event> {
    set e | e in table && Matches(tenant, q, fts, e)
  }

  lemma MatchingDistinct(table: set<Event>, tenant: string, q: Search, fts: TextSearch)
    requires PrimaryKey(table)
    ensures Distinct(Matching(table, tenant, q, fts))
  {
    hide TrimSpace, HasLabels;
  }

  lemma NewestFirst(s: set<Event>, m: Event)
    requires Distinct(s) && Newest(s, m)
    ensures SortDesc(s) == [m] + SortDesc(s - {m})
  {
    hide SortDesc;
    var rest := SortDesc(s - {m});
    forall i | 0 <= i < |rest| ensures Less(rest[i].key, m.key) {
      assert rest[i] in rest;
    }
    assert Descending([m] + rest);
    assert forall e :: e in [m] + rest <==> e == m || e in rest;
    hide Descending, Less;
    DescendingUnique(SortDesc(s), [m] + rest);
  }

  lemma FetchStep(rows: seq<Event>, left: set<Event>, m: Event)
    requires Distinct(left) && Newest(left, m)
    ensures Distinct(left - {m}) && rows + [m] + SortDesc(left - {m}) == rows + SortDesc(left)
  {
    NewestFirst(left, m);
    hide SortDesc;
    assert rows + ([m] + SortDesc(left - {m})) == rows + [m] + SortDesc(left - {m});
  }

  /** The database's half: the first n of the selected rows, newest first. */
  method FetchNewest(selected: set<Event>, n: nat) returns (rows: seq<Event>)
    requires Distinct(selected)
    ensures rows == FirstN(SortDesc(selected), n)
  {
    hide SortDesc, Descending, Less, Distinct;
    rows := [];
    var left := selected;
    assert [] + SortDesc(left) == SortDesc(selected);
    while |rows| < n && left != {}
      invariant Distinct(left) && |rows| <= n
      invariant rows + SortDesc(left) == SortDesc(selected)
      decreases |left|
    {
      NewestExists(left);
      var m :| m in left && Newest(left, m);
      FetchStep(rows, left, m);
      rows, left := rows + [m], left - {m};
    }
    assert left == {} ==> SortDesc(left) == [];
    assert rows == SortDesc(selected)[..|rows|];
  }

  datatype SearchResult = Failed | Found(page: Page)

  /**
   `Store.Search` on a snapshot of the table. `up` is whether the database answers.
   The page is the page of the rows that match for this tenant, whatever other
   tenants have stored.
   */
  method SearchStore(tenant: string, q: Search, table: set<Event>, fts: TextSearch, up: bool) returns (r: SearchResult)
    requires PrimaryKey(table)
    ensures r.Found? <==> ColdQuery.IsUuid(tenant) && up
    ensures Distinct(Matching(table, tenant, q, fts))
    ensures r.Found? ==> r.page == PageOf(Matching(table, tenant, q, fts), q.cursor, ColdQuery.ClampLimit(q.limit))
  {
    hide Matches, Selects, SortDesc;
    MatchingDistinct(table, tenant, q, fts);
    if !ColdQuery.IsUuid(tenant) {
      return Failed;
    }
    var limit := ColdQuery.ClampLimit(q.limit);
    var where, limitAt, args := BuildSearch(tenant, q, limit + 1, fts);
    if !up {
      return Failed;
    }
    var selected := set e | e in table && Selects(where, args, fts, e);
    assert selected == Below(Matching(table, tenant, q, fts), q.cursor);
    var rows := FetchNewest(selected, args[limitAt - 1].c);
    r := Found(Paginate(rows, limit));
  }
}
