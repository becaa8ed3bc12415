/**
 Search over a hot and a cold store (services/query-service/internal/app/tiered_search.go):
 routing by time window, and the union of the two halves of a straddling query with its
 in-place deduplication, compared with one virtual store that holds both halves.
 */
module TieredSearch {
  import opened Common
  import opened KeysetPaging
  import ColdQuery

  /** A row as the merge sees it. Id 0 is the empty id; other ids keep their text order. */
  datatype Row = Row(key: Key, body: string)

  datatype Query = Query(from: Option<int>, to: Option<int>, cursor: Option<Key>, limit: int)

  datatype Answer = Unavailable | Answer(rows: seq<Row>, next: Option<Key>)

  /** A store's Search, errors included. */
  type Searcher = Query -> Answer

  function KeysOf(rows: seq<Row>): (r: seq<Key>)
    ensures |r| == |rows|
  {
    seq(|rows|, i requires 0 <= i < |rows| => rows[i].key)
  }

  /** Ordered by (ts desc, id desc); equal keys in any order. */
  predicate Sorted(rows: seq<Row>) {
    forall i, j | 0 <= i < j < |rows| :: !Less(rows[i].key, rows[j].key)
  }

  predicate StrictlySorted(rows: seq<Row>) {
    forall i, j | 0 <= i < j < |rows| :: Less(rows[j].key, rows[i].key)
  }

  // ------------------------------------------------------------------
  // Windows
  // ------------------------------------------------------------------

  /** The rows of a listing inside [from, to). */
  function Within(rows: seq<Row>, from: Option<int>, to: Option<int>): (r: seq<Row>)
    ensures forall x :: x in r <==> x in rows && InWindow(from, to, x.key.ts)
  {
    if rows == [] then []
    else (if InWindow(from, to, rows[0].key.ts) then [rows[0]] else []) + Within(rows[1..], from, to)
  }

  lemma {:induction false} WithinConcat(a: seq<Row>, b: seq<Row>, from: Option<int>, to: Option<int>)
    ensures Within(a + b, from, to) == Within(a, from, to) + Within(b, from, to)
    decreases |a|
  {
    hide InWindow;
    if a == [] {
      assert a + b == b;
    } else {
      assert (a + b)[1..] == a[1..] + b;
      WithinConcat(a[1..], b, from, to);
    }
  }

  /** Restricting twice is restricting to the common part. */
  lemma {:induction false} WithinTwice(
      rows: seq<Row>, f1: Option<int>, t1: Option<int>, f2: Option<int>, t2: Option<int>,
      f: Option<int>, t: Option<int>)
    requires forall ts :: InWindow(f, t, ts) <==> InWindow(f1, t1, ts) && InWindow(f2, t2, ts)
    ensures Within(Within(rows, f1, t1), f2, t2) == Within(rows, f, t)
    decreases |rows|
  {
    hide InWindow;
    if rows != [] {
      WithinTwice(rows[1..], f1, t1, f2, t2, f, t);
      var head := if InWindow(f1, t1, rows[0].key.ts) then [rows[0]] else [];
      WithinConcat(head, Within(rows[1..], f1, t1), f2, t2);
      assert head == [] || head[1..] == [];
      assert InWindow(f, t, rows[0].key.ts) <==> InWindow(f1, t1, rows[0].key.ts) && InWindow(f2, t2, rows[0].key.ts);
    }
  }

  lemma {:induction false} WithinEmpty(rows: seq<Row>, from: Option<int>, to: Option<int>)
    requires forall x | x in rows :: !InWindow(from, to, x.key.ts)
    ensures Within(rows, from, to) == []
    decreases |rows|
  {
    hide InWindow;
    if rows != [] {
      assert rows[0] in rows;
      WithinEmpty(rows[1..], from, to);
    }
  }

  lemma {:induction false} WithinStrict(rows: seq<Row>, from: Option<int>, to: Option<int>)
    requires StrictlySorted(rows)
    ensures StrictlySorted(Within(rows, from, to))
    decreases |rows|
  {
    hide InWindow;
    if rows != [] {
      WithinStrict(rows[1..], from, to);
      var rest := Within(rows[1..], from, to);
      forall i | 0 <= i < |rest| ensures Less(rest[i].key, rows[0].key) {
        assert rest[i] in rows[1..];
      }
    }
  }

  lemma {:induction false} WithinSorted(rows: seq<Row>, from: Option<int>, to: Option<int>)
    requires Sorted(rows)
    ensures Sorted(Within(rows, from, to))
    decreases |rows|
  {
    hide InWindow;
    if rows != [] {
      WithinSorted(rows[1..], from, to);
      var rest := Within(rows[1..], from, to);
      forall i | 0 <= i < |rest| ensures !Less(rows[0].key, rest[i].key) {
        assert rest[i] in rows[1..];
      }
    }
  }

  // ------------------------------------------------------------------
  // Deduplication
  // ------------------------------------------------------------------

  /** Keep every empty-id row, and the first row of each other key not seen before. */
  function Compact(rows: seq<Row>, seen: set<Key>): (r: seq<Row>)
    ensures |r| <= |rows|
    decreases |rows|
  {
    if rows == [] then []
    else if rows[0].key.id == 0 then [rows[0]] + Compact(rows[1..], seen)
    else if rows[0].key in seen then Compact(rows[1..], seen)
    else [rows[0]] + Compact(rows[1..], seen + {rows[0].key})
  }

  function EmptyIds(rows: seq<Row>): seq<Row> {
    if rows == [] then []
    else (if rows[0].key.id == 0 then [rows[0]] else []) + EmptyIds(rows[1..])
  }

  /** How many rows carry key k. */
  function Copies(rows: seq<Row>, k: Key): nat {
    if rows == [] then 0 else (if rows[0].key == k then 1 else 0) + Copies(rows[1..], k)
  }

  /** Compaction keeps every empty-id row and exactly one row per non-empty key. */
  lemma {:induction false} CompactMeaning(rows: seq<Row>, seen: set<Key>, k: Key)
    ensures EmptyIds(Compact(rows, seen)) == EmptyIds(rows)
    ensures k.id != 0 ==> Copies(Compact(rows, seen), k) == if Copies(rows, k) > 0 && k !in seen then 1 else 0
    ensures k.id == 0 ==> Copies(Compact(rows, seen), k) == Copies(rows, k)
    decreases |rows|
  {
    if rows != [] {
      CompactMeaning(rows[1..], seen, k);
      CompactMeaning(rows[1..], seen + {rows[0].key}, k);
    }
  }

  lemma {:induction false} CompactKeeps(rows: seq<Row>, seen: set<Key>)
    ensures forall x | x in Compact(rows, seen) :: x in rows
    decreases |rows|
  {
    if rows != [] {
      CompactKeeps(rows[1..], seen);
      CompactKeeps(rows[1..], seen + {rows[0].key});
    }
  }

  /** Compacting a prefix gives a prefix. */
  lemma {:induction false} CompactPrefix(rows: seq<Row>, n: nat, seen: set<Key>)
    requires n <= |rows|
    ensures Compact(rows[..n], seen) <= Compact(rows, seen)
    decreases n
  {
    if n > 0 {
      assert rows[..n][1..] == rows[1..][..n - 1];
      CompactPrefix(rows[1..], n - 1, seen);
      CompactPrefix(rows[1..], n - 1, seen + {rows[0].key});
    }
  }

  /** Keys seen earlier that do not occur later do not matter. */
  lemma {:induction false} CompactForgets(rows: seq<Row>, seen: set<Key>, more: set<Key>)
    requires forall x | x in rows :: x.key !in more
    ensures Compact(rows, seen + more) == Compact(rows, seen)
    decreases |rows|
  {
    if rows != [] {
      assert rows[0] in rows;
      CompactForgets(rows[1..], seen, more);
      CompactForgets(rows[1..], seen + {rows[0].key}, more);
      assert seen + more + {rows[0].key} == seen + {rows[0].key} + more;
    }
  }

  /** Distinct rows in front of rows with other keys: compaction only touches the latter. */
  lemma {:induction false} CompactConcat(a: seq<Row>, b: seq<Row>, seen: set<Key>)
    requires StrictlySorted(a) && forall x | x in a :: x.key !in seen
    requires forall x, y | x in a && y in b :: x.key != y.key
    ensures Compact(a + b, seen) == a + Compact(b, seen)
    decreases |a|
  {
    if a == [] {
      assert a + b == b;
    } else {
      var k := if a[0].key.id == 0 then {} else {a[0].key};
      assert (a + b)[1..] == a[1..] + b;
      forall x | x in a[1..] ensures x in a && x.key !in seen + k {
        var i :| 1 <= i < |a| && a[i] == x;
        assert Less(x.key, a[0].key);
      }
      assert a[0] in a;
      assert seen + {} == seen;
      hide StrictlySorted, Less;
      StrictTail(a);
      CompactConcat(a[1..], b, seen + k);
      CompactForgets(b, seen, k);
      assert [a[0]] + (a[1..] + Compact(b, seen)) == a + Compact(b, seen);
    }
  }

  lemma StrictTail(a: seq<Row>)
    requires StrictlySorted(a) && a != []
    ensures StrictlySorted(a[1..])
  {
  }

  /** The compaction loop over all[:0]: writes never overtake reads. */
  method CompactInPlace(all: array<Row>) returns (n: nat)
    modifies all
    ensures n <= all.Length && all[..n] == Compact(old(all[..]), {})
  {
    n := 0;
    var seen: set<Key> := {};
    ghost var rows := all[..];
    for i := 0 to all.Length
      invariant n <= i && all[i..] == rows[i..]
      invariant all[..n] + Compact(rows[i..], seen) == Compact(rows, {})
    {
      var ev := all[i];
      assert ev == all[i..][0] == rows[i..][0] && rows[i..][1..] == rows[i + 1..];
      if ev.key.id == 0 {
        Append(all, n, i, ev, rows, seen);
        n := n + 1;
      } else if ev.key !in seen {
        seen := seen + {ev.key};
        Append(all, n, i, ev, rows, seen);
        n := n + 1;
      } else {
        assert all[i + 1..] == all[i..][1..];
      }
    }
    assert rows[all.Length..] == [];
  }

  /** append(deduped, ev) into the shared backing array. */
  method Append(all: array<Row>, n: nat, i: nat, ev: Row, ghost rows: seq<Row>, ghost seen: set<Key>)
    requires n <= i < all.Length == |rows| && all[i..] == rows[i..]
    modifies all
    ensures all[i + 1..] == rows[i + 1..]
    ensures all[..n + 1] == old(all[..n]) + [ev]
    ensures all[..n + 1] + Compact(rows[i + 1..], seen) == old(all[..n]) + ([ev] + Compact(rows[i + 1..], seen))
  {
    assert all[i + 1..] == all[i..][1..] == rows[i..][1..] == rows[i + 1..];
    all[n] := ev;
  }

  // ------------------------------------------------------------------
  // Sorting
  // ------------------------------------------------------------------

  /** `s` is a sorted arrangement of `rows`; which one is up to the sort. */
  ghost predicate IsSorting(rows: seq<Row>, s: seq<Row>) {
    Sorted(s) && multiset(s) == multiset(rows)
  }

  function Insert(r: Row, s: seq<Row>): (t: seq<Row>)
    ensures multiset(t) == multiset{r} + multiset(s)
  {
    if s == [] || !Less(r.key, s[0].key) then [r] + s
    else
      assert s == [s[0]] + s[1..];
      [s[0]] + Insert(r, s[1..])
  }

  lemma {:induction false} InsertSorted(r: Row, s: seq<Row>)
    requires Sorted(s)
    ensures Sorted(Insert(r, s))
    decreases |s|
  {
    if s != [] && Less(r.key, s[0].key) {
      InsertSorted(r, s[1..]);
      var t := Insert(r, s[1..]);
      forall i | 0 <= i < |t| ensures !Less(s[0].key, t[i].key) {
        assert t[i] in multiset(t);
        assert t[i] == r || t[i] in s[1..];
      }
    }
  }

  function InsertionSort(rows: seq<Row>): (s: seq<Row>)
    ensures IsSorting(rows, s)
  {
    if rows == [] then []
    else
      assert rows == [rows[0]] + rows[1..];
      InsertSorted(rows[0], InsertionSort(rows[1..]));
      Insert(rows[0], InsertionSort(rows[1..]))
  }

  /** The in-place sort of the compacted prefix. */
  method SortPrefix(all: array<Row>, n: nat)
    requires n <= all.Length
    modifies all
    ensures IsSorting(old(all[..n]), all[..n])
  {
    var s := InsertionSort(all[..n]);
    assert |multiset(s)| == |multiset(all[..n])|;
    forall i | 0 <= i < n {
      all[i] := s[i];
    }
    assert all[..n] == s;
  }

  lemma SortedWithout(t: seq<Row>, j: nat)
    requires Sorted(t) && j < |t|
    ensures Sorted(t[..j] + t[j + 1..])
  {
    var r := t[..j] + t[j + 1..];
    forall i, k | 0 <= i < k < |r| ensures !Less(r[i].key, r[k].key) {
      assert r[i] == t[if i < j then i else i + 1] && r[k] == t[if k < j then k else k + 1];
    }
  }

  lemma BagWithout(s: seq<Row>, t: seq<Row>, j: nat)
    requires multiset(s) == multiset(t) && s != [] && j < |t| && t[j] == s[0]
    ensures multiset(s[1..]) == multiset(t[..j] + t[j + 1..])
  {
    assert s == [s[0]] + s[1..];
    assert multiset(s[1..]) == multiset(s) - multiset{s[0]};
    assert t == t[..j] + [t[j]] + t[j + 1..];
    assert multiset(t[..j] + t[j + 1..]) == multiset(t) - multiset{t[j]};
  }

  lemma SameBag(s: seq<Row>, t: seq<Row>)
    requires multiset(s) == multiset(t)
    ensures |s| == |t| && forall x :: x in s <==> x in t
  {
    assert |multiset(s)| == |multiset(t)|;
    assert forall x :: x in s <==> x in multiset(s);
    assert forall x :: x in t <==> x in multiset(t);
  }

  lemma TailSorted(s: seq<Row>)
    requires Sorted(s) && s != []
    ensures Sorted(s[1..])
  {
  }

  /** All sorted arrangements agree on the keys. */
  lemma {:induction false} SortingKeys(s: seq<Row>, t: seq<Row>)
    requires Sorted(s) && Sorted(t) && multiset(s) == multiset(t)
    ensures KeysOf(s) == KeysOf(t)
    decreases |s|
  {
    hide Sorted, Less, KeysOf;
    SameBag(s, t);
    if s != [] {
      assert s[0] in t && t[0] in s;
      var j :| 0 <= j < |t| && t[j] == s[0];
      SortedWithout(t, j);
      BagWithout(s, t, j);
      TailSorted(s);
      SortingKeys(s[1..], t[..j] + t[j + 1..]);
      SlideKeys(s, t, j);
    } else {
      assert s == t;
    }
  }

  lemma SlideKeys(s: seq<Row>, t: seq<Row>, j: nat)
    requires Sorted(s) && Sorted(t) && |s| == |t| && j < |t| && t[j] == s[0] && t[0] in s
    requires KeysOf(s[1..]) == KeysOf(t[..j] + t[j + 1..])
    ensures KeysOf(s) == KeysOf(t)
  {
    var rest := t[..j] + t[j + 1..];
    forall i | 0 <= i < |s| ensures s[i].key == t[i].key {
      if i > 0 {
        assert KeysOf(s[1..])[i - 1] == s[i].key;
        assert KeysOf(rest)[i - 1] == rest[i - 1].key;
      }
    }
  }

  lemma {:induction false} CompactSorted(rows: seq<Row>, seen: set<Key>)
    requires Sorted(rows)
    ensures Sorted(Compact(rows, seen))
    decreases |rows|
  {
    if rows != [] {
      CompactSorted(rows[1..], seen);
      CompactSorted(rows[1..], seen + {rows[0].key});
      CompactKeeps(rows[1..], seen);
      CompactKeeps(rows[1..], seen + {rows[0].key});
      forall x | x in rows[1..] ensures !Less(rows[0].key, x.key) {
        var i :| 1 <= i < |rows| && rows[i] == x;
      }
    }
  }

  // ------------------------------------------------------------------
  // Routing
  // ------------------------------------------------------------------

  datatype Tier = Hot | Cold | Both

  /** `classifyTier`; times before the cutoff are cold, the others hot. */
  function ClassifyTier(q: Query, cutoff: int): Tier {
    if q.from.None? && q.to.None? then Hot
    else if q.from.Some? && q.to.Some? then
      if q.to.value <= cutoff then Cold
      else if q.from.value >= cutoff then Hot
      else Both
    else if q.from.Some? then
      if q.from.value < cutoff then Both else Hot
    else
      if q.to.value <= cutoff then Cold else Both
  }

  predicate Bounded(q: Query) { q.from.Some? || q.to.Some? }

  ghost predicate Touches(q: Query, cutoff: int, cold: bool) {
    exists ts :: InWindow(q.from, q.to, ts) && (ts < cutoff <==> cold)
  }

  /** Routing is exact: a window that holds any time at all goes to exactly the tiers it touches. */
  lemma TierMeaning(q: Query, cutoff: int, inside: int)
    requires Bounded(q) && InWindow(q.from, q.to, inside)
    ensures ClassifyTier(q, cutoff) != Cold <==> Touches(q, cutoff, false)
    ensures ClassifyTier(q, cutoff) != Hot <==> Touches(q, cutoff, true)
  {
    assert InWindow(q.from, q.to, inside);
    match ClassifyTier(q, cutoff)
    case Both => assert InWindow(q.from, q.to, cutoff - 1) && InWindow(q.from, q.to, cutoff);
    case Hot =>
    case Cold =>
  }

  /** Each time is in exactly one half of the split. */
  ghost function Virtual(hot: seq<Row>, cold: seq<Row>, cutoff: int): seq<Row> {
    Within(hot, Some(cutoff), None) + Within(cold, None, Some(cutoff))
  }

  /** The virtual store is itself a listing in order: hot rows, then cold rows, none above another. */
  lemma VirtualSorted(hot: seq<Row>, cold: seq<Row>, cutoff: int)
    requires StrictlySorted(hot) && Sorted(cold)
    ensures Sorted(Virtual(hot, cold, cutoff))
  {
    WithinStrict(hot, Some(cutoff), None);
    WithinSorted(cold, None, Some(cutoff));
    HalvesSorted(Within(hot, Some(cutoff), None), Within(cold, None, Some(cutoff)), cutoff);
  }

  lemma HalvesSorted(h: seq<Row>, c: seq<Row>, cutoff: int)
    requires StrictlySorted(h) && Sorted(c)
    requires (forall x | x in h :: x.key.ts >= cutoff) && forall y | y in c :: y.key.ts < cutoff
    ensures Sorted(h + c)
  {
    var r := h + c;
    forall i, j | 0 <= i < j < |r| ensures !Less(r[i].key, r[j].key) {
      assert i < |h| ==> r[i] in h;
      assert j >= |h| ==> r[j] in c;
    }
  }

  /** What a bounded query finds in the virtual store, tier by tier: no time is missed and none is read twice. */
  lemma SplitCovers(hot: seq<Row>, cold: seq<Row>, cutoff: int, q: Query)
    requires Bounded(q)
    ensures Within(Virtual(hot, cold, cutoff), q.from, q.to) ==
            match ClassifyTier(q, cutoff)
            case Hot => Within(hot, q.from, q.to)
            case Cold => Within(cold, q.from, q.to)
            case Both => Within(hot, Some(cutoff), q.to) + Within(cold, q.from, Some(cutoff))
  {
    var h, c := Within(hot, Some(cutoff), None), Within(cold, None, Some(cutoff));
    WithinConcat(h, c, q.from, q.to);
    match ClassifyTier(q, cutoff)
    case Hot =>
      WithinTwice(hot, Some(cutoff), None, q.from, q.to, q.from, q.to);
      WithinEmpty(c, q.from, q.to);
    case Cold =>
      WithinTwice(cold, None, Some(cutoff), q.from, q.to, q.from, q.to);
      WithinEmpty(h, q.from, q.to);
    case Both =>
      WithinTwice(hot, Some(cutoff), None, q.from, q.to, Some(cutoff), q.to);
      WithinTwice(cold, None, Some(cutoff), q.from, q.to, q.from, Some(cutoff));
  }

  // ------------------------------------------------------------------
  // Exactness
  // ------------------------------------------------------------------

  /** No two rows share a non-empty key. */
  predicate NoRepeats(rows: seq<Row>) {
    forall i, j | 0 <= i < j < |rows| && rows[i].key == rows[j].key :: rows[i].key.id == 0
  }

  lemma {:induction false} CompactNoRepeats(rows: seq<Row>, seen: set<Key>)
    ensures NoRepeats(Compact(rows, seen)) && forall x | x in Compact(rows, seen) :: x.key.id == 0 || x.key !in seen
    decreases |rows|
  {
    if rows != [] {
      CompactNoRepeats(rows[1..], seen);
      CompactNoRepeats(rows[1..], seen + {rows[0].key});
      var s := if rows[0].key.id == 0 then seen else seen + {rows[0].key};
      var rest := Compact(rows[1..], s);
      forall i | 0 <= i < |rest| && rest[i].key == rows[0].key ensures rest[i].key.id == 0 {
        assert rest[i] in rest;
      }
    }
  }

  lemma {:induction false} CompactIdentity(rows: seq<Row>, seen: set<Key>)
    requires NoRepeats(rows) && forall x | x in rows :: x.key.id == 0 || x.key !in seen
    ensures Compact(rows, seen) == rows
    decreases |rows|
  {
    if rows != [] {
      assert rows[0] in rows;
      var s := if rows[0].key.id == 0 then seen else seen + {rows[0].key};
      forall x | x in rows[1..] ensures x.key.id == 0 || x.key !in s {
        var i :| 1 <= i < |rows| && rows[i] == x;
      }
      CompactIdentity(rows[1..], s);
    }
  }

  lemma TopPrefix(a: seq<Row>, b: seq<Row>, n: nat)
    requires a <= b
    ensures KeysOf(FirstN(a, n)) == KeysOf(FirstN(b, n)) <==> |a| >= n || a == b
  {
    if |a| >= n {
      assert a[..n] == b[..n];
      assert FirstN(a, n) == a[..n] && FirstN(b, n) == b[..n];
    } else if a != b {
      assert |KeysOf(FirstN(a, n))| < |KeysOf(FirstN(b, n))|;
    }
  }

  /** The first rows of some sorted arrangement of x; which one is up to the sort. */
  ghost predicate IsTop(x: seq<Row>, limit: nat, rows: seq<Row>) {
    exists s :: IsSorting(x, s) && rows == FirstN(s, limit)
  }

  /** The union's answer from the two pages. */
  ghost predicate IsUnion(hotPage: seq<Row>, coldPage: seq<Row>, limit: nat, rows: seq<Row>) {
    IsTop(Compact(hotPage + coldPage, {}), limit, rows)
  }

  /** When x is already in order, every top of it has the keys of its first rows. */
  lemma TopKeys(x: seq<Row>, limit: nat, rows: seq<Row>)
    requires Sorted(x) && IsTop(x, limit, rows)
    ensures KeysOf(rows) == KeysOf(FirstN(x, limit))
  {
    var s :| IsSorting(x, s) && rows == FirstN(s, limit);
    SortingKeys(s, x);
    SameBag(s, x);
    forall i | 0 <= i < |rows| ensures rows[i].key == FirstN(x, limit)[i].key {
      assert KeysOf(s)[i] == KeysOf(x)[i];
    }
  }

  lemma FirstIsTop(x: seq<Row>, limit: nat)
    requires Sorted(x)
    ensures IsTop(x, limit, FirstN(x, limit))
  {
    assert IsSorting(x, x);
  }

  lemma SortedConcat(a: seq<Row>, b: seq<Row>)
    requires Sorted(a) && Sorted(b) && forall x, y | x in a && y in b :: !Less(x.key, y.key)
    ensures Sorted(a + b)
  {
    var r := a + b;
    forall i, j | 0 <= i < j < |r| ensures !Less(r[i].key, r[j].key) {
      assert i < |a| ==> r[i] in a;
      assert j >= |a| ==> r[j] in b;
    }
  }

  /** What a sort of `rest` puts behind a sorted list that nothing in `rest` is above. */
  lemma SortBehind(rows: seq<Row>, rest: seq<Row>, y: seq<Row>, limit: nat)
    requires Sorted(rows) && multiset(y) == multiset(rows) + multiset(rest) && |rows| <= limit
    requires |rows| == limit || rest == []
    requires forall x, e | x in rows && e in rest :: !Less(x.key, e.key)
    ensures IsTop(y, limit, rows)
  {
    var tail := InsertionSort(rest);
    SameBag(tail, rest);
    SortedConcat(rows, tail);
    assert IsSorting(y, rows + tail);
    assert rows == FirstN(rows + tail, limit);
  }

  /** A top of x is a top of x and more, when the page is full and nothing extra is above a row of it. */
  lemma TopOfMore(x: seq<Row>, extra: seq<Row>, y: seq<Row>, limit: nat, rows: seq<Row>)
    requires IsTop(x, limit, rows) && multiset(y) == multiset(x) + multiset(extra)
    requires |rows| == limit || extra == []
    requires forall r, e | r in rows && e in extra :: !Less(r.key, e.key)
    ensures IsTop(y, limit, rows)
  {
    var s :| IsSorting(x, s) && rows == FirstN(s, limit);
    var n := |rows|;
    assert rows == s[..n];
    SplitSorted(s, n);
    SplitBag(s, n, extra, y);
    assert n == limit || s[n..] == [];
    hide Sorted, Less, FirstN;
    SortBehind(rows, s[n..] + extra, y, limit);
  }

  lemma SplitSorted(s: seq<Row>, n: nat)
    requires Sorted(s) && n <= |s|
    ensures Sorted(s[..n]) && forall r, e | r in s[..n] && e in s[n..] :: !Less(r.key, e.key)
  {
    forall r, e | r in s[..n] && e in s[n..] ensures !Less(r.key, e.key) {
      var i, j :| 0 <= i < n && s[i] == r && n <= j < |s| && s[j] == e;
    }
  }

  lemma SplitBag(s: seq<Row>, n: nat, extra: seq<Row>, y: seq<Row>)
    requires n <= |s| && multiset(y) == multiset(s) + multiset(extra)
    ensures multiset(y) == multiset(s[..n]) + multiset(s[n..] + extra)
  {
    assert s == s[..n] + s[n..];
  }

  /** Rows on the two sides of the cutoff. */
  predicate Halves(h: seq<Row>, c: seq<Row>, cutoff: int) {
    && StrictlySorted(h) && Sorted(c)
    && (forall x | x in h :: x.key.ts >= cutoff) && forall y | y in c :: y.key.ts < cutoff
  }

  lemma HalvesCompact(h: seq<Row>, c: seq<Row>, cutoff: int)
    requires Halves(h, c, cutoff)
    ensures Compact(h + c, {}) == h + Compact(c, {}) && Sorted(h + Compact(c, {}))
  {
    CompactConcat(h, c, {});
    CompactSorted(c, {});
    CompactKeeps(c, {});
    HalvesSorted(h, Compact(c, {}), cutoff);
  }

  lemma TopHalves(h: seq<Row>, c: seq<Row>, cutoff: int, limit: nat)
    requires Halves(h, c, cutoff)
    ensures Halves(FirstN(h, limit), FirstN(c, limit), cutoff)
  {
    assert (forall x | x in FirstN(h, limit) :: x in h) && forall y | y in FirstN(c, limit) :: y in c;
  }

  /** The keys of a straddling page, compared with the keys of the whole. */
  lemma StraddleKeys(h: seq<Row>, c: seq<Row>, cutoff: int, limit: nat, rows: seq<Row>)
    requires Halves(h, c, cutoff) && IsUnion(FirstN(h, limit), FirstN(c, limit), limit, rows)
    ensures KeysOf(rows) == KeysOf(FirstN(Compact(h + c, {}), limit)) <==>
            || |h| + |Compact(FirstN(c, limit), {})| >= limit
            || Compact(FirstN(c, limit), {}) == Compact(c, {})
  {
    var c1 := FirstN(c, limit);
    assert c[..|c1|] == c1;
    hide Halves, Compact, Sorted, IsTop, KeysOf, FirstN;
    TopHalves(h, c, cutoff, limit);
    HalvesCompact(FirstN(h, limit), c1, cutoff);
    HalvesCompact(h, c, cutoff);
    TopKeys(FirstN(h, limit) + Compact(c1, {}), limit, rows);
    CompactPrefix(c, |c1|, {});
    StraddleLengths(h, Compact(c1, {}), Compact(c, {}), limit);
  }

  /** With the whole's keys, a top of the fetched part is a top of the whole: what was left out sorts behind it. */
  lemma FetchedIsEnough(h: seq<Row>, p: seq<Row>, d: seq<Row>, limit: nat, rows: seq<Row>)
    requires p <= d && Sorted(h + d) && (|h| + |p| >= limit || p == d)
    requires IsTop(FirstN(h, limit) + p, limit, rows) && KeysOf(rows) == KeysOf(FirstN(h + d, limit))
    ensures IsTop(h + d, limit, rows)
  {
    var y := h + d;
    var h1 := FirstN(h, limit);
    var extra := h[|h1|..] + d[|p|..];
    assert h == h1 + h[|h1|..] && d == p + d[|p|..];
    assert multiset(y) == multiset(h1 + p) + multiset(extra);
    assert extra == [] || |rows| == limit;
    ExtraBehind(h, p, d, limit, rows);
    hide Less, Sorted, IsTop, KeysOf;
    TopOfMore(h1 + p, extra, y, limit, rows);
  }

  lemma ExtraBehind(h: seq<Row>, p: seq<Row>, d: seq<Row>, limit: nat, rows: seq<Row>)
    requires p <= d && Sorted(h + d) && (|h| + |p| >= limit || p == d)
    requires KeysOf(rows) == KeysOf(FirstN(h + d, limit))
    ensures forall r, e | r in rows && e in h[|FirstN(h, limit)|..] + d[|p|..] :: !Less(r.key, e.key)
  {
    var y := h + d;
    forall r, e | r in rows && e in h[|FirstN(h, limit)|..] + d[|p|..] ensures !Less(r.key, e.key) {
      var i :| 0 <= i < |rows| && rows[i] == r;
      assert KeysOf(rows)[i] == KeysOf(FirstN(y, limit))[i] == y[i].key;
      var j := ExtraAt(h, p, d, limit, e);
      assert i < j;
    }
  }

  /** A row that was not fetched stands behind the page in the whole. */
  lemma ExtraAt(h: seq<Row>, p: seq<Row>, d: seq<Row>, limit: nat, e: Row) returns (j: nat)
    requires p <= d && (|h| + |p| >= limit || p == d)
    requires e in h[|FirstN(h, limit)|..] + d[|p|..]
    ensures limit <= j < |h + d| && (h + d)[j] == e
  {
    var n := |FirstN(h, limit)|;
    if e in h[n..] {
      var i :| 0 <= i < |h[n..]| && h[n..][i] == e;
      j := n + i;
    } else {
      var i :| 0 <= i < |d[|p|..]| && d[|p|..][i] == e;
      j := |h| + |p| + i;
    }
  }

  /**
   A straddling search from the two half windows h and c. Its rows are a top of the deduplicated
   union iff the hot rows and the distinct rows of the cold page fill the limit, or the cold page
   already shows every distinct cold row.
   */
  lemma StraddleExact(h: seq<Row>, c: seq<Row>, cutoff: int, limit: nat, rows: seq<Row>)
    requires Halves(h, c, cutoff) && IsUnion(FirstN(h, limit), FirstN(c, limit), limit, rows)
    ensures IsTop(Compact(h + c, {}), limit, rows) <==>
            || |h| + |Compact(FirstN(c, limit), {})| >= limit
            || Compact(FirstN(c, limit), {}) == Compact(c, {})
  {
    var c1 := FirstN(c, limit);
    assert c[..|c1|] == c1;
    hide Halves, Compact, Sorted, IsTop, KeysOf, FirstN;
    StraddleKeys(h, c, cutoff, limit, rows);
    TopHalves(h, c, cutoff, limit);
    HalvesCompact(FirstN(h, limit), c1, cutoff);
    HalvesCompact(h, c, cutoff);
    CompactPrefix(c, |c1|, {});
    if IsTop(Compact(h + c, {}), limit, rows) {
      TopKeys(Compact(h + c, {}), limit, rows);
    } else if |h| + |Compact(c1, {})| >= limit || Compact(c1, {}) == Compact(c, {}) {
      FetchedIsEnough(h, Compact(c1, {}), Compact(c, {}), limit, rows);
    }
  }

  lemma StraddleLengths(h: seq<Row>, p: seq<Row>, d: seq<Row>, limit: nat)
    requires p <= d
    ensures KeysOf(FirstN(FirstN(h, limit) + p, limit)) == KeysOf(FirstN(h + d, limit)) <==>
            |h| + |p| >= limit || p == d
  {
    if |h| > limit {
      assert FirstN(FirstN(h, limit) + p, limit) == h[..limit] == FirstN(h + d, limit);
    } else {
      TopPrefix(h + p, h + d, limit);
      assert h + p == h + d ==> p == (h + p)[|h|..] == (h + d)[|h|..] == d;
    }
  }

  /** A page without repeats is the first part of the compacted listing. */
  lemma PageWithoutRepeats(c: seq<Row>, limit: nat)
    requires NoRepeats(FirstN(c, limit))
    ensures FirstN(Compact(c, {}), limit) == FirstN(c, limit)
  {
    var page := FirstN(c, limit);
    CompactIdentity(page, {});
    assert c[..|page|] == page;
    CompactPrefix(c, |page|, {});
    assert |page| < |c| ==> |page| == limit;
  }

  lemma SameKeysRepeatAlike(a: seq<Row>, b: seq<Row>)
    requires KeysOf(a) == KeysOf(b) && NoRepeats(b)
    ensures NoRepeats(a)
  {
    forall i, j | 0 <= i < j < |a| && a[i].key == a[j].key ensures a[i].key.id == 0 {
      assert KeysOf(a)[i] == KeysOf(b)[i] && KeysOf(a)[j] == KeysOf(b)[j];
    }
  }

  /** A cold-only search is not deduplicated: it is a top of the deduplicated rows iff its own page repeats none. */
  lemma ColdExact(c: seq<Row>, limit: nat)
    requires Sorted(c)
    ensures IsTop(Compact(c, {}), limit, FirstN(c, limit)) <==> NoRepeats(FirstN(c, limit))
  {
    CompactSorted(c, {});
    CompactNoRepeats(c, {});
    var page, best := FirstN(c, limit), FirstN(Compact(c, {}), limit);
    if IsTop(Compact(c, {}), limit, page) {
      TopKeys(Compact(c, {}), limit, page);
      SameKeysRepeatAlike(page, best);
    }
    if NoRepeats(page) {
      PageWithoutRepeats(c, limit);
      FirstIsTop(Compact(c, {}), limit);
    }
  }

  lemma HotExact(h: seq<Row>, limit: nat)
    requires StrictlySorted(h)
    ensures IsTop(Compact(h, {}), limit, FirstN(h, limit))
  {
    CompactConcat(h, [], {});
    assert h + [] == h;
    FirstIsTop(h, limit);
  }

  // ------------------------------------------------------------------
  // The searcher
  // ------------------------------------------------------------------

  const DEFAULT_HOT_DAYS := 30
  const DAY := 24 * 3600 * 1_000_000_000

  datatype Searchers = Searchers(hot: Searcher, cold: Option<Searcher>, hotDays: int, enabled: bool)

  /** The first instant that counts as hot: thirty days back unless a number of days is set. */
  function HotCutoff(ts: Searchers, now: int): (c: int)
    ensures now - c == (if ts.hotDays > 0 then ts.hotDays else 30) * 86_400_000_000_000
  {
    now - (if ts.hotDays <= 0 then DEFAULT_HOT_DAYS else ts.hotDays) * DAY
  }

  function PageSize(limit: int): (l: int)
    ensures 1 <= l <= MAX_SEARCH_LIMIT
  {
    if limit <= 0 then DEFAULT_SEARCH_LIMIT else Min(limit, MAX_SEARCH_LIMIT)
  }

  function RowsOf(a: Answer): seq<Row> {
    if a.Answer? then a.rows else []
  }

  /** The two halves of a straddling query. */
  function HotHalf(q: Query, cutoff: int): Query { q.(from := Some(cutoff), cursor := None) }

  function ColdHalf(q: Query, cutoff: int): Query { q.(to := Some(cutoff), cursor := None) }

  /** `unionSearch`: fails only when both stores fail, and never hands out a cursor. */
  method UnionSearch(hot: Searcher, cold: Searcher, q: Query, cutoff: int) returns (r: Answer)
    requires q.limit > 0
    ensures r.Unavailable? <==> hot(HotHalf(q, cutoff)).Unavailable? && cold(ColdHalf(q, cutoff)).Unavailable?
    ensures r.Answer? ==>
              && r.next == None
              && IsUnion(RowsOf(hot(HotHalf(q, cutoff))), RowsOf(cold(ColdHalf(q, cutoff))), q.limit, r.rows)
  {
    hide Compact, IsSorting;
    var hotPage := hot(HotHalf(q, cutoff));
    var coldPage := cold(ColdHalf(q, cutoff));
    if hotPage.Unavailable? && coldPage.Unavailable? {
      return Unavailable;
    }
    var rows := RowsOf(hotPage) + RowsOf(coldPage);
    var all := new Row[|rows|](i requires 0 <= i < |rows| => rows[i]);
    assert all[..] == rows;
    var n := CompactInPlace(all);
    SortPrefix(all, n);
    r := Answer(FirstN(all[..n], q.limit), None);
  }

  /** How a query with its page size settled is routed. */
  ghost predicate IsRouted(ts: Searchers, cutoff: int, q: Query, r: Answer)
    requires q.limit > 0
  {
    if !ts.enabled || ts.cold.None? then r == ts.hot(q)
    else
      match ClassifyTier(q, cutoff)
      case Hot => r == ts.hot(q)
      case Cold => r == ts.cold.value(q)
      case Both =>
        var h, c := ts.hot(HotHalf(q, cutoff)), ts.cold.value(ColdHalf(q, cutoff));
        && (r.Unavailable? <==> h.Unavailable? && c.Unavailable?)
        && (r.Answer? ==> r.next == None && IsUnion(RowsOf(h), RowsOf(c), q.limit, r.rows))
  }

  /**
   The page size is the one the stores go by: they clamp it to itself. They differ on what a
   limit above the maximum becomes.
   */
  lemma PageSizeIsSettled(limit: int)
    ensures ColdQuery.ClampLimit(PageSize(limit)) == PageSize(limit)
    ensures PageSize(limit) == limit <==> 1 <= limit <= MAX_SEARCH_LIMIT
    ensures PageSize(limit) == ColdQuery.ClampLimit(limit) <==> limit <= MAX_SEARCH_LIMIT
    ensures limit > MAX_SEARCH_LIMIT ==>
              PageSize(limit) == MAX_SEARCH_LIMIT && ColdQuery.ClampLimit(limit) == DEFAULT_SEARCH_LIMIT
    ensures limit <= 0 ==> PageSize(limit) == DEFAULT_SEARCH_LIMIT
  {
  }

  /** `TieredSearcher.Search` with one reading of the clock; a query without bounds asks the hot store only. */
  method Search(ts: Searchers, now: int, q: Query) returns (r: Answer)
    ensures !Bounded(q) || !ts.enabled || ts.cold.None? ==> r == ts.hot(q.(limit := PageSize(q.limit)))
    ensures IsRouted(ts, HotCutoff(ts, now), q.(limit := PageSize(q.limit)), r)
  {
    var q1 := q.(limit := PageSize(q.limit));
    var cutoff := HotCutoff(ts, now);
    if !ts.enabled || ts.cold.None? {
      return ts.hot(q1);
    }
    match ClassifyTier(q1, cutoff)
    case Cold => r := ts.cold.value(q1);
    case Both => r := UnionSearch(ts.hot, ts.cold.value, q1, cutoff);
    case Hot => r := ts.hot(q1);
  }

  /** A store that holds `rows`, in listing order: when it answers a first page, that is its top of the window. */
  ghost predicate Serves(s: Searcher, rows: seq<Row>) {
    forall q: Query | q.cursor.None? && q.limit > 0 && s(q).Answer? ::
      s(q).rows == FirstN(Within(rows, q.from, q.to), q.limit)
  }

  /** When the answer is what one store over both halves would give. Only repeated cold rows can spoil it. */
  ghost predicate Exact(hot: seq<Row>, cold: seq<Row>, cutoff: int, q: Query)
    requires q.limit > 0
  {
    match ClassifyTier(q, cutoff)
    case Hot => true
    case Cold => NoRepeats(FirstN(Within(cold, q.from, q.to), q.limit))
    case Both =>
      var c := Within(cold, q.from, Some(cutoff));
      var page := Compact(FirstN(c, q.limit), {});
      |Within(hot, Some(cutoff), q.to)| + |page| >= q.limit || page == Compact(c, {})
  }

  /** Every store the routing asks answers. */
  predicate AllAnswer(ts: Searchers, cutoff: int, q: Query)
    requires ts.cold.Some?
  {
    match ClassifyTier(q, cutoff)
    case Hot => ts.hot(q).Answer?
    case Cold => ts.cold.value(q).Answer?
    case Both => ts.hot(HotHalf(q, cutoff)).Answer? && ts.cold.value(ColdHalf(q, cutoff)).Answer?
  }

  /** What one deduplicated store over both halves holds of the query's window, in its order. */
  ghost function Whole(hot: seq<Row>, cold: seq<Row>, cutoff: int, q: Query): seq<Row> {
    Compact(Within(Virtual(hot, cold, cutoff), q.from, q.to), {})
  }

  /** That listing is in order and repeats no key, so its first rows are a top of it. */
  lemma WholeIsOrdered(hot: seq<Row>, cold: seq<Row>, cutoff: int, q: Query)
    requires StrictlySorted(hot) && Sorted(cold) && q.limit > 0
    ensures var w := Whole(hot, cold, cutoff, q);
            Sorted(w) && NoRepeats(w) && IsTop(w, q.limit, FirstN(w, q.limit))
  {
    VirtualSorted(hot, cold, cutoff);
    hide Virtual;
    WithinSorted(Virtual(hot, cold, cutoff), q.from, q.to);
    CompactSorted(Within(Virtual(hot, cold, cutoff), q.from, q.to), {});
    CompactNoRepeats(Within(Virtual(hot, cold, cutoff), q.from, q.to), {});
    FirstIsTop(Whole(hot, cold, cutoff, q), q.limit);
  }

  /**
   A time-bounded first page over both stores is a top of the deduplicated virtual store, row by
   row, exactly when `Exact` holds.
   */
  lemma TieredIsExactIff(ts: Searchers, cutoff: int, q: Query, r: Answer, hot: seq<Row>, cold: seq<Row>)
    requires q.limit > 0 && q.cursor.None? && Bounded(q) && ts.enabled && ts.cold.Some?
    requires IsRouted(ts, cutoff, q, r) && AllAnswer(ts, cutoff, q)
    requires Serves(ts.hot, hot) && Serves(ts.cold.value, cold) && StrictlySorted(hot) && Sorted(cold)
    ensures r.Answer? && (IsTop(Whole(hot, cold, cutoff, q), q.limit, r.rows) <==> Exact(hot, cold, cutoff, q))
  {
    SplitCovers(hot, cold, cutoff, q);
    hide Virtual, Within, Compact, FirstN, IsTop, NoRepeats, Sorted, StrictlySorted;
    match ClassifyTier(q, cutoff)
    case Hot =>
      WithinStrict(hot, q.from, q.to);
      HotExact(Within(hot, q.from, q.to), q.limit);
    case Cold =>
      WithinSorted(cold, q.from, q.to);
      ColdExact(Within(cold, q.from, q.to), q.limit);
    case Both =>
      var h, c := Within(hot, Some(cutoff), q.to), Within(cold, q.from, Some(cutoff));
      WithinHalves(hot, cold, cutoff, q);
      assert ts.hot(HotHalf(q, cutoff)).rows == FirstN(h, q.limit);
      assert ts.cold.value(ColdHalf(q, cutoff)).rows == FirstN(c, q.limit);
      StraddleExact(h, c, cutoff, q.limit, r.rows);
  }

  /**
   A first page without bounds is the top of the hot store. Over a hot store that holds nothing
   before the cutoff, it is a top of the virtual store iff it is full or no row is cold.
   */
  lemma UnboundedIsExactIff(ts: Searchers, cutoff: int, q: Query, r: Answer, hot: seq<Row>, cold: seq<Row>)
    requires q.limit > 0 && q.cursor.None? && !Bounded(q) && IsRouted(ts, cutoff, q, r) && ts.hot(q).Answer?
    requires Serves(ts.hot, hot) && StrictlySorted(hot) && Sorted(cold) && forall x | x in hot :: x.key.ts >= cutoff
    ensures r == ts.hot(q) && r.rows == FirstN(hot, q.limit)
    ensures IsTop(Whole(hot, cold, cutoff, q), q.limit, r.rows) <==>
            |hot| >= q.limit || Within(cold, None, Some(cutoff)) == []
  {
    assert r.rows == FirstN(hot, q.limit) by {
      WithinAll(hot, None, None);
    }
    hide Serves, IsRouted;
    UnboundedWhole(hot, cold, cutoff, q);
    hide Within, Whole, Compact, Sorted, StrictlySorted, IsTop, FirstN;
    FirstPartIsTopIff(hot, Compact(Within(cold, None, Some(cutoff)), {}), q.limit);
  }

  lemma FirstPartIsTopIff(a: seq<Row>, b: seq<Row>, limit: nat)
    requires Sorted(a + b)
    ensures IsTop(a + b, limit, FirstN(a, limit)) <==> |a| >= limit || b == []
  {
    hide Sorted, IsTop;
    if |a| >= limit || b == [] {
      assert FirstN(a, limit) == FirstN(a + b, limit);
      FirstIsTop(a + b, limit);
    } else if IsTop(a + b, limit, FirstN(a, limit)) {
      TopKeys(a + b, limit, FirstN(a, limit));
    }
  }

  lemma UnboundedWhole(hot: seq<Row>, cold: seq<Row>, cutoff: int, q: Query)
    requires !Bounded(q) && StrictlySorted(hot) && Sorted(cold) && forall x | x in hot :: x.key.ts >= cutoff
    ensures var c := Within(cold, None, Some(cutoff));
            && Whole(hot, cold, cutoff, q) == hot + Compact(c, {}) && Sorted(hot + Compact(c, {}))
            && (c == [] <==> Compact(c, {}) == [])
  {
    var c := Within(cold, None, Some(cutoff));
    WithinAll(hot, Some(cutoff), None);
    WithinAll(hot + c, None, None);
    WithinSorted(cold, None, Some(cutoff));
    hide Sorted, StrictlySorted, Within;
    HalvesCompact(hot, c, cutoff);
    if c != [] {
      assert Compact(c, {}) == [c[0]] + Compact(c[1..], if c[0].key.id == 0 then {} else {c[0].key}) by {
        assert {} + {c[0].key} == {c[0].key};
      }
    }
  }

  lemma WithinHalves(hot: seq<Row>, cold: seq<Row>, cutoff: int, q: Query)
    requires StrictlySorted(hot) && Sorted(cold)
    ensures Halves(Within(hot, Some(cutoff), q.to), Within(cold, q.from, Some(cutoff)), cutoff)
  {
    WithinStrict(hot, Some(cutoff), q.to);
    WithinSorted(cold, q.from, Some(cutoff));
  }

  /** With no repeated cold key the search is always exact, whatever hot holds. */
  lemma ExactWithoutRepeats(hot: seq<Row>, cold: seq<Row>, cutoff: int, q: Query)
    requires q.limit > 0 && Sorted(cold) && NoRepeats(cold)
    ensures Exact(hot, cold, cutoff, q)
  {
    match ClassifyTier(q, cutoff)
    case Hot =>
    case Cold =>
      WithinNoRepeats(cold, q.from, q.to);
    case Both =>
      var c := Within(cold, q.from, Some(cutoff));
      WithinNoRepeats(cold, q.from, Some(cutoff));
      CompactIdentity(c, {});
      CompactIdentity(FirstN(c, q.limit), {});
  }

  lemma {:induction false} WithinNoRepeats(rows: seq<Row>, from: Option<int>, to: Option<int>)
    requires NoRepeats(rows)
    ensures NoRepeats(Within(rows, from, to))
    decreases |rows|
  {
    hide InWindow;
    if rows != [] {
      WithinNoRepeats(rows[1..], from, to);
      var rest := Within(rows[1..], from, to);
      forall i | 0 <= i < |rest| && rest[i].key == rows[0].key ensures rows[0].key.id == 0 {
        assert rest[i] in rows[1..];
        var j :| 1 <= j < |rows| && rows[j] == rest[i];
      }
    }
  }

  lemma {:induction false} WithinAll(rows: seq<Row>, from: Option<int>, to: Option<int>)
    requires forall x | x in rows :: InWindow(from, to, x.key.ts)
    ensures Within(rows, from, to) == rows
    decreases |rows|
  {
    hide InWindow;
    if rows != [] {
      assert rows[0] in rows;
      WithinAll(rows[1..], from, to);
    }
  }

  /** Compaction drops the second of two equal neighbours. */
  lemma CompactTwin(a: Row, rest: seq<Row>)
    requires a.key.id != 0
    ensures Compact([a, a] + rest, {}) == [a] + Compact(rest, {a.key})
  {
    assert ([a, a] + rest)[1..] == [a] + rest && ([a] + rest)[1..] == rest;
    assert {} + {a.key} == {a.key};
  }

  lemma TwinsCompact(a: Row, b: Row)
    requires a.key.id != 0 && a.key != b.key
    ensures Compact([a, a, b], {}) == [a, b] && Compact([a, a], {}) == [a]
  {
    CompactIdentity([b], {a.key});
    CompactIdentity([], {a.key});
    hide Compact;
    CompactTwin(a, [b]);
    CompactTwin(a, []);
    assert [a, a] + [b] == [a, a, b] && [a, a] + [] == [a, a];
  }

  lemma TwinsListed(a: Row, b: Row, cutoff: int)
    requires Less(b.key, a.key) && a.key.ts < cutoff
    ensures var q := Query(Some(b.key.ts), None, None, 2);
            && ClassifyTier(q, cutoff) == Both
            && Within([a, a, b], q.from, Some(cutoff)) == [a, a, b]
            && Within(Virtual([], [a, a, b], cutoff), q.from, q.to) == [a, a, b]
  {
    hide Within, Virtual;
    var q := Query(Some(b.key.ts), None, None, 2);
    SplitCovers([], [a, a, b], cutoff, q);
    WithinAll([a, a, b], q.from, Some(cutoff));
    WithinAll([], Some(cutoff), q.to);
    assert [] + [a, a, b] == [a, a, b];
  }

  /** A cold store that returns a row twice pushes the next row off a merged page of two. */
  lemma RepeatedColdRowHidesAnother(a: Row, b: Row, cutoff: int)
    requires a.key.id != 0 && Less(b.key, a.key) && a.key.ts < cutoff
    ensures var q := Query(Some(b.key.ts), None, None, 2);
            !Exact([], [a, a, b], cutoff, q) && Whole([], [a, a, b], cutoff, q) == [a, b]
  {
    var q := Query(Some(b.key.ts), None, None, 2);
    WithinAll([], Some(cutoff), q.to);
    hide Within, Compact, Virtual, Less, ClassifyTier;
    TwinsListed(a, b, cutoff);
    TwinsCompact(a, b);
    assert FirstN([a, a, b], 2) == [a, a];
  }
}
