/**
 API-key authentication over a validated-key cache (pkg/auth/authenticator.go,
 pkg/auth/store.go, pkg/auth/cache.go). Any number of authentications, revocations and
 cache deletions interleave; the key table and the cache are shared state.
 */
module KeyCache {
  import opened Common
  import opened WireTokens
  import ColdQuery

  /** A row of api_keys. Only `revoked` ever changes. */
  datatype KeyRow = KeyRow(tenant: string, hash: string, scopes: seq<string>, revoked: bool, expires: Option<int>)

  datatype Tenant = Tenant(id: string, active: bool)

  /** A cache entry and when it was set. */
  datatype Entry = Entry(
    tenant: string, principal: string, scopes: seq<string>, hash: string, expires: Option<int>, setAt: int)

  /** An authentication between two of its calls. */
  datatype Flight =
    | HitRead(cred: Credential, entry: Entry, readAt: int)
    | Missed(cred: Credential)
    | Scoped(cred: Credential, tid: string)
    | Loaded(cred: Credential, row: KeyRow)
    | Passed(cred: Credential, row: KeyRow, checkedAt: int)

  /** A successful cache set, with the row it was made from. */
  datatype SetEvent = SetEvent(id: string, entry: Entry, row: KeyRow)

  /** An accepted authentication; `at` is the clock reading its expiry check used. */
  datatype Accept = Accept(
    cred: Credential, tenant: string, principal: string, scopes: seq<string>, at: int, hit: Option<Entry>, readAt: int)

  /** `lookups` are the slugs found active so far, each with the tenant id it named then. */
  datatype State = State(
    now: int, tenants: map<string, Tenant>, keys: map<string, KeyRow>, cache: map<string, Entry>,
    flights: map<nat, Flight>, lookups: seq<(string, string)>, sets: seq<SetEvent>, accepts: seq<Accept>)

  /** The secret hash, and the cache lifetime. */
  datatype Config = Config(hash: string -> string, ttl: nat)

  datatype Step =
    | Wait(d: nat)
    | GetHit(p: nat, cred: Credential)
    | GetMiss(p: nat, cred: Credential, failed: bool)
    | HitCheck(p: nat, deleted: bool)
    | FindTenant(p: nat)
    | ReadKey(p: nat)
    | Check(p: nat)
    | Finish(p: nat, cached: bool)
    | Abort(p: nat)
    | RevokeRow(id: string, tc: string)
    | Delete(id: string)
    | Mint(id: string, row: KeyRow)
    | PutTenant(slug: string, tenant: Tenant)

  predicate Visible(c: Config, s: State, id: string) {
    id in s.cache && s.now < s.cache[id].setAt + c.ttl
  }

  predicate Expired(expires: Option<int>, now: int) { expires.Some? && now >= expires.value }

  predicate Enabled(c: Config, s: State, e: Step) {
    match e
    case GetHit(p, cred) => p !in s.flights && cred.WellFormed() && Visible(c, s, cred.id)
    case GetMiss(p, cred, failed) => p !in s.flights && cred.WellFormed() && (failed || !Visible(c, s, cred.id))
    case HitCheck(p, _) => p in s.flights && s.flights[p].HitRead?
    case FindTenant(p) => p in s.flights && s.flights[p].Missed?
    case ReadKey(p) => p in s.flights && s.flights[p].Scoped?
    case Check(p) => p in s.flights && s.flights[p].Loaded?
    case Finish(p, _) => p in s.flights && s.flights[p].Passed?
    case Abort(p) => p in s.flights
    case Mint(id, row) => id !in s.keys && !row.revoked
    case _ => true
  }

  function Drop(s: State, p: nat): State { s.(flights := s.flights - {p}) }

  function Move(s: State, p: nat, f: Flight): State { s.(flights := s.flights[p := f]) }

  function Accepted(s: State, a: Accept): State {
    if ColdQuery.IsUuid(a.tenant) then s.(accepts := s.accepts + [a]) else s
  }

  function EntryOf(id: string, row: KeyRow, now: int): Entry {
    Entry(row.tenant, id, row.scopes, row.hash, row.expires, now)
  }

  function AfterHit(c: Config, s: State, p: nat, deleted: bool): State
    requires p in s.flights && s.flights[p].HitRead?
  {
    var f, s1 := s.flights[p], Drop(s, p);
    if c.hash(f.cred.secret) != f.entry.hash then s1
    else if Expired(f.entry.expires, s.now) then if deleted then s1.(cache := s.cache - {f.cred.id}) else s1
    else Accepted(s1, Accept(f.cred, f.entry.tenant, f.entry.principal, f.entry.scopes, s.now, Some(f.entry), f.readAt))
  }

  function AfterCheck(c: Config, s: State, p: nat): State
    requires p in s.flights && s.flights[p].Loaded?
  {
    var f := s.flights[p];
    if c.hash(f.cred.secret) != f.row.hash || f.row.revoked || Expired(f.row.expires, s.now) then Drop(s, p)
    else Move(s, p, Passed(f.cred, f.row, s.now))
  }

  function AfterFinish(s: State, p: nat, cached: bool): State
    requires p in s.flights && s.flights[p].Passed?
  {
    var f := s.flights[p];
    var ent := EntryOf(f.cred.id, f.row, s.now);
    var s1 := Drop(s, p);
    var s2 := if !cached then s1
              else s1.(cache := s.cache[f.cred.id := ent], sets := s.sets + [SetEvent(f.cred.id, ent, f.row)]);
    Accepted(s2, Accept(f.cred, ent.tenant, ent.principal, ent.scopes, f.checkedAt, None, f.checkedAt))
  }

  /** Everything but the calls of an authentication. */
  predicate IsAdmin(e: Step) { e.Wait? || e.RevokeRow? || e.Delete? || e.Mint? || e.PutTenant? }

  function Admin(s: State, e: Step): State
    requires IsAdmin(e)
  {
    match e
    case Wait(d) => s.(now := s.now + d)
    case RevokeRow(id, tc) =>
      if id in s.keys && s.keys[id].tenant == tc then s.(keys := s.keys[id := s.keys[id].(revoked := true)]) else s
    case Delete(id) => s.(cache := s.cache - {id})
    case Mint(id, row) => s.(keys := s.keys[id := row])
    case PutTenant(slug, tenant) => s.(tenants := s.tenants[slug := tenant])
  }

  /** The next call of an authentication. */
  function Advance(c: Config, s: State, e: Step): State
    requires Enabled(c, s, e) && !IsAdmin(e)
  {
    match e
    case GetHit(p, cred) => Move(s, p, HitRead(cred, s.cache[cred.id], s.now))
    case GetMiss(p, cred, _) => Move(s, p, Missed(cred))
    case HitCheck(p, deleted) => AfterHit(c, s, p, deleted)
    case FindTenant(p) =>
      var f := s.flights[p];
      if f.cred.scope in s.tenants && s.tenants[f.cred.scope].active
      then
        var tid := s.tenants[f.cred.scope].id;
        Move(s, p, Scoped(f.cred, tid)).(lookups := s.lookups + [(f.cred.scope, tid)])
      else Drop(s, p)
    case ReadKey(p) =>
      var f := s.flights[p];
      if f.cred.id in s.keys && s.keys[f.cred.id].tenant == f.tid
      then Move(s, p, Loaded(f.cred, s.keys[f.cred.id])) else Drop(s, p)
    case Check(p) => AfterCheck(c, s, p)
    case Finish(p, cached) => AfterFinish(s, p, cached)
    case Abort(p) => Drop(s, p)
  }

  function Apply(c: Config, s: State, e: Step): State
    requires Enabled(c, s, e)
  {
    if IsAdmin(e) then Admin(s, e) else Advance(c, s, e)
  }

  // ------------------------------------------------------------------
  // What every step keeps
  // ------------------------------------------------------------------

  /** `row` is an earlier reading of the key. */
  predicate Reading(s: State, id: string, row: KeyRow) {
    id in s.keys && s.keys[id] == row.(revoked := s.keys[id].revoked) && (row.revoked ==> s.keys[id].revoked)
  }

  /** The entry is the outcome of a set made from a reading that was not revoked. */
  ghost predicate Genuine(s: State, id: string, ent: Entry) {
    exists k :: 0 <= k < |s.sets| && s.sets[k].id == id && s.sets[k].entry == ent
  }

  ghost predicate SetsGood(s: State) {
    forall k | 0 <= k < |s.sets| ::
      var v := s.sets[k];
      && Reading(s, v.id, v.row) && !v.row.revoked
      && v.entry == EntryOf(v.id, v.row, v.entry.setAt) && v.entry.setAt <= s.now
  }

  ghost predicate CacheGood(s: State) {
    forall id | id in s.cache :: Genuine(s, id, s.cache[id])
  }

  ghost predicate FlightGood(c: Config, s: State, f: Flight) {
    f.cred.WellFormed() &&
    match f
    case HitRead(cred, ent, readAt) =>
      Genuine(s, cred.id, ent) && ent.setAt <= readAt < ent.setAt + c.ttl && readAt <= s.now
    case Missed(_) => true
    case Scoped(cred, tid) => (cred.scope, tid) in s.lookups
    case Loaded(cred, row) => Reading(s, cred.id, row) && (cred.scope, row.tenant) in s.lookups
    case Passed(cred, row, checkedAt) =>
      && Reading(s, cred.id, row) && !row.revoked && c.hash(cred.secret) == row.hash
      && !Expired(row.expires, checkedAt) && checkedAt <= s.now && (cred.scope, row.tenant) in s.lookups
  }

  ghost predicate FlightsGood(c: Config, s: State) {
    forall p | p in s.flights :: FlightGood(c, s, s.flights[p])
  }

  ghost predicate AcceptGood(c: Config, s: State, a: Accept) {
    && a.cred.id in s.keys && s.keys[a.cred.id].hash == c.hash(a.cred.secret)
    && a.tenant == s.keys[a.cred.id].tenant && a.scopes == s.keys[a.cred.id].scopes && a.principal == a.cred.id
    && !Expired(s.keys[a.cred.id].expires, a.at) && a.readAt <= a.at <= s.now
    && (a.hit.None? ==> (a.cred.scope, a.tenant) in s.lookups)
    && (a.hit.Some? ==> Genuine(s, a.cred.id, a.hit.value) && a.hit.value.setAt <= a.readAt < a.hit.value.setAt + c.ttl)
  }

  ghost predicate AcceptsGood(c: Config, s: State) {
    forall k | 0 <= k < |s.accepts| :: AcceptGood(c, s, s.accepts[k])
  }

  ghost predicate Inv(c: Config, s: State) {
    SetsGood(s) && CacheGood(s) && FlightsGood(c, s) && AcceptsGood(c, s)
  }

  /** What only grows: time, the sets, the keys (up to revocation) and the accepts. */
  ghost predicate Grows(s: State, t: State) {
    && s.now <= t.now && s.lookups <= t.lookups && s.sets <= t.sets && s.accepts <= t.accepts
    && forall id | id in s.keys ::
         && id in t.keys && t.keys[id] == s.keys[id].(revoked := t.keys[id].revoked)
         && (s.keys[id].revoked ==> t.keys[id].revoked)
  }

  lemma AdminGrows(s: State, e: Step)
    requires IsAdmin(e) && (e.Mint? ==> e.id !in s.keys)
    ensures Grows(s, Admin(s, e))
  {
  }

  lemma AdvanceGrows(c: Config, s: State, e: Step)
    requires Enabled(c, s, e) && !IsAdmin(e)
    ensures Grows(s, Advance(c, s, e))
  {
    hide ColdQuery.IsUuid, Visible, Expired;
    var t := Advance(c, s, e);
    assert t.keys == s.keys && t.now == s.now && s.lookups <= t.lookups && s.sets <= t.sets && s.accepts <= t.accepts;
    hide Advance, Enabled;
  }

  lemma StepGrows(c: Config, s: State, e: Step)
    requires Enabled(c, s, e)
    ensures Grows(s, Apply(c, s, e))
  {
    hide Grows, Admin, Advance, Visible;
    if IsAdmin(e) {
      AdminGrows(s, e);
    } else {
      AdvanceGrows(c, s, e);
    }
  }

  lemma GrowsTrans(s: State, t: State, u: State)
    requires Grows(s, t) && Grows(t, u)
    ensures Grows(s, u)
  {
  }

  lemma GrowsReading(s: State, t: State, id: string, row: KeyRow)
    requires Grows(s, t) && Reading(s, id, row)
    ensures Reading(t, id, row)
  {
  }

  lemma GrowsGenuine(s: State, t: State, id: string, ent: Entry)
    requires Grows(s, t) && Genuine(s, id, ent)
    ensures Genuine(t, id, ent)
  {
    var k :| 0 <= k < |s.sets| && s.sets[k].id == id && s.sets[k].entry == ent;
    assert t.sets[k] == s.sets[k];
  }

  lemma GrowsFlight(c: Config, s: State, t: State, f: Flight)
    requires Grows(s, t) && FlightGood(c, s, f)
    ensures FlightGood(c, t, f)
  {
    hide Genuine, Reading;
    match f
    case HitRead(cred, ent, _) => GrowsGenuine(s, t, cred.id, ent);
    case Missed(_) =>
    case Scoped(_, _) =>
    case Loaded(cred, row) => GrowsReading(s, t, cred.id, row);
    case Passed(cred, row, _) => GrowsReading(s, t, cred.id, row);
  }

  lemma GrowsAccept(c: Config, s: State, t: State, a: Accept)
    requires Grows(s, t) && AcceptGood(c, s, a)
    ensures AcceptGood(c, t, a)
  {
    hide Genuine;
    if a.hit.Some? {
      GrowsGenuine(s, t, a.cred.id, a.hit.value);
    }
  }

  /** A step adds at most one set, made from a flight that passed its checks. */
  lemma NewSet(c: Config, s: State, e: Step)
    requires Enabled(c, s, e)
    ensures var t := Apply(c, s, e);
            t.sets == s.sets ||
            (e.Finish? && var f := s.flights[e.p];
             t.sets == s.sets + [SetEvent(f.cred.id, EntryOf(f.cred.id, f.row, s.now), f.row)])
  {
    hide ColdQuery.IsUuid;
  }

  lemma KeepsSets(c: Config, s: State, e: Step)
    requires SetsGood(s) && FlightsGood(c, s) && Enabled(c, s, e)
    ensures SetsGood(Apply(c, s, e))
  {
    var t := Apply(c, s, e);
    StepGrows(c, s, e);
    NewSet(c, s, e);
    assert e.Finish? ==> FlightGood(c, s, s.flights[e.p]);
    hide Apply, Enabled, Reading, FlightsGood;
    forall k | 0 <= k < |t.sets|
      ensures var v := t.sets[k];
              && Reading(t, v.id, v.row) && !v.row.revoked
              && v.entry == EntryOf(v.id, v.row, v.entry.setAt) && v.entry.setAt <= t.now
    {
      if k < |s.sets| {
        assert t.sets[k] == s.sets[k];
        GrowsReading(s, t, s.sets[k].id, s.sets[k].row);
      } else {
        GrowsReading(s, t, s.flights[e.p].cred.id, s.flights[e.p].row);
      }
    }
  }

  lemma NewEntry(c: Config, s: State, e: Step, id: string)
    requires Enabled(c, s, e) && id in Apply(c, s, e).cache
    ensures var t := Apply(c, s, e);
            (id in s.cache && t.cache[id] == s.cache[id]) ||
            (|t.sets| > 0 && t.sets[|t.sets| - 1].id == id && t.sets[|t.sets| - 1].entry == t.cache[id])
  {
    hide ColdQuery.IsUuid, Visible, Expired;
    if IsAdmin(e) { hide Advance; } else { hide Admin; }
  }

  lemma KeepsCache(c: Config, s: State, e: Step)
    requires CacheGood(s) && Enabled(c, s, e)
    ensures CacheGood(Apply(c, s, e))
  {
    StepGrows(c, s, e);
    var t := Apply(c, s, e);
    hide Apply, Enabled, Grows;
    forall id | id in t.cache ensures Genuine(t, id, t.cache[id]) {
      NewEntry(c, s, e, id);
      if id in s.cache && t.cache[id] == s.cache[id] {
        GrowsGenuine(s, t, id, s.cache[id]);
      }
    }
  }

  lemma GenuineFacts(s: State, id: string, ent: Entry)
    requires SetsGood(s) && Genuine(s, id, ent)
    ensures ent.setAt <= s.now && id in s.keys
    ensures ent == EntryOf(id, s.keys[id], ent.setAt)
  {
    var k :| 0 <= k < |s.sets| && s.sets[k].id == id && s.sets[k].entry == ent;
    assert Reading(s, id, s.sets[k].row);
  }

  /** Where a step may take its own flight; every other flight stays or ends. */
  lemma FlightMoves(c: Config, s: State, e: Step, p: nat)
    requires Enabled(c, s, e) && p in Apply(c, s, e).flights
    requires !(p in s.flights && Apply(c, s, e).flights[p] == s.flights[p])
    ensures match Apply(c, s, e).flights[p]
            case HitRead(cred, ent, readAt) =>
              Visible(c, s, cred.id) && ent == s.cache[cred.id] && readAt == s.now && cred.WellFormed()
            case Missed(cred) => cred.WellFormed()
            case Scoped(cred, tid) =>
              p in s.flights && s.flights[p] == Missed(cred) && (cred.scope, tid) in Apply(c, s, e).lookups
            case Loaded(cred, row) =>
              && p in s.flights && s.flights[p] == Scoped(cred, row.tenant)
              && cred.id in s.keys && row == s.keys[cred.id]
            case Passed(cred, row, at) =>
              && p in s.flights && s.flights[p] == Loaded(cred, row) && at == s.now
              && c.hash(cred.secret) == row.hash && !row.revoked && !Expired(row.expires, s.now)
  {
    hide ColdQuery.IsUuid, Expired, Visible;
    if IsAdmin(e) || e.HitCheck? || e.Finish? || e.Abort? {
      OtherFlights(c, s, e);
      hide Apply;
    } else {
      hide Admin, AfterHit, AfterFinish;
    }
  }

  lemma OtherFlights(c: Config, s: State, e: Step)
    requires Enabled(c, s, e) && (IsAdmin(e) || e.HitCheck? || e.Finish? || e.Abort?)
    ensures Apply(c, s, e).flights == if IsAdmin(e) then s.flights else s.flights - {e.p}
  {
    hide ColdQuery.IsUuid, Expired, Visible;
    if IsAdmin(e) { hide Advance; } else { hide Admin; }
  }

  lemma NewFlight(c: Config, s: State, e: Step, p: nat)
    requires SetsGood(s) && CacheGood(s) && FlightsGood(c, s) && Enabled(c, s, e) && p in Apply(c, s, e).flights
    requires !(p in s.flights && Apply(c, s, e).flights[p] == s.flights[p])
    ensures FlightGood(c, Apply(c, s, e), Apply(c, s, e).flights[p])
  {
    hide Apply, Enabled, SetsGood, Genuine, Grows, Reading;
    FlightMoves(c, s, e, p);
    StepGrows(c, s, e);
    var t := Apply(c, s, e);
    var f := t.flights[p];
    assert p in s.flights ==> FlightGood(c, s, s.flights[p]);
    hide FlightsGood;
    match f {
      case HitRead(cred, ent, _) =>
        GenuineFacts(s, cred.id, ent);
        GrowsFlight(c, s, t, f);
      case Loaded(cred, row) =>
        ReadsItself(s, cred.id);
        GrowsFlight(c, s, t, f);
      case Passed(_, _, _) => GrowsFlight(c, s, t, f);
      case _ =>
    }
  }

  lemma ReadsItself(s: State, id: string)
    requires id in s.keys
    ensures Reading(s, id, s.keys[id])
  {
  }

  lemma KeepsFlights(c: Config, s: State, e: Step)
    requires SetsGood(s) && CacheGood(s) && FlightsGood(c, s) && Enabled(c, s, e)
    ensures FlightsGood(c, Apply(c, s, e))
  {
    hide Apply, Enabled, Grows, FlightGood, SetsGood, CacheGood;
    StepGrows(c, s, e);
    var t := Apply(c, s, e);
    forall p | p in t.flights ensures FlightGood(c, t, t.flights[p]) {
      if p in s.flights && t.flights[p] == s.flights[p] {
        GrowsFlight(c, s, t, t.flights[p]);
      } else {
        NewFlight(c, s, e, p);
      }
    }
  }

  lemma HitAccept(c: Config, s: State, p: nat, deleted: bool)
    requires SetsGood(s) && FlightsGood(c, s) && Enabled(c, s, HitCheck(p, deleted))
    ensures var t := AfterHit(c, s, p, deleted);
            t.accepts == s.accepts ||
            (|t.accepts| == |s.accepts| + 1 && AcceptGood(c, s, t.accepts[|s.accepts|]) && s.accepts <= t.accepts)
  {
    hide ColdQuery.IsUuid;
    var f := s.flights[p];
    assert FlightGood(c, s, f);
    GenuineFacts(s, f.cred.id, f.entry);
    hide Genuine, SetsGood, FlightsGood;
  }

  lemma FinishAccept(c: Config, s: State, p: nat, cached: bool)
    requires FlightsGood(c, s) && Enabled(c, s, Finish(p, cached))
    ensures var t := AfterFinish(s, p, cached);
            t.accepts == s.accepts ||
            (|t.accepts| == |s.accepts| + 1 && AcceptGood(c, s, t.accepts[|s.accepts|]) && s.accepts <= t.accepts)
  {
    hide ColdQuery.IsUuid;
    assert FlightGood(c, s, s.flights[p]);
    hide FlightsGood, Genuine;
  }

  lemma NewAcceptGood(c: Config, s: State, e: Step)
    requires SetsGood(s) && FlightsGood(c, s) && Enabled(c, s, e)
    ensures var t := Apply(c, s, e);
            t.accepts == s.accepts ||
            (|t.accepts| == |s.accepts| + 1 && AcceptGood(c, s, t.accepts[|s.accepts|]) && s.accepts <= t.accepts)
  {
    hide SetsGood, FlightsGood, AcceptGood, Visible;
    match e {
      case HitCheck(p, deleted) => hide AfterHit, AfterFinish, Admin; HitAccept(c, s, p, deleted);
      case Finish(p, cached) => hide AfterHit, AfterFinish, Admin; FinishAccept(c, s, p, cached);
      case _ => hide AfterHit, AfterFinish;
    }
  }

  lemma KeepsAccepts(c: Config, s: State, e: Step)
    requires SetsGood(s) && FlightsGood(c, s) && AcceptsGood(c, s) && Enabled(c, s, e)
    ensures AcceptsGood(c, Apply(c, s, e))
  {
    hide Apply, Enabled, Grows, AcceptGood, SetsGood, FlightsGood;
    StepGrows(c, s, e);
    NewAcceptGood(c, s, e);
    var t := Apply(c, s, e);
    forall k | 0 <= k < |t.accepts| ensures AcceptGood(c, t, t.accepts[k]) {
      assert k < |s.accepts| ==> t.accepts[k] == s.accepts[k];
      GrowsAccept(c, s, t, t.accepts[k]);
    }
  }

  lemma StepInv(c: Config, s: State, e: Step)
    requires Inv(c, s) && Enabled(c, s, e)
    ensures Inv(c, Apply(c, s, e))
  {
    hide Apply, Enabled, SetsGood, CacheGood, FlightsGood, AcceptsGood;
    KeepsSets(c, s, e);
    KeepsCache(c, s, e);
    KeepsFlights(c, s, e);
    KeepsAccepts(c, s, e);
  }

  // ------------------------------------------------------------------
  // Runs
  // ------------------------------------------------------------------

  predicate Runs(c: Config, s: State, steps: seq<Step>, t: State)
    decreases |steps|
  {
    if steps == [] then s == t else Enabled(c, s, steps[0]) && Runs(c, Apply(c, s, steps[0]), steps[1..], t)
  }

  lemma {:induction false} RunsInv(c: Config, s: State, steps: seq<Step>, t: State)
    requires Inv(c, s) && Runs(c, s, steps, t)
    ensures Inv(c, t)
    decreases |steps|
  {
    hide Inv, Apply, Enabled;
    if steps != [] {
      StepInv(c, s, steps[0]);
      RunsInv(c, Apply(c, s, steps[0]), steps[1..], t);
    }
  }

  /** One step revokes a key iff it is its own tenant's revocation of it. */
  lemma StepRevokes(c: Config, s: State, e: Step, id: string)
    requires Enabled(c, s, e) && !IsRevoked(s, id)
    ensures IsRevoked(Apply(c, s, e), id) <==> id in s.keys && e == RevokeRow(id, s.keys[id].tenant)
  {
    hide Visible, ColdQuery.IsUuid;
  }

  lemma {:induction false} RunsGrow(c: Config, s: State, steps: seq<Step>, t: State)
    requires Runs(c, s, steps, t)
    ensures Grows(s, t)
    decreases |steps|
  {
    hide Grows, Apply, Enabled;
    if steps == [] {
      GrowsSelf(s);
    } else {
      var s1 := Apply(c, s, steps[0]);
      StepGrows(c, s, steps[0]);
      RunsGrow(c, s1, steps[1..], t);
      GrowsTrans(s, s1, t);
    }
  }

  /** A key that is there gets revoked in a run iff the run holds its own tenant's revocation of it. */
  lemma {:induction false} OnlyOwnerRevokes(c: Config, s: State, steps: seq<Step>, t: State, id: string)
    requires Runs(c, s, steps, t) && id in s.keys && !s.keys[id].revoked
    ensures IsRevoked(t, id) <==> RevokeRow(id, s.keys[id].tenant) in steps
    decreases |steps|
  {
    hide Apply, Enabled, Grows;
    if steps != [] {
      var s1 := Apply(c, s, steps[0]);
      StepRevokes(c, s, steps[0], id);
      StepGrows(c, s, steps[0]);
      RunsGrow(c, s1, steps[1..], t);
      GrowsKey(s, s1, id);
      if IsRevoked(s1, id) {
        GrowsKey(s1, t, id);
      } else {
        OnlyOwnerRevokes(c, s1, steps[1..], t, id);
      }
    }
  }

  /** Over time a key keeps its tenant, and stays revoked. */
  lemma GrowsKey(s: State, t: State, id: string)
    requires Grows(s, t) && id in s.keys
    ensures id in t.keys && t.keys[id].tenant == s.keys[id].tenant && (s.keys[id].revoked ==> t.keys[id].revoked)
  {
  }

  /** A fresh deployment at some time: no keys, nothing cached, nobody waiting. */
  function Fresh(now: int): State {
    State(now, map[], map[], map[], map[], [], [], [])
  }

  /**
   Every accept, cached or not, is for the holder of the key's secret, carries that key's tenant
   and scopes, and its check was strictly before the key's expiry. A cache-served one comes from
   an entry set less than one TTL before it was read, made from a reading that was not revoked.
   */
  lemma AcceptsAreGenuine(c: Config, now: int, steps: seq<Step>, s: State, k: nat)
    requires Runs(c, Fresh(now), steps, s) && k < |s.accepts|
    ensures var a := s.accepts[k];
            && a.cred.id in s.keys
            && var key := s.keys[a.cred.id];
            && key.hash == c.hash(a.cred.secret) && a.tenant == key.tenant && a.scopes == key.scopes
            && (key.expires.Some? ==> a.at < key.expires.value)
            && (a.hit.None? ==> (a.cred.scope, a.tenant) in s.lookups)
            && (a.hit.Some? ==> exists v :: v in s.sets && v.id == a.cred.id && v.entry == a.hit.value
                                            && !v.row.revoked && v.entry.setAt <= a.readAt < v.entry.setAt + c.ttl)
  {
    hide Runs;
    RunsInv(c, Fresh(now), steps, s);
    var a := s.accepts[k];
    assert AcceptGood(c, s, a);
    if a.hit.Some? {
      var i :| 0 <= i < |s.sets| && s.sets[i].id == a.cred.id && s.sets[i].entry == a.hit.value;
      assert s.sets[i] in s.sets && !s.sets[i].row.revoked;
    }
  }

  // ------------------------------------------------------------------
  // Revocation
  // ------------------------------------------------------------------

  predicate IsRevoked(s: State, id: string) { id in s.keys && s.keys[id].revoked }

  /** This authentication will be accepted if it runs now. */
  predicate Promising(c: Config, s: State, f: Flight) {
    match f
    case HitRead(cred, ent, _) =>
      c.hash(cred.secret) == ent.hash && !Expired(ent.expires, s.now) && ColdQuery.IsUuid(ent.tenant)
    case Loaded(cred, row) =>
      c.hash(cred.secret) == row.hash && !row.revoked && !Expired(row.expires, s.now) && ColdQuery.IsUuid(row.tenant)
    case Passed(_, row, _) => ColdQuery.IsUuid(row.tenant)
    case _ => false
  }

  ghost predicate Underway(c: Config, s: State, id: string) {
    exists p :: p in s.flights && s.flights[p].cred.id == id && Promising(c, s, s.flights[p])
  }

  /** Some credential for the key would be accepted by this entry. */
  ghost predicate Opens(c: Config, s: State, id: string, ent: Entry) {
    && !Expired(ent.expires, s.now) && ColdQuery.IsUuid(ent.tenant)
    && exists cred: Credential :: cred.WellFormed() && cred.id == id && c.hash(cred.secret) == ent.hash
  }

  ghost predicate Open(c: Config, s: State, id: string) {
    Underway(c, s, id) || (Visible(c, s, id) && Opens(c, s, id, s.cache[id]))
  }

  /** A revoked key that nothing can still let in. */
  ghost predicate Shut(c: Config, s: State, id: string) { IsRevoked(s, id) && !Open(c, s, id) }

  lemma EarlierPromise(c: Config, s: State, t: State, f: Flight)
    requires s.now <= t.now && Promising(c, t, f)
    ensures Promising(c, s, f)
  {
    hide ColdQuery.IsUuid;
  }

  /** Nothing promising on a shut key, old or new. */
  lemma ShutFlight(c: Config, s: State, e: Step, id: string, p: nat)
    requires Shut(c, s, id) && Enabled(c, s, e) && p in Apply(c, s, e).flights
    requires Apply(c, s, e).flights[p].cred.id == id
    ensures !Promising(c, s, Apply(c, s, e).flights[p])
  {
    hide Apply, Enabled, ColdQuery.IsUuid, Visible;
    var f := Apply(c, s, e).flights[p];
    if !(p in s.flights && s.flights[p] == f) {
      FlightMoves(c, s, e, p);
      match f {
        case HitRead(cred, ent, _) => assert cred.WellFormed() && cred.id == id;
        case Passed(cred, row, _) => assert !Promising(c, s, Loaded(cred, row));
        case _ =>
      }
    }
  }

  lemma ShutNotUnderway(c: Config, s: State, e: Step, id: string)
    requires Shut(c, s, id) && Enabled(c, s, e)
    ensures !Underway(c, Apply(c, s, e), id)
  {
    StepGrows(c, s, e);
    var t := Apply(c, s, e);
    hide Apply, Enabled, Shut, Promising;
    if Underway(c, t, id) {
      var p :| p in t.flights && t.flights[p].cred.id == id && Promising(c, t, t.flights[p]);
      ShutFlight(c, s, e, id, p);
      EarlierPromise(c, s, t, t.flights[p]);
      assert false;
    }
  }

  /** No new entry opens a shut key: a set needs a flight that passed, and none with a usable tenant is under way. */
  lemma ShutEntry(c: Config, s: State, e: Step, id: string)
    requires Shut(c, s, id) && Enabled(c, s, e) && Visible(c, Apply(c, s, e), id)
    ensures !Opens(c, Apply(c, s, e), id, Apply(c, s, e).cache[id])
  {
    var t := Apply(c, s, e);
    StepGrows(c, s, e);
    NewEntry(c, s, e, id);
    if id in s.cache && t.cache[id] == s.cache[id] {
      hide Apply, Enabled, ColdQuery.IsUuid;
      assert Visible(c, s, id);
    } else {
      NewSet(c, s, e);
      FinishEntry(c, s, e, id);
      hide Apply, ColdQuery.IsUuid, Opens, Visible;
      assert !Promising(c, s, s.flights[e.p]);
    }
  }

  lemma FinishEntry(c: Config, s: State, e: Step, id: string)
    requires Enabled(c, s, e) && id in Apply(c, s, e).cache
    requires !(id in s.cache && Apply(c, s, e).cache[id] == s.cache[id])
    ensures e.Finish? && s.flights[e.p].cred.id == id && Apply(c, s, e).cache[id].tenant == s.flights[e.p].row.tenant
  {
    hide ColdQuery.IsUuid, Visible, Expired;
  }

  /** A step's new accept comes from a promising flight. */
  lemma NewAccept(c: Config, s: State, e: Step)
    requires Enabled(c, s, e)
    ensures var t := Apply(c, s, e);
            t.accepts == s.accepts ||
            ((e.HitCheck? || e.Finish?) && Promising(c, s, s.flights[e.p]) && |t.accepts| == |s.accepts| + 1
             && s.accepts <= t.accepts && t.accepts[|s.accepts|].cred == s.flights[e.p].cred)
  {
    hide ColdQuery.IsUuid;
  }

  lemma StepShut(c: Config, s: State, e: Step, id: string)
    requires Shut(c, s, id) && Enabled(c, s, e)
    ensures Shut(c, Apply(c, s, e), id)
    ensures forall k | |s.accepts| <= k < |Apply(c, s, e).accepts| :: Apply(c, s, e).accepts[k].cred.id != id
  {
    StepGrows(c, s, e);
    NewAccept(c, s, e);
    ShutNotUnderway(c, s, e, id);
    var t := Apply(c, s, e);
    if Visible(c, t, id) {
      ShutEntry(c, s, e, id);
    }
    assert e.HitCheck? || e.Finish? ==> e.p in s.flights;
    hide Apply, Enabled, Visible, Opens, Promising;
  }

  /** Once shut, a revoked key stays out: no continuation of the run accepts it. */
  lemma {:induction false} ShutStaysShut(c: Config, s: State, steps: seq<Step>, t: State, id: string)
    requires Shut(c, s, id) && Runs(c, s, steps, t)
    ensures Shut(c, t, id) && s.accepts <= t.accepts
    ensures forall k | |s.accepts| <= k < |t.accepts| :: t.accepts[k].cred.id != id
    decreases |steps|
  {
    hide Shut, Apply, Enabled;
    if steps != [] {
      var u := Apply(c, s, steps[0]);
      StepShut(c, s, steps[0], id);
      StepGrows(c, s, steps[0]);
      ShutStaysShut(c, u, steps[1..], t, id);
      assert forall k | |s.accepts| <= k < |u.accepts| :: t.accepts[k] == u.accepts[k];
    }
  }

  lemma {:induction false} FreeNumber(ps: set<nat>) returns (p: nat)
    ensures p !in ps && forall q | q in ps :: q < p
    decreases |ps|
  {
    if ps == {} {
      p := 0;
    } else {
      var q :| q in ps;
      var r := FreeNumber(ps - {q});
      p := Max(q + 1, r);
      assert forall x | x in ps :: x == q || x in ps - {q};
    }
  }

  lemma RunsOne(c: Config, s: State, e: Step)
    requires Enabled(c, s, e)
    ensures Runs(c, s, [e], Apply(c, s, e))
  {
    hide Apply, Enabled;
    assert [e][1..] == [];
    assert Runs(c, Apply(c, s, e), [e][1..], Apply(c, s, e));
  }

  lemma {:induction false} RunsSnoc(c: Config, s: State, steps: seq<Step>, t: State, e: Step)
    requires Runs(c, s, steps, t) && Enabled(c, t, e)
    ensures Runs(c, s, steps + [e], Apply(c, t, e))
    decreases |steps|
  {
    hide Apply, Enabled;
    if steps == [] {
      RunsOne(c, s, e);
      assert steps + [e] == [e];
    } else {
      RunsSnoc(c, Apply(c, s, steps[0]), steps[1..], t, e);
      assert (steps + [e])[1..] == steps[1..] + [e];
    }
  }

  lemma RunsTwo(c: Config, s: State, e: Step, e2: Step)
    requires Enabled(c, s, e) && Enabled(c, Apply(c, s, e), e2)
    ensures Runs(c, s, [e, e2], Apply(c, Apply(c, s, e), e2))
  {
    hide Apply, Enabled;
    RunsOne(c, s, e);
    RunsSnoc(c, s, [e], Apply(c, s, e), e2);
    assert [e] + [e2] == [e, e2];
  }

  /** While open, some continuation accepts the key. */
  lemma OpenLetsIn(c: Config, s: State, id: string) returns (steps: seq<Step>, t: State)
    requires Open(c, s, id)
    ensures Runs(c, s, steps, t) && |t.accepts| == |s.accepts| + 1 && t.accepts[|s.accepts|].cred.id == id
  {
    hide ColdQuery.IsUuid;
    if Underway(c, s, id) {
      var p :| p in s.flights && s.flights[p].cred.id == id && Promising(c, s, s.flights[p]);
      steps, t := FlightLetsIn(c, s, p);
    } else {
      var cred: Credential :| cred.WellFormed() && cred.id == id && c.hash(cred.secret) == s.cache[id].hash;
      var p := FreeNumber(s.flights.Keys);
      RunsTwo(c, s, GetHit(p, cred), HitCheck(p, false));
      steps, t := [GetHit(p, cred), HitCheck(p, false)], Apply(c, Apply(c, s, GetHit(p, cred)), HitCheck(p, false));
      hide Runs;
    }
  }

  lemma FlightLetsIn(c: Config, s: State, p: nat) returns (steps: seq<Step>, t: State)
    requires p in s.flights && Promising(c, s, s.flights[p])
    ensures Runs(c, s, steps, t) && |t.accepts| == |s.accepts| + 1
    ensures t.accepts[|s.accepts|].cred.id == s.flights[p].cred.id
  {
    hide ColdQuery.IsUuid, Runs;
    match s.flights[p]
    case HitRead(_, _, _) =>
      RunsOne(c, s, HitCheck(p, false));
      steps, t := [HitCheck(p, false)], Apply(c, s, HitCheck(p, false));
    case Passed(_, _, _) =>
      RunsOne(c, s, Finish(p, false));
      steps, t := [Finish(p, false)], Apply(c, s, Finish(p, false));
    case Loaded(_, _) =>
      RunsTwo(c, s, Check(p), Finish(p, false));
      steps, t := [Check(p), Finish(p, false)], Apply(c, Apply(c, s, Check(p)), Finish(p, false));
  }

  /** A revoked key is out for good iff no usable entry is visible and no promising authentication is under way. */
  lemma OutForGoodIffShut(c: Config, s: State, id: string)
    requires IsRevoked(s, id)
    ensures !Open(c, s, id) <==>
            forall steps, t, k | Runs(c, s, steps, t) && |s.accepts| <= k < |t.accepts| :: t.accepts[k].cred.id != id
  {
    hide Runs, Open;
    if Open(c, s, id) {
      var steps, t := OpenLetsIn(c, s, id);
      assert t.accepts[|s.accepts|].cred.id == id;
    } else {
      forall steps, t, k | Runs(c, s, steps, t) && |s.accepts| <= k < |t.accepts| ensures t.accepts[k].cred.id != id {
        ShutStaysShut(c, s, steps, t, id);
      }
    }
  }

  /** No authentication holds something it read about the key: what an atomic hit and miss path guarantee. */
  predicate NobodyHolds(s: State, id: string) {
    forall p | p in s.flights && s.flights[p].cred.id == id :: s.flights[p].Missed? || s.flights[p].Scoped?
  }

  /** Revoke the row, delete the entry: with nobody holding an earlier reading the key is shut. */
  lemma RevokeShuts(c: Config, s: State, id: string)
    requires IsRevoked(s, id) && NobodyHolds(s, id)
    ensures Shut(c, Apply(c, s, Delete(id)), id)
  {
    hide ColdQuery.IsUuid;
  }

  // ------------------------------------------------------------------
  // How long a revoked key can still get in
  // ------------------------------------------------------------------

  /** What is known of the key is no use at time t: its tenant is unusable or it has expired by then. */
  predicate Useless(tenant: string, expires: Option<int>, t: int) {
    !ColdQuery.IsUuid(tenant) || Expired(expires, t)
  }

  /** A miss under way whose reading would still let the key in a TTL from now. */
  predicate Lingering(c: Config, s: State, f: Flight) {
    (f.Loaded? || f.Passed?) && Promising(c, s, f) && !Expired(f.row.expires, s.now + c.ttl)
  }

  ghost predicate Lingers(c: Config, s: State, id: string) {
    exists p :: p in s.flights && s.flights[p].cred.id == id && Lingering(c, s, s.flights[p])
  }

  /** What may still be known about a key revoked at time t0 if no reading of it lingers. */
  ghost predicate Fading(c: Config, t0: int, s: State, id: string) {
    && IsRevoked(s, id)
    && (id in s.cache ==> s.cache[id].setAt <= t0 || Useless(s.cache[id].tenant, s.cache[id].expires, t0 + c.ttl))
    && forall p | p in s.flights && s.flights[p].cred.id == id :: FadingFlight(c, t0, s.flights[p])
  }

  predicate FadingFlight(c: Config, t0: int, f: Flight) {
    match f
    case HitRead(_, ent, readAt) => readAt < t0 + c.ttl || Useless(ent.tenant, ent.expires, t0 + c.ttl)
    case Loaded(cred, row) =>
      row.revoked || c.hash(cred.secret) != row.hash || Useless(row.tenant, row.expires, t0 + c.ttl)
    case Passed(_, row, _) => Useless(row.tenant, row.expires, t0 + c.ttl)
    case _ => true
  }

  lemma FadingFlights(c: Config, t0: int, s: State, e: Step, id: string, p: nat)
    requires Fading(c, t0, s, id) && Enabled(c, s, e) && p in Apply(c, s, e).flights
    requires Apply(c, s, e).flights[p].cred.id == id
    ensures FadingFlight(c, t0, Apply(c, s, e).flights[p])
  {
    hide Apply, Enabled, Useless;
    var f := Apply(c, s, e).flights[p];
    assert p in s.flights && s.flights[p].cred.id == id ==> FadingFlight(c, t0, s.flights[p]);
    if !(p in s.flights && s.flights[p] == f) {
      FlightMoves(c, s, e, p);
    }
  }

  lemma FadingEntry(c: Config, t0: int, s: State, e: Step, id: string)
    requires Fading(c, t0, s, id) && Enabled(c, s, e) && id in Apply(c, s, e).cache
    ensures var ent := Apply(c, s, e).cache[id]; ent.setAt <= t0 || Useless(ent.tenant, ent.expires, t0 + c.ttl)
  {
    hide Useless;
    assert e.Finish? && s.flights[e.p].cred.id == id ==> FadingFlight(c, t0, s.flights[e.p]);
    if !(id in s.cache && Apply(c, s, e).cache[id] == s.cache[id]) {
      FinishEntry(c, s, e, id);
    }
    hide Apply, Enabled;
  }

  lemma FadingAccept(c: Config, t0: int, s: State, e: Step, id: string)
    requires Inv(c, s) && Fading(c, t0, s, id) && Enabled(c, s, e)
    ensures var t := Apply(c, s, e);
            forall k | |s.accepts| <= k < |t.accepts| && t.accepts[k].cred.id == id :: t.accepts[k].readAt < t0 + c.ttl
  {
    NewAccept(c, s, e);
    if e.HitCheck? || e.Finish? {
      assert FlightGood(c, s, s.flights[e.p]);
      assert s.flights[e.p].cred.id == id ==> FadingFlight(c, t0, s.flights[e.p]);
    }
    hide Apply, Enabled, Inv, Fading, Genuine, Reading, ColdQuery.IsUuid;
  }

  lemma StepFading(c: Config, t0: int, s: State, e: Step, id: string)
    requires Fading(c, t0, s, id) && Enabled(c, s, e)
    ensures Fading(c, t0, Apply(c, s, e), id)
  {
    hide Apply, Enabled, FadingFlight, Useless;
    var t := Apply(c, s, e);
    StepGrows(c, s, e);
    if id in t.cache {
      FadingEntry(c, t0, s, e, id);
    }
    forall p | p in t.flights && t.flights[p].cred.id == id ensures FadingFlight(c, t0, t.flights[p]) {
      FadingFlights(c, t0, s, e, id, p);
    }
  }

  lemma {:induction false} RunsFading(c: Config, t0: int, s: State, steps: seq<Step>, t: State, id: string)
    requires Inv(c, s) && Fading(c, t0, s, id) && Runs(c, s, steps, t)
    ensures s.accepts <= t.accepts
    ensures forall k | |s.accepts| <= k < |t.accepts| && t.accepts[k].cred.id == id :: t.accepts[k].readAt < t0 + c.ttl
    decreases |steps|
  {
    hide Inv, Fading, Apply, Enabled;
    if steps != [] {
      var u := Apply(c, s, steps[0]);
      FadingAccept(c, t0, s, steps[0], id);
      StepFading(c, t0, s, steps[0], id);
      StepInv(c, s, steps[0]);
      StepGrows(c, s, steps[0]);
      RunsFading(c, t0, u, steps[1..], t, id);
      assert forall k | |s.accepts| <= k < |u.accepts| :: t.accepts[k] == u.accepts[k];
    }
  }

  /** At the moment the key is revoked and no reading of it lingers, everything known of it fades. */
  lemma FadingStarts(c: Config, s: State, id: string)
    requires Inv(c, s) && IsRevoked(s, id) && !Lingers(c, s, id)
    ensures Fading(c, s.now, s, id)
  {
    if id in s.cache {
      GenuineFacts(s, id, s.cache[id]);
    }
    forall p | p in s.flights && s.flights[p].cred.id == id ensures FadingFlight(c, s.now, s.flights[p]) {
      assert FlightGood(c, s, s.flights[p]) && !Lingering(c, s, s.flights[p]);
      if s.flights[p].HitRead? {
        GenuineFacts(s, id, s.flights[p].entry);
      }
      hide Genuine, Reading, ColdQuery.IsUuid, SetsGood;
    }
    hide FadingFlight;
  }

  /** A visible, unexpired entry lets in any well-formed credential with its id and secret, whatever its slug. */
  lemma HitLetsIn(c: Config, s: State, cred: Credential) returns (steps: seq<Step>, t: State)
    requires cred.WellFormed() && Visible(c, s, cred.id) && c.hash(cred.secret) == s.cache[cred.id].hash
    requires !Useless(s.cache[cred.id].tenant, s.cache[cred.id].expires, s.now)
    ensures Runs(c, s, steps, t) && |t.accepts| == |s.accepts| + 1 && s.accepts <= t.accepts
    ensures t.accepts[|s.accepts|].cred == cred && t.accepts[|s.accepts|].readAt == s.now
    ensures t.lookups == s.lookups && t.tenants == s.tenants
  {
    hide ColdQuery.IsUuid, Runs;
    var q := FreeNumber(s.flights.Keys);
    RunsTwo(c, s, GetHit(q, cred), HitCheck(q, false));
    steps, t := [GetHit(q, cred), HitCheck(q, false)], Apply(c, Apply(c, s, GetHit(q, cred)), HitCheck(q, false));
  }

  lemma {:induction false} RunsConcat(c: Config, s: State, a: seq<Step>, t: State, b: seq<Step>, u: State)
    requires Runs(c, s, a, t) && Runs(c, t, b, u)
    ensures Runs(c, s, a + b, u)
    decreases |a|
  {
    hide Apply, Enabled;
    if a == [] {
      assert a + b == b;
    } else {
      RunsConcat(c, Apply(c, s, a[0]), a[1..], t, b, u);
      assert (a + b)[1..] == a[1..] + b;
    }
  }

  /** A reading that passed its checks before a revocation can be cached, and let the key in, any time d later. */
  lemma PassedIsLate(c: Config, s: State, p: nat, d: nat) returns (steps: seq<Step>, t: State, k: nat)
    requires p in s.flights && s.flights[p].Passed? && FlightGood(c, s, s.flights[p]) && c.ttl > 0
    requires !Useless(s.flights[p].row.tenant, s.flights[p].row.expires, s.now + d)
    ensures Runs(c, s, steps, t) && |s.accepts| <= k < |t.accepts|
    ensures t.accepts[k].cred.id == s.flights[p].cred.id && t.accepts[k].readAt == s.now + d
  {
    hide ColdQuery.IsUuid, Runs, Genuine, Reading;
    var f := s.flights[p];
    RunsTwo(c, s, Wait(d), Finish(p, true));
    var u := Apply(c, Apply(c, s, Wait(d)), Finish(p, true));
    assert u.cache[f.cred.id] == EntryOf(f.cred.id, f.row, s.now + d) && u.now == s.now + d;
    assert |u.accepts| >= |s.accepts|;
    hide Apply, Enabled;
    var more;
    more, t := HitLetsIn(c, u, f.cred);
    RunsConcat(c, s, [Wait(d), Finish(p, true)], u, more, t);
    steps, k := [Wait(d), Finish(p, true)] + more, |u.accepts|;
  }

  lemma LoadedIsLate(c: Config, s: State, p: nat, d: nat) returns (steps: seq<Step>, t: State, k: nat)
    requires p in s.flights && s.flights[p].Loaded? && Promising(c, s, s.flights[p])
    requires !Useless(s.flights[p].row.tenant, s.flights[p].row.expires, s.now + d)
    ensures Runs(c, s, steps, t) && |s.accepts| <= k < |t.accepts|
    ensures t.accepts[k].cred.id == s.flights[p].cred.id && t.accepts[k].readAt == s.now + d
  {
    hide ColdQuery.IsUuid, Runs;
    RunsTwo(c, s, Wait(d), Check(p));
    var u := Apply(c, Apply(c, s, Wait(d)), Check(p));
    RunsSnoc(c, s, [Wait(d), Check(p)], u, Finish(p, false));
    steps, t, k := [Wait(d), Check(p)] + [Finish(p, false)], Apply(c, u, Finish(p, false)), |s.accepts|;
  }

  /**
   The documented worst case, one TTL, and exactly when it is met: every later accept of a revoked
   key was read less than a TTL after the revocation iff no miss under way holds a reading of it
   that would still be good a TTL later.
   */
  lemma TtlBoundsRevokedKeyIff(c: Config, s: State, id: string)
    requires Inv(c, s) && IsRevoked(s, id) && c.ttl > 0
    ensures !Lingers(c, s, id) <==>
            forall steps, t, k |
              Runs(c, s, steps, t) && |s.accepts| <= k < |t.accepts| && t.accepts[k].cred.id == id ::
              t.accepts[k].readAt < s.now + c.ttl
  {
    if Lingers(c, s, id) {
      var p :| p in s.flights && s.flights[p].cred.id == id && Lingering(c, s, s.flights[p]);
      assert FlightGood(c, s, s.flights[p]);
      hide Runs, Inv;
      var steps, t, k;
      if s.flights[p].Passed? {
        steps, t, k := PassedIsLate(c, s, p, c.ttl);
      } else {
        steps, t, k := LoadedIsLate(c, s, p, c.ttl);
      }
      assert t.accepts[k].readAt == s.now + c.ttl;
    } else {
      hide Runs, Lingers;
      FadingStarts(c, s, id);
      hide Inv, Fading;
      forall steps, t, k |
        Runs(c, s, steps, t) && |s.accepts| <= k < |t.accepts| && t.accepts[k].cred.id == id
        ensures t.accepts[k].readAt < s.now + c.ttl
      {
        RunsFading(c, s.now, s, steps, t, id);
      }
    }
  }

  /** In particular it is met when nobody holds a reading of the key. */
  lemma NobodyHoldsNothingLingers(c: Config, s: State, id: string)
    requires NobodyHolds(s, id)
    ensures !Lingers(c, s, id)
  {
  }

  // ------------------------------------------------------------------
  // The promises that fail, from a fresh deployment
  // ------------------------------------------------------------------

  /** A run by its last state. */
  ghost predicate Reachable(c: Config, now: int, s: State) {
    exists steps :: Runs(c, Fresh(now), steps, s)
  }

  lemma Reach(c: Config, now: int, s: State, e: Step, t: State)
    requires Reachable(c, now, s) && Enabled(c, s, e) && Apply(c, s, e) == t
    ensures Reachable(c, now, t)
  {
    hide Apply, Enabled;
    var steps :| Runs(c, Fresh(now), steps, s);
    RunsSnoc(c, Fresh(now), steps, s, e);
  }

  /** A key that never expires, minted for its credential. */
  function KeyFor(c: Config, tid: string, cred: Credential): KeyRow {
    KeyRow(tid, c.hash(cred.secret), [], false, None)
  }

  /** A deployment with one tenant, one key, and a miss that has passed its checks on it. */
  function AfterChecks(c: Config, now: int, tid: string, cred: Credential): State {
    var row := KeyFor(c, tid, cred);
    State(now, map[cred.scope := Tenant(tid, true)], map[cred.id := row], map[],
          map[0 := Passed(cred, row, now)], [(cred.scope, tid)], [], [])
  }

  lemma ReachChecks(c: Config, now: int, tid: string, cred: Credential)
    requires cred.WellFormed()
    ensures Reachable(c, now, AfterChecks(c, now, tid, cred))
  {
    hide Runs;
    assert Reachable(c, now, Fresh(now)) by { FreshReachable(c, now); }
    hide Reachable;
    var row := KeyFor(c, tid, cred);
    var s1 := Fresh(now).(tenants := map[cred.scope := Tenant(tid, true)]);
    Reach(c, now, Fresh(now), PutTenant(cred.scope, Tenant(tid, true)), s1);
    var s2 := s1.(keys := map[cred.id := row]);
    Reach(c, now, s1, Mint(cred.id, row), s2);
    var s3 := s2.(flights := map[0 := Missed(cred)]);
    Reach(c, now, s2, GetMiss(0, cred, false), s3);
    var s4 := s2.(flights := map[0 := Scoped(cred, tid)], lookups := [(cred.scope, tid)]);
    Reach(c, now, s3, FindTenant(0), s4);
    var s5 := s4.(flights := map[0 := Loaded(cred, row)]);
    Reach(c, now, s4, ReadKey(0), s5);
    Reach(c, now, s5, Check(0), AfterChecks(c, now, tid, cred));
  }

  lemma FreshReachable(c: Config, now: int)
    ensures Reachable(c, now, Fresh(now))
  {
    assert Runs(c, Fresh(now), [], Fresh(now));
  }

  /**
   Revoking and deleting do not stop a slow miss: for every d there is a run in which the key is
   revoked and its entry deleted, and the key is let in from the cache d later.
   */
  lemma RevokedKeyGetsInLate(c: Config, now: int, tid: string, cred: Credential, d: nat)
    returns (s: State, steps: seq<Step>, t: State, k: nat)
    requires cred.WellFormed() && ColdQuery.IsUuid(tid) && c.ttl > 0
    ensures Reachable(c, now, s) && IsRevoked(s, cred.id) && cred.id !in s.cache && s.now == now
    ensures Runs(c, s, steps, t) && |s.accepts| <= k < |t.accepts|
    ensures t.accepts[k].cred.id == cred.id && t.accepts[k].readAt == now + d
  {
    hide Runs, ColdQuery.IsUuid;
    ReachChecks(c, now, tid, cred);
    hide Reachable;
    var s0 := AfterChecks(c, now, tid, cred);
    s := s0.(keys := map[cred.id := KeyFor(c, tid, cred).(revoked := true)]);
    Reach(c, now, s0, RevokeRow(cred.id, tid), s);
    Reach(c, now, s, Delete(cred.id), s);
    ReachableInv(c, now, s);
    assert FlightGood(c, s, s.flights[0]);
    hide Inv;
    steps, t, k := PassedIsLate(c, s, 0, d);
  }

  lemma ReachableInv(c: Config, now: int, s: State)
    requires Reachable(c, now, s)
    ensures Inv(c, s)
  {
    var steps :| Runs(c, Fresh(now), steps, s);
    assert Inv(c, Fresh(now));
    hide Inv, Runs;
    RunsInv(c, Fresh(now), steps, s);
  }

  function Then(c: Config, s: State, e: Step): State {
    if Enabled(c, s, e) then Apply(c, s, e) else s
  }

  function ReadAlone(c: Config, s: State, p: nat): State {
    Then(c, Then(c, s, FindTenant(p)), ReadKey(p))
  }

  /** A miss run to its end with nobody in between. */
  function MissAlone(c: Config, s: State, p: nat): State {
    Then(c, Then(c, ReadAlone(c, s, p), Check(p)), Finish(p, true))
  }

  /** The slug names an active tenant, and the key is that tenant's. */
  predicate SlugNamesTenant(s: State, cred: Credential) {
    && cred.scope in s.tenants && s.tenants[cred.scope].active
    && cred.id in s.keys && s.keys[cred.id].tenant == s.tenants[cred.scope].id
  }

  lemma ReadAloneLoads(c: Config, s: State, p: nat)
    requires p in s.flights && s.flights[p].Missed?
    ensures var cred, t := s.flights[p].cred, ReadAlone(c, s, p);
            && t.accepts == s.accepts && t.now == s.now && t.cache == s.cache
            && if SlugNamesTenant(s, cred) then p in t.flights && t.flights[p] == Loaded(cred, s.keys[cred.id])
               else p !in t.flights
  {
    hide ColdQuery.IsUuid, Visible, Admin;
  }

  /** Undisturbed, a miss is accepted iff the slug names the key's active tenant and the key is good. */
  lemma MissAcceptsIff(c: Config, s: State, p: nat)
    requires p in s.flights && s.flights[p].Missed?
    ensures var cred := s.flights[p].cred;
            |MissAlone(c, s, p).accepts| == |s.accepts| + 1 <==>
            && SlugNamesTenant(s, cred) && c.hash(cred.secret) == s.keys[cred.id].hash && !s.keys[cred.id].revoked
            && !Useless(s.keys[cred.id].tenant, s.keys[cred.id].expires, s.now)
  {
    ReadAloneLoads(c, s, p);
    hide ColdQuery.IsUuid, Visible, Admin, ReadAlone;
  }

  /** Undisturbed, an accepted miss leaves the key cached as of now, with all it takes to be a hit next. */
  lemma MissCaches(c: Config, s: State, p: nat)
    requires p in s.flights && s.flights[p].Missed? && |MissAlone(c, s, p).accepts| == |s.accepts| + 1
    ensures var cred, t := s.flights[p].cred, MissAlone(c, s, p);
            && cred.id in t.cache && t.cache[cred.id].setAt == s.now && t.now == s.now
            && c.hash(cred.secret) == t.cache[cred.id].hash
            && !Useless(t.cache[cred.id].tenant, t.cache[cred.id].expires, s.now)
            && t.cache[cred.id].tenant == s.tenants[cred.scope].id
            && t.cache == s.cache[cred.id := t.cache[cred.id]]
  {
    MissAcceptsIff(c, s, p);
    ReadAloneLoads(c, s, p);
    hide ColdQuery.IsUuid, Visible, Admin, ReadAlone;
  }

  /** A hit is accepted iff the secret matches the entry and the entry is good: the slug is not looked at. */
  lemma HitAcceptsIff(c: Config, s: State, p: nat)
    requires p in s.flights && s.flights[p].HitRead?
    ensures var f := s.flights[p];
            |Apply(c, s, HitCheck(p, false)).accepts| == |s.accepts| + 1 <==>
            c.hash(f.cred.secret) == f.entry.hash && !Useless(f.entry.tenant, f.entry.expires, s.now)
    ensures var f := s.flights[p];
            Apply(c, s, HitCheck(p, true)).cache ==
            if c.hash(f.cred.secret) == f.entry.hash && Expired(f.entry.expires, s.now) then s.cache - {f.cred.id}
            else s.cache
  {
    hide ColdQuery.IsUuid;
  }

  /**
   Only a miss checks the slug: for any other slug there is a run, ending with the tenant
   suspended, in which a cached key is accepted under a slug that never named a tenant.
   */
  lemma HitIgnoresSlug(c: Config, now: int, tid: string, cred: Credential, slug: string)
    returns (s: State, steps: seq<Step>, t: State)
    requires cred.WellFormed() && ColdQuery.IsUuid(tid) && c.ttl > 0
    requires slug != "" && '_' !in slug && slug != cred.scope
    ensures Reachable(c, now, s) && Runs(c, s, steps, t) && |t.accepts| == |s.accepts| + 1
    ensures var a := t.accepts[|s.accepts|];
            && a.cred.scope == slug && a.cred.id == cred.id && slug !in t.tenants && (slug, tid) !in t.lookups
            && t.tenants == map[cred.scope := Tenant(tid, false)]
  {
    hide Runs, ColdQuery.IsUuid;
    ReachChecks(c, now, tid, cred);
    hide Reachable;
    var s0 := AfterChecks(c, now, tid, cred);
    var s1 := Apply(c, s0, Finish(0, true));
    Reach(c, now, s0, Finish(0, true), s1);
    s := s1.(tenants := map[cred.scope := Tenant(tid, false)]);
    Reach(c, now, s1, PutTenant(cred.scope, Tenant(tid, false)), s);
    assert s.cache[cred.id] == EntryOf(cred.id, KeyFor(c, tid, cred), now);
    var other := Credential(slug, cred.id, cred.secret);
    hide Apply;
    steps, t := HitLetsIn(c, s, other);
  }

  // ------------------------------------------------------------------
  // The services
  // ------------------------------------------------------------------

  datatype TenantContext = TenantContext(tenant: string, principal: string, scopes: seq<string>)

  datatype Result =
    | Granted(tc: TenantContext)
    | NoCredential | MalformedKey | UnknownKey | BadSecret | RevokedKey | ExpiredKey | NoTenant | Unavailable

  /** Which of its calls fail. */
  datatype Faults = Faults(get: bool, find: bool, read: bool, put: bool, del: bool)

  lemma GrowsSelf(s: State)
    ensures Grows(s, s)
  {
  }

  /** Accept number k is the answer `tc` to the credential `cred`. */
  ghost predicate Answers(c: Config, s: State, k: nat, cred: Credential, tc: TenantContext) {
    && k < |s.accepts| && AcceptGood(c, s, s.accepts[k]) && s.accepts[k].cred == cred
    && tc == TenantContext(s.accepts[k].tenant, s.accepts[k].principal, s.accepts[k].scopes)
  }

  /** The slug names no active tenant, or that tenant has no such key. */
  predicate NotFound(s: State, cred: Credential) {
    || cred.scope !in s.tenants || !s.tenants[cred.scope].active
    || cred.id !in s.keys || s.keys[cred.id].tenant != s.tenants[cred.scope].id
  }

  /** What each answer means for the key, in the state after it; `found` is the state the slug was looked up in. */
  ghost predicate Justified(c: Config, s: State, found: State, cred: Credential, faults: Faults, r: Result, k: nat) {
    match r
    case Granted(tc) => Answers(c, s, k, cred, tc)
    case NoCredential => false
    case MalformedKey => false
    case UnknownKey => NotFound(found, cred) && Grows(found, s)
    case BadSecret => cred.id in s.keys && c.hash(cred.secret) != s.keys[cred.id].hash
    case RevokedKey => cred.id in s.keys && c.hash(cred.secret) == s.keys[cred.id].hash && s.keys[cred.id].revoked
    case ExpiredKey =>
      cred.id in s.keys && c.hash(cred.secret) == s.keys[cred.id].hash && Expired(s.keys[cred.id].expires, s.now)
    case NoTenant => cred.id in s.keys && !ColdQuery.IsUuid(s.keys[cred.id].tenant)
    case Unavailable => faults.find || faults.read
  }

  lemma NotFoundEarlier(s: State, t: State, cred: Credential)
    requires Grows(s, t) && cred.scope in s.tenants && s.tenants[cred.scope].active
    requires cred.id !in t.keys || t.keys[cred.id].tenant != s.tenants[cred.scope].id
    ensures NotFound(s, cred)
  {
  }

  /** No key is added or dropped, and none changes but key `id` of tenant `tc`. */
  predicate OthersKept(before: map<string, KeyRow>, after: map<string, KeyRow>, tc: string, id: string) {
    && before.Keys == after.Keys
    && forall k | k in before && (k != id || before[k].tenant != tc) :: after[k] == before[k]
  }

  lemma HitFacts(c: Config, s: State, p: nat)
    requires Inv(c, s) && p in s.flights && s.flights[p].HitRead?
    ensures var f := s.flights[p];
            f.cred.id in s.keys && f.entry == EntryOf(f.cred.id, s.keys[f.cred.id], f.entry.setAt)
  {
    assert FlightGood(c, s, s.flights[p]);
    GenuineFacts(s, s.flights[p].cred.id, s.flights[p].entry);
  }

  lemma LoadedFacts(c: Config, s: State, p: nat)
    requires Inv(c, s) && p in s.flights && (s.flights[p].Loaded? || s.flights[p].Passed?)
    ensures Reading(s, s.flights[p].cred.id, s.flights[p].row)
  {
    assert FlightGood(c, s, s.flights[p]);
  }

  lemma HitMoves(c: Config, s: State, p: nat, deleted: bool)
    requires p in s.flights && s.flights[p].HitRead?
    ensures var f, t := s.flights[p], Apply(c, s, HitCheck(p, deleted));
            var good := c.hash(f.cred.secret) == f.entry.hash && !Expired(f.entry.expires, s.now);
            && t.now == s.now && t.tenants == s.tenants && t.keys == s.keys && p !in t.flights
            && t.cache == (if deleted && c.hash(f.cred.secret) == f.entry.hash && !good then s.cache - {f.cred.id}
                           else s.cache)
            && t.accepts == s.accepts +
                 if !good || !ColdQuery.IsUuid(f.entry.tenant) then []
                 else [Accept(f.cred, f.entry.tenant, f.entry.principal, f.entry.scopes, s.now, Some(f.entry),
                              f.readAt)]
  {
    hide ColdQuery.IsUuid;
  }

  lemma CheckMoves(c: Config, s: State, p: nat)
    requires p in s.flights && s.flights[p].Loaded?
    ensures var f, t := s.flights[p], Apply(c, s, Check(p));
            && t.now == s.now && t.tenants == s.tenants && t.keys == s.keys && t.cache == s.cache
            && if c.hash(f.cred.secret) != f.row.hash || f.row.revoked || Expired(f.row.expires, s.now)
               then p !in t.flights else p in t.flights && t.flights[p] == Passed(f.cred, f.row, s.now)
  {
  }

  class KeyService {
    const c: Config
    var now: int
    var tenants: map<string, Tenant>
    var keys: map<string, KeyRow>
    var cache: map<string, Entry>
    ghost var st: State

    ghost predicate Valid()
      reads this
    {
      Inv(c, st) && now == st.now && tenants == st.tenants && keys == st.keys && cache == st.cache
    }

    constructor (c: Config, now: int)
      ensures Valid() && this.c == c && st == Fresh(now)
    {
      this.c, this.now := c, now;
      tenants, keys, cache := map[], map[], map[];
      st := Fresh(now);
    }

    ghost method Take(e: Step)
      requires Inv(c, st) && Enabled(c, st, e)
      modifies this`st
      ensures st == Apply(c, old(st), e) && Inv(c, st) && Grows(old(st), st)
    {
      hide Inv, Apply, Enabled, Grows;
      StepInv(c, st, e);
      StepGrows(c, st, e);
      st := Apply(c, st, e);
    }

    /** Others run and time passes; our own authentication stays where it is. Callers may use only the contract. */
    method Others(ghost p: nat)
      requires Valid()
      modifies this
      ensures Valid() && Grows(old(st), st)
      ensures p in st.flights <==> p in old(st).flights
      ensures p in st.flights ==> st.flights[p] == old(st).flights[p]
    {
      GrowsSelf(st);
    }

    /** The rest of a cache hit: the secret and the expiry are still checked. */
    method Hit(cred: Credential, ent: Entry, faults: Faults, ghost p: nat) returns (r: Result, ghost k: nat)
      requires Valid() && p in st.flights && st.flights[p].HitRead?
      requires st.flights[p].cred == cred && st.flights[p].entry == ent
      modifies this
      ensures Valid() && Grows(old(st), st) && p !in st.flights && |old(st).accepts| <= k
      ensures Justified(c, st, st, cred, faults, r, k) && !r.UnknownKey? && !r.RevokedKey? && !r.Unavailable?
      ensures r == BadSecret <==> c.hash(cred.secret) != ent.hash
      ensures r == ExpiredKey && !faults.del ==> cred.id !in cache
      ensures r.Granted? ==> k < |st.accepts| && st.accepts[k].hit == Some(ent)
    {
      hide Inv, ColdQuery.IsUuid, Grows, Visible, NotFound, Apply;
      Others(p);
      GrowsLength(old(st), st);
      HitFacts(c, st, p);
      HitMoves(c, st, p, false);
      HitMoves(c, st, p, true);
      ghost var s1 := st;
      k := |s1.accepts|;
      if c.hash(cred.secret) != ent.hash {
        r := BadSecret;
        Take(HitCheck(p, false));
      } else if Expired(ent.expires, now) {
        r := ExpiredKey;
        if !faults.del {
          cache := cache - {cred.id};
        }
        Take(HitCheck(p, !faults.del));
      } else {
        r := if ColdQuery.IsUuid(ent.tenant) then Granted(TenantContext(ent.tenant, ent.principal, ent.scopes))
             else NoTenant;
        Take(HitCheck(p, false));
        if r.Granted? {
          InvAccept(c, st, k);
        }
      }
      GrowsTrans(old(st), s1, st);
    }

    /** `resolveTenantID`: only an active tenant's slug resolves. */
    method ResolveTenant(cred: Credential, fails: bool, ghost p: nat) returns (tid: Option<string>, ghost found: State)
      requires Valid() && p in st.flights && st.flights[p] == Missed(cred)
      modifies this
      ensures Valid() && Grows(old(st), st) && Grows(found, st)
      ensures tid.Some? ==> p in st.flights && st.flights[p] == Scoped(cred, tid.value)
      ensures tid.Some? ==> cred.scope in found.tenants && found.tenants[cred.scope] == Tenant(tid.value, true)
      ensures tid.None? ==> p !in st.flights && (fails || NotFound(found, cred))
      ensures fails ==> tid.None?
    {
      hide Inv, Grows, Visible;
      Others(p);
      found := st;
      if fails {
        Take(Abort(p));
        tid := None;
      } else {
        tid := if cred.scope in tenants && tenants[cred.scope].active then Some(tenants[cred.scope].id) else None;
        Take(FindTenant(p));
      }
      GrowsTrans(old(st), found, st);
    }

    /** The scoped select: a key of another tenant is not there. */
    method ReadRow(cred: Credential, tid: string, fails: bool, ghost p: nat, ghost found: State)
      returns (row: Option<KeyRow>)
      requires Valid() && p in st.flights && st.flights[p] == Scoped(cred, tid) && Grows(found, st)
      requires cred.scope in found.tenants && found.tenants[cred.scope] == Tenant(tid, true)
      modifies this
      ensures Valid() && Grows(old(st), st) && Grows(found, st)
      ensures row.Some? ==> p in st.flights && st.flights[p] == Loaded(cred, row.value)
      ensures row.None? ==> p !in st.flights && (fails || NotFound(found, cred))
      ensures fails ==> row.None?
    {
      hide Inv, Grows, Visible, NotFound;
      Others(p);
      ghost var s1 := st;
      GrowsTrans(found, old(st), s1);
      if fails {
        Take(Abort(p));
        row := None;
      } else {
        if cred.id in keys && keys[cred.id].tenant == tid {
          row := Some(keys[cred.id]);
        } else {
          row := None;
          NotFoundEarlier(found, st, cred);
        }
        Take(ReadKey(p));
      }
      GrowsTrans(old(st), s1, st);
      GrowsTrans(found, s1, st);
    }

    /** `resolveKey`: the slug's active tenant, then the key row inside that tenant. */
    method ResolveKey(cred: Credential, faults: Faults, ghost p: nat)
      returns (row: Option<KeyRow>, failed: bool, ghost found: State)
      requires Valid() && p in st.flights && st.flights[p] == Missed(cred)
      modifies this
      ensures Valid() && Grows(old(st), st) && Grows(found, st)
      ensures row.Some? ==> p in st.flights && st.flights[p] == Loaded(cred, row.value)
      ensures row.None? ==> p !in st.flights && if failed then faults.find || faults.read else NotFound(found, cred)
      ensures faults.find ==> failed && row.None?
      ensures faults.read ==> row.None?
    {
      hide Inv, Grows, NotFound;
      row, failed := None, faults.find;
      var tid;
      tid, found := ResolveTenant(cred, faults.find, p);
      if tid.Some? {
        ghost var s1 := st;
        failed := faults.read;
        row := ReadRow(cred, tid.value, faults.read, p, found);
        GrowsTrans(old(st), s1, st);
      }
    }

    /** The rest of a miss: resolve, check the secret before the lifecycle, cache only a valid key. */
    method Miss(cred: Credential, faults: Faults, ghost p: nat) returns (r: Result, ghost k: nat, ghost found: State)
      requires Valid() && p in st.flights && st.flights[p] == Missed(cred)
      modifies this
      ensures Valid() && Grows(old(st), st) && p !in st.flights
      ensures r.Granted? ==> |old(st).accepts| <= k
      ensures Justified(c, st, found, cred, faults, r, k)
      ensures faults.find ==> r == Unavailable
      ensures faults.read ==> r == Unavailable || r == UnknownKey
      ensures r.Granted? ==> k < |st.accepts| && st.accepts[k].hit.None?
    {
      hide Inv, ColdQuery.IsUuid, NotFound, Grows, Answers;
      k := 0;
      var row, failed;
      row, failed, found := ResolveKey(cred, faults, p);
      if row.None? {
        r := if failed then Unavailable else UnknownKey;
        return;
      }
      ghost var s1 := st;
      r, k := Verify(cred, row.value, faults, p);
      GrowsTrans(old(st), s1, st);
      GrowsLength(old(st), s1);
    }

    /** The checks on a row, then the answer. */
    method Verify(cred: Credential, row: KeyRow, faults: Faults, ghost p: nat) returns (r: Result, ghost k: nat)
      requires Valid() && p in st.flights && st.flights[p] == Loaded(cred, row)
      modifies this
      ensures Valid() && Grows(old(st), st) && p !in st.flights && !r.UnknownKey? && !r.Unavailable?
      ensures r.Granted? ==> |old(st).accepts| <= k
      ensures Justified(c, st, st, cred, faults, r, k)
      ensures r == BadSecret <==> c.hash(cred.secret) != row.hash
      ensures r == RevokedKey <==> c.hash(cred.secret) == row.hash && row.revoked
      ensures r.Granted? ==> k < |st.accepts| && st.accepts[k].hit.None?
    {
      hide Inv, ColdQuery.IsUuid, NotFound, Answers, Grows, Visible, Apply;
      k := 0;
      Others(p);
      LoadedFacts(c, st, p);
      CheckMoves(c, st, p);
      ghost var s1 := st;
      Take(Check(p));
      GrowsTrans(old(st), s1, st);
      if c.hash(cred.secret) != row.hash {
        r := BadSecret;
      } else if row.revoked {
        r := RevokedKey;
      } else if Expired(row.expires, now) {
        r := ExpiredKey;
      } else {
        ghost var s2 := st;
        r, k := Store(cred, row, faults.put, p);
        GrowsTrans(old(st), s2, st);
        GrowsLength(old(st), s2);
      }
    }

    /** Cache the validated key, best effort, and answer. */
    method Store(cred: Credential, row: KeyRow, putFails: bool, ghost p: nat) returns (r: Result, ghost k: nat)
      requires Valid() && p in st.flights && st.flights[p].Passed?
      requires st.flights[p].cred == cred && st.flights[p].row == row
      modifies this
      ensures Valid() && Grows(old(st), st) && p !in st.flights && |old(st).accepts| <= k
      ensures r.Granted? || (r.NoTenant? && cred.id in st.keys && !ColdQuery.IsUuid(st.keys[cred.id].tenant))
      ensures r.Granted? ==> Answers(c, st, k, cred, r.tc) && k < |st.accepts| && st.accepts[k].hit.None?
      ensures !putFails ==> cred.id in cache && cache[cred.id] == EntryOf(cred.id, row, now)
    {
      hide Inv, ColdQuery.IsUuid;
      Others(p);
      LoadedFacts(c, st, p);
      ghost var s1 := st;
      k := |s1.accepts|;
      if !putFails {
        cache := cache[cred.id := EntryOf(cred.id, row, now)];
      }
      Take(Finish(p, !putFails));
      GrowsTrans(old(st), s1, st);
      if !ColdQuery.IsUuid(row.tenant) {
        return NoTenant, k;
      }
      InvAccept(c, st, k);
      r := Granted(TenantContext(row.tenant, cred.id, row.scopes));
    }

    /**
     `Authenticate`: parse, try the cache, else the tenant-scoped row; others may run between any
     two calls. A granted answer is an accept of the machine, and every refusal has its reason.
     */
    method Authenticate(raw: string, faults: Faults, ghost p: nat)
      returns (r: Result, ghost cred: Credential, ghost k: nat, ghost found: State)
      requires Valid() && p !in st.flights
      modifies this
      ensures Valid() && Grows(old(st), st) && p !in st.flights
      ensures r == NoCredential <==> raw == ""
      ensures r == MalformedKey <==> raw != "" && forall t: Credential :: !IsCredential(KEY_PREFIX, raw, t)
      ensures r != NoCredential && r != MalformedKey ==>
                IsCredential(KEY_PREFIX, raw, cred) && Justified(c, st, found, cred, faults, r, k)
      ensures r.Granted? ==> |old(st).accepts| <= k
    {
      hide Inv, ColdQuery.IsUuid, Justified, AssembleCredential;
      GrowsSelf(st);
      k, found := 0, st;
      cred := Credential("", "", "");
      if raw == "" {
        r := NoCredential;
        return;
      }
      var parsed := ParseCredential(KEY_PREFIX, raw);
      if parsed.None? {
        r := MalformedKey;
        return;
      }
      cred := parsed.value;
      Others(p);
      ghost var s1 := st;
      r, k, found := Try(parsed.value, faults, p);
      GrowsTrans(old(st), s1, st);
    }

    /** The cache hit or miss branch. */
    method Try(cred: Credential, faults: Faults, ghost p: nat) returns (r: Result, ghost k: nat, ghost found: State)
      requires Valid() && p !in st.flights && cred.WellFormed()
      modifies this
      ensures Valid() && Grows(old(st), st) && p !in st.flights && r != NoCredential && r != MalformedKey
      ensures r.Granted? ==> |old(st).accepts| <= k
      ensures Justified(c, st, found, cred, faults, r, k)
      ensures r.Granted? ==>
                k < |st.accepts| && (st.accepts[k].hit.Some? <==> !faults.get && Visible(c, old(st), cred.id))
    {
      hide Inv, ColdQuery.IsUuid, NotFound, Answers;
      if !faults.get && cred.id in cache && now < cache[cred.id].setAt + c.ttl {
        var ent := cache[cred.id];
        Take(GetHit(p, cred));
        ghost var s2 := st;
        r, k := Hit(cred, ent, faults, p);
        found := st;
        GrowsTrans(old(st), s2, st);
      } else {
        Take(GetMiss(p, cred, faults.get));
        ghost var s2 := st;
        r, k, found := Miss(cred, faults, p);
        GrowsTrans(old(st), s2, st);
      }
    }

    /** The tenant-scoped update of `Revoke`: a key of another tenant is left alone. */
    method RevokeKeyRow(tc: string, id: string)
      requires Valid()
      modifies this`keys, this`st
      ensures Valid() && Grows(old(st), st)
      ensures id in old(keys) && old(keys)[id].tenant == tc ==> IsRevoked(st, id)
      ensures OthersKept(old(keys), keys, tc, id)
    {
      hide Inv, Grows, Visible;
      if id in keys && keys[id].tenant == tc {
        keys := keys[id := keys[id].(revoked := true)];
      }
      Take(RevokeRow(id, tc));
    }

    method DeleteEntry(id: string) returns (ghost alone: bool)
      requires Valid()
      modifies this`cache, this`st
      ensures Valid() && Grows(old(st), st)
      ensures IsRevoked(old(st), id) ==> IsRevoked(st, id)
      ensures IsRevoked(old(st), id) && alone ==> Shut(c, st, id)
      ensures alone <==> NobodyHolds(st, id)
      ensures cache == old(cache) - {id}
    {
      hide Inv, Grows, Visible, Shut;
      alone := NobodyHolds(st, id);
      if IsRevoked(st, id) && alone {
        RevokeShuts(c, st, id);
      }
      cache := cache - {id};
      Take(Delete(id));
    }

    /**
     `Revoke`: the row first, then the entry, best effort. `alone` is whether nobody held a reading
     of the key when its entry was deleted; then the key is shut from here on. `mid` is the state
     right after the update.
     */
    method Revoke(tc: string, id: string, updateFails: bool, delFails: bool)
      returns (err: bool, ghost alone: bool, ghost mid: State)
      requires Valid()
      modifies this
      ensures Valid() && Grows(old(st), st) && err == updateFails
      ensures !err && id in old(keys) && old(keys)[id].tenant == tc ==>
                IsRevoked(st, id) && (!delFails && alone ==> Shut(c, st, id))
      ensures !err && !delFails ==> (alone <==> NobodyHolds(st, id)) && id !in cache
      ensures Grows(mid, st) && if err then mid == old(st) else OthersKept(old(keys), mid.keys, tc, id)
    {
      hide Inv, Grows, Shut, IsRevoked, NobodyHolds;
      GrowsSelf(st);
      if updateFails {
        return true, false, st;
      }
      RevokeKeyRow(tc, id);
      ghost var s1 := st;
      mid := st;
      Others(0);
      GrowsTrans(old(st), s1, st);
      GrowsRevoked(s1, st, id);
      err, alone := false, false;
      if !delFails {
        ghost var s2 := st;
        alone := DeleteEntry(id);
        GrowsTrans(old(st), s2, st);
        GrowsTrans(s1, s2, st);
      }
    }
  }

  lemma GrowsLength(s: State, t: State)
    requires Grows(s, t)
    ensures |s.accepts| <= |t.accepts|
  {
  }

  lemma GrowsRevoked(s: State, t: State, id: string)
    requires Grows(s, t)
    ensures IsRevoked(s, id) ==> IsRevoked(t, id)
  {
  }

  lemma InvAccept(c: Config, s: State, k: nat)
    requires Inv(c, s) && k < |s.accepts|
    ensures AcceptGood(c, s, s.accepts[k])
  {
  }
}
