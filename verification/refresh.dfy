/**
 Rotating refresh-token families (services/control-plane/src/app/auth-service.ts
 over the storage port of services/control-plane/src/app/ports.ts).

 Logins, refreshes and logouts are processes over one token table. Every awaited
 call is one step; any process may take the next step, and any awaited call may be
 rejected, before or after it took effect.
 */
module RefreshFamilies {
  import opened Common

  type Table = map<nat, Row>

  datatype Row = Row(
    tenant: string, family: nat, user: string, hash: string, expires: int,
    rotatedAt: Option<int>, revokedAt: Option<int>)
  {
    predicate Live() { rotatedAt.None? && revokedAt.None? }

    predicate Of(t: string, f: nat) { tenant == t && family == f }

    /** Same token, possibly marked since. */
    predicate SameToken(later: Row) {
      && later.tenant == tenant && later.family == family && later.user == user
      && later.hash == hash && later.expires == expires
      && (rotatedAt.Some? ==> later.rotatedAt == rotatedAt)
      && (revokedAt.Some? ==> later.revokedAt == revokedAt)
    }
  }

  /** A parsed refresh token. */
  datatype Presented = Presented(tenant: string, id: nat, secret: string)

  datatype Outcome =
    | Session(successor: nat)
    | LoggedIn(token: nat)
    | Invalid        // no such token, or the wrong secret
    | Expired(at: int)
    | FamilyRevoked  // rejected after revokeFamily ran
    | LoggedOut
    | Failed         // an awaited call was rejected

  datatype Proc =
    | LoginMint(tenant: string, user: string, family: nat)
    | LoginIssue(token: nat)
    | RefreshFind(tok: Presented)
    | RefreshTenant(tok: Presented, row: Row, now: int)
    | RefreshUser(tok: Presented, row: Row, now: int)
    | RefreshRotate(tok: Presented, row: Row, now: int)
    | RefreshRevoke(tok: Presented, row: Row, now: int)
    | RefreshIssue(tok: Presented, row: Row, successor: nat)
    | LogoutFind(tok: Presented, now: int)
    | LogoutRevoke(tok: Presented, row: Row, now: int)
    | Done(presented: Option<Presented>, outcome: Outcome)

  /** One successful rotate: who ran it, what it consumed and what it minted. */
  datatype Exchange = Exchange(proc: nat, presented: nat, successor: nat)

  datatype State = State(
    table: Table,
    procs: map<nat, Proc>,
    families: set<nat>,          // every family id generated so far
    revoked: set<(string, nat)>, // families revokeFamily has run on
    exchanges: seq<Exchange>)

  const INIT := State(map[], map[], {}, {}, [])

  datatype Step =
    | StartLogin(p: nat, tenant: string, user: string, family: nat)
    | StartRefresh(p: nat, tok: Presented)
    | StartLogout(p: nat, tok: Presented, now: int)
    | Create(p: nat, id: nat, hash: string, expires: int, lost: bool)
    | Find(p: nat, now: int)
    | ReadTenant(p: nat, active: bool)
    | ReadUser(p: nat, active: bool)
    | Rotate(p: nat, id: nat, hash: string, expires: int, lost: bool)
    | Revoke(p: nat, lost: bool)
    | Issue(p: nat)
    | Reject(p: nat)

  // ------------------------------------------------------------------
  // The storage port
  // ------------------------------------------------------------------

  /** `findById`: row-level security shows a tenant only its own rows. */
  function Visible(t: Table, tenant: string, id: nat): Option<Row> {
    if id in t && t[id].tenant == tenant then Some(t[id]) else None
  }

  predicate CanRotate(t: Table, tenant: string, id: nat) {
    Visible(t, tenant, id).Some? && t[id].Live()
  }

  /** `rotate`: consume the presented token and mint its successor, in one transaction. */
  function RotateRows(t: Table, tenant: string, id: nat, now: int, newId: nat, successor: Row): Table {
    if CanRotate(t, tenant, id) then t[id := t[id].(rotatedAt := Some(now))][newId := successor] else t
  }

  /** `revokeFamily`: mark every token of the family that is not marked yet. */
  function RevokeRows(t: Table, tenant: string, family: nat, now: int): Table {
    map i | i in t ::
      if t[i].Of(tenant, family) && t[i].revokedAt.None? then t[i].(revokedAt := Some(now)) else t[i]
  }

  // ------------------------------------------------------------------
  // The steps
  // ------------------------------------------------------------------

  predicate Enabled(s: State, e: Step) {
    match e
    case StartLogin(p, _, _, family) => p !in s.procs && family !in s.families
    case StartRefresh(p, _) => p !in s.procs
    case StartLogout(p, _, _) => p !in s.procs
    case Create(p, id, _, _, _) => p in s.procs && s.procs[p].LoginMint? && id !in s.table
    case Find(p, _) => p in s.procs && (s.procs[p].RefreshFind? || s.procs[p].LogoutFind?)
    case ReadTenant(p, _) => p in s.procs && s.procs[p].RefreshTenant?
    case ReadUser(p, _) => p in s.procs && s.procs[p].RefreshUser?
    case Rotate(p, id, _, _, _) => p in s.procs && s.procs[p].RefreshRotate? && id !in s.table
    case Revoke(p, _) => p in s.procs && (s.procs[p].RefreshRevoke? || s.procs[p].LogoutRevoke?)
    case Issue(p) => p in s.procs && (s.procs[p].LoginIssue? || s.procs[p].RefreshIssue?)
    case Reject(p) => p in s.procs && !s.procs[p].Done?
  }

  function PresentedBy(c: Proc): Option<Presented> {
    match c
    case LoginMint(_, _, _) => None
    case LoginIssue(_) => None
    case Done(tok, _) => tok
    case _ => Some(c.tok)
  }

  /** Where a refresh goes once `findById` has answered. */
  function AfterFind(hash: string -> string, tok: Presented, found: Option<Row>, now: int): Proc {
    if found.None? || hash(tok.secret) != found.value.hash then Done(Some(tok), Invalid)
    else if !found.value.Live() then RefreshRevoke(tok, found.value, now)
    else if found.value.expires <= now then Done(Some(tok), Expired(now))
    else RefreshTenant(tok, found.value, now)
  }

  function AfterLogoutFind(hash: string -> string, tok: Presented, found: Option<Row>, now: int): Proc {
    if found.None? || hash(tok.secret) != found.value.hash then Done(Some(tok), LoggedOut)
    else LogoutRevoke(tok, found.value, now)
  }

  function Go(s: State, p: nat, c: Proc): State {
    s.(procs := s.procs[p := c])
  }

  function ApplyRotate(s: State, p: nat, newId: nat, hash: string, expires: int, lost: bool): State
    requires p in s.procs && s.procs[p].RefreshRotate?
  {
    var c := s.procs[p];
    if !CanRotate(s.table, c.tok.tenant, c.tok.id) then
      Go(s, p, if lost then Done(Some(c.tok), Failed) else RefreshRevoke(c.tok, c.row, c.now))
    else
      var successor := Row(c.tok.tenant, c.row.family, c.row.user, hash, expires, None, None);
      var next := if lost then Done(Some(c.tok), Failed) else RefreshIssue(c.tok, c.row, newId);
      Go(s, p, next).(
      table := RotateRows(s.table, c.tok.tenant, c.tok.id, c.now, newId, successor),
      exchanges := s.exchanges + [Exchange(p, c.tok.id, newId)])
  }

  function ApplyRevoke(s: State, p: nat, lost: bool): State
    requires p in s.procs && (s.procs[p].RefreshRevoke? || s.procs[p].LogoutRevoke?)
  {
    var c := s.procs[p];
    var out := if lost then Failed else if c.RefreshRevoke? then FamilyRevoked else LoggedOut;
    Go(s, p, Done(Some(c.tok), out)).(
    table := RevokeRows(s.table, c.tok.tenant, c.row.family, c.now),
    revoked := s.revoked + {(c.tok.tenant, c.row.family)})
  }

  function Apply(hash: string -> string, s: State, e: Step): State
    requires Enabled(s, e)
  {
    match e
    case StartLogin(p, tenant, user, family) =>
      Go(s, p, LoginMint(tenant, user, family)).(families := s.families + {family})
    case StartRefresh(p, tok) => Go(s, p, RefreshFind(tok))
    case StartLogout(p, tok, now) => Go(s, p, LogoutFind(tok, now))
    case Create(p, id, h, expires, lost) =>
      var c := s.procs[p];
      Go(s, p, if lost then Done(None, Failed) else LoginIssue(id)).(
      table := s.table[id := Row(c.tenant, c.family, c.user, h, expires, None, None)])
    case Find(p, now) =>
      var c := s.procs[p];
      var found := Visible(s.table, c.tok.tenant, c.tok.id);
      Go(s, p, if c.RefreshFind? then AfterFind(hash, c.tok, found, now)
               else AfterLogoutFind(hash, c.tok, found, c.now))
    case ReadTenant(p, active) =>
      var c := s.procs[p];
      Go(s, p, if active then RefreshUser(c.tok, c.row, c.now) else RefreshRevoke(c.tok, c.row, c.now))
    case ReadUser(p, active) =>
      var c := s.procs[p];
      Go(s, p, if active then RefreshRotate(c.tok, c.row, c.now) else RefreshRevoke(c.tok, c.row, c.now))
    case Rotate(p, id, h, expires, lost) => ApplyRotate(s, p, id, h, expires, lost)
    case Revoke(p, lost) => ApplyRevoke(s, p, lost)
    case Issue(p) =>
      var c := s.procs[p];
      Go(s, p, if c.LoginIssue? then Done(None, LoggedIn(c.token)) else Done(Some(c.tok), Session(c.successor)))
    case Reject(p) => Go(s, p, Done(PresentedBy(s.procs[p]), Failed))
  }

  /** `to` is what `from` becomes when the steps are taken in this order. */
  ghost predicate Run(hash: string -> string, from: State, steps: seq<Step>, to: State)
    decreases |steps|
  {
    if steps == [] then from == to
    else Enabled(from, steps[0]) && Run(hash, Apply(hash, from, steps[0]), steps[1..], to)
  }

  ghost predicate Reachable(hash: string -> string, s: State) {
    exists steps :: Run(hash, INIT, steps, s)
  }

  // ------------------------------------------------------------------
  // The invariant
  // ------------------------------------------------------------------

  ghost predicate OneLive(t: Table) {
    forall i, j | i in t && j in t && t[i].family == t[j].family && t[i].Live() && t[j].Live() :: i == j
  }

  /** A family belongs to one tenant, and its id came from the generator. */
  ghost predicate FamiliesOk(s: State) {
    && (forall i | i in s.table :: s.table[i].family in s.families)
    && (forall i, j | i in s.table && j in s.table && s.table[i].family == s.table[j].family ::
          s.table[i].tenant == s.table[j].tenant)
  }

  /** A login that has not created its token yet owns a family nobody else uses. */
  ghost predicate LoginsOk(s: State) {
    forall p | p in s.procs && s.procs[p].LoginMint? ::
      && s.procs[p].family in s.families
      && (forall i | i in s.table :: s.table[i].family != s.procs[p].family)
      && (forall r | r in s.revoked :: r.1 != s.procs[p].family)
      && (forall q | q in s.procs && q != p && s.procs[q].LoginMint? :: s.procs[q].family != s.procs[p].family)
  }

  /** What a process read earlier is still the same token, and its secret was right. */
  ghost predicate Knows(hash: string -> string, s: State, tok: Presented, row: Row) {
    && tok.id in s.table && s.table[tok.id].tenant == tok.tenant
    && row.SameToken(s.table[tok.id]) && row.tenant == tok.tenant
    && hash(tok.secret) == row.hash
  }

  predicate HoldsRow(c: Proc) {
    c.RefreshTenant? || c.RefreshUser? || c.RefreshRotate? || c.RefreshRevoke? || c.RefreshIssue? || c.LogoutRevoke?
  }

  ghost predicate ProcOk(hash: string -> string, s: State, p: nat, c: Proc) {
    && (HoldsRow(c) ==> Knows(hash, s, c.tok, c.row))
    && (c.RefreshTenant? || c.RefreshUser? || c.RefreshRotate? ==> c.now < c.row.expires)
    && (c.Done? && c.outcome.Expired? ==>
          && c.presented.Some? && c.presented.value.id in s.table
          && s.table[c.presented.value.id].tenant == c.presented.value.tenant
          && hash(c.presented.value.secret) == s.table[c.presented.value.id].hash
          && s.table[c.presented.value.id].expires <= c.outcome.at)
    && (c.RefreshIssue? ==> Exchange(p, c.tok.id, c.successor) in s.exchanges)
    && (c.Done? && c.outcome.Session? ==>
          && c.presented.Some?
          && Exchange(p, c.presented.value.id, c.outcome.successor) in s.exchanges
          && c.presented.value.id in s.table
          && s.table[c.presented.value.id].tenant == c.presented.value.tenant
          && hash(c.presented.value.secret) == s.table[c.presented.value.id].hash)
    && (c.Done? && c.outcome.FamilyRevoked? ==>
          && c.presented.Some? && c.presented.value.id in s.table
          && s.table[c.presented.value.id].tenant == c.presented.value.tenant
          && hash(c.presented.value.secret) == s.table[c.presented.value.id].hash
          && (c.presented.value.tenant, s.table[c.presented.value.id].family) in s.revoked)
  }

  ghost predicate ProcsOk(hash: string -> string, s: State) {
    forall p | p in s.procs :: ProcOk(hash, s, p, s.procs[p])
  }

  ghost predicate RevokedOk(s: State) {
    && (forall r, i | r in s.revoked && i in s.table && s.table[i].Of(r.0, r.1) :: s.table[i].revokedAt.Some?)
    && (forall r | r in s.revoked :: r.1 in s.families)
  }

  /** Exchanges consume distinct tokens and stay inside one family. */
  ghost predicate ExchangesOk(s: State) {
    && (forall x | x in s.exchanges ::
          && x.presented in s.table && x.successor in s.table
          && s.table[x.presented].rotatedAt.Some?
          && s.table[x.presented].rotatedAt.value < s.table[x.presented].expires
          && s.table[x.presented].family == s.table[x.successor].family
          && s.table[x.presented].user == s.table[x.successor].user)
    && (forall i, j | 0 <= i < j < |s.exchanges| ::
          s.exchanges[i].presented != s.exchanges[j].presented && s.exchanges[i].successor != s.exchanges[j].successor)
  }

  ghost predicate Inv(hash: string -> string, s: State) {
    OneLive(s.table) && FamiliesOk(s) && LoginsOk(s) && ProcsOk(hash, s) && RevokedOk(s) && ExchangesOk(s)
  }

  // ------------------------------------------------------------------
  // Every step keeps the invariant
  // ------------------------------------------------------------------

  /** Nothing is ever deleted, unmarked or forgotten. */
  ghost predicate Grows(s: State, s': State) {
    && (forall i | i in s.table :: i in s'.table && s.table[i].SameToken(s'.table[i]))
    && s.revoked <= s'.revoked && s.families <= s'.families && s.exchanges <= s'.exchanges
  }

  lemma StepGrows(hash: string -> string, s: State, e: Step)
    requires Enabled(s, e)
    ensures Grows(s, Apply(hash, s, e))
  {
  }

  lemma ProcOkGrows(hash: string -> string, s: State, s': State, p: nat, c: Proc)
    requires ProcOk(hash, s, p, c) && Grows(s, s')
    ensures ProcOk(hash, s', p, c)
  {
    assert forall x | x in s.exchanges :: x in s'.exchanges by {
      forall x | x in s.exchanges ensures x in s'.exchanges {
        var i :| 0 <= i < |s.exchanges| && s.exchanges[i] == x;
        assert s'.exchanges[i] == x;
      }
    }
  }

  /** Only one process moves, so the others keep what they know. */
  lemma OthersKeep(hash: string -> string, s: State, s': State, p: nat)
    requires ProcsOk(hash, s) && Grows(s, s')
    requires s'.procs.Keys == s.procs.Keys + {p}
    requires forall q | q in s.procs && q != p :: s'.procs[q] == s.procs[q]
    requires ProcOk(hash, s', p, s'.procs[p])
    ensures ProcsOk(hash, s')
  {
    hide ProcOk, Grows;
    forall q | q in s'.procs ensures ProcOk(hash, s', q, s'.procs[q]) {
      if q != p {
        ProcOkGrows(hash, s, s', q, s.procs[q]);
      }
    }
  }

  predicate ReadsOnly(e: Step) {
    !e.StartLogin? && !e.Create? && !e.Rotate? && !e.Revoke?
  }

  lemma QuietMover(hash: string -> string, s: State, e: Step)
    requires ProcsOk(hash, s) && Enabled(s, e) && ReadsOnly(e)
    ensures var s' := Apply(hash, s, e);
            && s' == s.(procs := s.procs[e.p := s'.procs[e.p]])
            && ProcOk(hash, s', e.p, s'.procs[e.p])
            && !s'.procs[e.p].LoginMint?
  {
    if e.p in s.procs {
      assert ProcOk(hash, s, e.p, s.procs[e.p]);
    }
  }

  lemma QuietStep(hash: string -> string, s: State, e: Step)
    requires Inv(hash, s) && Enabled(s, e) && ReadsOnly(e)
    ensures Inv(hash, Apply(hash, s, e))
  {
    hide ProcOk, Apply, Enabled;
    var s' := Apply(hash, s, e);
    QuietMover(hash, s, e);
    StepGrows(hash, s, e);
    OthersKeep(hash, s, s', e.p);
  }

  lemma LoginStep(hash: string -> string, s: State, e: Step)
    requires Inv(hash, s) && Enabled(s, e) && e.StartLogin?
    ensures Inv(hash, Apply(hash, s, e))
  {
    var s' := Apply(hash, s, e);
    StepGrows(hash, s, e);
    OthersKeep(hash, s, s', e.p);
  }

  /** A row of a family that had none: what a login adds. */
  lemma NewFamilyRow(s: State, s': State, id: nat, row: Row)
    requires OneLive(s.table) && FamiliesOk(s) && RevokedOk(s) && ExchangesOk(s)
    requires id !in s.table && row.family in s.families
    requires forall i | i in s.table :: s.table[i].family != row.family
    requires forall r | r in s.revoked :: r.1 != row.family
    requires s'.table == s.table[id := row]
    requires s'.families == s.families && s'.revoked == s.revoked && s'.exchanges == s.exchanges
    ensures OneLive(s'.table) && FamiliesOk(s') && RevokedOk(s') && ExchangesOk(s')
  {
  }

  lemma CreateStep(hash: string -> string, s: State, e: Step)
    requires Inv(hash, s) && Enabled(s, e) && e.Create?
    ensures Inv(hash, Apply(hash, s, e))
  {
    hide OneLive, FamiliesOk, RevokedOk, ExchangesOk;
    var s' := Apply(hash, s, e);
    StepGrows(hash, s, e);
    OthersKeep(hash, s, s', e.p);
    NewFamilyRow(s, s', e.id, s'.table[e.id]);
  }

  lemma RevokeLive(t: Table, tenant: string, family: nat, now: int)
    requires OneLive(t)
    ensures OneLive(RevokeRows(t, tenant, family, now))
  {
    var t' := RevokeRows(t, tenant, family, now);
    assert forall i | i in t' :: t'[i].family == t[i].family && (t'[i].Live() ==> t[i].Live());
  }

  lemma RevokeTable(s: State, s': State, tenant: string, family: nat, now: int)
    requires OneLive(s.table) && FamiliesOk(s) && RevokedOk(s) && ExchangesOk(s)
    requires family in s.families
    requires s'.table == RevokeRows(s.table, tenant, family, now) && s'.revoked == s.revoked + {(tenant, family)}
    requires s'.families == s.families && s'.exchanges == s.exchanges
    ensures OneLive(s'.table) && FamiliesOk(s') && RevokedOk(s') && ExchangesOk(s')
  {
    RevokeLive(s.table, tenant, family, now);
    hide OneLive;
  }

  lemma RevokeMover(hash: string -> string, s: State, e: Step)
    requires ProcsOk(hash, s) && Enabled(s, e) && e.Revoke?
    ensures ProcOk(hash, Apply(hash, s, e), e.p, Apply(hash, s, e).procs[e.p])
    ensures Knows(hash, s, s.procs[e.p].tok, s.procs[e.p].row)
  {
    assert ProcOk(hash, s, e.p, s.procs[e.p]);
  }

  lemma RevokeStep(hash: string -> string, s: State, e: Step)
    requires Inv(hash, s) && Enabled(s, e) && e.Revoke?
    ensures Inv(hash, Apply(hash, s, e))
  {
    hide OneLive, RevokedOk, ExchangesOk, ProcOk;
    var s' := Apply(hash, s, e);
    var c := s.procs[e.p];
    StepGrows(hash, s, e);
    RevokeMover(hash, s, e);
    OthersKeep(hash, s, s', e.p);
    RevokeTable(s, s', c.tok.tenant, c.row.family, c.now);
  }

  lemma RotateMover(hash: string -> string, s: State, e: Step)
    requires ProcsOk(hash, s) && Enabled(s, e) && e.Rotate?
    ensures ProcOk(hash, Apply(hash, s, e), e.p, Apply(hash, s, e).procs[e.p])
    ensures Knows(hash, s, s.procs[e.p].tok, s.procs[e.p].row) && s.procs[e.p].now < s.procs[e.p].row.expires
  {
    assert ProcOk(hash, s, e.p, s.procs[e.p]);
  }

  /** Consuming the one live token of a family and minting another keeps one live token. */
  lemma RotateTable(s: State, s': State, p: nat, id: nat, now: int, newId: nat, successor: Row)
    requires OneLive(s.table) && FamiliesOk(s) && RevokedOk(s) && ExchangesOk(s)
    requires id in s.table && s.table[id].Live() && now < s.table[id].expires && newId !in s.table
    requires successor.user == s.table[id].user && successor.Of(s.table[id].tenant, s.table[id].family)
    requires successor.Live()
    requires s'.table == s.table[id := s.table[id].(rotatedAt := Some(now))][newId := successor]
    requires s'.exchanges == s.exchanges + [Exchange(p, id, newId)]
    requires s'.families == s.families && s'.revoked == s.revoked
    ensures OneLive(s'.table) && FamiliesOk(s') && RevokedOk(s') && ExchangesOk(s')
  {
    RotateExchanges(s, s', p, id, now, newId, successor);
    hide ExchangesOk;
  }

  lemma RotateExchanges(s: State, s': State, p: nat, id: nat, now: int, newId: nat, successor: Row)
    requires ExchangesOk(s) && id in s.table && s.table[id].Live() && now < s.table[id].expires && newId !in s.table
    requires successor.user == s.table[id].user && successor.Of(s.table[id].tenant, s.table[id].family)
    requires s'.table == s.table[id := s.table[id].(rotatedAt := Some(now))][newId := successor]
    requires s'.exchanges == s.exchanges + [Exchange(p, id, newId)]
    ensures ExchangesOk(s')
  {
    forall i, j | 0 <= i < j < |s'.exchanges|
      ensures s'.exchanges[i].presented != s'.exchanges[j].presented
      ensures s'.exchanges[i].successor != s'.exchanges[j].successor
    {
      assert s.exchanges[i] in s.exchanges;
    }
  }

  lemma RotateStep(hash: string -> string, s: State, e: Step)
    requires Inv(hash, s) && Enabled(s, e) && e.Rotate?
    ensures Inv(hash, Apply(hash, s, e))
  {
    hide OneLive, RevokedOk, ExchangesOk, ProcOk;
    var s' := Apply(hash, s, e);
    var c := s.procs[e.p];
    StepGrows(hash, s, e);
    RotateMover(hash, s, e);
    OthersKeep(hash, s, s', e.p);
    if CanRotate(s.table, c.tok.tenant, c.tok.id) {
      RotateTable(s, s', e.p, c.tok.id, c.now, e.id, s'.table[e.id]);
    } else {
      SameTable(s, s');
    }
  }

  lemma SameTable(s: State, s': State)
    requires FamiliesOk(s) && RevokedOk(s) && ExchangesOk(s)
    requires s'.table == s.table && s'.families == s.families && s'.revoked == s.revoked && s'.exchanges == s.exchanges
    ensures FamiliesOk(s') && RevokedOk(s') && ExchangesOk(s')
  {
  }

  lemma StepInv(hash: string -> string, s: State, e: Step)
    requires Inv(hash, s) && Enabled(s, e)
    ensures Inv(hash, Apply(hash, s, e))
  {
    hide Inv, Apply;
    if ReadsOnly(e) { QuietStep(hash, s, e); }
    else if e.StartLogin? { LoginStep(hash, s, e); }
    else if e.Create? { CreateStep(hash, s, e); }
    else if e.Rotate? { RotateStep(hash, s, e); }
    else { RevokeStep(hash, s, e); }
  }

  lemma {:induction false} RunInv(hash: string -> string, from: State, steps: seq<Step>, to: State)
    requires Inv(hash, from) && Run(hash, from, steps, to)
    ensures Inv(hash, to) && Grows(from, to)
    decreases |steps|
  {
    hide Inv, Apply, Enabled, Grows;
    if steps == [] {
      GrowsSelf(from);
    } else {
      var mid := Apply(hash, from, steps[0]);
      StepInv(hash, from, steps[0]);
      StepGrows(hash, from, steps[0]);
      RunInv(hash, mid, steps[1..], to);
      GrowsTrans(from, mid, to);
    }
  }

  lemma GrowsSelf(s: State)
    ensures Grows(s, s)
  {
  }

  lemma GrowsTrans(a: State, b: State, c: State)
    requires Grows(a, b) && Grows(b, c)
    ensures Grows(a, c)
  {
  }

  lemma ReachableInv(hash: string -> string, s: State)
    requires Reachable(hash, s)
    ensures Inv(hash, s)
  {
    var steps :| Run(hash, INIT, steps, s);
    RunInv(hash, INIT, steps, s);
  }

  // ------------------------------------------------------------------
  // What the protocol guarantees, over every interleaving
  // ------------------------------------------------------------------

  ghost predicate FamilyDead(t: Table, tenant: string, family: nat) {
    forall i | i in t && t[i].Of(tenant, family) :: !t[i].Live()
  }

  /** A family never has two live tokens, and a token is exchanged at most once. */
  lemma RotationIsLinear(hash: string -> string, s: State)
    requires Reachable(hash, s)
    ensures forall i, j | i in s.table && j in s.table && s.table[i].family == s.table[j].family
              && s.table[i].Live() && s.table[j].Live() :: i == j
    ensures forall i, j | 0 <= i < j < |s.exchanges| :: s.exchanges[i].presented != s.exchanges[j].presented
    ensures forall x | x in s.exchanges ::
              && x.presented in s.table && x.successor in s.table
              && !s.table[x.presented].Live()
              && s.table[x.presented].family == s.table[x.successor].family
              && s.table[x.presented].tenant == s.table[x.successor].tenant
              && s.table[x.presented].user == s.table[x.successor].user
  {
    ReachableInv(hash, s);
  }

  /** Once revokeFamily has run on a family, no later run has a live token in it. */
  lemma RevokedStaysDead(hash: string -> string, s: State, steps: seq<Step>, later: State, tenant: string, family: nat)
    requires Reachable(hash, s) && (tenant, family) in s.revoked
    requires Run(hash, s, steps, later)
    ensures FamilyDead(later.table, tenant, family)
  {
    ReachableInv(hash, s);
    RunInv(hash, s, steps, later);
    assert (tenant, family) in later.revoked;
  }

  /**
   A session was paid for: the presented token existed, its secret matched, and this process consumed
   it before it expired.
   */
  lemma SessionsAreEarned(hash: string -> string, s: State, p: nat)
    requires Reachable(hash, s) && p in s.procs && s.procs[p].Done? && s.procs[p].outcome.Session?
    ensures var c := s.procs[p];
            && c.presented.Some?
            && var tok := c.presented.value;
            && tok.id in s.table && s.table[tok.id].tenant == tok.tenant
            && hash(tok.secret) == s.table[tok.id].hash
            && Exchange(p, tok.id, c.outcome.successor) in s.exchanges
            && s.table[tok.id].rotatedAt.Some? && s.table[tok.id].rotatedAt.value < s.table[tok.id].expires
  {
    ReachableInv(hash, s);
    assert ProcOk(hash, s, p, s.procs[p]);
    assert Exchange(p, s.procs[p].presented.value.id, s.procs[p].outcome.successor) in s.exchanges;
  }

  /** The token is there for its tenant, and the secret is right. */
  predicate Presents(hash: string -> string, t: Table, tok: Presented) {
    Visible(t, tok.tenant, tok.id).Some? && hash(tok.secret) == t[tok.id].hash
  }

  /** Where the refresh of a token presented rightly can be; of a dead one, only on its way to the revocation. */
  predicate OnTrack(c: Proc, tok: Presented, replay: bool) {
    match c
    case RefreshFind(t) => t == tok
    case RefreshRevoke(t, _, _) => t == tok
    case RefreshTenant(t, _, _) => t == tok && !replay
    case RefreshUser(t, _, _) => t == tok && !replay
    case RefreshRotate(t, _, _) => t == tok && !replay
    case RefreshIssue(t, _, _) => t == tok && !replay
    case Done(t, out) =>
      t == Some(tok) && (out.FamilyRevoked? || out.Failed? || (!replay && (out.Session? || out.Expired?)))
    case _ => false
  }

  ghost predicate Tracked(hash: string -> string, s: State, p: nat, tok: Presented, replay: bool) {
    && Presents(hash, s.table, tok) && (replay ==> !s.table[tok.id].Live())
    && p in s.procs && OnTrack(s.procs[p], tok, replay)
  }

  lemma StepTracked(hash: string -> string, s: State, e: Step, p: nat, tok: Presented, replay: bool)
    requires Tracked(hash, s, p, tok, replay) && Enabled(s, e)
    ensures Tracked(hash, Apply(hash, s, e), p, tok, replay)
  {
    StepGrows(hash, s, e);
    var t := Apply(hash, s, e);
    assert s.table[tok.id].SameToken(t.table[tok.id]);
    if e.p != p {
      assert t.procs[p] == s.procs[p];
      hide Apply, Enabled;
    }
  }

  lemma {:induction false} RunTracked(hash: string -> string, s: State, steps: seq<Step>, later: State,
                                      p: nat, tok: Presented, replay: bool)
    requires Tracked(hash, s, p, tok, replay) && Run(hash, s, steps, later)
    ensures Tracked(hash, later, p, tok, replay)
    decreases |steps|
  {
    hide Tracked, Apply, Enabled;
    if steps != [] {
      StepTracked(hash, s, steps[0], p, tok, replay);
      RunTracked(hash, Apply(hash, s, steps[0]), steps[1..], later, p, tok, replay);
    }
  }

  /**
   A refresh of a token that is there with the right secret is never called invalid; and if the
   token is rotated or revoked by then, the refresh ends in its family revoked, unless a call fails.
   */
  lemma ReplayIsCaught(hash: string -> string, s: State, p: nat, tok: Presented, steps: seq<Step>, later: State)
    requires Reachable(hash, s) && p !in s.procs && Presents(hash, s.table, tok)
    requires Run(hash, Apply(hash, s, StartRefresh(p, tok)), steps, later)
    requires p in later.procs && later.procs[p].Done?
    ensures later.procs[p].outcome != Invalid
    ensures !s.table[tok.id].Live() ==>
              || later.procs[p].outcome == Failed
              || (&& later.procs[p].outcome == FamilyRevoked
                  && FamilyDead(later.table, tok.tenant, s.table[tok.id].family))
  {
    var s1 := Apply(hash, s, StartRefresh(p, tok));
    var replay := !s.table[tok.id].Live();
    RunTracked(hash, s1, steps, later, p, tok, replay);
    ReachableInv(hash, s);
    StepInv(hash, s, StartRefresh(p, tok));
    RunInv(hash, s1, steps, later);
    assert ProcOk(hash, later, p, later.procs[p]);
    assert s1.table[tok.id].SameToken(later.table[tok.id]);
  }

  // ------------------------------------------------------------------
  // No token dies without a reason
  // ------------------------------------------------------------------

  /** Process p, now through, presented a token of the family with the right secret. */
  ghost predicate RevokedBy(hash: string -> string, s: State, p: nat, tenant: string, family: nat) {
    && p in s.procs && s.procs[p].Done? && s.procs[p].presented.Some?
    && (s.procs[p].outcome == FamilyRevoked || s.procs[p].outcome == LoggedOut || s.procs[p].outcome == Failed)
    && var tok := s.procs[p].presented.value;
       Presents(hash, s.table, tok) && s.table[tok.id].Of(tenant, family)
  }

  ghost predicate Deaths(hash: string -> string, s: State) {
    && (forall i | i in s.table && s.table[i].revokedAt.Some? :: (s.table[i].tenant, s.table[i].family) in s.revoked)
    && (forall i | i in s.table && s.table[i].rotatedAt.Some? :: exists x :: x in s.exchanges && x.presented == i)
    && (forall r | r in s.revoked :: exists p :: RevokedBy(hash, s, p, r.0, r.1))
  }

  lemma RevokedByLater(hash: string -> string, s: State, e: Step, p: nat, tenant: string, family: nat)
    requires RevokedBy(hash, s, p, tenant, family) && Enabled(s, e)
    ensures RevokedBy(hash, Apply(hash, s, e), p, tenant, family)
  {
    StepGrows(hash, s, e);
    assert Apply(hash, s, e).procs[p] == s.procs[p];
    hide Apply, Enabled;
  }

  /** The process that revokes knows a token of the family. */
  lemma RevokerKnows(hash: string -> string, s: State, e: Step)
    requires Inv(hash, s) && Enabled(s, e) && e.Revoke?
    ensures var c := s.procs[e.p];
            RevokedBy(hash, Apply(hash, s, e), e.p, c.tok.tenant, c.row.family)
  {
    assert ProcOk(hash, s, e.p, s.procs[e.p]);
    StepGrows(hash, s, e);
    hide Inv, ProcOk;
  }

  /** Where marks come from: a revocation of the family, or this token's own exchange. */
  lemma MarksOfStep(hash: string -> string, s: State, e: Step, i: nat)
    requires Enabled(s, e) && i in Apply(hash, s, e).table
    ensures var t := Apply(hash, s, e);
            && (t.table[i].revokedAt.Some? ==>
                  || (i in s.table && s.table[i].revokedAt.Some? && t.table[i].Of(s.table[i].tenant, s.table[i].family))
                  || (e.Revoke? && t.table[i].Of(s.procs[e.p].tok.tenant, s.procs[e.p].row.family)))
            && (t.table[i].rotatedAt.Some? ==>
                  || (i in s.table && s.table[i].rotatedAt.Some?)
                  || (e.Rotate? && Exchange(e.p, i, e.id) in t.exchanges))
  {
  }

  lemma MarksLater(hash: string -> string, s: State, e: Step, i: nat)
    requires Deaths(hash, s) && Enabled(s, e) && i in Apply(hash, s, e).table
    ensures var t := Apply(hash, s, e);
            && (t.table[i].revokedAt.Some? ==> (t.table[i].tenant, t.table[i].family) in t.revoked)
            && (t.table[i].rotatedAt.Some? ==> exists x :: x in t.exchanges && x.presented == i)
  {
    var t := Apply(hash, s, e);
    MarksOfStep(hash, s, e, i);
    StepGrows(hash, s, e);
    assert e.Revoke? ==> (s.procs[e.p].tok.tenant, s.procs[e.p].row.family) in t.revoked;
    hide Apply, Enabled, RevokedBy;
    if i in s.table && s.table[i].rotatedAt.Some? {
      var x :| x in s.exchanges && x.presented == i;
      assert x in t.exchanges;
    }
  }

  lemma RevokedLater(hash: string -> string, s: State, e: Step, r: (string, nat))
    requires Inv(hash, s) && Deaths(hash, s) && Enabled(s, e) && r in Apply(hash, s, e).revoked
    ensures exists p :: RevokedBy(hash, Apply(hash, s, e), p, r.0, r.1)
  {
    assert r in s.revoked || (e.Revoke? && r == (s.procs[e.p].tok.tenant, s.procs[e.p].row.family));
    hide Apply, Enabled, Inv, RevokedBy;
    if r in s.revoked {
      var p :| RevokedBy(hash, s, p, r.0, r.1);
      RevokedByLater(hash, s, e, p, r.0, r.1);
    } else {
      RevokerKnows(hash, s, e);
    }
  }

  lemma StepDeaths(hash: string -> string, s: State, e: Step)
    requires Inv(hash, s) && Deaths(hash, s) && Enabled(s, e)
    ensures Deaths(hash, Apply(hash, s, e))
  {
    hide Apply, Enabled, Inv, RevokedBy;
    var t := Apply(hash, s, e);
    forall i | i in t.table
      ensures t.table[i].revokedAt.Some? ==> (t.table[i].tenant, t.table[i].family) in t.revoked
      ensures t.table[i].rotatedAt.Some? ==> exists x :: x in t.exchanges && x.presented == i
    {
      MarksLater(hash, s, e, i);
    }
    forall r | r in t.revoked ensures exists p :: RevokedBy(hash, t, p, r.0, r.1) {
      RevokedLater(hash, s, e, r);
    }
  }

  lemma {:induction false} RunDeaths(hash: string -> string, s: State, steps: seq<Step>, later: State)
    requires Inv(hash, s) && Deaths(hash, s) && Run(hash, s, steps, later)
    ensures Deaths(hash, later)
    decreases |steps|
  {
    hide Inv, Deaths, Apply, Enabled;
    if steps != [] {
      StepInv(hash, s, steps[0]);
      StepDeaths(hash, s, steps[0]);
      RunDeaths(hash, Apply(hash, s, steps[0]), steps[1..], later);
    }
  }

  /**
   A token is dead only because it was exchanged, or because someone presented a token of its
   family, of its tenant, with the right secret.
   */
  lemma DeadForAReason(hash: string -> string, s: State, i: nat)
    requires Reachable(hash, s) && i in s.table && !s.table[i].Live()
    ensures || (exists x :: x in s.exchanges && x.presented == i)
            || (exists p :: RevokedBy(hash, s, p, s.table[i].tenant, s.table[i].family))
  {
    var steps :| Run(hash, INIT, steps, s);
    assert Inv(hash, INIT) && Deaths(hash, INIT);
    hide Run;
    RunDeaths(hash, INIT, steps, s);
    assert s.table[i].revokedAt.Some? ==> (s.table[i].tenant, s.table[i].family) in s.revoked;
  }

  /** The outcomes of a completed refresh that got past the secret and the expiry check. */
  predicate Completed(c: Proc, tok: nat) {
    c.Done? && c.presented.Some? && c.presented.value.id == tok && (c.outcome.Session? || c.outcome.FamilyRevoked?)
  }

  /**
   Reuse is detected: if two refreshes of one token both complete, whatever the
   interleaving, at most one of them has a session, and the token's family, the
   winner's successor included, is dead from then on.
   */
  lemma ReuseKillsFamily(hash: string -> string, s: State, p: nat, q: nat, tok: nat, steps: seq<Step>, later: State)
    requires Reachable(hash, s) && p in s.procs && q in s.procs && p != q
    requires Completed(s.procs[p], tok) && Completed(s.procs[q], tok)
    requires Run(hash, s, steps, later)
    ensures !(s.procs[p].outcome.Session? && s.procs[q].outcome.Session?)
    ensures tok in s.table && FamilyDead(later.table, s.table[tok].tenant, s.table[tok].family)
    ensures forall x | x in s.exchanges && x.presented == tok ::
              x.successor in later.table && !later.table[x.successor].Live()
  {
    ReachableInv(hash, s);
    assert ProcOk(hash, s, p, s.procs[p]) && ProcOk(hash, s, q, s.procs[q]);
    if s.procs[p].outcome.Session? && s.procs[q].outcome.Session? {
      TwoExchanges(s, Exchange(p, tok, s.procs[p].outcome.successor), Exchange(q, tok, s.procs[q].outcome.successor));
    }
    var loser := if s.procs[p].outcome.FamilyRevoked? then p else q;
    assert (s.table[tok].tenant, s.table[tok].family) in s.revoked;
    RunInv(hash, s, steps, later);
    RevokedStaysDead(hash, s, steps, later, s.table[tok].tenant, s.table[tok].family);
    forall x | x in s.exchanges && x.presented == tok
      ensures x.successor in later.table && !later.table[x.successor].Live()
    {
      assert s.table[x.successor].SameToken(later.table[x.successor]);
    }
  }

  lemma TwoExchanges(s: State, x: Exchange, y: Exchange)
    requires ExchangesOk(s) && x in s.exchanges && y in s.exchanges && x.presented == y.presented
    ensures x == y
  {
    var i :| 0 <= i < |s.exchanges| && s.exchanges[i] == x;
    var j :| 0 <= j < |s.exchanges| && s.exchanges[j] == y;
    assert !(i < j) && !(j < i);
  }

  // ------------------------------------------------------------------
  // The service's own code, as runs of the machine
  // ------------------------------------------------------------------

  lemma {:induction false} RunSnoc(hash: string -> string, from: State, steps: seq<Step>, mid: State, e: Step)
    requires Run(hash, from, steps, mid) && Enabled(mid, e)
    ensures Run(hash, from, steps + [e], Apply(hash, mid, e))
    decreases |steps|
  {
    hide Apply, Enabled;
    var all := steps + [e];
    if steps == [] {
      assert all == [e] && all[1..] == [];
    } else {
      assert all[0] == steps[0] && all[1..] == steps[1..] + [e];
      RunSnoc(hash, Apply(hash, from, steps[0]), steps[1..], mid, e);
    }
  }

  datatype Answer = Active | NotActive | Rejected

  datatype Reply = Ok | Refused | Lost

  /** What the outside world answers to one refresh; each awaited call may be rejected. */
  datatype Replies = Replies(
    find: bool, now: int, tenant: Answer, user: Answer,
    rotate: Reply, newId: nat, newHash: string, expires: int, revoke: Reply, issue: bool) {
    predicate Faulty() {
      !find || tenant.Rejected? || user.Rejected? || !rotate.Ok? || !revoke.Ok? || !issue
    }
  }

  /** The successor of a refresh: its predecessor's tenant, family and user, the new hash and expiry. */
  predicate Minted(r: Row, tenant: string, before: Row, env: Replies) {
    && r.tenant == tenant && r.family == before.family && r.user == before.user
    && r.hash == env.newHash && r.expires == env.expires
  }

  /** At some moment of the refresh, before it was through, its token was no longer live. */
  ghost predicate TooLate(from: State, at: State, to: State, p: nat, tok: Presented) {
    && Grows(from, at) && Grows(at, to)
    && p in at.procs && !at.procs[p].Done? && !CanRotate(at.table, tok.tenant, tok.id)
  }

  lemma TooLateIs(from: State, at: State, to: State, p: nat, tok: Presented)
    requires Grows(from, at) && Grows(at, to)
    requires p in at.procs && !at.procs[p].Done? && !CanRotate(at.table, tok.tenant, tok.id)
    ensures TooLate(from, at, to, p, tok)
  {
  }

  lemma TooLateFrom(s: State, from: State, at: State, to: State, p: nat, tok: Presented)
    requires Grows(s, from) && TooLate(from, at, to, p, tok)
    ensures TooLate(s, at, to, p, tok)
  {
    hide Grows;
    GrowsTrans(s, from, at);
  }

  class AuthService {
    const hash: string -> string
    var rows: Table
    ghost var st: State      // the machine this service is a process of
    ghost var start: State
    ghost var trace: seq<Step>

    ghost predicate Valid()
      reads this
    {
      rows == st.table && Run(hash, start, trace, st) && Inv(hash, st)
    }

    constructor (hash: string -> string)
      ensures Valid() && st == INIT && rows == map[]
    {
      this.hash := hash;
      rows := map[];
      st, start, trace := INIT, INIT, [];
    }

    /** Record one awaited call as a step of the machine. */
    ghost method Take(e: Step)
      requires Run(hash, start, trace, st) && Inv(hash, st) && Enabled(st, e)
      modifies this`st, this`trace
      ensures st == Apply(hash, old(st), e)
      ensures Run(hash, start, trace, st) && Inv(hash, st) && Grows(old(st), st)
    {
      RunSnoc(hash, start, trace, st, e);
      StepInv(hash, st, e);
      StepGrows(hash, st, e);
      trace := trace + [e];
      st := Apply(hash, st, e);
    }

    /**
     The other processes run while `p` awaits. The body is the run of no step; callers
     may use only the contract, which every run of the others meets. `reserved` is an id
     the database keeps for this process.
     */
    method Others(ghost p: nat, ghost reserved: nat)
      requires Valid() && p in st.procs
      modifies this`rows, this`st, this`trace
      ensures Valid() && Grows(old(st), st) && (reserved !in old(rows) ==> reserved !in rows)
      ensures p in st.procs && st.procs[p] == old(st.procs[p])
    {
      GrowsSelf(st);
    }

    method RevokeFamily(ghost p: nat, tok: Presented, row: Row, now: int, reply: Reply) returns (out: Outcome)
      requires Valid() && p in st.procs && st.procs[p] == RefreshRevoke(tok, row, now)
      modifies this`rows, this`st, this`trace
      ensures Valid() && Grows(old(st), st) && p in st.procs && st.procs[p] == Done(Some(tok), out)
      ensures out == if reply.Ok? then FamilyRevoked else Failed
    {
      hide Inv, Run, Grows;
      Others(p, 0);
      ghost var s1 := st;
      if reply.Refused? {
        Take(Reject(p));
      } else {
        rows := RevokeRows(rows, tok.tenant, row.family, now);
        Take(Revoke(p, reply.Lost?));
      }
      GrowsTrans(old(st), s1, st);
      out := if reply.Ok? then FamilyRevoked else Failed;
    }

    /** The end of `refresh`: consume and mint, then issue the access token. */
    method Consume(ghost p: nat, tok: Presented, row: Row, env: Replies) returns (out: Outcome)
      requires Valid() && p in st.procs && st.procs[p] == RefreshRotate(tok, row, env.now)
      requires env.newId !in rows
      modifies this`rows, this`st, this`trace
      ensures Valid() && Grows(old(st), st) && p in st.procs && st.procs[p] == Done(Some(tok), out)
      ensures out.Session? ==> out.successor == env.newId && CanRotate(old(rows), tok.tenant, tok.id)
      ensures out.Session? ==> env.newId in rows && Minted(rows[env.newId], tok.tenant, row, env)
      ensures out.Session? || out.FamilyRevoked? || out.Failed?
      ensures !CanRotate(old(rows), tok.tenant, tok.id) ==> out.FamilyRevoked? || out.Failed?
      ensures out.FamilyRevoked? ==> !CanRotate(old(rows), tok.tenant, tok.id)
      ensures out.Failed? ==> env.Faulty()
    {
      hide Inv, Run, Grows;
      if env.rotate.Refused? {
        Take(Reject(p));
        return Failed;
      }
      var consumed := CanRotate(rows, tok.tenant, tok.id);
      var successor := Row(tok.tenant, row.family, row.user, env.newHash, env.expires, None, None);
      rows := RotateRows(rows, tok.tenant, tok.id, env.now, env.newId, successor);
      Take(Rotate(p, env.newId, env.newHash, env.expires, env.rotate.Lost?));
      if env.rotate.Lost? {
        return Failed;
      }
      ghost var mid := st;
      if consumed {
        out := IssueAccess(p, tok, row, env);
        TokenKept(mid, st, env.newId);
      } else {
        out := RevokeFamily(p, tok, row, env.now, env.revoke);
      }
      GrowsTrans(old(st), mid, st);
    }

    /** The access token for the new session. */
    method IssueAccess(ghost p: nat, tok: Presented, row: Row, env: Replies) returns (out: Outcome)
      requires Valid() && p in st.procs && st.procs[p] == RefreshIssue(tok, row, env.newId)
      modifies this`rows, this`st, this`trace
      ensures Valid() && Grows(old(st), st) && p in st.procs && st.procs[p] == Done(Some(tok), out)
      ensures out == if env.issue then Session(env.newId) else Failed
    {
      hide Inv, Run, Grows;
      Others(p, 0);
      ghost var s1 := st;
      Take(if env.issue then Issue(p) else Reject(p));
      GrowsTrans(old(st), s1, st);
      out := if env.issue then Session(env.newId) else Failed;
    }

    /** The middle of `refresh`: the tenant and the user must still be active. */
    method Authorize(ghost p: nat, tok: Presented, row: Row, env: Replies)
      returns (out: Outcome, ghost at: State)
      requires Valid() && p in st.procs && st.procs[p] == RefreshTenant(tok, row, env.now)
      requires env.newId !in rows
      modifies this`rows, this`st, this`trace
      ensures Valid() && Grows(old(st), st) && p in st.procs && st.procs[p] == Done(Some(tok), out)
      ensures out.Session? ==> env.tenant.Active? && env.user.Active? && out.successor == env.newId
      ensures out.Session? ==> env.newId in rows && Minted(rows[env.newId], tok.tenant, row, env)
      ensures !out.Invalid? && !out.Expired?
      ensures env.tenant.NotActive? || (env.tenant.Active? && env.user.NotActive?) ==> out.FamilyRevoked? || out.Failed?
      ensures out.FamilyRevoked? && env.tenant.Active? && env.user.Active? ==> TooLate(old(st), at, st, p, tok)
      ensures out.Failed? ==> env.Faulty()
    {
      hide Inv, Run, Grows, TooLate;
      at := st;
      if env.tenant.Rejected? {
        Take(Reject(p));
        return Failed, st;
      }
      Take(ReadTenant(p, env.tenant.Active?));
      ghost var s1 := st;
      if !env.tenant.Active? {
        out := RevokeFamily(p, tok, row, env.now, env.revoke);
        GrowsTrans(old(st), s1, st);
        return;
      }
      Others(p, env.newId);
      ghost var s2 := st;
      GrowsTrans(old(st), s1, s2);
      if env.user.Rejected? {
        Take(Reject(p));
        GrowsTrans(old(st), s2, st);
        return Failed, st;
      }
      out, at := AuthorizeUser(p, tok, row, env);
      GrowsTrans(old(st), s2, st);
      if out.FamilyRevoked? && env.user.Active? {
        TooLateFrom(old(st), s2, at, st, p, tok);
      }
    }

    method AuthorizeUser(ghost p: nat, tok: Presented, row: Row, env: Replies)
      returns (out: Outcome, ghost at: State)
      requires Valid() && p in st.procs && st.procs[p] == RefreshUser(tok, row, env.now)
      requires env.newId !in rows && !env.user.Rejected?
      modifies this`rows, this`st, this`trace
      ensures Valid() && Grows(old(st), st) && p in st.procs && st.procs[p] == Done(Some(tok), out)
      ensures out.Session? ==> env.user.Active? && out.successor == env.newId
      ensures out.Session? ==> env.newId in rows && Minted(rows[env.newId], tok.tenant, row, env)
      ensures out.Session? || out.FamilyRevoked? || out.Failed?
      ensures env.user.NotActive? ==> out.FamilyRevoked? || out.Failed?
      ensures out.FamilyRevoked? && env.user.Active? ==> TooLate(old(st), at, st, p, tok)
      ensures out.Failed? ==> env.Faulty()
    {
      hide Inv, Run, Grows;
      at := st;
      Take(ReadUser(p, env.user.Active?));
      ghost var s1 := st;
      if !env.user.Active? {
        out := RevokeFamily(p, tok, row, env.now, env.revoke);
        GrowsTrans(old(st), s1, st);
        return;
      }
      Others(p, env.newId);
      ghost var s2 := st;
      GrowsTrans(old(st), s1, s2);
      at := st;
      out := Consume(p, tok, row, env);
      GrowsTrans(old(st), s2, st);
    }

    /**
     `refresh`, with the other processes moving at every await: its awaited calls are
     steps of one run of the machine, and it ends in the outcome it returns. `at` is the moment
     at which the token was found dead, when that is why the family is revoked.
     */
    method Refresh(ghost p: nat, tok: Presented, env: Replies) returns (out: Outcome, ghost at: State)
      requires Valid() && p !in st.procs && env.newId !in rows
      modifies this`rows, this`st, this`trace
      ensures Valid() && Grows(old(st), st) && p in st.procs && st.procs[p] == Done(Some(tok), out)
      ensures out.Session? ==>
                && env.tenant.Active? && env.user.Active? && out.successor == env.newId
                && Exchange(p, tok.id, env.newId) in st.exchanges
                && tok.id in rows && rows[tok.id].tenant == tok.tenant && hash(tok.secret) == rows[tok.id].hash
                && !rows[tok.id].Live() && env.now < rows[tok.id].expires
                && env.newId in rows && Minted(rows[env.newId], tok.tenant, rows[tok.id], env)
      ensures out.Invalid? ==> !Presents(hash, old(rows), tok)
      ensures out.Expired? ==> Presents(hash, rows, tok) && rows[tok.id].expires <= env.now
      ensures Presents(hash, old(rows), tok) && !old(rows)[tok.id].Live() ==> out.FamilyRevoked? || out.Failed?
      ensures out.FamilyRevoked? ==> tok.id in rows && FamilyDead(rows, tok.tenant, rows[tok.id].family)
      ensures out.FamilyRevoked? && env.tenant.Active? && env.user.Active? ==> TooLate(old(st), at, st, p, tok)
      ensures out.Failed? ==> env.Faulty()
    {
      hide Inv, Run, Grows, TooLate;
      at := st;
      Take(StartRefresh(p, tok));
      ghost var s1 := st;
      Others(p, env.newId);
      ghost var s2 := st;
      GrowsTrans(old(st), s1, s2);
      if !env.find {
        Take(Reject(p));
        GrowsTrans(old(st), s2, st);
        return Failed, st;
      }
      if tok.id in old(rows) { TokenKept(old(st), s2, tok.id); }
      out, at := Found(p, tok, env);
      GrowsTrans(old(st), s2, st);
      if out.FamilyRevoked? && env.tenant.Active? && env.user.Active? {
        TooLateFrom(old(st), s2, at, st, p, tok);
      }
      DoneFacts(hash, st, p, tok);
    }

    /** `refresh` from its first await on. */
    method Found(ghost p: nat, tok: Presented, env: Replies) returns (out: Outcome, ghost at: State)
      requires Valid() && p in st.procs && st.procs[p] == RefreshFind(tok) && env.newId !in rows
      modifies this`rows, this`st, this`trace
      ensures Valid() && Grows(old(st), st) && p in st.procs && st.procs[p] == Done(Some(tok), out)
      ensures out.Session? ==> env.tenant.Active? && env.user.Active? && out.successor == env.newId
      ensures out.Session? ==>
                && tok.id in rows && env.now < rows[tok.id].expires
                && env.newId in rows && Minted(rows[env.newId], tok.tenant, rows[tok.id], env)
      ensures out.Invalid? <==> !Presents(hash, old(rows), tok)
      ensures out.Expired? <==>
                && Presents(hash, old(rows), tok) && old(rows)[tok.id].Live()
                && old(rows)[tok.id].expires <= env.now
      ensures out.Expired? ==> Presents(hash, rows, tok) && rows[tok.id].expires <= env.now
      ensures Presents(hash, old(rows), tok) && !old(rows)[tok.id].Live() ==> out.FamilyRevoked? || out.Failed?
      ensures out.FamilyRevoked? && env.tenant.Active? && env.user.Active? ==> TooLate(old(st), at, st, p, tok)
      ensures out.Failed? ==> env.Faulty()
    {
      hide Inv, Run, Grows, TooLate;
      at := st;
      GrowsSelf(st);
      var found := Visible(rows, tok.tenant, tok.id);
      Take(Find(p, env.now));
      ghost var s1 := st;
      if found.None? || hash(tok.secret) != found.value.hash {
        return Invalid, st;
      }
      var row := found.value;
      if row.revokedAt.Some? || row.rotatedAt.Some? {
        out := RevokeFamily(p, tok, row, env.now, env.revoke);
        GrowsTrans(old(st), s1, st);
        assert TooLate(old(st), at, st, p, tok) by {
          TooLateIs(old(st), at, st, p, tok);
        }
      } else if row.expires <= env.now {
        out := Expired(env.now);
      } else {
        Others(p, env.newId);
        ghost var s2 := st;
        out, at := Authorize(p, tok, row, env);
        GrowsTrans(s1, s2, st);
        GrowsTrans(old(st), s1, s2);
        if out.FamilyRevoked? && env.tenant.Active? && env.user.Active? {
          TooLateFrom(old(st), s2, at, st, p, tok);
        }
      }
      GrowsTrans(old(st), s1, st);
      TokenKept(old(st), st, tok.id);
    }

    /** `mintRefreshToken`: the first token of a family. */
    method MintRefreshToken(ghost p: nat, tenant: string, user: string, family: nat, env: Replies) returns (ok: bool)
      requires Valid() && p in st.procs && st.procs[p] == LoginMint(tenant, user, family) && env.newId !in rows
      modifies this`rows, this`st, this`trace
      ensures Valid() && Grows(old(st), st) && p in st.procs
      ensures ok <==> env.rotate.Ok?
      ensures st.procs[p] == if ok then LoginIssue(env.newId) else Done(None, Failed)
      ensures ok ==>
                env.newId in rows && rows[env.newId] == Row(tenant, family, user, env.newHash, env.expires, None, None)
    {
      hide Inv, Run, Grows;
      if env.rotate.Refused? {
        Take(Reject(p));
        return false;
      }
      rows := rows[env.newId := Row(tenant, family, user, env.newHash, env.expires, None, None)];
      Take(Create(p, env.newId, env.newHash, env.expires, env.rotate.Lost?));
      ok := env.rotate.Ok?;
    }

    /**
     `login` once the password is checked: `account` is the active tenant and user, if any.
     It mints the first token of a family of its own; `env.rotate` answers the create.
     */
    method Login(ghost p: nat, account: Option<(string, string)>, family: nat, env: Replies) returns (out: Outcome)
      requires Valid() && p !in st.procs && family !in st.families && env.newId !in rows
      modifies this`rows, this`st, this`trace
      ensures Valid() && Grows(old(st), st) && (account.None? <==> out == Invalid)
      ensures account.None? ==> rows == old(rows)
      ensures account.Some? ==>
                p in st.procs && st.procs[p] == Done(None, out) && (out == LoggedIn(env.newId) || env.Faulty())
      ensures out.LoggedIn? ==>
                && env.newId in rows && rows[env.newId].Of(account.value.0, family)
                && rows[env.newId].user == account.value.1
    {
      hide Inv, Run, Grows;
      GrowsSelf(st);
      if account.None? {
        return Invalid;
      }
      Take(StartLogin(p, account.value.0, account.value.1, family));
      ghost var s1 := st;
      Others(p, env.newId);
      GrowsTrans(old(st), s1, st);
      ghost var s2 := st;
      var ok := MintRefreshToken(p, account.value.0, account.value.1, family, env);
      GrowsTrans(old(st), s2, st);
      if !ok {
        return Failed;
      }
      ghost var s3 := st;
      Others(p, 0);
      GrowsTrans(old(st), s3, st);
      TokenKept(s3, st, env.newId);
      ghost var s4 := st;
      Take(if env.issue then Issue(p) else Reject(p));
      GrowsTrans(old(st), s4, st);
      out := if env.issue then LoggedIn(env.newId) else Failed;
    }

    /** `logout`: with the right secret the whole family is dead afterwards; otherwise nothing happens. */
    method Logout(ghost p: nat, tok: Presented, env: Replies) returns (out: Outcome)
      requires Valid() && p !in st.procs && env.newId !in rows
      modifies this`rows, this`st, this`trace
      ensures Valid() && Grows(old(st), st) && p in st.procs && st.procs[p] == Done(Some(tok), out)
      ensures out == LoggedOut || (out == Failed && env.Faulty())
      ensures out == LoggedOut ==>
                var row := Visible(rows, tok.tenant, tok.id);
                row.Some? && hash(tok.secret) == row.value.hash ==> FamilyDead(rows, tok.tenant, row.value.family)
    {
      hide Inv, Run, Grows;
      Take(StartLogout(p, tok, env.now));
      ghost var s1 := st;
      Others(p, env.newId);
      ghost var s2 := st;
      GrowsTrans(old(st), s1, s2);
      if !env.find {
        Take(Reject(p));
        GrowsTrans(old(st), s2, st);
        return Failed;
      }
      var found := Visible(rows, tok.tenant, tok.id);
      Take(Find(p, 0));
      GrowsTrans(old(st), s2, st);
      if found.None? || hash(tok.secret) != found.value.hash {
        return LoggedOut;
      }
      ghost var s3 := st;
      Others(p, env.newId);
      GrowsTrans(old(st), s3, st);
      ghost var s4 := st;
      out := RevokeForLogout(p, tok, found.value, env);
      GrowsTrans(old(st), s4, st);
      SameFamily(s3, s4, st, tok.id);
    }

    method RevokeForLogout(ghost p: nat, tok: Presented, row: Row, env: Replies) returns (out: Outcome)
      requires Valid() && p in st.procs && st.procs[p] == LogoutRevoke(tok, row, env.now)
      modifies this`rows, this`st, this`trace
      ensures Valid() && Grows(old(st), st) && p in st.procs && st.procs[p] == Done(Some(tok), out)
      ensures out == if env.revoke.Ok? then LoggedOut else Failed
      ensures out == LoggedOut ==> FamilyDead(rows, tok.tenant, row.family)
    {
      hide Inv, Run, Grows;
      if env.revoke.Refused? {
        Take(Reject(p));
        return Failed;
      }
      rows := RevokeRows(rows, tok.tenant, row.family, env.now);
      Take(Revoke(p, env.revoke.Lost?));
      out := if env.revoke.Ok? then LoggedOut else Failed;
    }
  }

  lemma TokenKept(s: State, t: State, id: nat)
    requires Grows(s, t) && id in s.table
    ensures id in t.table && s.table[id].SameToken(t.table[id])
  {
  }

  /** A token never changes its family. */
  lemma SameFamily(s: State, t: State, u: State, id: nat)
    requires Grows(s, t) && Grows(t, u) && id in s.table
    ensures id in u.table && u.table[id].tenant == s.table[id].tenant && u.table[id].family == s.table[id].family
    ensures u.table[id].hash == s.table[id].hash
  {
  }

  lemma DoneFacts(hash: string -> string, s: State, p: nat, tok: Presented)
    requires Inv(hash, s) && p in s.procs && s.procs[p].Done? && s.procs[p].presented == Some(tok)
    ensures s.procs[p].outcome.Session? ==>
              && Exchange(p, tok.id, s.procs[p].outcome.successor) in s.exchanges
              && tok.id in s.table && s.table[tok.id].tenant == tok.tenant
              && hash(tok.secret) == s.table[tok.id].hash && !s.table[tok.id].Live()
    ensures s.procs[p].outcome.FamilyRevoked? ==>
              tok.id in s.table && FamilyDead(s.table, tok.tenant, s.table[tok.id].family)
  {
    assert ProcOk(hash, s, p, s.procs[p]);
  }

  function LoneSteps(p: nat, tok: Presented, now: int): seq<Step> {
    [] + [StartRefresh(p, tok)] + [Find(p, now)] + [ReadTenant(p, true)] + [ReadUser(p, true)]
  }

  /** Alone, a refresh that presents a live, unexpired token with its secret reaches its rotate. */
  lemma LoneRefreshRotates(hash: string -> string, s: State, p: nat, tok: Presented, now: int)
    requires p !in s.procs && CanRotate(s.table, tok.tenant, tok.id)
    requires hash(tok.secret) == s.table[tok.id].hash && now < s.table[tok.id].expires
    ensures Run(hash, s, LoneSteps(p, tok, now), Go(s, p, RefreshRotate(tok, s.table[tok.id], now)))
  {
    var row := s.table[tok.id];
    var s1 := Go(s, p, RefreshFind(tok));
    var s2 := Go(s, p, RefreshTenant(tok, row, now));
    var s3 := Go(s, p, RefreshUser(tok, row, now));
    var s4 := Go(s, p, RefreshRotate(tok, row, now));
    assert Apply(hash, s, StartRefresh(p, tok)) == s1;
    assert Apply(hash, s1, Find(p, now)) == s2 by {
      assert s1.procs[p := RefreshTenant(tok, row, now)] == s2.procs;
    }
    assert Apply(hash, s2, ReadTenant(p, true)) == s3 by {
      assert s2.procs[p := RefreshUser(tok, row, now)] == s3.procs;
    }
    assert Apply(hash, s3, ReadUser(p, true)) == s4 by {
      assert s3.procs[p := RefreshRotate(tok, row, now)] == s4.procs;
    }
    hide Apply;
    RunSnoc(hash, s, [], s, StartRefresh(p, tok));
    RunSnoc(hash, s, [] + [StartRefresh(p, tok)], s1, Find(p, now));
    RunSnoc(hash, s, [] + [StartRefresh(p, tok)] + [Find(p, now)], s2, ReadTenant(p, true));
    RunSnoc(hash, s, [] + [StartRefresh(p, tok)] + [Find(p, now)] + [ReadTenant(p, true)], s3, ReadUser(p, true));
  }

  /**
   The protocol is not vacuous: such a refresh gets a session, and its successor is the
   live token of the family.
   */
  lemma LoneRefreshSucceeds(hash: string -> string, s: State, p: nat, tok: Presented, now: int,
                            id: nat, h: string, expires: int)
    requires p !in s.procs && id !in s.table && CanRotate(s.table, tok.tenant, tok.id)
    requires hash(tok.secret) == s.table[tok.id].hash && now < s.table[tok.id].expires
    ensures exists steps, s' ::
              && Run(hash, s, steps, s')
              && p in s'.procs && s'.procs[p] == Done(Some(tok), Session(id))
              && id in s'.table && s'.table[id].Live() && s'.table[id].Of(tok.tenant, s.table[tok.id].family)
  {
    hide Run;
    var steps := LoneSteps(p, tok, now);
    var s4 := Go(s, p, RefreshRotate(tok, s.table[tok.id], now));
    var e := Rotate(p, id, h, expires, false);
    var s5 := Apply(hash, s4, e);
    var s6 := Apply(hash, s5, Issue(p));
    LoneRefreshRotates(hash, s, p, tok, now);
    RunSnoc(hash, s, steps, s4, e);
    RunSnoc(hash, s, steps + [e], s5, Issue(p));
    assert Run(hash, s, steps + [e] + [Issue(p)], s6);
  }
}
