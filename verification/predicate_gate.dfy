/**
 The tenant-predicate gate (pkg/coldstore/fitness.go): locate the WHERE at
 parenthesis depth 0, cut its AND chain while respecting BETWEEN ... AND, and look
 for `tenant_id = '<tenant>'` among the terms.
 */
module PredicateGate {
  import opened Common
  import opened SqlLexer

  predicate IsSpace(c: char) {
    || '\U{0009}' <= c <= '\U{000D}' || c == ' ' || c == '\U{0085}' || c == '\U{00A0}'
    || c == '\U{1680}' || '\U{2000}' <= c <= '\U{200A}' || c == '\U{2028}' || c == '\U{2029}'
    || c == '\U{202F}' || c == '\U{205F}' || c == '\U{3000}'
  }

  /** `strings.TrimSpace`. */
  function TrimSpace(s: string): (t: string)
    ensures t != "" ==> !IsSpace(t[0]) && !IsSpace(t[|t| - 1])
    ensures (exists i | 0 <= i < |s| :: !IsSpace(s[i])) <==> t != ""
    decreases |s|
  {
    if s == "" then ""
    else if IsSpace(s[0]) then
      assert forall i | 0 <= i < |s| :: !IsSpace(s[i]) ==> i > 0 && s[1..][i - 1] == s[i];
      TrimSpace(s[1..])
    else if IsSpace(s[|s| - 1]) then
      assert s[..|s| - 1][0] == s[0];
      TrimSpace(s[..|s| - 1])
    else s
  }

  /** What is trimmed off is space, and nothing else goes. */
  lemma {:induction false} TrimSpaceCuts(s: string) returns (i: nat, j: nat)
    ensures i <= j <= |s| && TrimSpace(s) == s[i..j]
    ensures forall k | 0 <= k < |s| && !(i <= k < j) :: IsSpace(s[k])
    decreases |s|
  {
    hide IsSpace;
    if s == "" {
      i, j := 0, 0;
    } else if IsSpace(s[0]) {
      i, j := TrimSpaceCuts(s[1..]);
      assert forall k | 0 < k < |s| :: s[k] == s[1..][k - 1];
      i, j := i + 1, j + 1;
    } else if IsSpace(s[|s| - 1]) {
      i, j := TrimSpaceCuts(s[..|s| - 1]);
      assert forall k | 0 <= k < |s| - 1 :: s[k] == s[..|s| - 1][k];
    } else {
      i, j := 0, |s|;
    }
  }

  const CLAUSE_ENDS: set<string> := {"ORDER", "LIMIT", "HAVING", "UNION", "EXCEPT", "INTERSECT"}

  function DepthAfter(t: Token, depth: nat): nat {
    match t
    case LParen => depth + 1
    case RParen => if depth > 0 then depth - 1 else 0
    case _ => depth
  }

  // ------------------------------------------------------------------
  // findWHERE
  // ------------------------------------------------------------------

  ghost function WhereFrom(ts: seq<Token>, depth: nat): (r: Option<nat>)
    ensures r.Some? ==> r.value < |ts| && ts[r.value] == KW("WHERE")
  {
    if ts == [] then None
    else if depth == 0 && ts[0] == KW("WHERE") then Some(0)
    else match WhereFrom(ts[1..], DepthAfter(ts[0], depth))
      case None => None
      case Some(k) => Some(k + 1)
  }

  method FindWhere(ts: seq<Token>) returns (r: Option<nat>)
    ensures r == WhereFrom(ts, 0)
  {
    var depth: nat := 0;
    for i := 0 to |ts|
      invariant WhereFrom(ts, 0) ==
                match WhereFrom(ts[i..], depth) { case None => None case Some(k) => Some(i + k) }
    {
      assert ts[i..][1..] == ts[i + 1..];
      if depth == 0 && ts[i] == KW("WHERE") {
        return Some(i);
      }
      depth := DepthAfter(ts[i], depth);
    }
    return None;
  }

  // ------------------------------------------------------------------
  // splitTopLevelAND
  // ------------------------------------------------------------------

  function Flush(cur: seq<Token>): seq<seq<Token>> {
    if cur == [] then [] else [cur]
  }

  ghost function SplitFrom(ts: seq<Token>, depth: nat, inBetween: bool, cur: seq<Token>): seq<seq<Token>>
    decreases |ts|
  {
    if ts == [] then Flush(cur)
    else
      var t := ts[0];
      if depth == 0 && t.KW? && t.val in CLAUSE_ENDS then Flush(cur)
      else if depth == 0 && t == KW("AND") && !inBetween then
        Flush(cur) + SplitFrom(ts[1..], 0, false, [])
      else SplitFrom(ts[1..], DepthAfter(t, depth), BetweenAfter(t, depth, inBetween), cur + [t])
  }

  function BetweenAfter(t: Token, depth: nat, inBetween: bool): bool {
    if depth == 0 && t == KW("BETWEEN") then true
    else if depth == 0 && t == KW("AND") then false
    else inBetween
  }

  lemma SplitStep(ts: seq<Token>, depth: nat, inBetween: bool, cur: seq<Token>)
    ensures ts == [] ==> SplitFrom(ts, depth, inBetween, cur) == Flush(cur)
    ensures ts != [] ==>
              var t := ts[0];
              SplitFrom(ts, depth, inBetween, cur) ==
              if depth == 0 && t.KW? && t.val in CLAUSE_ENDS then Flush(cur)
              else if depth == 0 && t == KW("AND") && !inBetween then Flush(cur) + SplitFrom(ts[1..], 0, false, [])
              else SplitFrom(ts[1..], DepthAfter(t, depth), BetweenAfter(t, depth, inBetween), cur + [t])
  {
  }

  /** The loop of `splitTopLevelAND`: an index, a depth, a flag and the start of the current term. */
  method SplitTopLevelAnd(ts: seq<Token>) returns (terms: seq<seq<Token>>)
    ensures terms == SplitFrom(ts, 0, false, [])
  {
    hide SplitFrom, BetweenAfter, DepthAfter;
    terms := [];
    var depth: nat, inBetween, start := 0, false, 0;
    ghost var todo := SplitFrom(ts, 0, false, []);
    assert ts[0..] == ts;
    for i := 0 to |ts|
      invariant 0 <= start <= i
      invariant todo == SplitFrom(ts[i..], depth, inBetween, ts[start..i])
      invariant terms + todo == SplitFrom(ts, 0, false, [])
    {
      var t := ts[i];
      assert ts[i..][0] == t && ts[i..][1..] == ts[i + 1..];
      assert ts[start..i] + [t] == ts[start..i + 1];
      SplitStep(ts[i..], depth, inBetween, ts[start..i]);
      if depth == 0 && t.KW? && t.val in CLAUSE_ENDS {
        if i > start {
          terms := terms + [ts[start..i]];
        }
        return;
      } else if depth == 0 && t == KW("AND") && !inBetween {
        todo := SplitFrom(ts[i + 1..], 0, false, []);
        assert terms + (Flush(ts[start..i]) + todo) == (terms + Flush(ts[start..i])) + todo;
        if i > start {
          terms := terms + [ts[start..i]];
        }
        start := i + 1;
        assert ts[start..i + 1] == [];
      } else {
        inBetween, depth := BetweenAfter(t, depth, inBetween), DepthAfter(t, depth);
        todo := SplitFrom(ts[i + 1..], depth, inBetween, ts[start..i + 1]);
      }
    }
    assert ts[|ts|..] == [] && ts[start..|ts|] == ts[start..];
    SplitStep([], depth, inBetween, ts[start..]);
    if start < |ts| {
      terms := terms + [ts[start..]];
    }
  }

  /**
   Scan of one conjunct: None when it would be cut or stopped inside (a depth-0 clause
   keyword, a depth-0 AND that no BETWEEN claims) or closes a parenthesis it did not open.
   */
  ghost function Walk(c: seq<Token>, depth: nat, inBetween: bool): Option<(nat, bool)> {
    if c == [] then Some((depth, inBetween))
    else
      var t := c[0];
      if depth == 0 && (t.RParen? || (t.KW? && t.val in CLAUSE_ENDS) || (t == KW("AND") && !inBetween)) then None
      else Walk(c[1..], DepthAfter(t, depth), BetweenAfter(t, depth, inBetween))
  }

  ghost predicate IsConjunct(c: seq<Token>) {
    c != [] && Walk(c, 0, false) == Some((0, false))
  }

  /** What may follow a WHERE clause: nothing, or a depth-0 clause keyword and anything after it. */
  ghost predicate IsTail(tail: seq<Token>) {
    tail == [] || (tail[0].KW? && tail[0].val in CLAUSE_ENDS)
  }

  function AndJoin(cs: seq<seq<Token>>): seq<Token> {
    if cs == [] then []
    else if |cs| == 1 then cs[0]
    else cs[0] + [KW("AND")] + AndJoin(cs[1..])
  }

  lemma {:induction false} SplitOverWalk(c: seq<Token>, rest: seq<Token>, depth: nat, inBetween: bool, cur: seq<Token>)
    requires Walk(c, depth, inBetween).Some?
    ensures var (d, b) := Walk(c, depth, inBetween).value;
            SplitFrom(c + rest, depth, inBetween, cur) == SplitFrom(rest, d, b, cur + c)
    decreases |c|
  {
    if c == [] {
      assert c + rest == rest && cur + c == cur;
    } else {
      var t := c[0];
      assert (c + rest)[0] == t && (c + rest)[1..] == c[1..] + rest;
      assert (cur + [t]) + c[1..] == cur + c;
      SplitOverWalk(c[1..], rest, DepthAfter(t, depth), BetweenAfter(t, depth, inBetween), cur + [t]);
    }
  }

  lemma SplitLast(c: seq<Token>, tail: seq<Token>)
    requires IsConjunct(c) && IsTail(tail)
    ensures SplitFrom(c + tail, 0, false, []) == [c]
  {
    SplitOverWalk(c, tail, 0, false, []);
    assert [] + c == c;
  }

  lemma SplitFirst(c: seq<Token>, body: seq<Token>)
    requires IsConjunct(c)
    ensures SplitFrom(c + ([KW("AND")] + body), 0, false, []) == [c] + SplitFrom(body, 0, false, [])
  {
    var after := [KW("AND")] + body;
    SplitOverWalk(c, after, 0, false, []);
    assert [] + c == c;
    assert after[1..] == body;
  }

  /** Splitting inverts printing: the AND-join of any conjuncts, with or without a tail, splits back into them. */
  lemma {:induction false} SplitOfAndJoin(cs: seq<seq<Token>>, tail: seq<Token>)
    requires forall c | c in cs :: IsConjunct(c)
    requires IsTail(tail)
    ensures SplitFrom(AndJoin(cs) + tail, 0, false, []) == cs
    decreases |cs|
  {
    if cs == [] {
      assert AndJoin(cs) + tail == tail;
    } else {
      hide SplitFrom, Walk;
      var c := cs[0];
      assert c in cs;
      if |cs| == 1 {
        SplitLast(c, tail);
        assert cs == [c];
      } else {
        var body := AndJoin(cs[1..]) + tail;
        assert AndJoin(cs) + tail == c + ([KW("AND")] + body);
        SplitFirst(c, body);
        SplitOfAndJoin(cs[1..], tail);
        assert cs == [c] + cs[1..];
      }
    }
  }

  // ------------------------------------------------------------------
  // isEqualityPredicate and CheckTenantPredicate
  // ------------------------------------------------------------------

  /** `<col> = '<value>'`, the column compared without case. */
  predicate IsEquality(term: seq<Token>, col: string, value: string) {
    && |term| == 3
    && term[0].Ident? && ToUpper(term[0].val) == ToUpper(col)
    && term[1] == Op("=")
    && term[2] == Str(value)
  }

  predicate HasEquality(terms: seq<seq<Token>>, tenant: string) {
    exists i | 0 <= i < |terms| :: IsEquality(terms[i], "tenant_id", tenant)
  }

  ghost predicate Accepts(ts: seq<Token>, tenant: string) {
    && TrimSpace(tenant) != ""
    && WhereFrom(ts, 0).Some?
    && HasEquality(SplitFrom(ts[WhereFrom(ts, 0).value + 1..], 0, false, []), tenant)
  }

  /** `CheckTenantPredicate`; true for a nil error. */
  method CheckTenantPredicate(sql: string, tenant: string) returns (ok: bool)
    ensures ok == Accepts(Lex(sql), tenant)
  {
    hide Lex, LexOne, SplitFrom, WhereFrom, TrimSpace;
    if TrimSpace(tenant) == "" {
      return false;
    }
    var ts := Tokenize(sql);
    var at := FindWhere(ts);
    if at.None? {
      return false;
    }
    var terms := SplitTopLevelAnd(ts[at.value + 1..]);
    for i := 0 to |terms|
      invariant forall k | 0 <= k < i :: !IsEquality(terms[k], "tenant_id", tenant)
    {
      if IsEquality(terms[i], "tenant_id", tenant) {
        return true;
      }
    }
    return false;
  }

  /** The tokens before the WHERE hold no WHERE of their own at depth 0 and close what they open. */
  ghost predicate IsHead(ts: seq<Token>, depth: nat) {
    if ts == [] then depth == 0
    else !(depth == 0 && ts[0] == KW("WHERE")) && IsHead(ts[1..], DepthAfter(ts[0], depth))
  }

  lemma {:induction false} WhereAfterHead(head: seq<Token>, rest: seq<Token>, depth: nat)
    requires IsHead(head, depth)
    ensures WhereFrom(head + ([KW("WHERE")] + rest), depth) == Some(|head|)
    decreases |head|
  {
    var ts := head + ([KW("WHERE")] + rest);
    if head == [] {
      assert ts == [KW("WHERE")] + rest;
    } else {
      assert ts[0] == head[0] && ts[1..] == head[1..] + ([KW("WHERE")] + rest);
      WhereAfterHead(head[1..], rest, DepthAfter(head[0], depth));
    }
  }

  /** On an AND chain the gate accepts exactly when the tenant equality is one of the conjuncts. */
  lemma GateOnAndChain(head: seq<Token>, cs: seq<seq<Token>>, tail: seq<Token>, tenant: string)
    requires IsHead(head, 0) && IsTail(tail)
    requires forall c | c in cs :: IsConjunct(c)
    ensures Accepts(head + ([KW("WHERE")] + (AndJoin(cs) + tail)), tenant)
        <==> TrimSpace(tenant) != "" && HasEquality(cs, tenant)
  {
    var body := AndJoin(cs) + tail;
    var ts := head + ([KW("WHERE")] + body);
    WhereAfterHead(head, body, 0);
    assert ts[|head| + 1..] == body;
    SplitOfAndJoin(cs, tail);
  }

  // ------------------------------------------------------------------
  // Parentheses and BETWEEN
  // ------------------------------------------------------------------

  /** How many more parentheses are opened than closed. */
  ghost function Net(ts: seq<Token>): int {
    var opens: int := multiset(ts)[LParen];
    opens - multiset(ts)[RParen]
  }

  /** Counted from outside, `ts` never closes below `floor` and ends on it. */
  ghost predicate ClosesTo(ts: seq<Token>, depth: nat, floor: nat) {
    && depth + Net(ts) == floor
    && forall k | 0 <= k <= |ts| :: depth + Net(ts[..k]) >= floor
  }

  lemma ClosesToTail(ts: seq<Token>, depth: nat)
    requires ts != [] && ClosesTo(ts, depth, 1)
    ensures DepthAfter(ts[0], depth) >= 1 && ClosesTo(ts[1..], DepthAfter(ts[0], depth), 1)
  {
    var d := DepthAfter(ts[0], depth);
    assert ts == [ts[0]] + ts[1..];
    assert ts[..0] == [] && ts[..1] == [ts[0]];
    forall k | 0 <= k <= |ts| - 1 ensures d + Net(ts[1..][..k]) >= 1 {
      assert ts[..k + 1] == [ts[0]] + ts[1..][..k];
    }
  }

  lemma {:induction false} WalkInside(ts: seq<Token>, depth: nat, inBetween: bool)
    requires depth >= 1 && ClosesTo(ts, depth, 1)
    ensures Walk(ts + [RParen], depth, inBetween) == Some((0, inBetween))
    ensures IsHead(ts + [RParen], depth)
    decreases |ts|
  {
    var all := ts + [RParen];
    if ts == [] {
      assert all == [RParen] && all[1..] == [];
      assert multiset(ts) == multiset{};
    } else {
      ClosesToTail(ts, depth);
      assert all[0] == ts[0] && all[1..] == ts[1..] + [RParen];
      WalkInside(ts[1..], DepthAfter(ts[0], depth), inBetween);
    }
  }

  /** Whatever stands in balanced parentheses, keywords included, is part of one conjunct and hides its WHERE. */
  lemma ParensHide(ts: seq<Token>)
    requires ClosesTo(ts, 0, 0)
    ensures IsConjunct([LParen] + ts + [RParen]) && IsHead([LParen] + ts + [RParen], 0)
  {
    assert forall k | 0 <= k <= |ts| :: 1 + Net(ts[..k]) >= 1;
    WalkInside(ts, 1, false);
    var all := [LParen] + ts + [RParen];
    assert all[0] == LParen && all[1..] == ts + [RParen];
  }

  predicate Plain(t: Token) { t.Ident? || t.Str? || t.Num? }

  lemma WalkPlain(t: Token, rest: seq<Token>, inBetween: bool)
    requires Plain(t)
    ensures Walk([t] + rest, 0, inBetween) == Walk(rest, 0, inBetween)
  {
    assert ([t] + rest)[1..] == rest;
  }

  /** The AND of a BETWEEN does not cut it. */
  lemma BetweenIsOneConjunct(col: Token, lo: Token, hi: Token)
    requires Plain(col) && Plain(lo) && Plain(hi)
    ensures IsConjunct([col, KW("BETWEEN"), lo, KW("AND"), hi])
  {
    var c := [col, KW("BETWEEN"), lo, KW("AND"), hi];
    var fromLo := [lo, KW("AND"), hi];
    WalkPlain(hi, [], false);
    assert [hi] + [] == [hi] && [KW("AND"), hi][1..] == [hi];
    assert Walk([KW("AND"), hi], 0, true) == Walk([hi], 0, false);
    WalkPlain(lo, [KW("AND"), hi], true);
    assert [lo] + [KW("AND"), hi] == fromLo && ([KW("BETWEEN")] + fromLo)[1..] == fromLo;
    assert Walk([KW("BETWEEN")] + fromLo, 0, false) == Walk(fromLo, 0, true);
    WalkPlain(col, [KW("BETWEEN")] + fromLo, false);
    assert [col] + ([KW("BETWEEN")] + fromLo) == c;
  }

  // ------------------------------------------------------------------
  // What acceptance is for
  // ------------------------------------------------------------------

  /** A comparison of the tenant column, written in any case, with a literal. */
  predicate Compares(c: seq<Token>, op: string) {
    && |c| == 3 && c[0].Ident? && ToUpper(c[0].val) == "TENANT_ID"
    && c[1] == Op(op) && c[2].Str?
  }

  /**
   `holds` is a reading of conjuncts on a row whose tenant is `row`: it takes `=` and both
   spellings of `<>` on the tenant column as SQL does. Any other conjunct may hold or not.
   */
  ghost predicate Consistent(holds: seq<Token> -> bool, row: string) {
    forall c: seq<Token> ::
      && (Compares(c, "=") ==> (holds(c) <==> row == c[2].val))
      && (Compares(c, "!=") || Compares(c, "<>") ==> (holds(c) <==> row != c[2].val))
  }

  ghost predicate Satisfied(cs: seq<seq<Token>>, holds: seq<Token> -> bool) {
    forall c | c in cs :: holds(c)
  }

  lemma EqualityForces(cs: seq<seq<Token>>, tenant: string, holds: seq<Token> -> bool, row: string)
    requires HasEquality(cs, tenant) && Consistent(holds, row) && Satisfied(cs, holds)
    ensures row == tenant
  {
    var i :| 0 <= i < |cs| && IsEquality(cs[i], "tenant_id", tenant);
    assert ToUpper("tenant_id") == "TENANT_ID";
    assert Compares(cs[i], "=") && cs[i] in cs;
  }

  /** A row that satisfies every conjunct of an accepted chain carries the tenant. */
  lemma AcceptedRowsCarryTenant(
    head: seq<Token>, cs: seq<seq<Token>>, tail: seq<Token>, tenant: string,
    holds: seq<Token> -> bool, row: string)
    requires IsHead(head, 0) && IsTail(tail)
    requires forall c | c in cs :: IsConjunct(c)
    requires Accepts(head + ([KW("WHERE")] + (AndJoin(cs) + tail)), tenant)
    requires Consistent(holds, row) && Satisfied(cs, holds)
    ensures row == tenant
  {
    GateOnAndChain(head, cs, tail, tenant);
    hide HasEquality, Consistent, Satisfied;
    EqualityForces(cs, tenant, holds, row);
  }

  /** A text longer than every value the conjuncts compare the tenant column with. */
  function Longer(cs: seq<seq<Token>>, seed: string): (r: string)
    ensures |r| > |seed|
    ensures forall c: seq<Token> | c in cs && |c| == 3 && c[2].Str? :: |r| > |c[2].val|
  {
    if cs == [] then seed + "x"
    else Longer(cs[1..], if |cs[0]| == 3 && cs[0][2].Str? then seed + cs[0][2].val else seed)
  }

  /** The reading on which every conjunct but a false comparison of the tenant column holds. */
  predicate Generous(c: seq<Token>, row: string) {
    if Compares(c, "=") then row == c[2].val
    else if Compares(c, "!=") || Compares(c, "<>") then row != c[2].val
    else true
  }

  /** If some row of the tenant satisfies the conjuncts and none is the equality, another tenant's row does too. */
  lemma OtherTenantSatisfies(cs: seq<seq<Token>>, tenant: string, holds: seq<Token> -> bool)
    returns (other: seq<Token> -> bool, row: string)
    requires Consistent(holds, tenant) && Satisfied(cs, holds) && !HasEquality(cs, tenant)
    ensures Consistent(other, row) && Satisfied(cs, other) && row != tenant
  {
    var foreign := Longer(cs, tenant);
    other, row := c => Generous(c, foreign), foreign;
    assert ToUpper("tenant_id") == "TENANT_ID";
    forall c | c in cs ensures other(c) {
      var i :| 0 <= i < |cs| && cs[i] == c;
      assert holds(c) && !IsEquality(cs[i], "tenant_id", tenant);
    }
  }

  /**
   The gate is exact: it accepts a chain that some row can satisfy iff every row that satisfies it
   carries the tenant.
   */
  lemma GateIsExact(
    head: seq<Token>, cs: seq<seq<Token>>, tail: seq<Token>, tenant: string,
    some: seq<Token> -> bool, someRow: string)
    requires IsHead(head, 0) && IsTail(tail) && TrimSpace(tenant) != ""
    requires forall c | c in cs :: IsConjunct(c)
    requires Consistent(some, someRow) && Satisfied(cs, some)
    ensures Accepts(head + ([KW("WHERE")] + (AndJoin(cs) + tail)), tenant)
        <==> forall holds, row | Consistent(holds, row) && Satisfied(cs, holds) :: row == tenant
  {
    GateOnAndChain(head, cs, tail, tenant);
    var ts := head + ([KW("WHERE")] + (AndJoin(cs) + tail));
    hide Consistent, Satisfied, IsConjunct, IsHead, IsTail, Accepts, TrimSpace, HasEquality;
    if Accepts(ts, tenant) {
      forall holds, row | Consistent(holds, row) && Satisfied(cs, holds) ensures row == tenant {
        AcceptedRowsCarryTenant(head, cs, tail, tenant, holds, row);
      }
    } else if someRow == tenant {
      var other, row := OtherTenantSatisfies(cs, tenant, some);
    }
  }

  // ------------------------------------------------------------------
  // OR outside parentheses
  // ------------------------------------------------------------------

  /** SQL's reading of an OR of AND chains: a row is chosen when it satisfies one of them. */
  ghost predicate Chosen(ds: seq<seq<seq<Token>>>, holds: seq<Token> -> bool) {
    exists d | d in ds :: Satisfied(d, holds)
  }

  ghost predicate Satisfiable(d: seq<seq<Token>>) {
    exists holds, row :: Consistent(holds, row) && Satisfied(d, holds)
  }

  lemma ChainGuaranteesIff(d: seq<seq<Token>>, tenant: string)
    requires Satisfiable(d)
    ensures (forall holds, row | Consistent(holds, row) && Satisfied(d, holds) :: row == tenant) <==>
            HasEquality(d, tenant)
  {
    hide Consistent, Satisfied, HasEquality;
    if HasEquality(d, tenant) {
      forall holds, row | Consistent(holds, row) && Satisfied(d, holds) ensures row == tenant {
        EqualityForces(d, tenant, holds, row);
      }
    } else {
      var some, someRow :| Consistent(some, someRow) && Satisfied(d, some);
      if someRow == tenant {
        var other, row := OtherTenantSatisfies(d, tenant, some);
      }
    }
  }

  /** An OR of chains confines its rows to the tenant iff every chain of it does. */
  lemma OrGuaranteesIff(ds: seq<seq<seq<Token>>>, tenant: string)
    requires forall d | d in ds :: Satisfiable(d)
    ensures (forall holds, row | Consistent(holds, row) && Chosen(ds, holds) :: row == tenant) <==>
            forall d | d in ds :: HasEquality(d, tenant)
  {
    hide Consistent, Satisfied, HasEquality, Satisfiable;
    forall d | d in ds
      ensures (forall holds, row | Consistent(holds, row) && Satisfied(d, holds) :: row == tenant) <==>
              HasEquality(d, tenant)
    {
      ChainGuaranteesIff(d, tenant);
    }
    if forall holds, row | Consistent(holds, row) && Chosen(ds, holds) :: row == tenant {
      forall d | d in ds ensures HasEquality(d, tenant) {
        forall holds, row | Consistent(holds, row) && Satisfied(d, holds) ensures row == tenant {
          assert Chosen(ds, holds);
        }
      }
    }
  }

  lemma {:induction false} WalkAppend(a: seq<Token>, b: seq<Token>, depth: nat, inBetween: bool)
    requires Walk(a, depth, inBetween).Some?
    ensures Walk(a + b, depth, inBetween) ==
            Walk(b, Walk(a, depth, inBetween).value.0, Walk(a, depth, inBetween).value.1)
    decreases |a|
  {
    if a == [] {
      assert a + b == b;
    } else {
      assert (a + b)[0] == a[0] && (a + b)[1..] == a[1..] + b;
      WalkAppend(a[1..], b, DepthAfter(a[0], depth), BetweenAfter(a[0], depth, inBetween));
    }
  }

  /** An OR outside parentheses is no cut: it and both its sides are one term. */
  lemma OrIsOneTerm(x: seq<Token>, y: seq<Token>)
    requires IsConjunct(x) && IsConjunct(y)
    ensures IsConjunct(x + ([KW("OR")] + y))
  {
    WalkAppend(x, [KW("OR")] + y, 0, false);
    assert ([KW("OR")] + y)[1..] == y;
  }

  function TenantEquality(tenant: string): (eq: seq<Token>)
    ensures IsEquality(eq, "tenant_id", tenant)
  {
    [Ident("tenant_id"), Op("="), Str(tenant)]
  }

  lemma EqualityIsConjunct(tenant: string)
    ensures IsConjunct(TenantEquality(tenant))
  {
    var eq := TenantEquality(tenant);
    var rest := [Op("="), Str(tenant)];
    WalkPlain(eq[0], rest, false);
    assert eq == [eq[0]] + rest && rest[1..] == [Str(tenant)];
    WalkPlain(Str(tenant), [], false);
    assert [Str(tenant)] + [] == [Str(tenant)];
    assert Walk(rest, 0, false) == Walk([Str(tenant)], 0, false);
  }

  /** So the gate does not see it: it accepts `tenant_id = '...' AND x OR y` whatever x and y are. */
  lemma GateOverlooksOr(head: seq<Token>, x: seq<Token>, y: seq<Token>, tail: seq<Token>, tenant: string)
    requires IsHead(head, 0) && IsTail(tail) && TrimSpace(tenant) != "" && IsConjunct(x) && IsConjunct(y)
    ensures Accepts(
              head + ([KW("WHERE")] + (AndJoin([TenantEquality(tenant), x + ([KW("OR")] + y)]) + tail)), tenant)
  {
    EqualityIsConjunct(tenant);
    OrIsOneTerm(x, y);
    hide IsConjunct, TenantEquality, TrimSpace, IsHead, IsTail, Accepts, AndJoin;
    var cs := [TenantEquality(tenant), x + ([KW("OR")] + y)];
    assert IsEquality(cs[0], "tenant_id", tenant);
    GateOnAndChain(head, cs, tail, tenant);
  }

  /** The rows that SQL chooses by `tenant_id = '...' AND x OR y` are the tenant's iff y itself is the equality. */
  lemma OrConfinesIff(x: seq<Token>, y: seq<Token>, tenant: string)
    requires Satisfiable([TenantEquality(tenant), x]) && Satisfiable([y])
    ensures var ds := [[TenantEquality(tenant), x], [y]];
            (forall holds, row | Consistent(holds, row) && Chosen(ds, holds) :: row == tenant) <==>
            IsEquality(y, "tenant_id", tenant)
  {
    hide Satisfiable, Consistent, Chosen, IsEquality, TenantEquality;
    var a, b := [TenantEquality(tenant), x], [y];
    OrGuaranteesIff([a, b], tenant);
    assert a in [a, b] && b in [a, b];
    assert IsEquality(a[0], "tenant_id", tenant);
    assert HasEquality(b, tenant) <==> IsEquality(b[0], "tenant_id", tenant);
  }
}
