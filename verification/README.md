# Verified model of logalot's core

logalot is a multi-tenant log platform: Go services ingest, queue, store, search and tail
logs, and a TypeScript control plane handles sessions. This project models the parts of it
whose correctness is not visible in any one function, and proves what they promise for every
input, every interleaving and every run.

The files follow the system's components:

- `tokens.dfy` (module `WireTokens`): refresh tokens, API keys and invites as text, with the
  bounded splitter they share.
- `refresh.dfy` (`RefreshFamilies`): login, refresh and logout as interleaved processes over
  one token table, and the auth service's methods as processes of that machine.
- `alerts.dfy` (`Alerts`): evaluators on stale snapshots, the compare-and-swap with its outbox
  insert, and the relay.
- `sql_lexer.dfy`, `predicate_gate.dfy`, `cold_query.dfy` (`SqlLexer`, `PredicateGate`,
  `ColdQuery`): the cold-search SQL printer, the tokenizer, and the tenant gate that reads the
  printed text back.
- `paging.dfy`, `tiered.dfy`, `client.dfy` (`KeysetPaging`, `TieredSearch`, `SearchClient`):
  keyset pages over a changing table, the hot/cold union, and the web client's accumulator.
- `ratelimit.dfy` (`TokenBucket`, `Limiters`): the bucket's arithmetic, and its in-memory and
  expiring forms.
- `pipeline.dfy` (`IngestPipeline`): publisher confirms, deliveries, bounded retries, acks and
  dead letters.
- `tail.dfy` (`LiveTail`): the pump and the consumer of a live tail.
- `keycache.dfy` (`KeyCache`): API-key authentication over a TTL cache of a revocable table.
- `common.dfy` (`Common`): options, minimum, maximum and rounded-up division.

Protocols are state machines: a `State`, the `Step`s of all parties, `Enabled` and `Apply`, an
invariant kept by every step, and theorems over every run. A component that updates state in
place is also a class in the source's own form whose methods are processes of that machine; an
empty-bodied method such as `Others` stands for the other parties, and its callers may use only
its contract. Stores, queues and clocks are abstract state, and every call on them may fail,
before or after it took effect.

Seven promises of the code or its comments do not hold as written. Each has a run or an input that
breaks it and the exact condition under which it holds:

- A merged search page is a top of both stores, row by row, iff `TieredSearch.Exact` holds
  (`TieredSearch.TieredIsExactIff`); a cold row returned twice hides another
  (`TieredSearch.RepeatedColdRowHidesAnother`).
- The retry delay is kept iff the burst is at least one token (`TokenBucket.RetryAfterIsExact`,
  `TokenBucket.SmallBurstNeverAdmits`).
- Revoking a key and deleting its cache entry does not stop a miss that read the row before
  (`KeyCache.RevokedKeyGetsInLate`). The key is out for good iff nothing usable is cached and no
  promising authentication is under way (`KeyCache.OutForGoodIffShut`).
- For the same reason the documented worst case, one cache lifetime, is not a bound. It is one iff
  no miss under way holds a reading that would still be good a lifetime later
  (`KeyCache.TtlBoundsRevokedKeyIff`).
- A tail's gap frame can come one data frame late, never two (`LiveTail.GapCanTrailData`,
  `LiveTail.GapsAreAlmostInOrder`). It comes first iff, when its drop is counted, the buffer still
  holds something or the consumer is not between looking at the counter and taking its next event
  (`LiveTail.GapIsToldFirstIff`).
- The TypeScript splitter does not replicate Go's `SplitN` for a negative count or an empty
  separator (`WireTokens.SplitNIsNotGo`); `WireTokens.SplitNAgreesWithGoIff` says exactly where the
  two agree, and the API-key parser's call is such a place (`WireTokens.KeySplitIsShared`).

- An accepted query is promised to hold the tenant predicate unconditionally. The gate does not see
  an OR outside parentheses (`PredicateGate.GateOverlooksOr`); such a query confines its rows to the
  tenant iff every side of the OR does (`PredicateGate.OrGuaranteesIff`, `PredicateGate.OrConfinesIff`).
  On the AND chains the builder prints, acceptance is exact (`PredicateGate.GateIsExact`).

## Model

| member | source | states |
|---|---|---|
| `WireTokens.IndexOf` | services/control-plane/src/domain/split.ts:12-13 | the loop finds the first occurrence of the separator, or none when there is none |
| `WireTokens.SplitN` | services/control-plane/src/domain/split.ts:6-22 | the splitting loop computes `Split`, for every text, separator and count |
| `WireTokens.JoinOfSplit` | services/control-plane/src/domain/split.ts:6-22 | splitting loses nothing: joining the parts gives the text back, for every separator and positive count |
| `WireTokens.SplitOfJoin` | services/control-plane/src/domain/split.ts:6-22 | splitting a joined list gives the list back iff no part but the last holds the separator |
| `WireTokens.SplitParts` | services/control-plane/src/domain/split.ts:6-22 | every part but the last is separator-free, and a split that stops early has a separator-free rest |
| `WireTokens.SplitNAgreesWithGoIff` | services/control-plane/src/domain/split.ts:1-22 | against a model of Go's rule (nothing for 0, every cut for a negative count, an exploded text for an empty separator): the two agree iff the count is 0, or positive with a non-empty separator or with count 1 and a non-empty text, or negative with both empty |
| `WireTokens.SplitNIsNotGo` | services/control-plane/src/domain/split.ts:1-22 | a negative count and an empty separator, each with the two different answers |
| `WireTokens.KeySplitIsShared` | pkg/auth/key.go:39-54 | the Go API-key parser's split is the one the TypeScript parsers make, so one parser model serves both |
| `WireTokens.ParseCredential` | services/control-plane/src/domain/refresh-token.ts:21-37 | parse accepts exactly the texts that assemble prints from well-formed fields, and returns those fields: both round trips, for refresh tokens and (with its prefix) API keys |
| `WireTokens.CredentialShape` | services/control-plane/src/domain/refresh-token.ts:20-22 | the wire form is prefix, scope, id and secret in this order, joined by underscores |
| `WireTokens.ParseInvite` | services/control-plane/src/domain/invite.ts:46-63 | the same for invites: accepted iff assembled, and the fields come back |
| `WireTokens.ParseInviteTenantSlug` | packages/contracts/src/invite.ts:87-100 | the web package's own parser returns a slug iff the control plane's parser accepts with that public id and the slug fits the tenant pattern |
| `WireTokens.CredentialsAreUnambiguous` | pkg/auth/key.go:39-54 | no text is two kinds of credential at once, and a text has at most one reading of its kind |
| `RefreshFamilies.StepInv` | services/control-plane/src/app/auth-service.ts:62-206 | every step of every login, refresh and logout keeps: one live token per family, families of one tenant, exchanges of distinct tokens, what each process has read |
| `RefreshFamilies.RotationIsLinear` | services/control-plane/src/app/auth-service.ts:114-172 | in every interleaving a family has at most one live token, a token is exchanged at most once, and a successor stays in its family, tenant and user |
| `RefreshFamilies.RevokedStaysDead` | services/control-plane/src/app/ports.ts:312-329 | once revokeFamily ran on a family, no state of any later run has a live token of it |
| `RefreshFamilies.SessionsAreEarned` | services/control-plane/src/app/auth-service.ts:114-172 | a session means the presented token existed in that tenant, its secret matched, and this process consumed it before it expired |
| `RefreshFamilies.ReplayIsCaught` | services/control-plane/src/app/auth-service.ts:114-130 | from any reachable state and over every later run: the refresh of a token that is there with the right secret never ends as invalid, and if the token was rotated or revoked it ends with the whole family revoked and dead, unless a call failed |
| `RefreshFamilies.DeadForAReason` | services/control-plane/src/app/auth-service.ts:121-142 | no token dies without a reason: it was exchanged, or a token of its own family and tenant was presented with the right secret by a refresh or logout that is through |
| `RefreshFamilies.ReuseKillsFamily` | services/control-plane/src/app/auth-service.ts:121-156 | two completed presentations of one token: at most one session, and from then on the family, the winner's successor included, is dead |
| `RefreshFamilies.LoneRefreshSucceeds` | services/control-plane/src/app/auth-service.ts:114-172 | undisturbed, a live unexpired token with its secret gets a session whose successor is live |
| `RefreshFamilies.AuthService.Refresh` | services/control-plane/src/app/auth-service.ts:114-172 | with others running before every awaited call, the method is a process of the machine. Invalid only if the token was not there or the secret wrong; expired only with the right secret and past the expiry; a token already dead at the call ends in the family revoked or a failed call; a session has active tenant and user, a token consumed before its expiry, and a successor of the same tenant, family and user; a revoked family is dead, and with tenant and user active the token had died before the refresh was through; a failure has a failed call |
| `RefreshFamilies.AuthService.Found` | services/control-plane/src/app/auth-service.ts:116-130 | from the lookup on, each answer exactly: invalid iff no such token for the tenant or the wrong secret, expired iff rightly presented, live and past its expiry, and a dead token always ends in the family revoked or a failed call |
| `RefreshFamilies.AuthService.Consume` | services/control-plane/src/app/auth-service.ts:143-171 | rotate then issue: a session only from a token that was still live, a revoked family only from one that was not; the successor carries family, user, hash and expiry |
| `RefreshFamilies.AuthService.RevokeFamily` | services/control-plane/src/app/auth-service.ts:122-126 | the family revocation step and its outcome |
| `RefreshFamilies.AuthService.Authorize` | services/control-plane/src/app/auth-service.ts:131-141 | a session only for an active tenant and user; an inactive one ends in the family revoked or a failed call; with both active the family is revoked only if the token died meanwhile |
| `RefreshFamilies.AuthService.Login` | services/control-plane/src/app/auth-service.ts:62-97 | a login with an account mints the first token of its own new family, or a call failed |
| `RefreshFamilies.AuthService.MintRefreshToken` | services/control-plane/src/app/auth-service.ts:190-206 | the new row carries the tenant, user, family, hash and expiry given |
| `RefreshFamilies.AuthService.Logout` | services/control-plane/src/app/auth-service.ts:176-188 | logout always succeeds unless a call fails, and with the right secret the whole family is dead afterwards |
| `Alerts.OutboxIsALedger` | services/alert-evaluator/internal/app/ports.go:163-189 | for any evaluators on any snapshots, a rule's rows are numbered 1, 2, 3, ... once each, neighbours differ in target, and the rule's state and number are the last row's |
| `Alerts.DecideLaws` | services/alert-evaluator/internal/app/state.go:11-36 | two pairs of opposite comparators, equality where two meet, firing on many is kept by more rows, strict and weak comparison told apart by the margin; an unknown comparator never fires |
| `Alerts.EmptyQuerySelectsAll` | services/alert-evaluator/internal/app/ports.go:94-103 | a query is empty iff it would count every row of its tenant, however the database matches text |
| `Alerts.RowsAreDecided` | services/alert-evaluator/internal/app/evaluator.go:159-218 | every row's target is `Decide` of its observed count under a snapshot with a real query and another state |
| `Alerts.EvaluationSettles` | services/alert-evaluator/internal/app/evaluator.go:159-218 | evaluating a rule as it stands leaves it in the state its count calls for, with one numbered row iff that is a change |
| `Alerts.EmptyQueryNeverFires` | services/alert-evaluator/internal/app/evaluator.go:159-174 | a rule only ever seen with an empty query has no row and is in its initial state |
| `Alerts.StaleSnapshotWinsIffEven` | services/alert-evaluator/internal/app/ports.go:167-173 | a stale snapshot wins the compare-and-swap iff the rule moved an even number of times since |
| `Alerts.RowsAreNeverLost` | services/alert-evaluator/internal/app/evaluator.go:129-149 | in every later state a row is unchanged and either still pending or delivered at least once |
| `Alerts.DeliveryMoves` | services/alert-evaluator/internal/app/evaluator.go:129-149 | for every step: only a mark the store took makes a row delivered and only a successful send counts as one, each for the first row of that relay; so a failed send, a refused mark or a crash leaves it pending |
| `Alerts.AtMostOncePlusMarkFailures` | services/alert-evaluator/internal/app/evaluator.go:129-149 | with one evaluator a row is notified at most once plus the times its mark did not take |
| `Alerts.TwoRelaysCanRepeat` | services/alert-evaluator/internal/app/evaluator.go:129-149 | the one-evaluator condition is needed: two relays can both deliver a row with no failure |
| `Alerts.DrainsInCeilRounds` | services/alert-evaluator/internal/app/evaluator.go:104-149 | with no failure and no new transition, k relay rounds empty P pending rows iff k is at least ceil(P / batch size) |
| `Alerts.PendingAfterDrain` | services/alert-evaluator/internal/app/evaluator.go:129-149 | a round takes exactly the oldest batch off the pending list |
| `Alerts.Evaluator.EvaluateRule` | services/alert-evaluator/internal/app/evaluator.go:159-218 | which transition is asked for, which step is taken, when it wins, and exactly which row and rule are then written |
| `Alerts.Evaluator.EvaluateRules` | services/alert-evaluator/internal/app/evaluator.go:110-115 | every due rule is evaluated in order, whatever fails, with other evaluators running in between |
| `Alerts.Evaluator.EvaluateDue` | services/alert-evaluator/internal/app/evaluator.go:104-120 | the whole cycle: the evaluation steps of all due rules, then one relay round on the outbox recorded right after them |
| `Alerts.Evaluator.DispatchPending` | services/alert-evaluator/internal/app/evaluator.go:129-149 | with others running before every call, exactly the notify and mark steps the answers call for, each left on its row; alone, the outbox afterwards is the pure relay round, with no failure a drain round |
| `SqlLexer.Tokenize` | pkg/coldstore/fitness.go:89-213 | the index loop computes `Lex` on every text |
| `SqlLexer.LexInvertsPrinting` | pkg/coldstore/fitness.go:85-213 | tokenizing inverts printing: any tokens, keywords in any case, literals with their quotes doubled, with any blanks, line comments and block comments between them, come back exactly |
| `SqlLexer.EscapeClosed` | pkg/coldstore/query.go:108-110 | escaped text, whatever its quotes, ends where its literal ends and unescapes to the original |
| `SqlLexer.EscapeInjective` | pkg/coldstore/query.go:108-110 | two texts that escape alike are equal |
| `PredicateGate.FindWhere` | pkg/coldstore/fitness.go:222-239 | the loop finds the first WHERE outside parentheses |
| `PredicateGate.SplitTopLevelAnd` | pkg/coldstore/fitness.go:245-295 | the index, depth and BETWEEN-flag loop computes the recursive splitter |
| `PredicateGate.SplitOfAndJoin` | pkg/coldstore/fitness.go:245-295 | splitting inverts printing: any conjuncts, AND-joined, with or without an ORDER or LIMIT tail, come back exactly |
| `PredicateGate.ParensHide` | pkg/coldstore/fitness.go:222-295 | anything in balanced parentheses, counted independently of the scanner, is part of one conjunct and hides its WHERE |
| `PredicateGate.BetweenIsOneConjunct` | pkg/coldstore/fitness.go:245-295 | the AND of a BETWEEN does not cut it |
| `PredicateGate.CheckTenantPredicate` | pkg/coldstore/fitness.go:31-48 | the gate's verdict is the acceptance condition on the token stream |
| `PredicateGate.GateOnAndChain` | pkg/coldstore/fitness.go:31-48 | on an AND chain the gate accepts iff the tenant is not blank and the tenant equality is one of the conjuncts |
| `PredicateGate.AcceptedRowsCarryTenant` | pkg/coldstore/fitness.go:303-311 | every row that satisfies an accepted chain carries that tenant, under any reading that takes `=` and `<>` on the tenant column as SQL does |
| `PredicateGate.GateIsExact` | pkg/coldstore/fitness.go:31-48 | a chain that some row can satisfy is accepted iff every row that satisfies it, under every such reading, carries the tenant |
| `PredicateGate.OrGuaranteesIff` | pkg/coldstore/fitness.go:20-31 | an OR of satisfiable chains confines its rows to the tenant iff every chain has the tenant equality |
| `PredicateGate.GateOverlooksOr` | pkg/coldstore/fitness.go:245-295 | the splitter does not cut at an OR outside parentheses, so the equality AND x OR y is accepted whatever x and y are |
| `PredicateGate.OrConfinesIff` | pkg/coldstore/fitness.go:20-31 | the rows chosen by such a query are the tenant's iff y itself is the equality |
| `PredicateGate.TrimSpaceCuts` | pkg/coldstore/fitness.go:32-34 | trimming cuts off exactly the space at both ends |
| `ColdQuery.QueryReads` | pkg/coldstore/query.go:33-110 | the printed query lexes to the expected stream: every filter is a string literal that decodes to exactly what was put in |
| `ColdQuery.SkeletonIsFixed` | pkg/coldstore/query.go:33-86 | two queries with as many labels and the same limit differ only inside string literals |
| `ColdQuery.GateOnBuiltQuery` | pkg/coldstore/fitness.go:31-48 | the gate accepts the built query for its own tenant and for no other id, whatever the filters hold |
| `ColdQuery.BuiltQuerySelects` | pkg/coldstore/query.go:33-103 | under a row-level reading of equalities, BETWEEN, OR in parentheses, regexp_like and json_extract_scalar, the built WHERE holds on a row iff it is the tenant's, its date lies between the from and to asked for (or their defaults), and the trimmed text, the trimmed service and every label match |
| `ColdQuery.BuildColdQuery` | pkg/coldstore/query.go:33-86 | the builder's text lexes to that stream, passes the gate for exactly its tenant, selects exactly the rows the search asks for, and asks for the newest rows up to the clamped limit, read back as a number |
| `KeysetPaging.PageFacts` | pkg/logstore/logstore.go:285-292 | a page is the newest part of what is below the cursor, its cursor is its last key, and it has one iff more rows remain |
| `KeysetPaging.FollowDescends` | pkg/logstore/logstore.go:151-193 | however the table changes between pages, the keys come strictly descending |
| `KeysetPaging.ChangingTableWalk` | pkg/logstore/logstore.go:151-193 | no row twice, and every row that matches throughout a finished walk is returned |
| `KeysetPaging.InsertsKeepTheWalk` | pkg/logstore/logstore.go:151-193 | while rows are only inserted, every row there at the start is returned exactly once |
| `KeysetPaging.FiltersNarrow` | pkg/logstore/logstore.go:216-272 | each filter narrows by its own field and nothing else, a query without filters asks for all rows of the tenant, and blanks around a text or a service do not count |
| `KeysetPaging.FixedTableWalk` | pkg/logstore/logstore.go:216-292 | on a fixed table the pages concatenate to the full sorted result in exactly max(1, ceil(n / limit)) pages |
| `KeysetPaging.BuildSearch` | pkg/logstore/logstore.go:216-279 | the built conjuncts and arguments select exactly the rows the query asks for below the cursor; the placeholders are $1, $2, ... once each in order |
| `KeysetPaging.FetchNewest` | pkg/logstore/logstore.go:274-279 | the ordered, limited select as the database answers it |
| `KeysetPaging.SearchStore` | pkg/logstore/logstore.go:151-193 | a search is an error iff the tenant is invalid or the database fails, and otherwise the page of that tenant's matching rows, at the clamped limit |
| `TieredSearch.TierMeaning` | services/query-service/internal/app/tiered_search.go:141-191 | a non-empty bounded window is routed to exactly the tiers it touches |
| `TieredSearch.SplitCovers` | services/query-service/internal/app/tiered_search.go:212-221 | per tier, the windows asked for cover the query's window over both stores, with no time missed or read twice |
| `TieredSearch.CompactInPlace` | services/query-service/internal/app/tiered_search.go:274-288 | the in-place loop over the shared array leaves the compacted rows in the prefix |
| `TieredSearch.CompactMeaning` | services/query-service/internal/app/tiered_search.go:248-288 | compaction keeps every empty-id row in order and exactly one row per non-empty (ts, id) |
| `TieredSearch.SortPrefix` | services/query-service/internal/app/tiered_search.go:290-296 | the in-place sort leaves some sorted permutation of the compacted rows |
| `TieredSearch.UnionSearch` | services/query-service/internal/app/tiered_search.go:209-309 | fails iff both stores fail, never returns a cursor, and returns a trimmed sorted arrangement of the compacted union |
| `TieredSearch.Search` | services/query-service/internal/app/tiered_search.go:111-133 | page size settled, then routed to hot, cold or both; a query without bounds, and any query with the flag off or no cold store, is exactly the hot store's answer |
| `TieredSearch.PageSizeIsSettled` | services/query-service/internal/app/tiered_search.go:111-118 | the settled page size passes the stores' own clamp unchanged; a limit above the maximum becomes the maximum here and the default there |
| `TieredSearch.StraddleExact` | services/query-service/internal/app/tiered_search.go:209-309 | the rows of a merged page are a top of the deduplicated union iff hot rows plus distinct rows of the cold page fill the limit, or the cold page already shows every distinct cold row |
| `TieredSearch.ColdExact` | services/query-service/internal/app/tiered_search.go:124-132 | the rows of a cold-only page are a top of the deduplicated rows iff the page repeats none |
| `TieredSearch.TieredIsExactIff` | services/query-service/internal/app/tiered_search.go:111-133 | over all tiers, the rows of a time-bounded first page are a top of one deduplicated virtual store iff `Exact` holds |
| `TieredSearch.UnboundedIsExactIff` | services/query-service/internal/app/tiered_search.go:152-160 | a first page without bounds is the top of the hot store; over a hot store with nothing before the cutoff it is a top of the virtual store iff it is full or no row is cold |
| `TieredSearch.WholeIsOrdered` | services/query-service/internal/app/tiered_search.go:290-301 | that virtual store's listing is in order and repeats no non-empty key |
| `TieredSearch.ExactWithoutRepeats` | services/query-service/internal/app/tiered_search.go:209-309 | with no repeated cold key it always is |
| `TieredSearch.RepeatedColdRowHidesAnother` | services/query-service/internal/app/tiered_search.go:274-301 | a cold row returned twice pushes the next row off a page of two |
| `SearchClient.StepSound` | apps/web/src/features/log-search/use-log-search.ts:70-133 | every run, page load and response, in any order, keeps what is shown a chain of the latest run |
| `SearchClient.ShowsOneChain` | apps/web/src/features/log-search/use-log-search.ts:59-133 | after any interleaving the events are the capped concatenation of exactly the pages answered since the latest run, a cursor chain of its filters, and at most one of its requests is open |
| `SearchClient.ScreenTellsLatest` | apps/web/src/features/log-search/use-log-search.ts:59-133 | after any interleaving the status and the error say how the latest request stands, a search counts as made once its run is answered, no request carries an empty cursor, and more can be asked for iff the screen shows a result with a cursor |
| `SearchClient.ShowsNoRowTwice` | apps/web/src/features/log-search/use-log-search.ts:103-133 | over the keyset store the shown events are strictly descending, even if the table changed between pages |
| `SearchClient.LogSearch.Run` | apps/web/src/features/log-search/use-log-search.ts:70-78 | a run starts a new generation and clears the screen |
| `SearchClient.LogSearch.OnRunResponse` | apps/web/src/features/log-search/use-log-search.ts:78-98 | the response to a run: ignored when superseded, else the first page or the error |
| `SearchClient.LogSearch.LoadMore` | apps/web/src/features/log-search/use-log-search.ts:103-112 | asks for a page, with the latest filters and cursor, iff the screen shows a result with a usable cursor |
| `SearchClient.LogSearch.OnLoadResponse` | apps/web/src/features/log-search/use-log-search.ts:112-132 | the response to a page load: ignored when superseded, else appended up to the ceiling; an error keeps the pages |
| `TokenBucket.LevelIsLeastRoom` | services/ingest-service/internal/ratelimit/ratelimit.go:89-108 | the bucket's level before a request is the least room over all windows that end there |
| `TokenBucket.AdmittedIffEveryWindowHasRoom` | services/ingest-service/internal/ratelimit/ratelimit.go:89-108 | a request is admitted iff in every window ending at it the admissions plus one fit in burst plus refill |
| `TokenBucket.WindowBound` | services/ingest-service/internal/ratelimit/ratelimit.go:89-108 | no window admits more than burst plus rate times its forward clock movement, under any clock |
| `TokenBucket.ForwardOnSteadyClock` | services/ingest-service/internal/ratelimit/ratelimit.go:89-96 | on a clock that never goes back, forward movement is elapsed time |
| `TokenBucket.RetryAfterIsExact` | services/ingest-service/internal/ratelimit/ratelimit.go:97-108 | after a denial an undisturbed retry after w ms is admitted iff the burst is at least one token and w is at least RetryAfter |
| `TokenBucket.RemainingIsExact` | services/ingest-service/internal/ratelimit/ratelimit.go:89-108 | Remaining is exactly how many more requests at the same instant are admitted |
| `TokenBucket.SmallBurstNeverAdmits` | services/ingest-service/internal/ratelimit/ratelimit.go:97-108 | with a burst below one token nothing is ever admitted |
| `Limiters.WhoIsLimited` | services/ingest-service/internal/ratelimit/memory.go:53-83 | refused iff the tenant id is invalid, exempt iff it is valid and rate or burst is not positive; both leave the buckets alone, and no call touches another tenant's bucket |
| `Limiters.MemoryLimiter.Allow` | services/ingest-service/internal/ratelimit/memory.go:56-83 | one call on the tenant's bucket in the map |
| `Limiters.RedisLimiter.Allow` | services/ingest-service/internal/ratelimit/redis.go:27-64 | one script evaluation: read or start full, refill, take, write back, re-arm the expiry |
| `Limiters.FullAfterTtl` | services/ingest-service/internal/ratelimit/redis.go:50-64 | a bucket left alone is full a second before its TTL is up, an empty one not before, so losing the key loses nothing |
| `Limiters.RunsAgree` | services/ingest-service/internal/ratelimit/redis.go:27-64 | the expiring and the everlasting bucket answer every run alike, if keys vanish only after their TTL |
| `Limiters.TenantsAreIsolated` | services/ingest-service/internal/ratelimit/memory.go:56-83 | a tenant's answers among others' traffic are those of its own requests alone |
| `Limiters.SharedStoreAdmits` | services/ingest-service/internal/ratelimit/redis.go:27-64 | end to end: in the shared expiring store a request is admitted iff every window of its tenant's own requests has room |
| `IngestPipeline.StepInv` | pkg/broker/broker.go:87-186 | publishes, deliveries, appends, settlements, lost connections and shutdown all keep the conservation, tracking, authenticity and outcome invariants |
| `IngestPipeline.ExactlyOnePlace` | pkg/broker/broker.go:138-186 | every enqueued message is in exactly one of queue, unacked, dead-letter queue and acked |
| `IngestPipeline.ConfirmedIsKept` | pkg/broker/broker.go:87-130 | a confirmed publish is queued, in flight, dead-lettered or stored, over every run |
| `IngestPipeline.AckedIsStored` | services/processor/internal/app/processor.go:144-188 | an acknowledged message has a stored row |
| `IngestPipeline.RowsAreAuthentic` | services/processor/internal/app/normalize.go:56-77 | every stored row has the tenant that authenticated its ingest and the payload sent, whatever tenant the envelope claimed, and the payload is a non-empty JSON object |
| `IngestPipeline.AttemptsAreBounded` | services/processor/internal/app/processor.go:239-272 | a delivery makes at most max(1, maxRetries + 1) appends and writes no more rows than attempts |
| `IngestPipeline.DeadLettersAreEarned` | services/processor/internal/app/processor.go:144-158 | before a shutdown, a dead letter with a valid tenant and a non-empty JSON object had a delivery whose max(1, maxRetries + 1) attempts all failed |
| `IngestPipeline.Process.Publish` | pkg/broker/broker.go:87-130 | success iff the tenant is valid and the enqueue was confirmed |
| `IngestPipeline.Process.Ingest` | services/ingest-service/internal/app/ingest.go:88-114 | the count is exactly the confirmed prefix of the batch, each under the caller's tenant; an error iff the tenant is invalid or the batch was cut short |
| `IngestPipeline.Process.Persist` | services/processor/internal/app/processor.go:239-272 | the first attempt always runs, it stops at the first success, and gives up only with the budget spent or a shutdown begun |
| `IngestPipeline.Process.ArchiveCold` | services/processor/internal/app/processor.go:195-220 | the same loop on the cold archive: it stops at the first success, gives up only with the budget spent or a shutdown begun, leaves exactly the copies its calls made, and touches nothing else |
| `IngestPipeline.Process.Handle` | services/processor/internal/app/processor.go:144-188 | an error iff the event was not stored; poison makes no attempt; a stored event is archived unless there is no cold port or a shutdown has begun, with exactly the copies its calls made, and nothing else is |
| `IngestPipeline.Process.HandleDelivery` | pkg/broker/broker.go:166-186 | a settlement that arrives while the delivery is held puts the message in acked on success and in the dead-letter queue on anything else |
| `LiveTail.StepInv` | services/query-service/internal/app/tail.go:153-217 | every pump and consumer step keeps conservation, order, promptness, the buffer bound and the filter |
| `LiveTail.NothingUnaccounted` | services/query-service/internal/app/tail.go:153-217 | for every schedule: matched events = delivered + in hand + buffered + reported gaps + swapped + counted + being counted |
| `LiveTail.StreamIsASubsequence` | services/query-service/internal/app/tail.go:154-217 | delivered followed by buffered is an order-preserving subsequence of the filtered input, and the buffer never exceeds its depth |
| `LiveTail.FilteredIs` | services/query-service/internal/app/tail.go:39-57 | an event passes iff every field the filter sets is its own; a filter that sets none passes everything |
| `LiveTail.GapsGoUp` | services/query-service/internal/app/tail.go:193-201 | drops are reported in arrival order |
| `LiveTail.GapsAreAlmostInOrder` | services/query-service/internal/app/tail.go:193-201 | when a drop is reported at most one newer event has been sent before it |
| `LiveTail.GapIsToldFirstIff` | services/query-service/internal/app/tail.go:174-215 | when a drop has just been counted, every continuation tells it before any newer event iff the buffer is not empty or the consumer is not between its look at the counter and its next take |
| `LiveTail.GapCanTrailData` | services/query-service/internal/app/tail.go:174-201 | at every buffer depth, a run in which a gap is told after exactly one newer event, because the failed send and the count are two steps |
| `LiveTail.BurstFillsThenDrops` | services/query-service/internal/app/tail.go:161-181 | with the consumer stalled anywhere the pump still takes a whole burst: the first events fill the buffer, all others are dropped and counted |
| `LiveTail.Streamer.PumpEvent` | services/query-service/internal/app/tail.go:161-181 | the pump's turn for one event: appended iff it matches and there is room, counted iff it matches and there is none, with the consumer running in between |
| `LiveTail.Streamer.Turn` | services/query-service/internal/app/tail.go:193-216 | the turn ends the stream iff the gap it owes or its frame fails or it is cancelled; otherwise it sends a Gap for exactly the drops it took out of the counter, if any, and then one frame: the head of the buffer when there is one and it is chosen |
| `LiveTail.Streamer.Choose` | services/query-service/internal/app/tail.go:202-215 | the select ends the stream iff it is cancelled or the frame fails; otherwise it sends exactly the head of the buffer, which it takes off, or a heartbeat |
| `KeyCache.StepInv` | pkg/auth/authenticator.go:157-213 | every interleaving of authentications, revocations, deletions and time keeps entries, readings and accepts genuine |
| `KeyCache.AcceptsAreGenuine` | pkg/auth/authenticator.go:157-213 | every accept is for the holder of the key's secret, with that key's tenant and scopes, checked strictly before expiry; an uncached one had its slug looked up as that active tenant, a cached one comes from a set less than a TTL earlier made from an unrevoked reading |
| `KeyCache.MissAcceptsIff` | pkg/auth/authenticator.go:184-213 | undisturbed, a miss is accepted iff the slug names the key's active tenant, the secret matches and the key is neither revoked nor expired |
| `KeyCache.MissCaches` | pkg/auth/authenticator.go:201-213 | undisturbed, an accepted miss leaves the key cached as of now under its tenant, good for the next hit, and no other entry changed |
| `KeyCache.HitAcceptsIff` | pkg/auth/authenticator.go:168-182 | a hit is accepted iff the secret matches the entry and the entry is unexpired: neither slug nor tenant status matter; an expired entry presented with its secret is dropped |
| `KeyCache.HitIgnoresSlug` | pkg/auth/authenticator.go:168-182 | a run from a fresh deployment in which a cached key of a suspended tenant is accepted under a slug that never named a tenant |
| `KeyCache.OnlyOwnerRevokes` | pkg/auth/store.go:184-200 | over every run, a key becomes revoked iff the run holds a revocation of it by its own tenant |
| `KeyCache.ShutStaysShut` | pkg/auth/store.go:184-200 | a revoked key with nothing usable cached and nothing promising under way is never accepted again |
| `KeyCache.OpenLetsIn` | pkg/auth/authenticator.go:157-213 | otherwise some continuation accepts it once more |
| `KeyCache.OutForGoodIffShut` | pkg/auth/store.go:184-200 | so a revoked key is out for good iff no usable entry is visible and no promising authentication is under way |
| `KeyCache.RevokedKeyGetsInLate` | pkg/auth/store.go:184-200 | for every delay, a run from a fresh deployment in which a key is revoked and its entry deleted, and it is let in from the cache that much later |
| `KeyCache.RevokeShuts` | pkg/auth/store.go:184-200 | with nobody holding a reading (an atomic hit and miss path), revoke and a successful delete shut the key |
| `KeyCache.TtlBoundsRevokedKeyIff` | pkg/auth/store.go:180-200 | every later accept of a revoked key is read less than a TTL after the revocation iff no miss under way holds a promising reading unexpired a TTL later |
| `KeyCache.KeyService.Authenticate` | pkg/auth/authenticator.go:157-213 | no credential iff the text is empty, malformed iff it is any other text that is no key; a grant is a genuine accept; every refusal (unknown, bad secret, revoked, expired, unavailable) has its reason in the table |
| `KeyCache.KeyService.Hit` | pkg/auth/authenticator.go:168-182 | a cache hit still checks the secret and then the expiry, and drops an expired entry unless the delete fails |
| `KeyCache.KeyService.Verify` | pkg/auth/authenticator.go:189-199 | bad secret iff the hash differs, revoked iff it matches a revoked row: the secret is checked before revocation and expiry are revealed |
| `KeyCache.KeyService.Try` | pkg/auth/authenticator.go:165-188 | a grant comes from the cache iff the read did not fail and an entry younger than the TTL was there, else from the table |
| `KeyCache.KeyService.Store` | pkg/auth/authenticator.go:201-213 | the validated key is cached as read unless the write fails, and answered either way |
| `KeyCache.KeyService.ResolveKey` | pkg/auth/store.go:50-74 | a row only of the slug's active tenant; otherwise not found, or a call failed |
| `KeyCache.KeyService.RevokeKeyRow` | pkg/auth/store.go:184-193 | the update revokes the key iff it is the caller's tenant's own, and changes no other key |
| `KeyCache.KeyService.Revoke` | pkg/auth/store.go:184-200 | the row is revoked in its own tenant and no other key changes; the entry is gone if the delete succeeds, and the key is shut if nobody held a reading then |

## Left out

- Text is sequences of characters: Go's byte strings, Unicode case folding and encodings are not modelled.
- The token bucket uses reals for float64, and Lua's number formatting is not modelled.
- Hashes are an uninterpreted function; SHA-256, bcrypt, JWT signing, randomness and constant-time comparison are not modelled, and generated ids are fresh.
- JSON decoding, full-text matching, row-level security and transactions are uninterpreted predicates or atomic steps; a queue body that is not JSON is not modelled.
- Login's password check and tenant and user lookups are one given outcome.
- Ids in search are natural numbers in the order of their text, 0 being the empty id; tenant ids are compared as text.
- The SQL text of the hot search is its list of conjuncts and arguments, and the database's answer is the ordered limited selection.
- `ColdQuery.BuildColdQuery` bounds cold rows by date and binds neither level nor cursor, so the tiered theorems are about any cold store that honours the window, not about this builder.
- Set operations outside parentheses after a WHERE are not given a meaning; the gate's theorems are about AND chains and ORs of them.
- `TieredSearch.Search` takes one reading of the clock, where the code reads it twice.
- `TieredSearch.SortPrefix` stands for the library sort: it copies a sorted arrangement into the array.
- `SearchClient.LogSearch` treats every callback and state update as atomic; promise rejection, rendering and unmounting are not modelled.
- `IngestPipeline.RowsAreAuthentic` compares payloads as JSON values: the wire encoding compacts a raw payload and escapes HTML characters in it, so stored bytes may differ.
- `IngestPipeline` has no prefetch limit, timeouts or channel pool, and its shutdown is one flag for all processors.
- `IngestPipeline.Process.Handle` leaves out the best-effort tail publish, whose failure is only logged.
- `Alerts.Evaluator` leaves out the evaluation timestamps, the due-rule listing and a failed pending listing, which skips the relay round.
- `LiveTail.Streamer` leaves out logging and the ticker; the heartbeat is one of the consumer's choices.
- `KeyCache.KeyService` does not model a corrupt cache entry, which the cache treats as a miss.
- Athena, Glue, S3, Parquet, SMTP, SNS, HTTP routes, configuration, the UI, role matrices, the invite cap and the CRUD services are thin adapters or finite tables and would only add easy members.
