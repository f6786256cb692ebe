# Counterparty: the paid evidence pipeline

Counterparty sells three services to other agents over SharedNet: a trust snapshot of a seller, the verification of a
delivery, and a routing decision for the next purchase. These files model how a paid request becomes evidence and how
evidence becomes a decision, and prove what the design promises about it.

- `Texts`, `Sorting`, `JsonTokens`, `Json`: text as UTF-16 code units; the Arena service's `canonical` and the backend's
  `json.dumps(sort_keys=True)` as one printer with three styles; an RFC 8259 reader that undoes it.
- `Pointer`, `Verification`: JSON pointer resolution, the evidence checks and their aggregation.
- `Reputation` (with `Rounding`), `Conservative`: the score arithmetic over exact reals, and when the conservative score
  is monotone.
- `Routing`, `TierWorth`: verdicts, tiers, ranking, and what evidence is worth in it.
- `AuditLog`, `EvidenceStore`, `Backend`: the hash-chained log, the two uniqueness-constrained tables, the handlers that
  write them, and replay of the log.
- `Endpoints`: the two read endpoints on the store, and what their answers rest on after any calls.
- `Services`, `Grants`, `SharedNet`: prices, one-use grants, ledger matching, and the canary polling loop.
- `Drivers`, `Transport`: the Router and Probe machines, their transport, and a whole canary through both.
- `ArenaStore`, `ArenaService`: the Arena database and one request from message to response.
- `ArenaProtocol`, `ArenaRuns`, `ArenaTickets`, `ArenaReruns`: the same request as atomic steps, with any number of
  workers, crashes, redeliveries, transfers and kernel calls in any order; what holds in every run, what one worker left
  alone does, and exactly when a paid request can succeed again.

The digest is a function parameter; nothing is assumed of it. Where the design relies on it, the result is "or these two
texts collide". UUIDs, times, the ledger, the room and the outcome of a turn are parameters or actions of the world. A
database transaction is one step that commits or leaves the state as it was. The SharedOS kernel is one contract: a use is
allowed only by a stored grant that matches actor, issuer and capability exactly and whose counter `tryConsume` accepts.

Some findings that the code's own documentation does not mention:

- `service in PRICES` also admits the names every object inherits ("toString"). They have no price and never get paid.
- A memo is searched, not compared: a transfer for request "r1" also matches request "r" (`SharedNet.MemoAmbiguous`).
- A retry that names another request's transfer is let through or rejected by the database's choice of row
  (`ArenaStore.ClaimAmbiguous`).
- `tryConsume` does not look at the maximum on a first use (`ArenaStore.UsesBounded`).
- One payment can buy two successes: after a crash between a success and its save, or, with no crash, by a redelivered
  worker that reads the cache before the first one saves (`ArenaReruns.CrashRunsTwice`,
  `ArenaReruns.LateWorkerRunsTwice`; exactly when: `ArenaReruns.SucceedsAgainExactly`).
- The conservative score falls on a first pass when at most three fails came before, and only then
  (`Conservative.PassRaisesExactly`).
- An acknowledgement that meets the canary contract can be too long for the backend to take
  (`Transport.LongAcknowledgement`).
- Up to three verified results, all passes even, rank a seller below every seller with provisional evidence only in safe
  mode (`TierWorth.OutrankedWhenSafe`).
- The first verified pass turns a TRY_SMALL seller into AVOID (`Routing.FirstPassDemotes`).
- A negative verdict of extreme certainty with a list or object as its reason raises in the consistency check
  (`Verification.CertainRaises`), so a conforming canary reply can go unrecorded (`Backend.ConformingReplyLost`).

## Model

| member | source | states |
|---|---|---|
| `JsonTokens.StringRoundTrip` | sharedos/arena-service.ts:73 | a quoted string reads back as itself, whatever follows, in each runtime's escaping |
| `JsonTokens.NumberRoundTrip` | sharedos/arena-service.ts:73 | a printed number, in each of its plain and exponent layouts, reads back as itself before any text that ends it |
| `Json.ValueRoundTrip` | sharedos/arena-service.ts:72-80 | the reader undoes the printer on every value, keys in order, leaving exactly the text that follows |
| `Json.LoadCanon` | counterparty/storage.py:201 | loading a dumped payload gives the payload back, keys in order |
| `Json.CanonInjective` | sharedos/arena-service.ts:72-80 | two values print alike exactly when they are the same value up to key order, an overflowed number counting as null |
| `Json.OverflowPrintsAsNull` | sharedos/arena-service.ts:73 | the counterexample without that reading: the texts `1e+400` and `null` are read as different values and print as one text |
| `Json.NormSame` | counterparty/storage.py:201-210 | dump and load change a value by key order only and keep it valid |
| `Json.LoadValid` | sharedos/arena-service.ts:100 | whatever the reader accepts has no repeated key and only numbers its runtime holds; for JavaScript a literal beyond the double range is Infinity |
| `Pointer.ResolvePath` | counterparty/verification.py:79-91 | the loop finds exactly what walking the document by the path's parts finds |
| `Pointer.PartsOfEncoding` | counterparty/verification.py:82 | an encoded pointer is read back as its tokens without the empty ones, so whole exactly when no token is empty, "~1" and "/" in tokens included |
| `Pointer.ResolveEncoded` | counterparty/verification.py:79-91 | for non-empty tokens, resolving the encoded pointer is walking the document token by token |
| `Pointer.EmptyTokenIsSkipped` | counterparty/verification.py:82 | the case outside that condition: the member with the empty key is not reached |
| `Verification.AggregateMeaning` | counterparty/verification.py:149-168 | FAIL exactly if some check fails, PASS exactly if all pass, score and confidence in the unit interval |
| `Verification.AggregateIgnoresOrder` | counterparty/verification.py:149-168 | state, score and confidence are the same for every permutation of the checks |
| `Verification.ConfidenceMeaning` | counterparty/verification.py:158-168 | confidence never exceeds the share of scored checks, is at most one half while undecided, never above the score on a PASS, and the share itself on a FAIL |
| `Verification.UniformScore` | counterparty/verification.py:158-168 | checks that agree on a score aggregate to it, with confidence equal to it on a PASS |
| `Verification.Failures` | counterparty/verification.py:97-123 | no failure is collected exactly when every assertion holds |
| `Verification.AssertionsProbe` | counterparty/verification.py:94-132 | the loop's result is that of all assertions and of exactly those that do not hold |
| `Verification.AssertionsMeaning` | counterparty/verification.py:94-132 | undecided exactly without assertions, PASS exactly when some are given and all hold |
| `Verification.AssertionsShare` | counterparty/verification.py:124-132 | the score is the share of the assertions that hold |
| `Verification.CertainRaises` | counterparty/verification.py:74 | a certain FAIL with an empty list as its reason raises in the consistency check, whatever members come before |
| `Verification.PassIsFullyVerified` | counterparty/app.py:267-283 | a delivery passes exactly when a schema was given and met, assertions were given and all hold, nothing manipulates or contradicts, every independent check passed and cited URLs had a citations check |
| `Verification.CanaryDecided` | counterparty/app.py:200-227 | a canary is never undecided, and passes exactly on the echoed nonce with `ack` true, no manipulation and no contradiction |
| `Reputation.ExactForm` | counterparty/reputation.py:35-38 | the unrounded score is 50 plus 50 times confidence times relative lead |
| `Reputation.ScoreMirrors` | counterparty/reputation.py:35-38 | swapping passes and fails mirrors the score around 50 |
| `Reputation.ScoreMonotone` | counterparty/reputation.py:29-38 | a pass never lowers and a fail never raises the score, rounded or not, across the 0.99 cap |
| `Reputation.ScoreBounds` | counterparty/reputation.py:29-38 | the score stays strictly between 0.5 and 99.5 for all counts |
| `Reputation.ConservativeBelow` | counterparty/reputation.py:40-44 | the conservative score is never above the plain one and stays on the scale |
| `Conservative.PassRaisesExactly` | counterparty/reputation.py:40-44 | for all counts and roots, a pass does not lower the conservative score, rounded or not, exactly unless there are no passes and at most three fails |
| `Conservative.FailNeverRaises` | counterparty/reputation.py:40-44 | for all counts and roots, a fail never raises it, rounded or not |
| `Reputation.AllPassesBest` | counterparty/reputation.py:35-38 | at equal volume an all-pass record has the highest score |
| `Reputation.ScoreImpliesVolume` | counterparty/app.py:144-146 | a score of 75 needs 15 observations, which already give confidence 0.5 |
| `Routing.TiersAgree` | counterparty/app.py:134-161 | snapshot and routing, written apart, assign one tier; without task evidence AVOID is exactly what routing refuses |
| `Routing.BuyIsScore` | counterparty/app.py:144-146 | BUY is exactly a score of at least 75, so the confidence guard never decides |
| `Routing.CleanRecordBuys` | counterparty/app.py:144-146 | n clean passes give BUY exactly when n is at least 15 |
| `Routing.VerdictMonotone` | counterparty/app.py:134-152 | with task evidence, a pass never worsens and a fail never improves the verdict |
| `Routing.FirstPassDemotes` | counterparty/app.py:134-152 | without task evidence it does not hold: TRY_SMALL becomes AVOID on the first pass |
| `Routing.FirstResultAvoided` | counterparty/app.py:134-152 | without task evidence any first result ends in AVOID, which was the verdict before exactly when failed canaries prevail |
| `Routing.ScoreInBounds` | counterparty/app.py:341-370 | every candidate score built from any store contents meets the bounds of `CandidateScore` |
| `Routing.ProvisionalEvidence` | counterparty/app.py:345-352 | provisional trust stays within 25.25 and 74.75, its confidence in (0.2, 0.5], and reaches the cap with exactly twelve canaries |
| `Routing.UtilityRange` | counterparty/routing.py:6-24 | an affordable candidate's utility stays in [-0.38, 1] in safe mode and [-0.22, 1] in exploration, and the modes differ by 0.16 of the missing confidence |
| `Routing.UtilityRangeTight` | counterparty/routing.py:6-24 | both ends of the range are reached |
| `Routing.UtilityMonotone` | counterparty/routing.py:6-24 | a candidate no dearer, no slower, and no worse in trust, confidence and fit has no lower utility |
| `Routing.TrustWorth` | counterparty/routing.py:17-18 | a point of trust is worth 0.0042 whatever else is known |
| `TierWorth.WorthDecides` | counterparty/routing.py:6-28 | at equal price, latency and fit two sellers rank by their evidence alone: utility order is the order of one number built from trust and confidence |
| `TierWorth.OutrankedWhenSafe` | counterparty/routing.py:6-28 | at equal price, latency and fit, in safe mode every PROVISIONAL seller outranks every VERIFIED one with n results exactly when n is at most 3 |
| `TierWorth.OutrankedWhenExploring` | counterparty/routing.py:6-28 | in exploration exactly when n is at most 2 |
| `Routing.ViableIsAffordable` | counterparty/app.py:373 | the -1e8 filter keeps exactly the candidates within budget |
| `Routing.RecommendsBest` | counterparty/app.py:372-417 | a recommendation is made exactly when a candidate is eligible, and is an eligible one of highest utility |
| `Routing.RefusalsExact` | counterparty/app.py:389-408 | each refusal is given exactly in the situation it reports, and the table is the in-budget candidates in rank order |
| `Routing.TargetsUntested` | counterparty/app.py:402-407 | where evidence is asked for, it is of one to five affordable candidates that have none |
| `Routing.DecisionIgnoresOrder` | counterparty/routing.py:27-28 | ranking and decision are the same for every permutation of the candidates |
| `Routing.BestExecutionSound` | counterparty/models.py:121-133 | for every valid request and store, a recommendation is within budget, never REJECTED by the snapshot's tier, never UNPROVEN in safe mode |
| `AuditLog.VerifyAudit` | counterparty/storage.py:193-215 | true exactly on an intact log; otherwise the first bad row decides between false and a raised JSON error |
| `AuditLog.PrefixVerifies` | counterparty/storage.py:193-215 | every prefix of an intact log is intact |
| `AuditLog.MaterialInjective` | counterparty/storage.py:106-115 | hashed texts are equal exactly when all six fields are, the payload up to key order |
| `AuditLog.AppendVerifies` | counterparty/storage.py:102-121 | an appended row leaves an intact log intact, although its payload is stored reordered |
| `AuditLog.HeadDecidesLog` | counterparty/storage.py:193-222 | two intact logs with one head hash are equal record by record, or two of their hashed texts collide |
| `EvidenceStore.CounterpartyStore.constructor` | counterparty/storage.py:28-32 | a new store is empty |
| `EvidenceStore.CounterpartyStore.AppendAuditTx` | counterparty/storage.py:102-121 | adds exactly the next row of the chain, or nothing when an id or hash repeats |
| `EvidenceStore.CounterpartyStore.AppendAudit` | counterparty/storage.py:98-100 | the event commits, or the store is unchanged |
| `EvidenceStore.CounterpartyStore.Rollback` | counterparty/storage.py:86-96 | the contents at BEGIN are back |
| `EvidenceStore.CounterpartyStore.RecordVerification` | counterparty/storage.py:123-157 | the observation, if eligible, decisive and new, and its flagged event commit together, or nothing changes |
| `EvidenceStore.CounterpartyStore.RecordProtocolObservation` | counterparty/storage.py:159-191 | the same for a decisive canary; an undecided one changes nothing |
| `EvidenceStore.NoDoubleCount` | counterparty/storage.py:270-288 | a reputation counts each row of its task type and each general row once |
| `Backend.DeliveryChecks` | counterparty/app.py:270-282 | the list built in place is the delivery's checks, or the handler raises |
| `Backend.HandleVerifyDelivery` | counterparty/app.py:267-333 | the store moves by exactly one verification step or not at all, and the reply's flags say whether the table changed |
| `Backend.HandleProbeObservation` | counterparty/app.py:200-265 | the same for a canary, with an undecided one turned into FAIL |
| `Backend.ConformingReplyLost` | counterparty/app.py:200-265 | a conforming canary reply that also says FAIL with certainty and an empty list as its reason makes both handlers raise, and nothing is recorded |
| `Backend.FlagsAppended` | counterparty/storage.py:153-155 | the store's two flags land beside the handler's own fields |
| `Backend.LogReplays` | counterparty/storage.py:85-191 | after any calls, raises, rollbacks and crashes the log verifies, and replaying it alone reproduces every stored flag and both tables apart from latencies and times |
| `Backend.DeliveryMaterialBinds` | counterparty/app.py:285-295 | the evidence text of a delivery decides its id, provider, task and every JSON part up to key order, and conversely |
| `Backend.ProbeMaterialBinds` | counterparty/app.py:229-237 | the evidence text of a canary decides probe id, provider, nonce and output, and conversely |
| `Backend.EvidenceNeverClashes` | counterparty/storage.py:46-69 | barring a collision, the (service, evidence) constraint never rejects a row the id constraint accepts |
| `Backend.FirstSubmissionCounts` | counterparty/storage.py:140-157 | each table is exactly the first committed decisive eligible submission of each id, or two evidence texts collide |
| `Backend.ReputationOfFirst` | counterparty/storage.py:270-303 | both reputations are those of first submissions, or two evidence texts collide |
| `Backend.PassRowVerified` | counterparty/app.py:267-321 | every PASS row was written by a delivery that passed every check |
| `Backend.PassProbeEchoed` | counterparty/app.py:200-253 | every PASS canary row was written by a reply that echoed the contract exactly |
| `Endpoints.HandleTrustSnapshot` | counterparty/app.py:127-174 | from the store's own tallies: the verdict and tier, with exactly one event logged, or no answer and no change |
| `Endpoints.HandleBestExecution` | counterparty/app.py:335-426 | the loop scores every candidate from the store and decides on all of them, with exactly one event logged, or no answer and no change |
| `Endpoints.BuyIsEarned` | counterparty/app.py:144-146 | after any calls, BUY means at least fifteen different deliveries of the seller, of the task type or general, each passed every check of some call |
| `Endpoints.TierIsEarned` | counterparty/app.py:154-161 | after any calls, VERIFIED means some call decided a delivery that counts, PROVISIONAL that the seller echoed a canary, and both endpoints assign that tier |
| `Endpoints.SafeRecommendationEarned` | counterparty/app.py:372-417 | after any calls, a safe recommendation is affordable, of highest utility, not rejected by the snapshot on the same store, and of a seller with a decided delivery or an echoed canary |
| `SharedNet.FindFirst` | sharedos/sharednet-cli.ts:171 | the look-up finds a transfer with the id exactly when the page has one |
| `SharedNet.InstructedPaymentMatches` | sharedos/sharednet-cli.ts:71-91 | a transfer with the instructed memo, amount, payee and room from the payer's seat matches |
| `SharedNet.MemoMatchesInnerIds` | sharedos/sharednet-cli.ts:89-90 | a transfer made for one request matches another id exactly when its memo contains that id |
| `SharedNet.MemoAmbiguous` | sharedos/sharednet-cli.ts:89-90 | for instance "r" is matched by the transfer of "r1" |
| `SharedNet.OneTransferOnePrice` | sharedos/sharednet-cli.ts:71-91 | one transfer can match only requests of one seat, payee, room and price |
| `SharedNet.OutboundCarriesNonce` | sharedos/sharednet-cli.ts:199-205 | what is said still carries the nonce and names the target |
| `SharedNet.ScanPage` | sharedos/sharednet-cli.ts:227-245 | one page yields the lowest acknowledgement above the cursor, or everything up to the new cursor was inspected without one |
| `SharedNet.Poll` | sharedos/sharednet-cli.ts:208-247 | at most 23 reads; a found message is the lowest acknowledgement by the target after the start; otherwise nothing at or below the cursor went uninspected although the room grew, and a target that wrote at most a page wrote none |
| `SharedNet.SendCanary` | sharedos/sharednet-cli.ts:183-249 | each refusal exactly on its condition, the canary said exactly once otherwise, and the poll's result handed on |
| `Services.NamesKnown` | sharedos/arena-service.ts:44-50 | an accepted service name is the name of the service it becomes, inherited names included |
| `Services.PriceDecidesService` | sharedos/arena-service.ts:44-48 | no two services have one price |
| `Grants.GrantNamesDistinct` | sharedos/grants.ts:32-137 | grants of different attempts, kinds or services have different ids |
| `Drivers.RouterDriver.constructor` | sharedos/router-driver.ts:57-84 | the turn starts with what `open` reads out of the message |
| `Drivers.RouterDriver.ServiceCall` | sharedos/router-driver.ts:86-89 | calls the turn's own service and waits for it |
| `Drivers.RouterDriver.NextAtStart` | sharedos/router-driver.ts:93-140 | the first decision and state, branch by branch |
| `Drivers.RouterDriver.NextAfterProbe` | sharedos/router-driver.ts:149-186 | records only an echoing observation, else notes why and goes on to the service |
| `Drivers.RouterDriver.Next` | sharedos/router-driver.ts:92-219 | one step of the Router machine whose whole turns the lemmas below bound |
| `Drivers.RouterTurnBounded` | sharedos/router-driver.ts:83-219 | under any inputs a turn makes at most three calls and four decisions, by a falling rank, and with four inputs it ends |
| `Drivers.FallbackDead` | sharedos/router-driver.ts:133-217 | at the service call of a trust snapshot the fresh probe is set on every path, so the final fallback is never used |
| `Drivers.SnapshotTurn` | sharedos/router-driver.ts:120-217 | a trust snapshot that goes well makes exactly the ask, record and service calls and answers with the service's output and the recorded probe |
| `Drivers.RecordsOnlyOwn` | sharedos/router-driver.ts:149-173 | every record call carries the turn's own probe id, nonce and seller, and answers a successful result that echoes all three |
| `Drivers.RecordMeetsBounds` | counterparty/models.py:87-99 | however values are rendered, a record call meets the backend's length, latency and output bounds exactly when the seller's id is not all white space and the rendered output has at most 120000 characters |
| `Drivers.ProbeDriver.constructor` | sharedos/router-driver.ts:230-241 | the Probe turn starts with what `open` reads out of the message |
| `Drivers.ProbeDriver.Next` | sharedos/router-driver.ts:244-295 | one step of the Probe machine; a success without output is reported with its latency and no output |
| `Drivers.ProbeTurnBounded` | sharedos/router-driver.ts:243-297 | a Probe turn makes at most one call, only to the named seat with its nonce, and two decisions |
| `Transport.MessageRouter.Deliver` | sharedos/arena-service.ts:398-446 | a delivered seller message leaves exactly one pending reply: what the target seat itself wrote |
| `Transport.MessageRouter.TakeReply` | sharedos/arena-service.ts:482-485 | a pending reply is handed over once |
| `Transport.ProbeReadsRequest` | sharedos/router-driver.ts:122-130 | the Probe reads exactly what the Router asked |
| `Transport.RouterReadsObservation` | sharedos/router-driver.ts:284-294 | the Router reads exactly the output the Probe observed, or that there was none, and the latency |
| `Transport.RunProbe` | sharedos/arena-service.ts:455-480 | a Probe turn's observation is of the first acknowledgement the target seat itself wrote, and no reply stays pending |
| `Transport.RunCanary` | sharedos/router-driver.ts:81-198 | through Router, Probe, transport and room, a recorded output came from exactly the paid target seat, acknowledges this turn's nonce, and meets the backend's bounds exactly when it renders to at most 120000 characters |
| `Transport.LongAcknowledgement` | counterparty/models.py:93-99 | the case outside: a conforming acknowledgement with more than 120000 characters beside its two members |
| `Transport.HeardConforms` | counterparty/app.py:204-215 | what was heard satisfies the server's canary contract |
| `ArenaStore.ArenaStore.constructor` | sharedos/arena-store.ts:21-70 | a new database is empty |
| `ArenaStore.ArenaStore.StoreGrant` | sharedos/arena-store.ts:72-79 | exactly the grant's own row is set |
| `ArenaStore.ArenaStore.Load` | sharedos/arena-store.ts:81-94 | exactly the grants of that actor from that authority in that namespace |
| `ArenaStore.ArenaStore.GetUsage` | sharedos/arena-store.ts:96-101 | the counter, zero if absent |
| `ArenaStore.ArenaStore.TryConsume` | sharedos/arena-store.ts:103-110 | one counter moves by at most one, and the answer says whether it did |
| `ArenaStore.ArenaStore.ClaimPayment` | sharedos/arena-store.ts:148-187 | some row the query may return decides, or the payment is inserted |
| `ArenaStore.ArenaStore.CachedResponse` | sharedos/arena-store.ts:189-198 | missing, the saved response, or a mismatch of fingerprints |
| `ArenaStore.ArenaStore.SaveResponse` | sharedos/arena-store.ts:200-208 | a response is saved or replaced under its own fingerprint and never under another |
| `ArenaStore.UsesBounded` | sharedos/arena-store.ts:103-110 | the exact number of uses n tries get, at most the maximum exactly when the maximum is at least one |
| `ArenaStore.ClaimKeepsRows` | sharedos/arena-store.ts:148-187 | whichever row decides, transfers and request ids stay one-to-one and a request let through has its own row |
| `ArenaStore.ClaimCertain` | sharedos/arena-store.ts:158-168 | exactly when each outcome of a claim is possible |
| `ArenaStore.ClaimAmbiguous` | sharedos/arena-store.ts:158-168 | a retry naming another request's transfer can go both ways |
| `ArenaService.ParseWellFormed` | sharedos/arena-service.ts:95-131 | an accepted message has a seat, a request id, a known service and an object as input, from its own sender |
| `ArenaService.ParseRequestText` | sharedos/arena-service.ts:95-131 | parsing undoes writing: the service reads back every well-formed request that is written as JSON, its input in key order |
| `ArenaService.FingerprintBinds` | sharedos/arena-service.ts:82-93 | fingerprint texts are equal exactly when sender, id, service and input agree up to key order; the payment never matters |
| `ArenaService.HugeAndNullAlike` | sharedos/arena-service.ts:72-93 | the counterexample without reading overflow as null: two messages whose inputs hold `1e+400` and `null` are read differently and have one fingerprint text |
| `ArenaService.MintGrants` | sharedos/arena-service.ts:291-320 | exactly the attempt's grants are stored |
| `ArenaService.ProcessRequest` | sharedos/arena-service.ts:200-365 | the store and the response after one uninterrupted request, for every outcome of claim, ledger and turn |
| `ArenaService.SavedIsFinal` | sharedos/arena-service.ts:223-234 | once a response is saved, its request gets it back, every other valid request with the id is rejected, and nothing is claimed, granted or run |
| `ArenaService.SuccessIsSaved` | sharedos/arena-service.ts:361-363 | a turn that succeeds leaves its response saved under its fingerprint |
| `ArenaService.EffectsArePaid` | sharedos/arena-service.ts:223-365 | the store changes only if the turn is reached, which needs a verified payment and nothing saved, and DELIVERED is said only for a saved response or a paid, claimed, successful turn |
| `ArenaService.SavedStays` | sharedos/arena-service.ts:223-234 | no later arrivals change a saved response |
| `ArenaService.AtMostOneSuccess` | sharedos/arena-service.ts:514-518 | over any sequence of arrivals, after a success no arrival with that id runs, and equal fingerprints get the first response |
| `ArenaService.PayThenRetry` | sharedos/arena-service.ts:163-173 | paying exactly as the reply instructs and retrying passes the ledger check as the same request |
| `ArenaService.RunBatch` | sharedos/arena-service.ts:511-524 | a batch is its requests served in order on one store, answered by none, one or all responses |
| `ArenaProtocol.Safe` | sharedos/arena-service.ts:200-365 | every state of every interleaved, crashing, redelivered run keeps the invariant |
| `ArenaProtocol.ExecutedIsPaid` | sharedos/arena-service.ts:236-289 | every executed turn has a row under its id and fingerprint whose ledger transfer matched seat, payee, price and room of the same request, or fingerprints collide |
| `ArenaProtocol.RowsOneToOne` | sharedos/arena-store.ts:47-57 | payment rows map request ids one-to-one to transfers |
| `ArenaProtocol.Conservation` | sharedos/arena-store.ts:148-187 | the total price of the distinct executed requests never exceeds the total of the distinct matching transfers, or fingerprints collide |
| `ArenaProtocol.CanaryConservation` | sharedos/arena-service.ts:300-320 | canaries sent to a seat never exceed tickets minted for it, which never exceed claimed trust-snapshot attempts naming it |
| `ArenaProtocol.GrantsRespected` | sharedos/arena-store.ts:103-110 | no counter passes its grant's maximum, and no grant lets the Router message a seller |
| `ArenaProtocol.OnlyProbeSends` | sharedos/grants.ts:95-137 | a message reaches a seller only from the Probe, and only an exact seat |
| `ArenaProtocol.HeldIsLoaded` | sharedos/arena-store.ts:81-94 | the grant a use needs is exactly one that loads for its actor and authority |
| `ArenaRuns.SavedFingerprintStays` | sharedos/arena-store.ts:200-208 | under interleaving the fingerprint of a saved response never changes |
| `ArenaRuns.SavedIsPaid` | sharedos/arena-service.ts:361-363 | every saved response belongs to an executed turn with a paid row |
| `ArenaTickets.GrantStays` | sharedos/arena-store.ts:72-79 | no step changes a stored grant, although minting overwrites |
| `ArenaTickets.TicketsSuffice` | sharedos/arena-service.ts:291-320 | in every run, interleaved as it may be, a worker in its turn holds every grant of its attempt, and each is allowed exactly when it has no limit or is unused |
| `ArenaTickets.CanaryAllowed` | sharedos/arena-service.ts:291-320 | so in every run a snapshot's turn with unused grants is allowed each of the five uses its canary needs |
| `ArenaTickets.SendSpendsTicket` | sharedos/arena-store.ts:103-110 | in every run, a seller message goes out exactly when its ticket is held and unused, and the ticket is then spent |
| `ArenaRuns.AloneIsProcess` | sharedos/arena-service.ts:200-365 | a worker interrupted only by the kernel's uses during its turn, any number of any kind, leaves the store exactly as `processRequest` does with the uses its grants meter |
| `ArenaRuns.UsesMetered` | sharedos/arena-store.ts:103-110 | any kernel uses change the counters exactly as the metered ones among them, and nothing else of the store |
| `ArenaReruns.RedeliveryRunsExactly` | sharedos/arena-service.ts:223-289 | a redelivered request with its own row and a paying page runs again exactly when no response is saved under its id and the claim answers from its row; else the store stays as it is |
| `ArenaReruns.SucceedsAgainExactly` | sharedos/arena-service.ts:223-363 | in every state of every run, a request that was run can succeed again, whatever comes next, exactly when no response is saved or a worker that looked before the save is still on its way; it then can without a crash and on the row it has |
| `ArenaReruns.OrderedOnce` | sharedos/arena-service.ts:514-518 | in every run where a look under an id finds no other worker past its look and every success saved, the id succeeds at most once |
| `ArenaReruns.CrashRunsTwice` | sharedos/arena-service.ts:340-363 | from the empty state, every fundable request has a run with one crash, one payment row and two successes |
| `ArenaReruns.LateWorkerRunsTwice` | sharedos/arena-service.ts:223-363 | and one without any crash, the second success coming after the first response was saved |
| `ArenaReruns.SmallFundable` | sharedos/arena-service.ts:95-131 | such a request exists as a message at every deployment with a proper payee |

## Left out

- HTTP, FastAPI middleware, process spawning, SQLite itself, Cloud audit upload and `sharedos_audit`: input and output.
- The SharedOS kernel and executor beyond the one contract above; its timeouts, step limits and abort signals.
- Digest, UUIDs, clocks: parameters. A repeated row UUID, which the store would take for a replay, is not modelled, and
  row ids of the two tables are not kept.
- `jsonschema`, Python's comparison operators, the marker scan and `str.upper`: functions given as parameters. Only the
  server's canary schema has a concrete meaning.
- Float rounding: scores are exact reals, the square root is the non-negative root, and how a float prints is a parameter.
- The UTF-8 step before hashing; Python's key order by code point, which differs from code-unit order outside the basic
  plane; NaN and Infinity in Python JSON, also as a literal beyond the double range; negative zero, which is the same as
  zero; rounding of literals to doubles, also to zero.
- Non-ASCII digits as array indices in pointer paths.
- `record_observation`, which no handler calls and which writes no event; audit listing by limit or receipt.
- The snapshot's and the routing decision's event payloads: any JSON value.
- Median latencies: inputs. Reasons and evidence texts of checks: not kept; the dump of independent checks is an input.
- The wording of driver reasons and of the Probe's instruction is shortened to codes; `tool_status` fields are not kept.
- A failing or aborted SharedNet command while a canary is polled; transport errors other than a refusal.
- Code points versus code units in the backend's length bounds; how Python's `repr` renders an output: a parameter.
- The bounds of the other backend requests.
- Grant revocation (no code path sets it), issue times, purposes and namespaces of tools; trusted deliveries.
- One deployment has one room, payee, owner and namespace; a batch from another room on the same database is not modelled.
- Judge and Attestor roles: only grant constructors exist.
- The two atomic steps "insert the claim" and "draw the attempt's UUID" are one step of the protocol model.
