# PhantomNet governed data plane

This project models the state machines behind PhantomNet's governed data plane in Dafny and proves what
they keep over whole runs. `dafny verify dfyconfig.toml` checks everything.

| file | what it models |
|---|---|
| `Ordering.dfy`, `PathSearch.dfy` | shortlex order, and the breadth-first search for bounded simple paths with its exploration budget |
| `Projection.dfy`, `GraphBuilding.dfy`, `AttackPaths.dfy` | evidence projection (merge rules, the nested loops, the exact outcome), the tenant graph store and the path service |
| `Correlation.dfy`, `RuleVersions.dfy` | fixture evaluation with pruned windows, the durable engine, and versioned rule storage |
| `Alerts.dfy`, `Ingestion.dfy`, `IngestionSafety.dfy` | alert suppression and lifecycle, and the at-least-once ingestion protocol with crashes |
| `DeadLetters.dfy`, `Consumer.dfy` | failure receipts with concurrent replays, and the commit discipline of the broker loop |
| `Pipeline.dfy` | the broker loop and the ingestion protocol together |
| `Inventory.dfy`, `Forwarders.dfy` | endpoint inventory writes, and ordered forwarder batches with crash and retry |
| `AuditChain.dfy`, `Notary.dfy` | hash-chained audit records, and the mined notarization chain |
| `Cases.dfy` | cases and playbook runs told by an append-only timeline |
| `Replication.dfy` | receipts of telemetry replication |
| `Evaluation.dfy` | threshold evaluation, offline against online |

How it is built:

- A store is a class whose fields are the tables, and each database session is one atomic step. A method's
  contract equates the new state with a specification function of the old one; safety is then proved about
  runs of those functions. Where calls interleave or crash (ingestion, dead letters, consumer, replication)
  the specification is a state machine: `Possible` says which steps may happen, `Step` what they do, and
  `RunFrom` gives the state after a run. The methods of `Ingestion`, `DeadLetters` and `Replication` return
  the run of that machine they performed, so a crash is a prefix of such a run.
- What a query may choose freely (one of several rows that tie, a row found by a non-key lookup) and what is
  generated (ids, clocks) are parameters of the step; `Possible` says which values can occur. Generated ids are
  assumed fresh.
- Where the code takes a digest of a text and later compares it with a digest of what a column gives back for that
  text, what the column gives back is a function parameter: a JSON column may return a number in another notation.
- SHA-256, HMAC, canonical JSON, Merkle roots, the proof-of-work test, rule predicates and correlation keys are
  function parameters, so every result holds for all of them. Results that need collision resistance say so, or
  have the form "equal, or here is a collision".

Where the code falls short of what its documentation or the obvious reading promises, the exact condition is
proved:

- Graph projection fails exactly on foreign records, or on a record that becomes an invalid node: one with an overlong
  id, an empty or overlong label, or 128 or more references (`Projection.ProjectionOutcome`). When it does not fail, it
  depends on the order of observations exactly when a detection's event is claimed by two different kept observations
  (`Projection.OrderIndependenceExact`).
- Submitting an unchanged rule again is documented as idempotent. At an equal version key exactly the contract that the
  active row reads back as is accepted (`RuleVersions.EqualVersionExact`): "1.0" and "1.0.0" tie and exclude each other,
  and a rule is refused as changed right after it was taken up exactly when the row cannot express it, for want of
  columns for `schema_version` and `automatic_enforcement` or because the definition is read back differently
  (`RuleVersions.RepeatExact`, `RuleVersions.RepeatIsRefused`). Just then its revision differs from the active rule
  (`RuleVersions.NewestRevisionExact`).
- Evaluating an event raises, and skips the remaining rules, exactly when its id was recorded before and no row of the
  key it now has is in its window (`Correlation.RaisesExactly`); while an event id names one event it never does
  (`Correlation.NeverRaises`).
- Redelivering a detection held by its key's newest active alert is a no-op exactly while that alert was last seen
  inside the window; an alert that is closed, or not the newest, does not count. Late evidence can pull `last_seen`
  back and open a second alert (`Alerts.RedeliveryExact`, `Alerts.OutOfOrderOpensSecondAlert`).
- Detection observers are called at most once, not at least once: one that has not seen a stored detection never will
  exactly when the delivery that inserted it is dead (`IngestionSafety.SeenExactly`, `IngestionSafety.MissedExactly`,
  `IngestionSafety.CrashAfterPersistLosesObservers`).
- `persist` looks a detection up by id alone, so a row of another tenant can answer for it
  (`IngestionSafety.ForeignRowAnswers`). When all deliveries have completed and tenant, event and rule determine ids,
  every detection has a row of its own exactly when ids determine tenant, event and rule
  (`IngestionSafety.OwnRowsExactly`, `IngestionSafety.CompletedDeliveryOwnsItsRows`).
- `replay` is documented as replaying a record exactly once. It finishes at most once, but the processor succeeds once
  more for every replay that succeeded and did not finish, whether overtaken or crashed
  (`DeadLetters.SuccessesExact`); so it succeeds once exactly when every replay that succeeded has finished
  (`DeadLetters.ProcessedOnceExactly`), and never again after a replay has finished exactly when no other is under way
  (`DeadLetters.NeverProcessedAgainExactly`, `DeadLetters.OverlappingReplaysProcessTwice`). A receipt can be replayed
  only when the JSON column gives its payload back with the digest it was received with
  (`DeadLetters.HashMismatchExactly`, `DeadLetters.UnfitIsNeverReplayed`).
- `consumer.commit()` covers deliveries that were lost before it: a committed offset is unhandled exactly when all its
  deliveries were lost (`Consumer.CommittedExactly`, `Consumer.CommitCoversLostDelivery`). A receipt is refused for its
  hash exactly when the other kind of evidence of the same message is there, which takes an enrichment that raises a
  JSON decode error (`Consumer.ConflictExactly`, `Consumer.NoConflict`).
- A crash and retry of an alert leaves the outcome of a clean run at the retry's time exactly when the alert has a
  readable timestamp or no integrity part (`Inventory.CleanRetryExactly`). Otherwise the first attempt's time stays,
  and without an id of its own the alert may even be stored twice (`Inventory.UndatedRetryKeepsFirstTime`,
  `Inventory.UndatedAlertIsDoubled`). A batch can be retried cleanly exactly when each of its alerts has one of these or
  an event id that an earlier alert with a timestamp reports (`Forwarders.BatchRetryExactly`).
- `is_chain_valid` does not notice removed transactions (`Notary.RemovedTransactionsUnnoticed`), and `verify_chain`
  does not notice a missing tail (`AuditChain.TruncationVerifies`): both hold for every chain. An untouched chain is
  reported valid exactly when the columns give back every transaction after the first block with the digest it was
  submitted with (`Notary.RunValidExactly`, `Notary.AlteredTransactionInvalidates`).
- A delivered replication receipt is final exactly when every call under way at it is about to reserve
  (`Replication.DeliveredIsFinalExactly`). Up to its time of delivery it is final also while a call is about to mark it
  delivered once more (`Replication.DeliveryStandsExactly`); other overlapping calls can turn it into a failed one
  (`Replication.OverlappingCallsUndeliver`).
- The online provider is documented to match the offline baseline exactly; the inputs on which they part are given by
  `Evaluation.OnlineMatchesOffline`.
- Raising the threshold lowers precision exactly when the samples dropped are richer in attacks than those still flagged
  (`Evaluation.PrecisionFallsExactly`, `Evaluation.PrecisionIsNotMonotone`).
- Detection ids name their rule and event when rule ids have equal length; in general two pairs share an id exactly when
  one event id continues the other over the separator and the rule ids make up for it
  (`Correlation.DetectionIdNamesItsPair`, `Correlation.SharedDetectionIdExactly`).

## Model

| member | source | states |
|---|---|---|
| Ordering.LessExactly | backend_api/attack_graph_engine/governed_attack_paths.py:442-442 | the order in which successors are taken is that of strings: a proper prefix first, otherwise the lower code point where two strings first differ |
| PathSearch.BoundedSimplePaths | backend_api/attack_graph_engine/governed_attack_paths.py:428-448 | for every directed graph and query the search terminates and reports the arrivals among the first n trails, where n is the first point at which enough paths are complete, none is left, or the next expansion would exceed the budget |
| PathSearch.SearchResult | backend_api/attack_graph_engine/governed_attack_paths.py:428-448 | such a report is a prefix of the shortlex list of all attack paths, and equals that list cut at max_paths exactly when the budget covers the trails needed |
| PathSearch.SearchResultUnique | backend_api/attack_graph_engine/governed_attack_paths.py:428-448 | the stopping rule determines the report |
| PathSearch.ShortlexPathsCorrect | backend_api/attack_graph_engine/governed_attack_paths.py:428-448 | the reference list holds exactly the simple source-to-target paths of at most max_hops edges, each once, strictly in shortlex order |
| PathSearch.ShortlexPathsUnique | backend_api/attack_graph_engine/governed_attack_paths.py:428-448 | no other list has these two properties |
| PathSearch.TrailsFixpoint | backend_api/attack_graph_engine/governed_attack_paths.py:436-447 | a queue that runs dry has taken exactly the trails of all levels |
| PathSearch.StopReachesCut | backend_api/attack_graph_engine/governed_attack_paths.py:434-446 | if some affordable prefix of the trails already yields the cut list, the search reports it |
| GraphBuilding.GraphBuilder.AddNode | backend_api/attack_graph_engine/governed_attack_paths.py:491-502 | adding a node appends exactly that merge to the history the dictionaries summarise, or fails as its contract does |
| GraphBuilding.GraphBuilder.AddEdge | backend_api/attack_graph_engine/governed_attack_paths.py:504-517 | the same for an edge, including the clash of two relationships |
| AttackPaths.GovernedAttackPathService.Build | backend_api/attack_graph_engine/governed_attack_paths.py:491-680 | the five nested loops perform exactly the merges that the records list, in order |
| AttackPaths.GovernedAttackPathService.ProjectEvidence | backend_api/attack_graph_engine/governed_attack_paths.py:473-682 | a projection replaces the tenant's snapshot by the projected graph and returns its size, or fails as the projection does and changes nothing |
| Projection.RunSummarises | backend_api/attack_graph_engine/governed_attack_paths.py:491-517 | every merged node carries the highest risk and the union of the evidence added under its id, and every merged edge those of its key |
| Projection.MergesInOrder | backend_api/attack_graph_engine/governed_attack_paths.py:491-517 | a merged node or edge is the first one added under its key, label and kind included, and lists the evidence of all of them in order, each once |
| Projection.DeduplicateInOrder | backend_api/attack_graph_engine/governed_attack_paths.py:62-63 | deduplicating keeps values in the order of their first occurrences |
| Projection.ProjectionOutcome | backend_api/attack_graph_engine/governed_attack_paths.py:473-680 | a projection fails exactly on records of another tenant or on a record that becomes an invalid node, by an id over 512 characters, a label that is empty or over 512 characters, or more than 128 evidence references; observations of unknown assets do not count, and no edge ever fails, be it for its contract or for two relationships |
| Projection.ProjectedExactly | backend_api/attack_graph_engine/governed_attack_paths.py:519-680 | a projected graph has exactly the nodes and edges the records call for: an edge for each observation and detection of a known asset, for each detection and the last observation that claims its event, for each technique, and for each known detection of an alert and alert of a case |
| Projection.ProjectedLayers | backend_api/attack_graph_engine/governed_attack_paths.py:519-680 | every projected edge joins two projected nodes, has the one relationship of its layers and goes strictly down |
| Projection.EdgesGood | backend_api/attack_graph_engine/governed_attack_paths.py:540-680 | every edge drawn obeys the layers and both its ends are added |
| Projection.OrderDoesNotMatter | backend_api/attack_graph_engine/governed_attack_paths.py:491-517 | if no cited event is ambiguous, projections of the same records in any order and repetition agree on nodes, risks, relationships and evidence sets, or fail alike |
| Projection.OrderIndependenceExact | backend_api/attack_graph_engine/governed_attack_paths.py:519-600 | with unique record ids, the order of observations is irrelevant if and only if the projection fails or no detection's event is claimed by two different kept observations |
| AttackPaths.InMemoryTenantGraphStore.ReplaceSnapshot | backend_api/attack_graph_engine/governed_attack_paths.py:380-403 | a snapshot is accepted exactly when all its nodes belong to the tenant and no edge dangles, and touches no other tenant |
| AttackPaths.InMemoryTenantGraphStore.Analyze | backend_api/attack_graph_engine/governed_attack_paths.py:405-425 | unknown ends are reported as such; otherwise the records are those of the bounded search of the tenant's own snapshot |
| AttackPaths.PathRecords | backend_api/attack_graph_engine/governed_attack_paths.py:416-424 | the records keep the found paths in order, each looked up in the snapshot |
| AttackPaths.PathRecordValid | backend_api/attack_graph_engine/governed_attack_paths.py:451-464 | a reported path names one stored edge per hop and meets the bounds its record declares |
| AttackPaths.WalkExactly | backend_api/attack_graph_engine/governed_attack_paths.py:436-447 | the search walks exactly along stored nodes and edges of the snapshot |
| AttackPaths.RiskOfOne | backend_api/attack_graph_engine/governed_attack_paths.py:462-462 | a path that stays at one node has the risk of that node |
| AttackPaths.RiskOfLonger | backend_api/attack_graph_engine/governed_attack_paths.py:451-464 | going on to a further node adds the stored edge, its risk and the risk of the node |
| AttackPaths.EvidenceExactly | backend_api/attack_graph_engine/governed_attack_paths.py:454-457 | a record lists exactly what the nodes and edges on its path cite, each once and what its nodes cite first |
| AttackPaths.ProjectedConsistent | backend_api/attack_graph_engine/governed_attack_paths.py:380-393 | projected graphs never trip the store's own checks |
| AttackPaths.ProjectedWalksAreShort | backend_api/attack_graph_engine/governed_attack_paths.py:519-680 | a walk over a projected graph never revisits a node and has at most four edges |
| AttackPaths.HopsBeyondFour | backend_api/attack_graph_engine/governed_attack_paths.py:428-448 | on projected graphs all hop bounds of four and more explore and report the same |
| Correlation.EvaluateFixture | backend_api/correlation_engine/governed_correlation.py:115-149 | the events are evaluated in the order of their timestamps, and of their ids where timestamps are equal; the pruned per-key windows flag exactly the events whose plain count of earlier matches in the window reaches the threshold, and the expectation is met exactly when these are the expected ones |
| Correlation.TimeOrderUnique | backend_api/correlation_engine/governed_correlation.py:122-122 | with distinct event ids there is only one such order |
| Correlation.WindowStep | backend_api/correlation_engine/governed_correlation.py:130-137 | pruning to the event's window and appending keeps every later count exact |
| Correlation.GovernedCorrelationRepository.RecordAndCountMatch | backend_api/correlation_engine/governed_correlation.py:305-356 | the first recording of an event's match wins and is kept; the answer counts the rows of its key inside the window, and is an error when there are none |
| Correlation.GovernedCorrelationEngine.EvaluateEvent | backend_api/correlation_engine/governed_correlation.py:444-486 | one event leaves the rows and emits the detections that evaluating the stored rules in order determines, up to the first rule that raises |
| Correlation.RaisesExactly | phantomnet_agent/phantomnet_core/contracts.py:668-668 | evaluating a match raises if and only if the event id was recorded before and no row of the key it now has is in its window |
| Correlation.NeverRaises | backend_api/correlation_engine/governed_correlation.py:305-356 | while an event id names one event, no evaluation raises, whatever was delivered before and in whatever order and repetition |
| Correlation.FixtureAgreesWithEngine | backend_api/correlation_engine/governed_correlation.py:115-149 | fed the same sorted events from an empty table, the durable engine emits detections for exactly the events the fixture evaluator reports |
| Correlation.OrderAndRepetitionDoNotMatter | backend_api/correlation_engine/governed_correlation.py:305-356 | any order and repetition of the same events ends in the same match rows, detection marks aside |
| Correlation.RedeliveryTriggersAgain | backend_api/correlation_engine/governed_correlation.py:444-486 | whatever is delivered in between, a rule that an event reached is reached on redelivery with a match count at least as high, so no rule raises and a threshold that was reached is reached again |
| Correlation.DetectionIdNamesItsPair | backend_api/correlation_engine/governed_correlation.py:465-466 | among rule ids of one length a detection id determines its rule and event |
| Correlation.DetectionIdsClashExactly | backend_api/correlation_engine/governed_correlation.py:465-466 | with the first event id the shorter one, two ids are equal if and only if the second event id continues the first over a separator by some x, and the first rule id is x before the second |
| Correlation.SharedDetectionIdExactly | backend_api/correlation_engine/governed_correlation.py:465-466 | two ids are equal if and only if the pairs are, or they clash in this way in one direction or the other |
| Correlation.DetectionIdsCanClash | backend_api/correlation_engine/governed_correlation.py:465-466 | a witness of such a clash, for the exact condition of DetectionIdsClashExactly |
| RuleVersions.GovernedRuleRepository.Upsert | backend_api/correlation_engine/governed_correlation.py:178-253 | an upsert answers and changes the two tables as the specification step does, and keeps revisions unique |
| RuleVersions.UpsertStep | backend_api/correlation_engine/governed_correlation.py:178-253 | every upsert keeps the store consistent (increasing versions, the active rule being what the row makes of the newest revision), only appends revisions, changes nothing on failure, raises the version when it changes a rule, and never finds a higher version already recorded |
| RuleVersions.EqualVersionExact | backend_api/correlation_engine/governed_correlation.py:225-232 | without hash collisions, resubmitting at an equal version key succeeds, as a no-op, if and only if the contract is the one the active row reads back as |
| RuleVersions.NewestRevisionExact | backend_api/correlation_engine/governed_correlation.py:37-72 | the newest revision of an active rule equals it if and only if the active row can express the revision: both fields without a column at their defaults and the definition read back as written |
| RuleVersions.RepeatExact | backend_api/correlation_engine/governed_correlation.py:178-253 | repeating a submission that was taken up is a no-op if and only if the active row can express it, and is refused as changed otherwise; the contract as read back is always accepted |
| RuleVersions.RepeatIsRefused | backend_api/shared/database.py:774-799 | a rule posted twice with automatic enforcement is accepted and then refused, while the contract without it is accepted at that version and the revision goes on showing it |
| RuleVersions.KeyOfParts | backend_api/correlation_engine/governed_correlation.py:58-60 | the key of a version is the numbers its two or three parts are read as |
| RuleVersions.NumeralIsRead | backend_api/correlation_engine/governed_correlation.py:59-59 | the decimal numeral of every number is read back as that number |
| RuleVersions.LeadingZeros | backend_api/correlation_engine/governed_correlation.py:59-59 | leading zeros do not matter |
| RuleVersions.VersionsCompareAsNumbers | backend_api/correlation_engine/governed_correlation.py:223-225 | versions written in decimal compare as the numbers of their parts do, the first part counting most |
| RuleVersions.ShortAndLongVersionsTie | backend_api/correlation_engine/governed_correlation.py:58-60 | for all numbers a and b, "a.b" and "a.b.0" have one key |
| RuleVersions.RunConsistent | backend_api/correlation_engine/governed_correlation.py:178-253 | any sequence of upserts keeps the store consistent |
| RuleVersions.HistoryIsImmutable | backend_api/correlation_engine/governed_correlation.py:166-176 | what was recorded at some point of a run is still there at its end, unchanged |
| RuleVersions.OneDefinitionPerVersion | backend_api/shared/database.py:802-808 | a version of a rule is recorded at most once in a run |
| Alerts.AlertWorkflow.IngestDetection | backend_api/correlation_engine/alert_workflow.py:99-170 | the loop picks a most recently seen active alert of the tenant and key inside the window, and the detection is absorbed, recognised, or opens a new alert accordingly |
| Alerts.AlertWorkflow.Transition | backend_api/correlation_engine/alert_workflow.py:183-211 | a transition changes just the named alert, succeeds if and only if the table allows it, and records actor, time and case |
| Alerts.OccurrencesAreDistinctDetections | backend_api/correlation_engine/alert_workflow.py:99-170 | in every run each alert's occurrence count is the number of its detection ids, which are pairwise distinct |
| Alerts.AlertsEvolve | backend_api/correlation_engine/alert_workflow.py:22-29 | over any run alerts are never lost, keep their identity, only gain evidence and only while active, and move forward in the lifecycle |
| Alerts.NoReturn | backend_api/correlation_engine/alert_workflow.py:22-29 | an alert never returns to a status it has left |
| Alerts.MovesExactly | backend_api/correlation_engine/alert_workflow.py:22-29 | which moves succeed: only a new alert is suppressed, a suppressed one is only closed, and any other move goes up the stages, for a new alert only to triaged or closed |
| Alerts.LeadsExactly | backend_api/correlation_engine/alert_workflow.py:22-29 | the statuses an alert may come to are exactly those that allowed moves add up to |
| Alerts.WorkedAlertsWereTriaged | backend_api/correlation_engine/alert_workflow.py:203-207 | an alert that is triaged, in progress or resolved names who triaged it |
| Alerts.IngestHolds | backend_api/correlation_engine/alert_workflow.py:117-170 | after an ingest some alert of the tenant and key holds the detection |
| Alerts.RedeliveryExact | backend_api/correlation_engine/alert_workflow.py:104-130 | redelivering a detection held by its key's newest active alert changes nothing if and only if that alert was last seen inside the window |
| Alerts.RedeliveryIsSafe | backend_api/correlation_engine/alert_workflow.py:99-170 | while evidence arrives in order such a redelivery changes nothing, whatever analysts did in between |
| Alerts.TimelyAlertsAreSeen | backend_api/correlation_engine/alert_workflow.py:126-129 | while evidence arrives in order no alert holds evidence newer than its last_seen |
| Alerts.OutOfOrderOpensSecondAlert | backend_api/correlation_engine/alert_workflow.py:126-129 | out of order a redelivery opens a second alert for evidence the first one holds |
| Ingestion.DetectionRepository.Persist | backend_api/correlation_engine/detection_store.py:51-93 | the first write wins by detection id, then by tenant, event and rule; the flag tells whether a row was inserted |
| Ingestion.CanonicalBrokerProcessor.HandleCandidate | backend_api/correlation_engine/ingestion.py:75-89 | one round of the loop is a stretch of a possible run: persist, alert workflow, and observers only for a new row |
| Ingestion.CanonicalBrokerProcessor.Process | backend_api/correlation_engine/ingestion.py:54-100 | a call is a run of the state machine; it ends done, at an unsupported version, or at the first candidate whose event, tenant or correlation id is not that of the message; a completed call reports for each candidate a stored row that answers for it, and which of them are new |
| IngestionSafety.StepSafe | backend_api/correlation_engine/ingestion.py:75-100 | every step of any delivery, crash or analyst keeps the protocol invariant and loses nothing durable |
| IngestionSafety.RunSafe | backend_api/correlation_engine/ingestion.py:54-100 | so does every interleaving |
| IngestionSafety.AtMostOnce | backend_api/correlation_engine/detection_store.py:51-93 | in every run there is at most one row per detection id and per tenant, event and rule, and no observer sees a detection twice |
| IngestionSafety.RowsAreBound | backend_api/correlation_engine/ingestion.py:102-109 | in every run each stored row has the event, tenant and correlation id of the message whose delivery inserted it |
| IngestionSafety.OnlyKnownVersions | backend_api/correlation_engine/ingestion.py:56-59 | in every run no message of another contract version is taken up |
| IngestionSafety.CompletedDeliveryIsSettled | backend_api/correlation_engine/ingestion.py:75-92 | once any delivery of a message completes, each of its detections is answered for by a durable row, one with its id (as `persist` looks it up) or its tenant, event and rule, held by an alert where the alert workflow is configured, and every event observer was called, whatever earlier attempts did |
| IngestionSafety.CompletedDeliveryOwnsItsRows | backend_api/correlation_engine/detection_store.py:54-90 | while ids determine tenant, event and rule among all that was delivered, that row is one of the detection's own tenant, event and rule |
| IngestionSafety.OwnRowsExactly | backend_api/correlation_engine/detection_store.py:54-90 | when all deliveries have completed and tenant, event and rule determine ids, every detection has a row of its own tenant, event and rule if and only if ids determine tenant, event and rule |
| IngestionSafety.ForeignRowAnswers | backend_api/correlation_engine/detection_store.py:54-62 | a witness: of two detections under one id the first delivered is stored, and the other completes without a row of its own |
| IngestionSafety.SettledForever | backend_api/correlation_engine/ingestion.py:83-86 | settled evidence stays settled for the rest of the run |
| IngestionSafety.SeenExactly | backend_api/correlation_engine/ingestion.py:87-89 | an observer has seen a stored detection if and only if the delivery that inserted it got past that observer |
| IngestionSafety.MissedForever | backend_api/correlation_engine/ingestion.py:87-89 | if that delivery crashed first, no redelivery ever shows the observer the detection |
| IngestionSafety.MissedExactly | backend_api/correlation_engine/ingestion.py:87-89 | a stored detection that an observer has not seen will never be shown to it if and only if the delivery that inserted it is dead |
| IngestionSafety.CrashAfterPersistLosesObservers | backend_api/correlation_engine/ingestion.py:77-89 | a crash right after the insert loses all observers, for every event and detection |
| DeadLetters.IngestionDeadLetterRepository.RecordFailure | backend_api/correlation_engine/ingestion_reliability.py:109-158 | a failure inserts a receipt, counts on an open one, leaves a replayed one alone, or is refused on another hash |
| DeadLetters.IngestionDeadLetterRepository.Replay | backend_api/correlation_engine/ingestion_reliability.py:171-223 | an undisturbed replay is a run of the read, process and finish steps; on an open receipt whose hash fits it succeeds if and only if the processor does, closing the receipt, and otherwise records one more failure; in all other cases nothing changes |
| DeadLetters.RunSound | backend_api/correlation_engine/ingestion_reliability.py:109-223 | every interleaving of broker failures, replays and crashes keeps the receipts and replay tasks sound |
| DeadLetters.ReceiptsAreImmutable | backend_api/correlation_engine/ingestion_reliability.py:125-135 | identity, hash and payload never change, the hash is that of the payload received, failures are only added, and status only goes from open to replayed and then freezes the row |
| DeadLetters.ReplayedExactlyOnce | backend_api/correlation_engine/ingestion_reliability.py:210-223 | a receipt is replayed if and only if one replay finished on it, and no two replays finish on one receipt |
| DeadLetters.FinishedMeansProcessed | backend_api/correlation_engine/ingestion_reliability.py:204-210 | a replay that finished called the processor successfully on that payload |
| DeadLetters.AttemptsExact | backend_api/correlation_engine/ingestion_reliability.py:125-158 | the attempt count is the number of failures reported while the receipt was absent or open |
| DeadLetters.HashMismatchExactly | backend_api/correlation_engine/ingestion_reliability.py:201-203 | a replay that reads an open receipt passes the hash check if and only if the column gives the payload back with its digest |
| DeadLetters.UnfitIsNeverReplayed | backend_api/correlation_engine/ingestion_reliability.py:171-223 | over any run a receipt whose payload comes back with another digest stays open and is never processed by a replay |
| DeadLetters.SuccessesExact | backend_api/correlation_engine/ingestion_reliability.py:204-223 | over any run the successful processor calls on a receipt are one if it is replayed, plus one for every replay that succeeded on it and has not finished |
| DeadLetters.ProcessedOnceExactly | backend_api/correlation_engine/ingestion_reliability.py:178-223 | a replayed receipt was processed once if and only if every replay that succeeded on it has finished |
| DeadLetters.NeverProcessedAgainExactly | backend_api/correlation_engine/ingestion_reliability.py:188-223 | once a receipt is replayed, the processor can never succeed on it again if and only if no replay is under way on it |
| DeadLetters.CrashedNeverFinishes | backend_api/correlation_engine/ingestion_reliability.py:188-223 | a replay that dies before it has finished changes no receipt, and in no continuation does it succeed or finish |
| DeadLetters.OverlappingReplaysProcessTwice | backend_api/correlation_engine/ingestion_reliability.py:178-223 | a witness for the exact count of SuccessesExact: two overlapping replays both reach success of the processor and only the first finishes |
| Consumer.CorrelationConsumer.HandleNext | backend_api/correlation_engine/consumer.py:174-209 | one turn of the loop moves position, processed messages, receipts, commit and the loop's life as the step for its outcome says, including an enrichment that raises, or raises a decode error |
| Consumer.CorrelationConsumer.Restart | backend_api/correlation_engine/consumer.py:156-174 | a restart resumes at the committed offsets |
| Consumer.ConflictExactly | backend_api/correlation_engine/ingestion_reliability.py:125-127 | in every run recording a failure is refused if and only if a receipt with another hash is there, and then it holds the other kind of evidence of the same object message |
| Consumer.NoConflict | backend_api/correlation_engine/ingestion_reliability.py:125-127 | while no enrichment raises a decode error, a broker failure never meets a receipt with another hash |
| Consumer.HandledExactly | backend_api/correlation_engine/consumer.py:174-209 | an offset is processed or has a receipt if and only if some delivery of it was not lost |
| Consumer.CommittedExactly | backend_api/correlation_engine/consumer.py:174-209 | every committed offset was delivered, and is unhandled exactly when all its deliveries were lost |
| Consumer.CommittedIsHandled | backend_api/correlation_engine/consumer.py:184-204 | if failures can be recorded and JSON messages are objects, everything below a commit was processed or has a receipt, across restarts, redeliveries and replays |
| Consumer.CommitCoversLostDelivery | backend_api/correlation_engine/consumer.py:205-209 | otherwise the next success commits past a lost delivery |
| Pipeline.PartsRun | backend_api/correlation_engine/consumer.py:108-117 | a joint run of consumer and processor is a run of each on its own |
| Pipeline.ProcessedIsCompleted | backend_api/correlation_engine/consumer.py:113-117 | a processed offset has a completed delivery of its message |
| Pipeline.CommittedIsSettledOrReceipted | backend_api/correlation_engine/consumer.py:174-209 | every committed offset that had a delivery which was not lost has a receipt, or a completed delivery with all its detections settled, across interleavings, crashes, restarts and redeliveries |
| Pipeline.ReliableCommitIsSettled | backend_api/correlation_engine/consumer.py:174-209 | so has every committed offset when failures can be recorded and JSON messages are objects |
| Inventory.EndpointInventoryRepository.UpsertAsset | backend_api/endpoint_inventory_service/repository.py:72-110 | the last report of an asset wins and keeps its id; created tells whether the table grew |
| Inventory.EndpointInventoryRepository.PersistIntegrity | backend_api/endpoint_inventory_service/repository.py:133-174 | the first report of an observation wins, and one for an unknown asset is refused |
| Inventory.EndpointTelemetryIngestion.IngestWazuhAlert | backend_api/endpoint_inventory_service/ingestion.py:70-92 | an alert commits its asset and then its observation, never lacks the asset, and dying after any commit leaves just the commits before it |
| Inventory.EndpointTelemetryIngestion.Normalize | backend_api/endpoint_inventory_service/wazuh_adapter.py:64-119 | an alert becomes an asset and, with an integrity part, an observation at its own timestamp or else the current time, under its own id or else one made of agent and time |
| Inventory.ClockFreeExactly | backend_api/endpoint_inventory_service/wazuh_adapter.py:18-28 | normalising is independent of the clock if and only if the alert has a readable timestamp |
| Inventory.WritesExactly | backend_api/endpoint_inventory_service/repository.py:72-174 | a sequence of writes leaves each asset's last and each observation's first report, up to generated ids, with all references intact |
| Inventory.CrashesThenRetry | backend_api/endpoint_inventory_service/ingestion.py:70-92 | any number of attempts that crash after any prefixes, then a full retry, leave the tables of one clean run up to generated ids |
| Inventory.CleanRetryExactly | backend_api/endpoint_inventory_service/wazuh_adapter.py:64-119 | dying anywhere at any time and retrying at any other leaves the tables of a clean run at the retry's time if and only if the alert has a readable timestamp or no integrity part; then it does from every sound state |
| Inventory.UndatedRetryKeepsFirstTime | backend_api/endpoint_inventory_service/repository.py:145-153 | otherwise the observation of the attempt that died stays, with its time |
| Inventory.UndatedAlertIsDoubled | backend_api/endpoint_inventory_service/wazuh_adapter.py:96-96 | and an alert without an id of its own is stored twice when its fallback ids differ |
| Inventory.RepeatableBatchIsAlike | backend_api/endpoint_inventory_service/wazuh_adapter.py:64-119 | a batch in which each alert has a timestamp, no integrity part, or an event that an earlier alert with a timestamp reports means the same at any times, up to when its assets were last seen, wherever it stops |
| Forwarders.WazuhForwarderService.Register | backend_api/endpoint_inventory_service/forwarders.py:68-94 | a forwarder is added under a name new to its tenant, or nothing changes |
| Forwarders.WazuhForwarderService.Revoke | backend_api/endpoint_inventory_service/forwarders.py:105-117 | only the owning tenant deactivates a forwarder |
| Forwarders.WazuhForwarderService.CheckBatch | backend_api/endpoint_inventory_service/forwarders.py:119-148 | a batch passes if and only if its token is that of the active forwarder, its sequence is the next one and no receipt of that forwarder has its id; each failure is given exactly when it is the first of these that is missing |
| Forwarders.WazuhForwarderService.StreamBatch | backend_api/endpoint_inventory_service/forwarders.py:132-182 | a batch, its alerts normalised each at its own time, either leaves a prefix of its writes, or all of them with its receipt and sequence; the counters equal the rows that appeared |
| Forwarders.SequencesExact | backend_api/endpoint_inventory_service/forwarders.py:136-148 | over any run each forwarder's accepted sequences are exactly 1..last_sequence in order, under distinct batch ids |
| Forwarders.NamesStayUnique | backend_api/endpoint_inventory_service/forwarders.py:72-78 | over any run names stay unique per tenant |
| Forwarders.RevocationIsFinal | backend_api/endpoint_inventory_service/forwarders.py:114-126 | identity never changes, and a revoked forwarder never accepts a batch again |
| Forwarders.AcceptedOnlyOnce | backend_api/endpoint_inventory_service/forwarders.py:136-138 | an accepted batch is refused from then on and changes nothing |
| Forwarders.CrashedBatchIsRetriedCleanly | backend_api/endpoint_inventory_service/forwarders.py:154-174 | after any number of crashed attempts at any times, a batch in which each alert has a timestamp, no integrity part, or an event that an earlier alert with a timestamp reports is accepted, with the forwarders, receipts and tables of one clean attempt at the retry's times, or at any times if all alerts have timestamps, up to generated ids |
| Forwarders.BatchRetryExactly | backend_api/endpoint_inventory_service/forwarders.py:154-174 | from empty tables, a batch is retried cleanly after every crash if and only if each of its alerts has a timestamp, no integrity part, or an event id of its own that an earlier alert with a timestamp reports |
| AuditChain.VerifyChain | backend_api/audit_log_collector/integrity.py:92-135 | the loop accepts exactly the lists in which every record is intact, linked to the one before and signed as demanded |
| AuditChain.BuiltVerifies | backend_api/audit_log_collector/integrity.py:60-89 | every list built by chaining verifies, and a signed one also under its key with signatures and key id demanded |
| AuditChain.BuiltCarries | backend_api/audit_log_collector/integrity.py:60-89 | in a chained list record i carries entry i, its hash, the hash of the record before it, and a signature and key id exactly when there is a key |
| AuditChain.LastHashPinsHistory | backend_api/audit_log_collector/integrity.py:103-134 | two verified lists that end in one hash have the same bodies, or exhibit a collision or a preimage of the genesis hash |
| AuditChain.TamperingIsNoticed | backend_api/audit_log_collector/integrity.py:118-120 | without collisions, no other history with the same last hash verifies |
| AuditChain.TruncationVerifies | backend_api/audit_log_collector/integrity.py:103-135 | every prefix of a verified list verifies |
| Notary.BlockchainNotary.constructor | blockchain_layer/blockchain.py:20-37 | opening a sound store, or creating the genesis block on an empty one, gives a sound notary |
| Notary.BlockchainNotary.NewBlock | blockchain_layer/blockchain.py:79-129 | the block gets the next index, the link given or else that of the last block, the root given or else that of what is pending, and all pending transactions |
| Notary.BlockchainNotary.NewTransaction | blockchain_layer/blockchain.py:131-196 | a transaction is stored with its hash and waits |
| Notary.BlockchainNotary.ProofOfWork | blockchain_layer/blockchain.py:198-203 | the search returns the least valid proof |
| Notary.BlockchainNotary.CommitAuditBatch | blockchain_layer/blockchain.py:212-233 | an empty batch is refused; any other becomes a block with a least proof over the last block, and the notary stays sound |
| Notary.BlockchainNotary.IsChainValid | blockchain_layer/blockchain.py:235-289 | the loops accept exactly the chains whose blocks after the first have right hashes, links, proofs and transaction hashes |
| Notary.RunSound | blockchain_layer/blockchain.py:79-233 | any interleaving of submissions and commits keeps indices 1..n, hashes, links and least proofs, puts every transaction in exactly one of pending or one block, and only extends the chain |
| Notary.RunValidExactly | blockchain_layer/blockchain.py:235-289 | after every run the chain is reported valid if and only if the columns give back every transaction in a block after the first with the digest it was submitted with |
| Notary.AlteredTransactionInvalidates | blockchain_layer/blockchain.py:259-285 | a transaction that does not come back so makes the chain invalid with the commit of its block |
| Notary.CommitEmptiesPending | blockchain_layer/blockchain.py:123-128 | a commit puts every waiting transaction into the new block |
| Notary.CommitCarriesRoot | blockchain_layer/blockchain.py:212-233 | a mined block carries the root of its own batch and the hash of the block that was last |
| Notary.LastHashPinsHeaders | blockchain_layer/blockchain.py:247-253 | valid chains of equal length that end in one block hash agree on all blocks after the first, or two headers collide |
| Notary.RemovedTransactionsUnnoticed | blockchain_layer/blockchain.py:259-285 | a chain stays valid when transactions are removed |
| Cases.CaseWorkflow.CreateFromAlert | backend_api/case_management_service/workflow.py:94-158 | a case is opened for an alert that is not linked yet, which triages a new alert; otherwise the linked case is returned |
| Cases.CaseWorkflow.TransitionCase | backend_api/case_management_service/workflow.py:171-191 | a case moves only along its table, and the move is noted |
| Cases.CaseWorkflow.RequestPlaybook | backend_api/case_management_service/workflow.py:193-253 | a run starts awaiting approval, or approved when none is required, and the request is noted |
| Cases.CaseWorkflow.TransitionPlaybook | backend_api/case_management_service/workflow.py:255-303 | a run moves only along its table, records approver and times, and the move is noted on its case |
| Cases.RunSound | backend_api/case_management_service/workflow.py:171-303 | over any run timelines only grow and tell the new case status, each run's status is the last its case's timeline gives it, and an approval-required run that went ahead has an approver who never changes |
| Cases.ApprovedBeforeRunning | backend_api/case_management_service/workflow.py:193-280 | in every run a playbook run that needs approval and went ahead names its approver, one that needs none never does, started runs have a start time, and exactly the ended ones an end time |
| Cases.LinkedCaseExists | backend_api/case_management_service/workflow.py:282-288 | the missing-case error of a playbook transition never occurs |
| Cases.CreateIsIdempotent | backend_api/case_management_service/workflow.py:105-114 | opening a case again returns the first one and changes nothing |
| Cases.AlertsOfRun | backend_api/case_management_service/workflow.py:94-158 | in every run of cases, playbooks and alerts the alerts are those of a possible run of the alert workflow alone, so what is proved of its runs holds |
| Cases.CaseMovesExactly | backend_api/case_management_service/workflow.py:28-34 | which case moves succeed: any up the stages, but a new case is not resolved at once |
| Cases.RunMovesExactly | backend_api/case_management_service/workflow.py:35-43 | which playbook moves succeed: from a run that has not ended to cancelled, to the next stage, or from requested to approved |
| Cases.StatusesRise | backend_api/case_management_service/workflow.py:171-303 | over any run cases and playbook runs only move up the stages, so none returns to a status it has left |
| Replication.TelemetryReplicationRepository.ReserveReceipt | backend_api/correlation_engine/telemetry_replication.py:186-228 | a reservation inserts or counts a receipt, is declined for a delivered one, and refused on another hash |
| Replication.TelemetryReplicationService.ReplicateEvent | backend_api/correlation_engine/telemetry_replication.py:286-301 | a call is a run of reserve, send and mark steps over the enabled targets outside the source region, and returns their receipts |
| Replication.RunSound | backend_api/correlation_engine/telemetry_replication.py:186-259 | under any interleaving receipts are never removed, keep their hash, and account for every attempt |
| Replication.AttemptsAccountForSends | backend_api/correlation_engine/telemetry_replication.py:186-228 | a receipt's attempt count is at least the number of transport calls, and equals it if and only if no call stopped between its reservation and its transport call |
| Replication.CompletedCallAnswersAll | backend_api/correlation_engine/telemetry_replication.py:286-301 | a completed call answers every enabled target outside the source region: each result is a settled receipt of the target in its place for that event, even when other targets fail |
| Replication.OutgoingDistinct | backend_api/correlation_engine/telemetry_replication.py:288-290 | the targets served are exactly the enabled ones outside the source region, each once |
| Replication.DeliveredIsFinal | backend_api/correlation_engine/telemetry_replication.py:204-205 | in sequential runs with crashes nothing is sent for a delivered receipt again, and it never changes |
| Replication.DeliveredIsFinalExactly | backend_api/correlation_engine/telemetry_replication.py:230-259 | over unrestricted runs a delivered receipt, its time of delivery included, and its number of transport calls never change again if and only if every call under way at it is about to reserve |
| Replication.DeliveryStandsExactly | backend_api/correlation_engine/telemetry_replication.py:230-259 | it stays delivered, without error or another attempt, up to its time of delivery, if and only if every call under way at it is about to reserve or about to mark it delivered once more |
| Replication.OverlappingCallsUndeliver | backend_api/correlation_engine/telemetry_replication.py:246-259 | a witness for these conditions: two overlapping calls send twice and leave a delivered receipt marked failed, with its time of delivery |
| Evaluation.Evaluate | backend_api/ai_behavioral_engine/defensive_evaluation.py:586-668 | the counting loop yields the confusion counts and their verdict; refusals, short data and non-numeric scores are reported in the order of the checks |
| Evaluation.CountersPartition | backend_api/ai_behavioral_engine/defensive_evaluation.py:631-641 | hits and misses add up to the attacks, the four counters to the split |
| Evaluation.RatesExactly | backend_api/ai_behavioral_engine/defensive_evaluation.py:643-645 | precision, recall and false-positive rate are the shares of what is flagged, of all attacks and of all benign samples |
| Evaluation.RaisingThresholdNeverRaises | backend_api/ai_behavioral_engine/defensive_evaluation.py:573-577 | raising the threshold never raises hits, false alarms, recall or false-positive rate |
| Evaluation.PrecisionFallsExactly | backend_api/ai_behavioral_engine/defensive_evaluation.py:643-643 | raising the threshold lowers precision if and only if the samples no longer flagged are richer in attacks than those still flagged, or, when none is flagged any more, an attack was flagged before |
| Evaluation.PrecisionIsNotMonotone | backend_api/ai_behavioral_engine/defensive_evaluation.py:643-643 | a witness of that condition |
| Evaluation.AcceptedExactly | backend_api/ai_behavioral_engine/defensive_evaluation.py:643-667 | on sufficient data a model is accepted if and only if it flags something and meets the three bounds as shares of what is flagged, of all attacks and of all benign samples |
| Evaluation.OnlineMatchesOffline | backend_api/ai_behavioral_engine/advisory_model.py:184-218 | with evidence and a score in [0,1] online says suspicious exactly when offline predicts attack; in general they part exactly on a score at or above the threshold without evidence, a missing score at threshold zero, and a score above one |

## Left out

- Retired service mains, gateway routers, dashboards, websockets and configuration: no logic to verify.
- The Neo4j graph store: its search runs as Cypher in an external engine and ranks paths by risk.
- The deduplicated node list an analysis returns beside its path records, node attributes and copied evidence dictionaries: passed through unchanged. Of several labels given to one node the first stays, which order independence does not compare.
- UUID and timestamp canonicalisation: tenants and times are compared as already canonical values.
- Contract validation of rules, batches and envelopes beyond the bounds named in the model: invalid input does not reach the modelled code. A Wazuh alert that cannot be normalised stops its batch as a crash at that point does.
- The regions, the id and the time of creation of a replication receipt: set once at its insertion and never updated.
- Concrete predicate operators, field paths and the digest of correlation and suppression keys: they are functions of the event, so the results hold for any of them.
- Version strings are read as digits and dots; a string that is not numeric is refused by the contract before it is stored.
- The internals of one database session, of Kafka, HTTP and SQL: a session is one atomic step, and a transport call succeeds or fails freely.
- Other writers between a crashed batch and its retry: the retry theorems compare an otherwise undisturbed store.
- Concurrent sessions that race on one uniqueness constraint: session steps are serialised, so the constraint shows as a failed step.
- A crash inside `process` is a prefix of the run that `Ingestion.CanonicalBrokerProcessor.Process` returns, followed by the `Crash` step; the method itself runs to its end.
- Match-evidence effects of the correlation evaluator inside ingestion: candidates are arbitrary there, which includes what the evaluator emits.
- Steps of the replay endpoint count as analyst steps in `Pipeline`; that a successful replay also completes a delivery is not used there.
- Broker offsets are taken as contiguous from zero, and a single consumer owns the partitions it is assigned; a rebalance is a rewind of a partition to its commit.
- Logging is a no-op, though the calls in `consumer.py` pass keyword arguments the standard logger would reject.
- Messages that are not JSON-serialisable: what a broker delivers is text that parses or does not.
- Secret generation and constant-time comparison: a credential matches when its digest does.
- Unforgeability of MACs, and the contents of Merkle roots.
- Two identical transactions in one second share a hash and violate its uniqueness: submissions are taken as distinct.
- Sessions of the notary that end before a commit: pending transactions of one process are not lost in the model.
- The genesis block is never rechecked by the code, and so not by the model's validity.
- Integrated-evidence ingestion beside asset and integrity writes, and the read-only listings and summaries.
- Rounding of floating-point scores and rates: reals are used; NaN is not a modelled score.
- Persistence and deduplication of evaluations, datasets and assessments, and the external advisory model.
- MITRE mapping, threat-intelligence enrichment, agent collectors, eBPF monitors, peer-to-peer gossip and simulated attack fixtures.
