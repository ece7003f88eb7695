# Verified model of the card service

The service copies product cards into seller cabinets of a marketplace. It journals every remote mutation in a
database before it happens and then reconciles what the marketplace really did. This project models the parts where
that is hard and proves what they promise, in Dafny 4.11. `dafny verify dfyconfig.toml` checks everything.

The main results:

- **Publication runs** (`PublicationTheorems`). The product dispatcher as one system: journal, workers, call history,
  crashes at any point, any marketplace behaviour. At most one call and one retry per action, each after its commit;
  identities are released only on evidence; stored classes are always the fold of the members; rows only move forward.
- **Publication journal** (`Tables`, `Transactions`, `Slots`, `Folds`, `Invariant`, `Preservation`, `Journal`, `Progress`,
  `Releases`, `Orphans`, `Soundness`, `PlanClasses`, `PlanWitness`). Sixteen transactions as guards and effects; one
  invariant kept by all. `JournalStore` runs them statement by statement (`JournalStatements`) with row counts and
  rollback, and is proved equal to them.
- **Reconciliation** (`Evidence`, `Reconciliation`, `Loading`, `Reducers`, `ManualResolution`), **classification**
  (`Submissions`) and **transport** (`HttpClient`).
- **Media** (`MediaDispatch`, `MediaInFlight`, `MediaVisibility`, `MediaJournal`, `MediaDeadline`): every interleaving of pollers,
  workers, leases and late updates, first on their own and then on the journal's rows beside all other transactions.
- **Import** (`Aggregation`, `ImportSession`, `ImportRepository`): rows are conserved, and a ready session always freezes.
- **Caches** (`CatalogCache`, `CatalogStore`, `RecentCards`), **preparation** (`Preparation`), **rate limiting** (`Limiter`,
  `LimiterStore`, `LimiterRate`) and **canonical streams** (`CanonicalStream`, `CanonicalBuilder`).
- **What the rules mean** (`EvidenceRules`, `StoredRows`, `RetryRules`, `Guards`, `MediaSkips`, `PlanStops`, `ContinueRules`,
  `CacheRules`, `LimiterRules`, `CanonicalRules`, `TextRules`, `KeyRules`, `PreparationRules`). Guards and effects are
  functions; these modules say without them, in terms of rows, cards, batches and times, exactly when each applies and
  what it leaves: which verdict a member gets and with which numbers, when the one retry is ordered, which media is
  skipped, which items "continue" keeps.

Some results say that a natural expectation is false of the code, each with the exact condition under which it holds
and an input or run on which it fails: the two plan rules agree (`PlanClasses.PlanRulesAgreeIff`,
`PlanWitness.SomeRunEndsAsSuccess`), equal rows merge (`Aggregation.EqualRowsMergeIff`,
`Aggregation.RowMayConflictWithItself`), "not dispatched" means that nothing was written
(`HttpClient.ReportIsTrustedIff`, `HttpClient.RetriedReadMisleads`), every locked identity has a holder that can
release it (`Orphans.OrphanedIffAborted`, `Orphans.SomeRunOrphans`; such an identity stays locked,
`PublicationTheorems.OrphanedForever`), and watched media ends at its deadline (`MediaDeadline.DeadlineEndsIff`,
`MediaDeadline.SomeRunGetsStuck`; it stays open until a plan names its card again,
`MediaDeadline.StuckUntilReplanned`).

How the source was turned into a model:

- A `WithinTransaction` body is one atomic step; its row locks justify that. A step that fails leaves the tables alone.
- An attempt and a retry row are kept inside their action, since the schema allows one of each per action. A transfer's
  rows are keyed by their own ids; authorization ids and the transfer's own state only make transactions fail more often.
- One reconciliation is one step on the action's rows: within a process at most one goroutine works on an action. What the
  catalogue showed, the time of the decision and the loaded Error List batches may be older (`Loading.LoadedStaysListed`).
  Sending and recording are separate steps, and an interrupted record may come at any time.
- Result codes are constructors instead of text; the batch UUIDs of the Error List are their rank in the text order.
- In-memory state changed in place is a class; transactions, locks and timers become steps of a run.
- Clocks, the marketplace, the catalogue, JSON and digests are inputs of the steps.

## Model

| member | source | states |
|---|---|---|
| `PublicationTheorems.CallsOfEveryRun` | internal/feature/cardpublication/service/execution/product_dispatcher.go:166-393 | In every run, with a crash at any point: no action is sent twice and none is retried twice, every call follows the commit of the row that ordered it, and a retry follows an unreadable HTTP 200 to the same action by at least ten minutes. |
| `PublicationTheorems.StepReleasesOnEvidence` | internal/feature/cardpublication/service/execution/product_reconciliation.go:480-544 | No step takes an identity from a product action without evidence: an error envelope naming all members, exactly one bound card, exactly one of the loaded Error List batches naming the code after the baseline (whatever the feed stored since the load), a proven retry rejection, or a resolution with its own proof; lost and never-sent calls release nothing. |
| `Loading.LoadedStaysListed` | internal/feature/cardpublication/service/execution/product_reconciliation.go:160-186 | Error List batches loaded for an attempted action at any point of a run are still in the journal, after the baseline and unchanged, at any later point: loading outside the committing transaction is safe. |
| `PublicationTheorems.ClassesOfEveryRun` | internal/feature/cardpublication/repository/postgres/manual_resolution.go:666-728 | In every run the class of a finished, attempted product action is one fold of its members' final classes and equals what the resolution reducer computes (a never-sent action counting as unresolved). |
| `PublicationTheorems.PlanClassesOfEveryRun` | internal/feature/cardpublication/repository/postgres/product_plan_control.go:325-363 | In every run the stored class of a finished plan with actions is what the classes its actions have now reduce to: by the dispatch rule until a member of the plan is resolved, by the resolution rule ever after. |
| `PlanClasses.PlanRulesAgreeIff` | internal/feature/cardpublication/repository/postgres/manual_resolution.go:730-782 | On the actions of a finished plan the two rules agree exactly when an action needs attention, none is partial, or a rejected one stands beside an accepted or skipped one. |
| `PlanWitness.SomeRunEndsAsSuccess` | internal/feature/cardpublication/repository/postgres/product_plan_control.go:325-363 | A run of eight steps in which they do not: a plan with one rejected and one partial action is stored as a success. |
| `PlanClasses.CommitKeepsPlanClasses` | internal/feature/cardpublication/repository/postgres/manual_resolution.go:730-782 | Every transaction keeps it so; a committed resolution switches its plan to the resolution rule. |
| `PublicationTheorems.EveryRunAdvances` | internal/feature/cardpublication/repository/postgres/product_plan_control.go:36-257 | Between any two states of a run rows only move forward: finished actions and plans stay finished, attempts, retries and their answers are written once, settled members keep their result until a resolution. |
| `PublicationTheorems.OrphanedForever` | internal/feature/cardpublication/repository/postgres/product_plan_control.go:177-203 | An identity that aborting a plan left locked without a holder stays exactly so for the rest of every run: no transaction of the journal can release it. |
| `Orphans.OrphanedIffAborted` | internal/feature/cardpublication/repository/postgres/product_plan_control.go:177-203 | In every run an identity is locked without a holder exactly when an earlier step aborted a plan that wanted it while it was free. |
| `Orphans.CommitOrphansIff` | internal/feature/cardpublication/repository/postgres/product_plan_control.go:177-203 | Of all transactions only an abort makes such an identity, and exactly of the free identities its planned products want. |
| `Orphans.AbortOrphansIff` | internal/feature/cardpublication/repository/postgres/product_plan_control.go:112-203 | The abort itself: which identities it leaves locked without a holder. |
| `Orphans.SomeRunOrphans` | internal/feature/cardpublication/repository/postgres/product_plan_control.go:112-257 | A run of three steps that does it: insert a plan of two products, begin the first, abort. |
| `PublicationTheorems.EveryStateOk` | internal/feature/cardpublication/service/execution/product_dispatcher.go:69-112 | Every reachable state satisfies the journal invariant, sound classes and the bookkeeping of calls. |
| `PublicationTheorems.StepKeeps` | internal/feature/cardpublication/service/execution/product_dispatcher.go:69-112 | Each step (dispatch, send, record, interrupted record, reconcile, any other transaction, new Error List batch, crash, passing of time) keeps that invariant. |
| `PublicationTheorems.StepAdvances` | internal/feature/cardpublication/service/execution/product_dispatcher.go:166-462 | Each step only moves journal rows forward. |
| `PublicationRun.RetryIsWarranted` | internal/feature/cardpublication/service/execution/product_reconciliation.go:287-307 | A retry that is about to be sent has an unreadable first answer in the call history that is ten minutes old. |
| `RetryRules.SecondCallsOfEveryRun` | internal/feature/cardpublication/service/execution/product_reconciliation.go:287-307 | In every run a product is called for a second time only after a reconciliation at which its first call had been an unreadable HTTP 200 for ten minutes, all its members pended, and neither catalogue, trash nor Error List knew its products. |
| `RetryRules.RetriesIff` | internal/feature/cardpublication/service/execution/product_reconciliation.go:287-307 | A reconciliation orders the second call exactly under those conditions. |
| `RetryRules.OtherwiseDecides` | internal/feature/cardpublication/service/execution/product_reconciliation.go:168-205 | Otherwise a proven rejection of the second call settles the action, and else the evidence does; the action is left open exactly while a member waits. |
| `RetryRules.RefusedResults` | internal/feature/cardpublication/service/execution/product_reconciliation.go:315-327 | The results of a refused second call are one rejection for each pending member and nothing else. |
| `RetryRules.WaitsUntil` | internal/feature/cardpublication/service/execution/product_reconciliation.go:475-530 | A product without a trace waits until the timeout, counted from the second call if there was one. |
| `RetryRules.CommitStartsRetry` | internal/feature/cardpublication/repository/postgres/product_retry.go:15-101 | No other transaction inserts a retry row. |
| `PublicationRun.SendKeeps` | internal/feature/cardpublication/service/execution/product_dispatcher.go:364-367 | Sending keeps the history free of repeated errands. |
| `PublicationRun.RecordKeeps` | internal/feature/cardpublication/service/execution/product_dispatcher.go:395-462 | Recording an answer, or failing to, keeps the invariant; an unreadable answer in the journal is one the marketplace gave. |
| `PublicationRun.ReconcileKeeps` | internal/feature/cardpublication/service/execution/product_reconciliation.go:122-285 | One reconciliation commits and keeps the invariant, whatever the catalogue and the Error List show and however long ago it was decided. |
| `Reconciliation.DecisionCommits` | internal/feature/cardpublication/service/execution/product_reconciliation.go:168-284 | In every sound state the journal accepts what a reconciliation decided at any earlier time: validation, row counts, slots and correlations never conflict. |
| `Reconciliation.DeadlineEnds` | internal/feature/cardpublication/service/execution/product_reconciliation.go:475-530 | A reconciliation decided at or after the deadline ends the action when it commits, unless it starts the one retry. |
| `Reconciliation.DecisionFromService` | internal/feature/cardpublication/service/execution/product_reconciliation.go:168-205 | What is committed is one of the three kinds of ruling; a concluded class is the fold of the resulting members; polls never interfere with a retry. |
| `Reconciliation.AppliedClasses` | internal/feature/cardpublication/service/execution/product_reconciliation.go:531-543 | Once nobody waits, the stored members carry exactly the judged classes and the action class is their fold. |
| `Reconciliation.RetryConcludes` | internal/feature/cardpublication/service/execution/product_reconciliation.go:309-327 | A proven retry rejection settles every member as rejected, passes the validator, and the class Rejected is the fold. |
| `Reconciliation.RejectedRetryResults` | internal/feature/cardpublication/service/execution/product_reconciliation.go:315-327 | Returns one rejection for each member that is still pending, in order. |
| `Reconciliation.JudgedResults` | internal/feature/cardpublication/service/execution/product_reconciliation.go:477-530 | Each member finds its own verdict among the results of a poll and no other. |
| `Evidence.ReconcileEvidence` | internal/feature/cardpublication/service/execution/product_reconciliation.go:454-544 | A poll returns the newly decided members in order, completes exactly when nobody waits, and then gives the class and code of the fold. |
| `Evidence.JudgeMember` | internal/feature/cardpublication/service/execution/product_reconciliation.go:480-530 | The verdict on a member is the one the evidence rules define, read from the three indexes. |
| `Evidence.JudgeMembers` | internal/feature/cardpublication/service/execution/product_reconciliation.go:480-530 | Judging all members gives each its verdict in order. |
| `Evidence.Summarize` | internal/feature/cardpublication/service/execution/product_reconciliation.go:477-544 | Counting verdicts yields the results, completeness and the class of the fold. |
| `Evidence.CountersDecideClass` | internal/feature/cardpublication/service/execution/product_reconciliation.go:531-543 | The class read off the counters is the fold over the settled members. |
| `Evidence.IndexCards` | internal/feature/cardpublication/service/execution/product_reconciliation.go:461-464 | The index holds for every vendor code its cards in catalogue order. |
| `Evidence.IndexTrash` | internal/feature/cardpublication/service/execution/product_reconciliation.go:465-468 | The same for cards in the trash. |
| `Evidence.IndexBatches` | internal/feature/cardpublication/service/execution/product_reconciliation.go:469-474 | The same for Error List batches, once per naming. |
| `Evidence.CardMatchesAction` | internal/feature/cardpublication/service/execution/product_reconciliation.go:546-582 | Walking the request finds a match exactly when the card is bound to the member's position. |
| `Evidence.ValidateResults` | internal/feature/cardpublication/service/execution/product_reconciliation.go:584-623 | Accepts exactly the valid, distinct results about pending members. |
| `Evidence.PollPassesValidator` | internal/feature/cardpublication/service/execution/product_reconciliation.go:584-623 | The validator accepts the results of every poll. |
| `Evidence.DeadlineCompletes` | internal/feature/cardpublication/service/execution/product_reconciliation.go:475-524 | Past the deadline no member keeps waiting. |
| `Evidence.ResultsAreDecided` | internal/feature/cardpublication/service/execution/product_reconciliation.go:529-530 | The results are exactly the newly decided members. |
| `Evidence.RejectionIsListed` | internal/feature/cardpublication/service/execution/product_reconciliation.go:512-516 | A rejection by the Error List points at a listed batch that names the pending member. |
| `EvidenceRules.OneCardDecides` | internal/feature/cardpublication/service/execution/product_reconciliation.go:495-511 | If exactly one card and nothing else bears the vendor code, a pending member is decided: created, with that card's three numbers in their own places, if the card is complete and the one asked for; unresolved as a mismatch if not. |
| `EvidenceRules.OneBatchDecides` | internal/feature/cardpublication/service/execution/product_reconciliation.go:512-516 | If exactly one Error List naming and nothing else speaks of the code, it is rejected with the id of that batch. |
| `EvidenceRules.NothingDecides` | internal/feature/cardpublication/service/execution/product_reconciliation.go:521-527 | If nothing speaks of it, it waits, and is unresolved by timeout from the deadline on. |
| `EvidenceRules.ConflictDecides` | internal/feature/cardpublication/service/execution/product_reconciliation.go:517-520 | Anything else is an evidence conflict. |
| `EvidenceRules.SettledStays` | internal/feature/cardpublication/service/execution/product_reconciliation.go:482-492 | A settled member counts with its own class. |
| `EvidenceRules.CreatedIff` | internal/feature/cardpublication/service/execution/product_reconciliation.go:495-511 | A pending member is found created exactly when its own complete card is all there is. |
| `EvidenceRules.BoundIff` | internal/feature/cardpublication/service/execution/product_reconciliation.go:546-582 | A card is bound exactly when it is complete and the request asks for it at the member's position, counted over all groups. |
| `StoredRows.CreatedIsStored` | internal/feature/cardpublication/repository/postgres/product_reconciliation.go:325-416 | After the commit of such a reconciliation the member has succeeded under the card's number and its identity row holds the card's three numbers, present and free. |
| `StoredRows.JudgedIsStored` | internal/feature/cardpublication/service/execution/product_reconciliation.go:168-284 | Every verdict on evidence is stored in the rows of its member. |
| `StoredRows.PollStores` | internal/feature/cardpublication/repository/postgres/product_reconciliation.go:325-416 | A poll writes class, code and numbers of each result to its member and identity, frees or blocks the identity by the result, and leaves all other members and their identities alone. |
| `StoredRows.PollLeavesForeign` | internal/feature/cardpublication/repository/postgres/product_reconciliation.go:387-416 | It touches no identity of another action. |
| `StoredRows.ConcludeStores` | internal/feature/cardpublication/repository/postgres/product_reconciliation.go:249-322 | So does a conclusion. |
| `StoredRows.RejectStores` | internal/feature/cardpublication/repository/postgres/product_attempt.go:293-369 | A proven rejection writes each verdict to its member and frees the identity, or blocks it for a call that was never sent. |
| `StoredRows.AwaitStores` | internal/feature/cardpublication/repository/postgres/product_attempt.go:242-291 | An uncertain answer blocks exactly the identities of the action, an accepted one none. |
| `StoredRows.ResolveStores` | internal/feature/cardpublication/repository/postgres/manual_resolution.go:470-560 | A resolution writes the ruling to its member and identity, column by column, and to no other row. |
| `StoredRows.ResolveReduces` | internal/feature/cardpublication/repository/postgres/manual_resolution.go:666-782 | Then action and plan have the classes of the resolution rule over the rows as they are now. |
| `Guards.AwaitableIff` | internal/feature/cardpublication/repository/postgres/product_attempt.go:159-291 | An answer that proves nothing is stored exactly on a dispatching product. |
| `Guards.RejectableIff` | internal/feature/cardpublication/repository/postgres/product_attempt.go:293-407 | A proven rejection exactly on one all of whose members it names. |
| `Guards.ClassifiedIsStored` | internal/feature/cardpublication/service/execution/product_dispatcher.go:395-462 | Whatever the marketplace answers, the classified answer of a dispatching product is accepted. |
| `Guards.RetryableIff` | internal/feature/cardpublication/repository/postgres/product_retry.go:15-101 | The second call is ordered exactly once, ten minutes after an unreadable HTTP 200. |
| `Guards.RetryAnswerableIff` | internal/feature/cardpublication/repository/postgres/product_retry.go:104-197 | Its answer is stored exactly once; a proven rejection has to name every member. |
| `Guards.PollableIff` | internal/feature/cardpublication/repository/postgres/product_reconciliation.go:180-246 | A poll is accepted exactly when its results are valid and their batches correlate. |
| `Guards.ConcludableIff` | internal/feature/cardpublication/repository/postgres/product_reconciliation.go:249-322 | A conclusion exactly when no pending member is left without a result. |
| `Guards.CorrelatedIff` | internal/feature/cardpublication/repository/postgres/product_reconciliation.go:452-486 | Which Error List batch correlates with a member. |
| `Guards.MediaGuards` | internal/feature/cardpublication/repository/postgres/media_attempt.go:13-227 | Each media transaction is accepted exactly in its state and, where it binds or frees the card, on that card. |
| `Guards.ResolvableIff` | internal/feature/cardpublication/repository/postgres/manual_resolution.go:70-220 | Which member can be resolved. |
| `MediaSkips.CloseSettlesMedia` | internal/feature/cardpublication/repository/postgres/product_reconciliation.go:495-591 | When a product action ends, planned media of the plan ends as skipped exactly if its item is one of the action's and no product of the plan, of the same seller, item, vendor code and group, was attributed; every other media row is unchanged. |
| `MediaSkips.RejectSettlesMedia` | internal/feature/cardpublication/repository/postgres/product_attempt.go:370-406 | The same for a proven rejection. |
| `MediaSkips.ConcludeSettlesMedia` | internal/feature/cardpublication/repository/postgres/product_reconciliation.go:249-322 | The same for a conclusion. |
| `PlanStops.SupersedeEnds` | internal/feature/cardpublication/repository/postgres/product_plan_control.go:36-109 | Superseding skips all actions of the plan and touches nothing else. |
| `PlanStops.SupersedableIff` | internal/feature/cardpublication/repository/postgres/product_plan_control.go:36-109 | It is possible exactly while the plan awaits authorization and all its actions are planned. |
| `PlanStops.AbortEnds` | internal/feature/cardpublication/repository/postgres/product_plan_control.go:204-248 | Aborting ends planned products as unresolved and planned media as skipped, and no action that was begun. |
| `PlanStops.AbortBlocks` | internal/feature/cardpublication/repository/postgres/product_plan_control.go:177-203 | Aborting blocks exactly the missing free identities that a planned product of the plan was to create. |
| `PlanStops.AbortableIff` | internal/feature/cardpublication/repository/postgres/product_plan_control.go:112-175 | It is possible exactly when an action was attempted and a product is still planned. |
| `PlanStops.ReduceEnds` | internal/feature/cardpublication/repository/postgres/product_plan_control.go:290-368 | An executing plan is closed exactly when it has actions and all have ended; no other row changes. |
| `PlanStops.InsertableIff` | internal/feature/cardpublication/repository/postgres/plan.go:17-98 | A plan can be inserted exactly when it and its actions are new and fresh and its identities were observed. |
| `PlanStops.InsertStarts` | internal/feature/cardpublication/repository/postgres/plan.go:17-98 | A new plan waits, or ends at once when it has nothing to do; its actions start as drafted and no old row changes. |
| `PlanStops.BeginnableIff` | internal/feature/cardpublication/repository/postgres/product_attempt.go:14-156 | An attempt can begin exactly for a planned product with distinct codes whose identities are all missing and free. |
| `PlanStops.BeginStarts` | internal/feature/cardpublication/repository/postgres/product_attempt.go:14-156 | The rows an attempt begins with, and the identities it takes. |
| `Reducers.ActionReducersAgreeIff` | internal/feature/cardpublication/repository/postgres/manual_resolution.go:671-698 | The polling fold and the SQL reducer agree on an action exactly when no member is partial or some member needs attention. |
| `Reducers.PlanReducersAgreeIff` | internal/feature/cardpublication/repository/postgres/product_plan_control.go:325-345 | The dispatch and resolution reducers agree on a plan exactly on the stated classes. |
| `Reducers.ActionClassOf` | internal/feature/cardpublication/repository/postgres/manual_resolution.go:671-698 | The class the resolution rule gives an action, said of the members' classes. |
| `Reducers.DispatchedClassOf` | internal/feature/cardpublication/repository/postgres/product_plan_control.go:325-345 | The class the dispatch rule gives a plan, said of its actions' classes. |
| `Reducers.ResolvedClassOf` | internal/feature/cardpublication/repository/postgres/manual_resolution.go:736-756 | The class the resolution rule gives a plan. |
| `Reducers.PlanReducersDiffer` | internal/feature/cardpublication/repository/postgres/manual_resolution.go:736-756 | One rejected and one partial action: success on the dispatch path, partial on the resolution path. |
| `Submissions.Walk` | internal/feature/cardpublication/service/execution/product_classifier.go:154-173 | Walking an error document adds exactly the wanted names that occur in it. |
| `Submissions.MappedVendorCodes` | internal/feature/cardpublication/service/execution/product_classifier.go:148-176 | Returns the vendor codes that the document names. |
| `Submissions.FullMatchNamesAll` | internal/feature/cardpublication/service/execution/product_classifier.go:70-71 | As many matches as members means that every member is named and no code stands for two. |
| `Submissions.ClassifyEnvelope` | internal/feature/cardpublication/service/execution/product_classifier.go:57-97 | An envelope is accepted, a proven rejection exactly when it names all members, otherwise uncertain. |
| `Submissions.ClassifyFailure` | internal/feature/cardpublication/service/execution/product_classifier.go:99-146 | A failed call is uncertain or, if not dispatched, a proven rejection with internal errors. |
| `Submissions.Validate` | internal/feature/cardpublication/service/execution/product_classifier.go:178-229 | Accepts exactly the valid submission results. |
| `Submissions.ClassifiedIsValidIff` | internal/feature/cardpublication/service/execution/product_classifier.go:178-229 | A classified reply is valid exactly when its HTTP status is a possible one. |
| `Submissions.ValidIff` | internal/feature/cardpublication/service/execution/product_classifier.go:178-229 | A submission is valid exactly when delivery, disposition and verdicts fit one another. |
| `Submissions.NamesMean` | internal/feature/cardpublication/service/execution/product_classifier.go:154-173 | The names of a document are its object keys and its texts, at any depth. |
| `Submissions.RejectionCauses` | internal/feature/cardpublication/service/execution/product_classifier.go:57-146 | A proven rejection covers each member once and has one of two causes, told apart by its class. |
| `HttpClient.Execute` | internal/core/transport/wb/client/execute.go:101-207 | Equals the recursive definition of the attempts. The reply is the word of the last exchange: for a JSON operation the decoded envelope with its error flag exactly after a success with a decoded body, otherwise the error the exchange stands for; not dispatched only if the last attempt wrote nothing, unknown delivery only after a write. |
| `HttpClient.CalledIsTruthful` | internal/core/transport/wb/client/execute.go:101-207 | Attempts go on exactly while each failed in a way worth retrying and neither time, back-off nor the limiter stops them; a call that is stopped so reports an interruption. |
| `HttpClient.EnvelopeIff` | internal/core/transport/wb/client/execute.go:189-205 | When a JSON call hands on an envelope, which one, and what empty and malformed bodies become. |
| `HttpClient.SubmitProduct` | internal/feature/cardpublication/service/execution/product_classifier.go:14-55 | A classified mutation makes at most one attempt, is accepted exactly when the decoded envelope carries no error, and is valid exactly when the HTTP status is a possible one; a proven rejection means that nothing was written or that the envelope names all members. |
| `HttpClient.ReportIsTrustedIff` | internal/core/transport/wb/client/execute.go:101-207 | For every operation: a report of not dispatched always means that no attempt wrote a request, exactly when the operation is not a read that may be retried. |
| `HttpClient.RetriedReadMisleads` | internal/core/transport/wb/client/execute.go:163-172 | For every retried read, surroundings in which the call reports not dispatched after an attempt that was written. |
| `Journal.CommitKeeps` | internal/feature/cardpublication/repository/postgres/product_attempt.go:14-407 | Each of the journal's sixteen transactions keeps the invariant: slots and holding members correspond, attempted actions repeat no vendor code, rows match the action's state, plans follow their lifecycle. |
| `Journal.NoSharedPendingVendor` | internal/feature/cardpublication/repository/postgres/product_attempt.go:32-60 | Two attempted product actions never wait for the same vendor code of a seller. |
| `Journal.HolderIsOpenOrUnsettled` | internal/feature/cardpublication/repository/postgres/product_reconciliation.go:374-416 | A slot's holder is dispatching or reconciling, or a product action with an unresolved member whose identity is blocked. |
| `Slots.BindReachesAllIff` | internal/feature/cardpublication/repository/postgres/product_attempt.go:32-60 | The bind statement changes as many rows as there are members exactly when the vendor codes are distinct and all identities are free. |
| `Slots.BeginKeepsSlots` | internal/feature/cardpublication/repository/postgres/product_attempt.go:32-60 | Binding keeps slots and holders in correspondence. |
| `Slots.SettleKeepsSlots` | internal/feature/cardpublication/repository/postgres/product_attempt.go:335-368 | Settling one member releases or blocks its identity and keeps the correspondence. |
| `Slots.BeginMediaKeepsSlots` | internal/feature/cardpublication/repository/postgres/media_attempt.go:37-67 | So does binding the card of a media action. |
| `Slots.FinishMediaKeepsSlots` | internal/feature/cardpublication/repository/postgres/media_result.go:184-213 | So does releasing it. |
| `Folds.RejectMembersKeeps` | internal/feature/cardpublication/repository/postgres/product_attempt.go:293-369 | The rejection loop gives each member its verdict, touches nothing else and keeps the correspondence. |
| `Folds.RecordAllKeeps` | internal/feature/cardpublication/repository/postgres/product_reconciliation.go:325-492 | The reconciliation loop gives each member its result, touches nothing else and keeps the correspondence. |
| `Preservation.InsertPlanKeeps` | internal/feature/cardpublication/repository/postgres/plan.go:17-98 | Inserting a plan and upserting identities keeps the whole invariant. |
| `Preservation.BeginAttemptKeeps` | internal/feature/cardpublication/repository/postgres/product_attempt.go:14-156 | Beginning a product attempt keeps the whole invariant. |
| `Preservation.AwaitEvidenceKeeps` | internal/feature/cardpublication/repository/postgres/product_attempt.go:242-291 | Recording an accepted or uncertain answer keeps the whole invariant. |
| `Preservation.RejectKeeps` | internal/feature/cardpublication/repository/postgres/product_attempt.go:293-407 | Recording a proven rejection keeps the whole invariant. |
| `Preservation.BeginRetryKeeps` | internal/feature/cardpublication/repository/postgres/product_retry.go:15-101 | Beginning the retry keeps the whole invariant. |
| `Preservation.RecordRetryKeeps` | internal/feature/cardpublication/repository/postgres/product_retry.go:104-197 | Recording the retry's answer keeps the whole invariant. |
| `Preservation.PollKeeps` | internal/feature/cardpublication/repository/postgres/product_reconciliation.go:180-246 | Recording a poll keeps the whole invariant. |
| `Preservation.ConcludeKeeps` | internal/feature/cardpublication/repository/postgres/product_reconciliation.go:249-322 | Finishing a reconciliation keeps the whole invariant. |
| `Preservation.SupersedeKeeps` | internal/feature/cardpublication/repository/postgres/product_plan_control.go:36-109 | Superseding a plan keeps the whole invariant. |
| `Preservation.AbortKeeps` | internal/feature/cardpublication/repository/postgres/product_plan_control.go:112-257 | Aborting a plan keeps the whole invariant. |
| `Preservation.BeginMediaKeeps` | internal/feature/cardpublication/repository/postgres/media_attempt.go:13-157 | Beginning a media attempt keeps the whole invariant. |
| `Preservation.SkipMediaKeeps` | internal/feature/cardpublication/repository/postgres/media_attempt.go:160-227 | Finishing media without an attempt keeps the whole invariant. |
| `Preservation.RecordMediaKeeps` | internal/feature/cardpublication/repository/postgres/media_result.go:13-24 | Recording a final media answer keeps the whole invariant. |
| `Preservation.ScheduleVisibilityKeeps` | internal/feature/cardpublication/repository/postgres/media_visibility.go:14-55 | Scheduling the visibility check keeps the whole invariant. |
| `Preservation.ConcludeMediaKeeps` | internal/feature/cardpublication/repository/postgres/media_result.go:115-218 | Concluding media from visibility keeps the whole invariant. |
| `Preservation.ResolveKeeps` | internal/feature/cardpublication/repository/postgres/manual_resolution.go:389-466 | A manual or verified resolution with its proof keeps the whole invariant. |
| `Invariant.ReduceRestores` | internal/feature/cardpublication/repository/postgres/product_plan_control.go:290-368 | Reducing an open plan after its actions moved restores the plan lifecycle. |
| `Progress.CommitAdvances` | internal/feature/cardpublication/repository/postgres/product_attempt.go:14-407 | Every transaction only moves rows forward. |
| `Releases.ReleasedOnProof` | internal/feature/cardpublication/repository/postgres/product_reconciliation.go:374-416 | A transaction takes an identity from a product action only if it brings a verdict, result or ruling on that member. |
| `Releases.OrphanStays` | internal/feature/cardpublication/repository/postgres/product_plan_control.go:177-203 | No transaction touches a locked identity without a holder. |
| `Soundness.CommitSound` | internal/feature/cardpublication/repository/postgres/product_reconciliation.go:249-322 | Every transaction the service issues keeps the stored class of each action equal to the fold of its members. |
| `Soundness.StoredClassIsResolved` | internal/feature/cardpublication/repository/postgres/manual_resolution.go:671-698 | Such a stored class is what the resolution reducer would compute. |
| `JournalStore.PublicationJournal.BeginProductAttempt` | internal/feature/cardpublication/repository/postgres/product_attempt.go:14-156 | Commits exactly when every identity can be bound and the plan is open, with the stated new rows; otherwise everything is rolled back. |
| `JournalStore.PublicationJournal.RecordSubmission` | internal/feature/cardpublication/repository/postgres/product_attempt.go:159-407 | Stores the answer as reconciling or as a whole settled action, or rolls back. |
| `JournalStore.PublicationJournal.SettleRejected` | internal/feature/cardpublication/repository/postgres/product_attempt.go:293-369 | The member loop equals its fold and fails exactly when the fold does. |
| `JournalStore.PublicationJournal.CloseAction` | internal/feature/cardpublication/repository/postgres/product_attempt.go:370-406 | Skips hopeless media, ends the action and reduces its plan. |
| `JournalStore.PublicationJournal.FinishPotentialMedia` | internal/feature/cardpublication/repository/postgres/product_reconciliation.go:495-591 | The two statements skip exactly the planned media that waits for a member without attribution. |
| `JournalStore.PublicationJournal.ReducePlan` | internal/feature/cardpublication/repository/postgres/product_plan_control.go:290-368 | Closes the plan exactly when it is executing and all its actions are finished. |
| `JournalStore.PublicationJournal.BeginProductRetry` | internal/feature/cardpublication/repository/postgres/product_retry.go:15-101 | Inserts the one retry exactly under the conditions of the insert statement. |
| `JournalStore.PublicationJournal.RecordProductRetry` | internal/feature/cardpublication/repository/postgres/product_retry.go:104-197 | Finishes the retry once; a proven rejection must name every member. |
| `JournalStore.PublicationJournal.RecordMembers` | internal/feature/cardpublication/repository/postgres/product_reconciliation.go:325-492 | The member loop equals its fold and fails exactly when the fold does. |
| `JournalStore.PublicationJournal.RecordReconciliationPoll` | internal/feature/cardpublication/repository/postgres/product_reconciliation.go:180-246 | Stores a poll or rolls it back. |
| `JournalStore.PublicationJournal.FinishReconciliation` | internal/feature/cardpublication/repository/postgres/product_reconciliation.go:249-322 | Concludes the action or rolls back. |
| `JournalStore.PublicationJournal.UpsertIdentities` | internal/feature/cardpublication/repository/postgres/plan.go:253-329 | Deduplicating and upserting in one statement equals upserting draft by draft, the last one winning. |
| `JournalStore.PublicationJournal.InsertPublicationPlan` | internal/feature/cardpublication/repository/postgres/plan.go:17-98 | Inserts plan, actions and identities exactly when the draft is valid and its ids are fresh. |
| `JournalStore.PublicationJournal.SupersedePlan` | internal/feature/cardpublication/repository/postgres/product_plan_control.go:36-109 | Supersedes exactly an awaiting plan all of whose actions are planned. |
| `JournalStore.PublicationJournal.AbortPlan` | internal/feature/cardpublication/repository/postgres/product_plan_control.go:112-257 | Blocks identities, finishes what is planned and reduces the plan. |
| `JournalStore.PublicationJournal.BeginMediaAttempt` | internal/feature/cardpublication/repository/postgres/media_attempt.go:13-157 | Begins media exactly on a free present card with the expected number. |
| `JournalStore.PublicationJournal.FinishMediaWithoutAttempt` | internal/feature/cardpublication/repository/postgres/media_attempt.go:160-227 | Skips a planned media action. |
| `JournalStore.PublicationJournal.FinishMediaAction` | internal/feature/cardpublication/repository/postgres/media_result.go:115-218 | Ends media and frees its card, or rolls back. |
| `JournalStore.PublicationJournal.ApplyResolution` | internal/feature/cardpublication/repository/postgres/manual_resolution.go:389-466 | Corrects the member and its identity and reduces action and plan, exactly for a resolvable member and a proved ruling. |
| `ManualResolution.DecideManualRemotePresent` | internal/feature/cardpublication/service/resolution/manual.go:440-494 | Finds the card that proves a present ruling exactly when one exists: observed after the attempt began, alone with the code, not in the trash, with all identifiers, and asked for by the request. |
| `ManualResolution.ProvedMeans` | internal/feature/cardpublication/service/resolution/manual.go:440-494 | What proves a present ruling: one card with the code, none in the trash, seen after the attempt began, complete and asked for. |
| `ManualResolution.CreateAskedIff` | internal/feature/cardpublication/service/resolution/manual.go:469-474 | A create request asked for the card exactly when one group alone names its code, once, and has its subject. |
| `ManualResolution.AddAskedIff` | internal/feature/cardpublication/service/resolution/manual.go:475-481 | An add request asked for it exactly when it names the code once and adds to the card's group. |
| `ManualResolution.UploadVendorMatchesSubject` | internal/feature/cardpublication/service/resolution/manual.go:506-524 | Exactly one group names the code, once, and has the subject. |
| `ManualResolution.CountUploadVendor` | internal/feature/cardpublication/service/resolution/manual.go:496-504 | Counts the variants with the code. |
| `JournalStatements.CoversMembers` | internal/feature/cardpublication/repository/postgres/product_retry.go:122-139 | Striking named members off the list succeeds exactly when the verdicts name every member. |
| `JournalStatements.TallyMembers` | internal/feature/cardpublication/repository/postgres/manual_resolution.go:671-681 | The counters are those of the members' classes. |
| `JournalStatements.SkipInTwo` | internal/feature/cardpublication/repository/postgres/product_reconciliation.go:505-591 | On a planned media action the member statement and the action statement together skip it or leave it alone. |
| `JournalStatements.UpsertTakesLast` | internal/feature/cardpublication/repository/postgres/plan.go:277-313 | The sequential upsert leaves the last draft of each key on unlocked rows. |
| `JournalStatements.AllPlannedIff` | internal/feature/cardpublication/repository/postgres/product_plan_control.go:45-88 | The row counts agree exactly when all actions of the plan are planned. |
| `MediaInFlight.InFlight.Reserve` | internal/feature/cardpublication/service/execution/media_dispatcher.go:449-467 | Reserves exactly when a place is free and the action has none; never exceeds the concurrency. |
| `MediaInFlight.InFlight.Release` | internal/feature/cardpublication/service/execution/media_dispatcher.go:469-474 | Gives the place back. |
| `MediaDispatch.EveryRunIsSafe` | internal/feature/cardpublication/service/execution/media_dispatcher.go:369-482 | Under every interleaving: workers stay within the concurrency, one attempt and one call per action, and no action is recorded as interrupted while its worker may still call. |
| `MediaDispatch.StepKeeps` | internal/feature/cardpublication/service/execution/media_dispatcher.go:510-759 | Each step of poller, workers and surroundings keeps that invariant. |
| `MediaDispatch.WorkersStay` | internal/feature/cardpublication/service/execution/media_dispatcher.go:369-474 | Only its own steps and a crash disturb a worker; one starts exactly for an action without a worker, when there is room. |
| `MediaDispatch.CallsAreOwn` | internal/feature/cardpublication/service/execution/media_dispatcher.go:510-660 | A call is made once, by the worker that began the attempt, and is followed by storing its answer. |
| `MediaDispatch.SweepsRight` | internal/feature/cardpublication/service/execution/media_dispatcher.go:375-395 | A listed action with a worker is skipped, any other is recorded as interrupted if its row was begun. |
| `MediaDispatch.RowsMove` | internal/feature/cardpublication/service/execution/media_dispatcher.go:510-759 | Each row moves forward by its own step only; an interruption is recorded only for an action without a worker. |
| `MediaJournal.MediaCallsOfEveryRun` | internal/feature/cardpublication/service/execution/media_dispatcher.go:369-759 | On the journal's rows, beside all other transactions: one call per media action and only with its one attempt row in place, a call under way means a dispatching unanswered row, nobody calls for an action recorded as interrupted. |
| `MediaJournal.MediaOutcomesOfEveryRun` | internal/feature/cardpublication/repository/postgres/media_visibility.go:14-163 | In every run a media action waits for visibility exactly while its job is open, and then the journal keeps the outcome of the job: success only on seen media, a timeout only at or after the deadline. |
| `MediaJournal.MoveKeeps` | internal/feature/cardpublication/service/execution/media_dispatcher.go:700-759 | Every move of dispatcher, visibility checks and other transactions keeps rows, dispatcher and jobs in step. |
| `MediaJournal.BystanderLeavesMedia` | internal/feature/cardpublication/repository/postgres/product_reconciliation.go:495-591 | Any other transaction leaves a media row alone or ends it before it was begun. |
| `MediaVisibility.EveryInterleaving` | internal/feature/cardpublication/repository/postgres/media_visibility.go:57-163 | For any order of claims, expired leases and late updates: the revision counts the successes, an update succeeds only directly after its own claim, the job ends at most once, by seen media or at the deadline. |
| `MediaVisibility.DeadlineIsReached` | internal/feature/cardpublication/repository/postgres/media_visibility.go:57-163 | Of the job row alone: an open job whose lease ran out can be claimed at its deadline, and the row accepts the check of that claim as its last. Whether the check commits is the next row. |
| `MediaDeadline.DeadlineEndsIff` | internal/feature/cardpublication/service/execution/media_visibility.go:57-112 | On journal and jobs together: from the deadline on, the check of a new claim ends job and action exactly when the card is still present with the action's number. |
| `MediaDeadline.LateCheckEndsIff` | internal/feature/cardpublication/repository/postgres/media_visibility.go:119-163 | The same for the check of any current claim that the deadline overtook. |
| `MediaDeadline.FinishEnds` | internal/feature/cardpublication/repository/postgres/media_result.go:115-218 | What such a check leaves: a finished job and a terminal action with the outcome of the check. |
| `MediaDeadline.ConcludesIff` | internal/feature/cardpublication/repository/postgres/media_result.go:184-213 | For a watched action the ending statements reach their rows exactly when the card is present with the number. |
| `MediaDeadline.RecordsIff` | internal/feature/cardpublication/repository/postgres/media_result.go:184-213 | The same for a dispatching action that is not watched. |
| `MediaDeadline.AnswerStoredIff` | internal/feature/cardpublication/service/execution/media_dispatcher.go:722-758 | The answer of a call, or its loss, can be stored exactly while the card is present with the action's number. |
| `MediaDeadline.PlanMayOverwrite` | internal/feature/cardpublication/repository/postgres/plan.go:277-313 | Whatever media is under way, a plan can be inserted that overwrites the row of its card; the job stays open. |
| `MediaDeadline.OverwrittenStays` | internal/feature/cardpublication/repository/postgres/media_lock.go:138-148 | Then no move changes the action or its card, except a plan that names the card again. |
| `MediaDeadline.StuckUntilReplanned` | internal/feature/cardpublication/repository/postgres/media_lock.go:138-148 | In every run such an action stays as it is, past every deadline, as long as no plan names its card again. |
| `MediaDeadline.StuckJobStaysOpen` | internal/feature/cardpublication/repository/postgres/media_visibility.go:119-163 | And its job stays open for all that time. |
| `MediaDeadline.SomeRunGetsStuck` | internal/feature/cardpublication/repository/postgres/plan.go:277-313 | A run of eight moves that does it: plan, dispatch, accepted answer, second plan. |
| `MediaVisibility.CheckIsAccepted` | internal/feature/cardpublication/service/execution/media_visibility.go:57-112 | A check's update passes validation, reports success only on seen media, and is final once the deadline passed. |
| `MediaVisibility.CheckDecides` | internal/feature/cardpublication/service/execution/media_visibility.go:57-112 | Media seen before the deadline is a success, the deadline without it a timeout, anything else goes on; the next check comes after the interval, at least a minute. |
| `MediaVisibility.LeasesAreKept` | internal/feature/cardpublication/repository/postgres/media_visibility.go:63-79 | Under every order of events nobody claims a job before its first check, during a lease, or before the delay of the last check or the deadline is over. |
| `MediaVisibility.VisibilityRow.ClaimVisibility` | internal/feature/cardpublication/repository/postgres/media_visibility.go:63-79 | Claims exactly a due job and hands out its new revision. |
| `MediaVisibility.VisibilityRow.UpdateVisibility` | internal/feature/cardpublication/repository/postgres/media_visibility.go:119-163 | Updates exactly the claimed revision of an open job with a valid outcome. |
| `Aggregation.AggregateParsedFile` | internal/feature/cardimport/service/aggregation/aggregate.go:17-64 | The loop yields the cards and issues of the row-by-row definition. |
| `Aggregation.AppendSizes` | internal/feature/cardimport/service/aggregation/aggregate.go:97-129 | Merging sizes in place equals adding them one by one. |
| `Aggregation.DuplicateBarcodes` | internal/feature/cardimport/service/aggregation/aggregate.go:131-172 | Reports one issue for each barcode met before. |
| `Aggregation.EveryRowAccounted` | internal/feature/cardimport/service/aggregation/aggregate.go:28-61 | Each card lists exactly the rows that went to it, in order. |
| `Aggregation.ConflictsAreUnowned` | internal/feature/cardimport/service/aggregation/aggregate.go:42-57 | The reported field conflicts are exactly the rows no card took, in order: rows are conserved. |
| `Aggregation.OwnersMatch` | internal/feature/cardimport/service/aggregation/aggregate.go:34-42 | A row goes to the card with its vendor code. |
| `Aggregation.VendorsStayDistinct` | internal/feature/cardimport/service/aggregation/aggregate.go:34-40 | No two cards of a file have the same vendor code. |
| `Aggregation.CardsUniteTheirRows` | internal/feature/cardimport/service/aggregation/aggregate.go:59-61 | A card's (technical size, marketplace size, SKU) triples are exactly those of its rows, and its size pairs do not repeat. |
| `Aggregation.MergingTwiceIsMergingOnce` | internal/feature/cardimport/service/aggregation/aggregate.go:97-129 | Merging the same sizes again changes nothing. |
| `Aggregation.RowMergesIff` | internal/feature/cardimport/service/aggregation/aggregate.go:28-61 | In every file, a row is taken exactly when it is the first of its vendor code or has the columns that were copied from that first row (a copied empty list being nil). |
| `Aggregation.EqualRowsMergeIff` | internal/feature/cardimport/service/aggregation/aggregate.go:174-212 | Of two equal rows anywhere in a file the second merges exactly when the first was taken and no compared list is empty without being nil. |
| `Aggregation.RowMayConflictWithItself` | internal/feature/cardimport/service/aggregation/aggregate.go:66-95 | The failing inputs: a repeated row with an empty list conflicts with the card made of it. |
| `Aggregation.CardKeepsFirstRow` | internal/feature/cardimport/service/aggregation/aggregate.go:66-95 | A card keeps the compared columns of the first row with its vendor code, as copied. |
| `Aggregation.DuplicatesReportedIff` | internal/feature/cardimport/service/aggregation/aggregate.go:131-172 | A duplicate is reported exactly when a barcode occurs twice among the rows. |
| `Aggregation.UnreportedMeansUnique` | internal/feature/cardimport/service/aggregation/aggregate.go:28-61 | Without a report no barcode occurs twice in the cards. |
| `ImportSession.ReadyMeansFreezable` | internal/feature/cardimport/repository/postgres/batch_finalize.go:288-433 | Whatever rows the parser gave, with trimmed barcodes, and after any sequence of claims, parses, continues and cancels: a session that passes readiness shares no vendor code or barcode, so freezing meets no duplicate. |
| `ImportSession.ContinueCleans` | internal/feature/cardimport/repository/postgres/continue.go:64-144 | Continue leaves no error, distinct vendor codes and barcodes, a subset of the items, and each valid or invalid file valid exactly when it still has an item. |
| `ContinueRules.ContinueKeepsIff` | internal/feature/cardimport/repository/postgres/continue.go:64-112 | Continue keeps exactly the items that no error of their file names, that are first of their vendor code among those, and first of each of their barcodes, none repeated, among those left. |
| `ContinueRules.ContinueKeepsIssues` | internal/feature/cardimport/repository/postgres/continue.go:113-144 | And exactly the warnings of the session and of files that still have an item. |
| `ContinueRules.SaveReplaces` | internal/feature/cardimport/repository/postgres/parse.go:98-134 | Saving replaces items and issues of one file, judges it by its own errors and touches no other file. |
| `ContinueRules.SaveRebuilds` | internal/feature/cardimport/repository/postgres/parse.go:98-134 | And rebuilds the issues between files. |
| `ContinueRules.CrossFileIff` | internal/feature/cardimport/repository/postgres/parse.go:336-395 | A conflict is recorded for exactly the vendor codes and barcodes that two files share. |
| `ContinueRules.RevisionGuards` | internal/feature/cardimport/repository/postgres/continue.go:14-63 | Which continue and finalize commands are accepted; none is accepted twice with one revision. |
| `ContinueRules.ClaimableIff` | internal/feature/cardimport/repository/postgres/parse.go:15-72 | Which files can be claimed. |
| `ContinueRules.CancelAbandons` | internal/feature/cardimport/repository/postgres/session.go:127-185 | Cancelling abandons every file of a session that is not finalized; doing it again changes nothing. |
| `ContinueRules.FreezableIff` | internal/feature/cardimport/repository/postgres/batch_finalize.go:372-433 | Freezing succeeds exactly when no barcode that is not blank occurs twice. |
| `ContinueRules.FrozenIsSound` | internal/feature/cardimport/repository/postgres/batch_finalize.go:38-234 | In every run a frozen session has items, no errors and only valid or abandoned files, and never changes again. |
| `ImportSession.SaveKeeps` | internal/feature/cardimport/repository/postgres/parse.go:98-134 | Saving a parse result keeps the session invariant. |
| `ImportSession.StepKeeps` | internal/feature/cardimport/repository/postgres/parse.go:15-72 | Every step of a session keeps it. |
| `ImportSession.AggregatedIsParsed` | internal/feature/cardimport/repository/postgres/parse.go:223-334 | What aggregation makes of clean rows has distinct vendor codes, and reports an error unless no barcode is shared. |
| `ImportSession.NoErrorsMeansUnique` | internal/feature/cardimport/repository/postgres/batch_finalize.go:321-345 | No error issue means no shared vendor code and no shared barcode. |
| `ImportSession.LoadFrozenItems` | internal/feature/cardimport/repository/postgres/batch_finalize.go:372-433 | Succeeds exactly when no barcode that is not blank occurs twice. |
| `ImportSession.UniqueItemsFreeze` | internal/feature/cardimport/repository/postgres/batch_finalize.go:419-433 | Items that share no barcode freeze in any order. |
| `ImportRepository.ImportStore.ClaimFileForParsing` | internal/feature/cardimport/repository/postgres/parse.go:22-51 | Claims exactly an available file of a collecting session. |
| `ImportRepository.ImportStore.SaveParsedFile` | internal/feature/cardimport/repository/postgres/parse.go:74-144 | Replaces the file's result, whatever it is, and rebuilds the cross-file issues; a result with its in-file conflicts reported keeps the session invariant. |
| `ImportRepository.ImportStore.ContinueAfterErrors` | internal/feature/cardimport/repository/postgres/continue.go:14-172 | Runs the clean-up statements in order, exactly on the expected revision of a session with errors. |
| `ImportRepository.ImportStore.FinalizeSession` | internal/feature/cardimport/repository/postgres/batch_finalize.go:38-234 | Finalizes exactly a ready session at the expected revision; the freeze cannot fail. |
| `CatalogCache.EveryInterleaving` | internal/feature/cardprepare/service/preparation/catalog_cache.go:87-170 | Under every interleaving: bytes are the sum of the stored sizes and within budget, no key is both stored and read, one reader per key, entries are stores less evictions, and each hit is an unexpired error-free read of its key. |
| `CatalogStore.BatchCatalog.Lookup` | internal/feature/cardprepare/service/preparation/catalog_cache.go:103-146 | The first critical section: hit, wait or become the reader. |
| `CatalogStore.BatchCatalog.DropUndecodable` | internal/feature/cardprepare/service/preparation/catalog_cache.go:116-122 | Evicts the current entry of the key. |
| `CatalogStore.BatchCatalog.Land` | internal/feature/cardprepare/service/preparation/catalog_cache.go:153-167 | Stores within budget or skips, and ends the flight. |
| `CatalogCache.LookedValid` | internal/feature/cardprepare/service/preparation/catalog_cache.go:103-146 | A lookup keeps the accounting. |
| `CatalogCache.LandedValid` | internal/feature/cardprepare/service/preparation/catalog_cache.go:153-167 | Storing a read keeps the accounting. |
| `CacheRules.LookFinds` | internal/feature/cardprepare/service/preparation/catalog_cache.go:103-146 | A look finds exactly an entry that has not expired; any other is a miss counted once, evicts, and waits for the reader or becomes it. |
| `CacheRules.LandingStores` | internal/feature/cardprepare/service/preparation/catalog_cache.go:153-167 | A payload is stored exactly when it is not empty and fits the budget of 128 MiB; nothing else changes. |
| `CacheRules.EveryFlightHasReader` | internal/feature/cardprepare/service/preparation/catalog_cache.go:130-167 | In every run exactly one caller reads each key in flight. |
| `CacheRules.DecodeServes` | internal/feature/cardprepare/service/preparation/catalog_cache.go:105-123 | A found payload that decodes is served; one that does not is evicted and the caller looks again. |
| `RecentCards.HoldsTheNewest` | internal/feature/cardpublication/service/catalog/recent_cards_cache.go:145-172 | The vendor index holds exactly the newest store of a code whose number was not filed under another code since. |
| `RecentCards.AlwaysInverse` | internal/feature/cardpublication/service/catalog/recent_cards_cache.go:145-172 | After any history the two indexes are mutually inverse. |
| `RecentCards.LookupGivesNewest` | internal/feature/cardpublication/service/catalog/recent_cards_cache.go:84-104 | A lookup gives that newest card unless it is older than the TTL. |
| `RecentCards.AgreesWhenCodesAreUnique` | internal/feature/cardpublication/service/catalog/recent_cards_cache.go:145-172 | When a number never changes its code, every code is found at its newest card. |
| `RecentCards.RecentCardsCache.StoreIfRecent` | internal/feature/cardpublication/service/catalog/recent_cards_cache.go:136-172 | Refuses incomplete cards, otherwise enters the card in both indexes. |
| `RecentCards.RecentCardsCache.LookupVendorCode` | internal/feature/cardpublication/service/catalog/recent_cards_cache.go:84-104 | Returns the fresh entry and counts the hit or miss. |
| `Preparation.Prepare` | internal/feature/cardprepare/service/preparation/planner.go:19-111 | Builds an upload exactly when the source cards and the snapshot meet the stated conditions, and a proposal of it exactly when it can be encoded within the size limit; the proposal follows item positions, carries the characteristics each item supplies, stays within the limits, is a valid upload of the resolved subject and passes the integrity check unless its encoding or a digest is empty. |
| `Preparation.PrepareFor` | internal/feature/cardprepare/service/preparation/planner.go:42-65 | Builds the upload exactly when the conditions hold, once the subject is known; its characteristics are those the items supply. |
| `Preparation.Propose` | internal/feature/cardprepare/service/preparation/planner.go:67-111 | Seals the upload with its bytes and digests; the result passes the integrity check exactly when bytes and digests are not empty. |
| `Preparation.ValidateIntegrity` | internal/feature/cardprepare/service/model/proposal_integrity.go:9-43 | Accepts exactly the proposals that agree with their own bytes, digests, limits and observation time. |
| `Preparation.BuildSchema` | internal/feature/cardprepare/service/preparation/planner.go:166-213 | Succeeds exactly when ids and names of the subject's characteristics match one to one; the schema is indexed and ordered by id. |
| `Preparation.BuildVariant` | internal/feature/cardprepare/service/preparation/planner.go:215-352 | Succeeds exactly when brand, flags, values and required characteristics allow it; columns, sizes and characteristics of the variant are the item's own. |
| `Preparation.BuildCharacteristics` | internal/feature/cardprepare/service/preparation/planner.go:283-321 | Ids strictly increase, each belongs to the schema with the value supplied for it, and nothing supplied or required is missing; succeeds exactly when every entry is served. |
| `Preparation.SuppliedIff` | internal/feature/cardprepare/service/preparation/planner.go:283-321 | The ids of a variant are exactly those a value was supplied for and whose entry is not deprecated. |
| `Preparation.CollectValues` | internal/feature/cardprepare/service/preparation/planner.go:244-281 | Files values by characteristic, refusing blanks and duplicates. |
| `Preparation.CharacteristicValue` | internal/feature/cardprepare/service/preparation/planner.go:396-479 | Succeeds exactly on acceptable values; the result is the supplied number, or the supplied texts trimmed, in order, each spelled as the directory spells it, distinct and within the count. |
| `Preparation.TextCharacteristic` | internal/feature/cardprepare/service/preparation/planner.go:410-459 | The text case of the same. |
| `Preparation.ExactDirectoryValue` | internal/feature/cardprepare/service/preparation/planner.go:598-617 | Finds the one spelling of a value, or tells that there is none or more than one. |
| `Preparation.Canonicalize` | internal/feature/cardprepare/service/preparation/planner.go:425-457 | Respells all values or refuses. |
| `Preparation.NormalizeValues` | internal/feature/cardprepare/service/preparation/planner.go:536-552 | Returns the trimmed values exactly when none is blank and no two share a key. |
| `Preparation.CharacteristicValues` | internal/feature/cardprepare/service/preparation/planner.go:515-534 | The same for a text, a list or a mixed list. |
| `Preparation.ResolveNamed` | internal/feature/cardprepare/service/preparation/planner.go:129-157 | Returns the one usable entry with the key, exactly when there is one. |
| `Preparation.ResolveSubject` | internal/feature/cardprepare/service/preparation/planner.go:113-158 | Resolves the subject exactly when all items share a category that names one subject. |
| `Preparation.NormalizeGroup` | internal/feature/cardprepare/service/preparation/planner.go:668-696 | Orders the items by position, exactly when positions are positive and distinct. |
| `Preparation.ValidateUpload` | internal/feature/cardprepare/service/preparation/upload_validation.go:40-119 | Accepts exactly the valid upload requests. |
| `Preparation.ValidateVariant` | internal/feature/cardprepare/service/preparation/upload_validation.go:57-118 | Accepts exactly the valid variants. |
| `Preparation.VariantFitsIff` | internal/feature/cardprepare/service/preparation/upload_validation.go:57-118 | Building never adds a reason to refuse the upload: a variant is valid exactly when its item's columns are. |
| `Preparation.CanonicalIsProper` | internal/feature/cardprepare/service/preparation/planner.go:425-457 | Respelling by a directory keeps values distinct. |
| `KeyRules.KeyMeans` | internal/feature/cardprepare/service/preparation/planner.go:821-827 | The key of a text is made of its words in lower case with one space between them. |
| `KeyRules.SameWordsSameKey` | internal/feature/cardprepare/service/preparation/planner.go:821-827 | Texts that differ in case or spacing only have one key. |
| `KeyRules.KeyIsEmptyIff` | internal/feature/cardprepare/service/preparation/planner.go:821-827 | A key is empty exactly for a blank text. |
| `KeyRules.LowerMeans` | internal/feature/cardprepare/service/preparation/planner.go:821-827 | What lower case does to a letter. |
| `PreparationRules.FiledMeans` | internal/feature/cardprepare/service/preparation/planner.go:244-268 | Values are filed exactly when none is blank and no two are meant for one entry; each entry then holds the value meant for it. |
| `PreparationRules.VatIsFiled` | internal/feature/cardprepare/service/preparation/planner.go:269-281 | The VAT rate is filed under its own entry and must not have been given before. |
| `PreparationRules.ResolveMeans` | internal/feature/cardprepare/service/preparation/planner.go:854-886 | The entry meant by an id, a name or its aliases, in that order. |
| `PreparationRules.SplitMeans` | internal/feature/cardprepare/service/preparation/planner.go:515-534 | Splitting a text cuts it at every semicolon and loses nothing else. |
| `PreparationRules.ConsistentIff` | internal/feature/cardprepare/service/preparation/planner.go:166-213 | When the entries of a subject are consistent. |
| `PreparationRules.UploadOkMeans` | internal/feature/cardprepare/service/preparation/upload_validation.go:40-119 | What an upload has to be, column by column. |
| `PreparationRules.RoomMeans` | internal/feature/cardprepare/service/preparation/planner.go:29-45 | A prepared group fits the limits, which are known and do not overflow, and shares a category; no item is for adults only. |
| `Limiter.EveryInterleaving` | internal/core/transport/wb/flowcontrol/limiter.go:75-158 | Under every interleaving: after a 429 nobody passes before its block has run out, the queue stays within its maximum, one caller at most holds the admission. |
| `LimiterRate.RateIsBounded` | internal/core/transport/wb/flowcontrol/limiter.go:75-229 | In any stretch of any run fewer than burst + 2 + elapsed/interval callers pass. |
| `Limiter.ClampLeaves` | internal/core/transport/wb/flowcontrol/limiter.go:352-387 | Clamping only removes tokens and, when it acts, leaves more than remaining - 1 and at most remaining. |
| `LimiterRules.PassesIff` | internal/core/transport/wb/flowcontrol/limiter.go:141-158 | Without a block a caller passes at once exactly when a token is there, and takes it. |
| `LimiterRules.BlockHolds` | internal/core/transport/wb/flowcontrol/limiter.go:289-306 | While a block is in force nobody passes or reserves. |
| `LimiterRules.BlockEnds` | internal/core/transport/wb/flowcontrol/limiter.go:289-306 | The first call after it clears it and goes on with at most one token. |
| `LimiterRules.ReservesUntil` | internal/core/transport/wb/flowcontrol/limiter.go:195-229 | A reservation takes one token and is slept for exactly until the token is there. |
| `LimiterRules.BlockStarts` | internal/core/transport/wb/flowcontrol/limiter.go:308-350 | A 429 blocks for the announced time or one interval, never shortens a block and empties the bucket. |
| `LimiterRules.JoinsIff` | internal/core/transport/wb/flowcontrol/limiter.go:160-173 | A caller that cannot pass joins the queue exactly when there is room. |
| `LimiterRules.EveryAdmissionHeld` | internal/core/transport/wb/flowcontrol/limiter.go:179-193 | In every run the admission is free or held: whoever leaves gives it back. |
| `LimiterStore.RateLimiter.BlockDelayLocked` | internal/core/transport/wb/flowcontrol/limiter.go:289-306 | Reports the rest of the block, or clears it and clamps. |
| `LimiterStore.RateLimiter.ClampRemaining` | internal/core/transport/wb/flowcontrol/limiter.go:352-387 | Performs the clamp. |
| `LimiterStore.RateLimiter.TryAllowNow` | internal/core/transport/wb/flowcontrol/limiter.go:141-158 | Lets a caller pass exactly when no block is in force and a token is there. |
| `LimiterStore.RateLimiter.Observe` | internal/core/transport/wb/flowcontrol/limiter.go:308-350 | A 429 extends the block and empties the bucket; announced limits clamp it. |
| `CanonicalStream.GroupStreamsDiffer` | internal/core/domain/cardpipeline/batch.go:149-164 | Equal source-group streams force the same file and the same group or single card. |
| `CanonicalStream.BatchStreamsDiffer` | internal/core/domain/cardpipeline/batch.go:166-208 | Equal checksum streams force the same purpose, group count and items in order. |
| `CanonicalRules.SameGroupIff` | internal/core/domain/cardpipeline/batch.go:149-164 | Equal source-group streams come exactly from the same file and group, or the same file and ungrouped card. |
| `CanonicalRules.SameStreamSameBatch` | internal/core/domain/cardpipeline/batch.go:166-208 | Two accepted batches with equal checksum streams are the same batch, payload groups and all. |
| `CanonicalRules.AcceptedIff` | internal/core/domain/cardpipeline/batch.go:116-147 | Which items a batch accepts. |
| `TextRules.BlankVendorIff` | internal/core/domain/cardpipeline/batch.go:126 | A vendor code is blank in UTF-8 exactly when trimming its text leaves nothing. |
| `CanonicalStream.ChunksFirst` | internal/core/canonicalhash/builder.go:19-42 | Chunks of known kinds at the front of a stream determine themselves and the rest. |
| `CanonicalStream.NumberRoundTrip` | internal/core/canonicalhash/builder.go:23-34 | Decoding the big-endian bytes gives the number back. |
| `CanonicalBuilder.Builder.Bytes` | internal/core/canonicalhash/builder.go:23-28 | Appends the length and the bytes. |
| `CanonicalBuilder.Builder.WriteInt64` | internal/core/canonicalhash/builder.go:30-34 | Appends the number in two's complement. |
| `CanonicalBuilder.NewSourceGroupKey` | internal/core/domain/cardpipeline/batch.go:149-164 | Writes the stream of a source group. |
| `CanonicalBuilder.ValidateItem` | internal/core/domain/cardpipeline/batch.go:116-147 | Accepts exactly the items that fit a batch. |
| `CanonicalBuilder.BatchChecksum` | internal/core/domain/cardpipeline/batch.go:166-208 | Writes the batch stream exactly when every item is valid at its position. |

## Left out

- The transfer repository, live authorization and credentials: steps that may fail; not part of this model.
- The Error List walker, catalogue pagination, the publication planner and the targeted recheck: the model takes plans,
  observations and batches as they come. A dispatch may begin or stop a plan whenever the journal allows it.
- The count of locked identity rows (product_lock.go:298-332) and the revision of a locked media identity: further reasons
  for a transaction to fail.
- Idempotent replay of manual resolutions and of finalize commands; closing an action that was closed before is not
  refused, since the mark of it is not kept.
- Two processes working on one action at the same time: sending and recording are covered, a poll read before another
  process begins the retry is not.
- Aggregated media group results, statistics, logging, Telegram flows, XLSX reading, configuration.
- `LookupMedia` of the recent-cards cache: the same freshness rule on the other index.
- Digests: a source-group key is kept as the stream it digests; a proposal's digests come from functions that are inputs.
- Sorting of a catalogue snapshot before preparation: the snapshot is taken as sorted.
- Text in lower case: `Preparation.Lower` maps Latin and Cyrillic letters only; parsing of numbers is an input. Fixed
  names of directories, aliases and the VAT characteristic are inputs (`Vocabulary`, `Directories`).
- Refusals of preparation: only their code is modelled, not position, field and diagnostic details.
- Lengths of safe codes and names, the 100-group bound of an upload (there is one group).
- JournalStore.PublicationJournal.ApplyResolution: checks the locked rows before its statements, so their row counts never
  fail; the statements' own guards repeat that check.
- A catalogue query that cannot be encoded bypasses the cache; a caller of the rate limiter that fails the fast path joins the
  queue in the same step.
- Liveness: no claim that a step happens. A product poll past its deadline ends the action or starts the one retry; a
  media check past its deadline ends the action under the condition of `MediaDeadline.DeadlineEndsIff`.
- The joins by which a media lock finds the product of its card (media_lock.go:90-137): the lock takes the number of the
  product that the media was attributed to, or of the card; its other conditions are further reasons to fail.
- Cancelling a reservation of the rate limiter gives back one whole token; the library restores less when later reservations
  exist.
