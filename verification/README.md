# Working Memory control plane: verified model

Working Memory is a single-writer control plane: a store of versioned documents, brokers that hand approved work to
host runners, a bounded queue of tool calls, and the indexes, feeds and connections built on them. This project models
the parts whose correctness rests on long runs rather than on single calls, and proves what those runs keep.

Every part has the same shape. A module of specification functions says what one step makes of the state. A class
holds that state in mutable fields, as the program does, and each of its methods is proved to move the fields exactly
as the specification says. Lemmas then state what every run of steps keeps, or relate two runs. The `_outcomes` files
fix what a step does without naming the specification's own branches: exactly when each operation succeeds, everything
it writes when it does, and that nothing else changes.

| part | files | program source |
|---|---|---|
| host-task broker | `host_tasks`, `host_task_proofs`, `host_task_routes`, `host_task_history`, `host_task_outcomes`, `host_task_broker` | `control-plane/src/hostTasks.ts` |
| script broker | `host_scripts`, `host_script_proofs`, `host_script_routes`, `host_script_grants`, `host_script_outcomes`, `host_script_broker` | `control-plane/src/hostScripts.ts` |
| tool queue | `tool_queue`, `tool_queue_proofs`, `tool_queue_window`, `tool_queue_outcomes`, `tool_queue_timings`, `tool_queue_class` | `control-plane/src/toolQueue.ts` |
| document store and reminders | `document_store`, `document_store_proofs`, `document_store_outcomes`, `document_store_class` | `control-plane/src/store.ts`, `control-plane/src/agentMessageReminders.ts` |
| change feed and its client | `change_feed`, `change_feed_proofs`, `change_feed_polls` | `control-plane/src/documentChangeFeed.ts`, `shared/controlPlaneClient.ts` |
| Thrive snapshots | `thrive_snapshot`, `thrive_snapshot_proofs`, `thrive_snapshot_outcomes` | `shared/thriveSnapshot.ts` |
| application connections | `app_connections`, `app_connection_proofs`, `app_connection_outcomes`, `app_connection_failures` | `desktop-ui/src/main/appMcpService.ts` |
| access requests | `instance_access`, `instance_access_proofs`, `instance_access_limits`, `instance_access_revocation`, `instance_access_outcomes`, `instance_access_class` | `control-plane/src/instanceAccess.ts`, `control-plane/src/instanceOAuth.ts` |
| embedding index | `topic_embeddings`, `topic_embedding_proofs`, `topic_embedding_outcomes`, `related_topics` | `control-plane/src/topicEmbeddings.ts` |
| document search | `document_search`, `document_search_proofs`, `document_search_outcomes` | `control-plane/src/documentSearch.ts` |
| topic tree | `topic_tree`, `topic_tree_proofs`, `topic_tree_outcomes` | `shared/panelData.ts` |

`sorting.dfy`, `permutations.dfy` and `wrappers.dfy` hold what several parts share.

Conventions. A table is a sequence of rows and a row's id is its position, so ids are fresh by construction. A digest
is the value it digests, a random token a number. One reading of the clock serves a whole step, and readings never go
back within a run. A transaction is one step: a refused route leaves the tables as they were.

## Where the code does less than one might expect

Each of these is stated as a lemma with a concrete input or an exact condition.

- The embedding hash joins title and body with a newline, so moving lines from the body into the title can keep old
  passages that are no longer the document's (`NewlineTitleKeepsOldPassages`). An edited document keeps its passages
  exactly when its hash did not change (`EditKeepsRowIffSameHash`). Next to one-line titles the hash fixes a title's
  passages exactly when it is one line too (`HashFixesPassagesIffOneLine`); a Topic can come from a one-line title to
  another with old passages exactly when the new title holds a newline and does not begin with one
  (`OldPassagesIffNewlineInside`).
- A document outside the embedder's limits that needs vectors is handed out as work again and again, and whatever is
  pending after it waits for good (`UnanswerableBlocks`, `BehindStuckWaits`). Rounds of asking and answering leave
  nothing pending exactly when there is no such document (`RoundsFinishIffNoneStuck`). A title of 1 to 40000
  characters keeps a document within the limits whatever its text (`AnswerableIffTextOrTitleFits`,
  `WorkIsAcceptedIffAnswerable`); a topic type whose label is 40001 blanks is outside (`BlankTopicTypeBlocks`).
- The heading of a card's topic group counts topics that the tree does not show: those on a parent cycle or more than
  19 steps below a root (`TwoTopicCycleIsHidden`, `CountIsRowsIffAllNearRoot`).
- An incremental Thrive sync is exact only if the changed ids cover every real change (`ExactIffCovered`).
- The fixed request window of the access service admits up to nineteen requests within a millisecond, not ten a minute
  (`NineteenWithinAMoment`); any twenty span a minute (`TwentySpanAMinute`).
- A client that revokes its own OAuth token leaves its approved renewal open although it can no longer be claimed
  (`RevokedTokenStrandsApprovedRenewal`); an approved unexpired request is claimable exactly while its client is not
  revoked (`ApprovedClaimableIffNotRevoked`), which holds in every run without that call
  (`ClaimableWithoutTokenRevocation`).

## Model

| member | source | states |
|---|---|---|
| HostTaskProofs.SweepOk | control-plane/src/hostTasks.ts:278-332 | a sweep in any scan order keeps the job invariant and leaves every row settled, each as if it were swept alone |
| HostTaskProofs.SweepOrderIrrelevant | control-plane/src/hostTasks.ts:278-332 | the order in which SQLite yields the rows does not change the result of a sweep |
| HostTaskProofs.SweepIdempotent | control-plane/src/hostTasks.ts:627-632 | the second sweep of a route at the same clock reading changes nothing |
| HostTaskProofs.RevokeGrantsOfOk | control-plane/src/hostTasks.ts:564-566 | revoking an app's grants one by one keeps the invariant and leaves none of them live |
| HostTaskProofs.SubmitQuiet | control-plane/src/hostTasks.ts:696-725 | a request keeps the invariant, finishes no job and takes no job back |
| HostTaskProofs.AppendPaced | control-plane/src/hostTasks.ts:707-714 | the rate checks keep requests 300 s, or 60 s by hand, apart and any three manual ones an hour |
| HostTaskProofs.NothingPending | control-plane/src/hostTasks.ts:707-710 | after a sweep the two busy checks together mean that the app has no pending job of any kind |
| HostTaskProofs.CheckLeaseOk | control-plane/src/hostTasks.ts:374-387 | a report that passes the lease check finds the leased row, unchanged by the sweeps |
| HostTaskProofs.HeartbeatNeverExtends | control-plane/src/hostTasks.ts:649-654 | a heartbeat changes nothing on the job and answers with the deadline the claim set |
| HostTaskProofs.ClaimOk | control-plane/src/hostTasks.ts:629-648 | a claim leases the oldest claimable job for its next attempt, within 60 s and both expiries, or changes no job's holder |
| HostTaskProofs.CompleteOk | control-plane/src/hostTasks.ts:655-679 | a result is accepted only against the live lease it proves and for the request and grant it names |
| HostTaskProofs.FailOk | control-plane/src/hostTasks.ts:680-691 | a failure is accepted only against the live lease it proves |
| HostTaskRoutes.ApprovedIffGranted | control-plane/src/hostTasks.ts:306-314 | a waiting job is approved by a sweep exactly when its app is live, it has not expired and a live grant exists, and takes the earlier expiry |
| HostTaskRoutes.LapsedLeaseRequeues | control-plane/src/hostTasks.ts:326-329 | a lapsed lease queues the job again before the third attempt and expires it after, with the attempt kept |
| HostTaskRoutes.RevokeAppEndsAll | control-plane/src/hostTasks.ts:575-588 | a revoked app has no live grant and no job that is not over |
| HostTaskRoutes.RevokeGrantEndsItsJobs | control-plane/src/hostTasks.ts:760-766 | revoking moves the generation on once, ends exactly the jobs bound to the grant and touches no other |
| HostTaskRoutes.RevokeRunnerEndsItsJobs | control-plane/src/hostTasks.ts:603-613 | revoking a runner ends exactly the running and succeeded jobs it holds, and after any run it holds none |
| HostTaskRoutes.NewGrantIsTheOnlyOne | control-plane/src/hostTasks.ts:548-573 | a grant is added iff the app is live and the expiry within a day, and is then the app's only live one |
| HostTaskRoutes.ResubmitFindsTheSameJob | control-plane/src/hostTasks.ts:696-706 | the same request sent again after any run in between, however its job went on, adds none and is answered with that job iff the app is still live |
| HostTaskRoutes.NewRequestIffFree | control-plane/src/hostTasks.ts:696-725 | a new job is made iff the app is live, the key new, no job of the app pending and the rates allow it, and is queued under the live grant with the earlier expiry or waits for approval |
| HostTaskRoutes.SettledJobHoldsNothing | control-plane/src/hostTasks.ts:747-757 | a job that was acknowledged, cancelled or denied is over and holds neither result nor lease after any run |
| HostTaskHistory.JobMachine | control-plane/src/hostTasks.ts:270-332 | after any run: result iff succeeded, lease iff running, attempts in budget, active and succeeded jobs bound to a live same-app grant at its generation with leases inside both expiries |
| HostTaskHistory.ExclusiveAndPaced | control-plane/src/hostTasks.ts:696-725 | after any run: one pending job an app, requests spaced, one job per idempotency key |
| HostTaskHistory.TerminalForever | control-plane/src/hostTasks.ts:270-274 | along any run terminal jobs stay terminal and no request column is rewritten |
| HostTaskHistory.AttemptFencing | control-plane/src/hostTasks.ts:629-691 | each job finishes at most once, by the runner, attempt and token of its latest claim, before that claim's deadline |
| HostTaskHistory.ResultsWereDelivered | control-plane/src/hostTasks.ts:673-678 | a stored result is one that an accepted report delivered for that job |
| HostTaskOutcomes.SweepEndsExactly | control-plane/src/hostTasks.ts:278-332 | a sweep ends a live job exactly when what it rests on is gone, its time is over or its third lease lapsed, and leaves every other live job unchanged but for an approval or a lapsed lease |
| HostTaskOutcomes.SweepKeepsTerminal | control-plane/src/hostTasks.ts:270-274 | a sweep changes nothing on a job that is over |
| HostTaskOutcomes.ClaimHandsOutIffReady | control-plane/src/hostTasks.ts:629-648 | a claim leases a job iff runner and identity pass and, after the sweep, a queued job under an unrevoked grant of that identity exists, whatever its attempt; it answers that there is none iff there is none |
| HostTaskOutcomes.ResultAcceptedIff | control-plane/src/hostTasks.ts:655-679 | a result is accepted iff the lease it proves stands and it names the request, app, grant and generation with good evidence, and is then stored for half an hour on that job alone |
| HostTaskOutcomes.FailureAcceptedIff | control-plane/src/hostTasks.ts:680-691 | a failure is accepted iff the lease it proves stands and it names the request, and ends that job alone |
| HostTaskOutcomes.HeartbeatAnsweredIff | control-plane/src/hostTasks.ts:649-654 | a heartbeat is answered with the deadline iff the lease it proves stands |
| HostTaskOutcomes.SettlesIff | control-plane/src/hostTasks.ts:747-757 | an acknowledgement, cancellation or denial succeeds iff the job is its caller's and in a state that admits it |
| HostTaskOutcomes.PeopleAddedIff | control-plane/src/hostTasks.ts:614-622 | an app is added unless its instance has one, a runner iff the host vouches for its identity |
| HostTaskOutcomes.RevokesIffKnown | control-plane/src/hostTasks.ts:574-613 | a revocation is refused exactly for an unknown id |
| HostTaskOutcomes.RevokeGrantsTouches | control-plane/src/hostTasks.ts:564-566 | revoking an app's grants in a loop touches exactly those grants and the jobs under them |
| HostTaskOutcomes.AddGrantTouches | control-plane/src/hostTasks.ts:548-573 | a new grant ends what ran under the app's earlier ones and touches no other job or grant |
| HostTaskOutcomes.RevokeAppTouches | control-plane/src/hostTasks.ts:574-588 | revoking an app touches no other app, job or grant |
| HostTaskBroker.Broker.SweepAll | control-plane/src/hostTasks.ts:278-332 | the loop over rows computes the specified sweep |
| HostTaskBroker.Broker.Claim | control-plane/src/hostTasks.ts:629-648 | the claim route moves the tables as specified and answers as specified |
| HostTaskBroker.Broker.Complete | control-plane/src/hostTasks.ts:655-679 | the result route, with both lease checks, moves the tables as specified |
| HostTaskBroker.Broker.Submit | control-plane/src/hostTasks.ts:696-725 | the request route moves the tables as specified |
| HostTaskBroker.Broker.AddGrant | control-plane/src/hostTasks.ts:548-573 | the grant route, with its loop over old grants, moves the tables as specified |
| HostTaskBroker.Broker.RevokeApp | control-plane/src/hostTasks.ts:574-588 | the app revocation, with its two loops, moves the tables as specified |
| HostTaskBroker.Broker.Cancel | control-plane/src/hostTasks.ts:747-757 | the cancel route moves the tables as specified |
| HostScriptProofs.CleanupExact | control-plane/src/hostScripts.ts:129-148 | a cleanup keeps a job, unchanged, exactly when task, version, caller and unexpired grant still support it and it has not lapsed |
| HostScriptProofs.PublishEndsOldRuns | control-plane/src/hostScripts.ts:208-223 | publishing another version ends every retained caller run of the script |
| HostScriptProofs.ClaimsApprovedDefinition | control-plane/src/hostScripts.ts:302-317 | a claimed job is handed the definition whose digest it names, and a caller's job names the published digest under a live grant |
| HostScriptProofs.LedgerForever | control-plane/src/hostScripts.ts:102-113 | after any run versions count from 1 without gaps, stay on one host, differ from their neighbours, carry the published entry, and are never rewritten |
| HostScriptProofs.RequestsArePaced | control-plane/src/hostScripts.ts:290-292 | any eleven requests of one caller span at least a minute |
| HostScriptProofs.OneRunPerCaller | control-plane/src/hostScripts.ts:277-289 | a caller has at most one run queued or running, and a key names one run |
| HostScriptProofs.StepGood | control-plane/src/hostScripts.ts:149-335 | every route keeps the ledger and the job table's invariant, forgets no row and wakes no run that is over |
| HostScriptRoutes.RevokeTaskEndsItsRuns | control-plane/src/hostScripts.ts:224-231 | revoking a script ends every run of it |
| HostScriptRoutes.RevokeGrantEndsItsRuns | control-plane/src/hostScripts.ts:247-255 | revoking a grant ends every run admitted under it |
| HostScriptGrants.OnePublishedGrant | control-plane/src/hostScripts.ts:208-255 | after any run a caller has at most one unrevoked grant of a script, and every unrevoked grant names the published version |
| HostScriptGrants.NewGrantIsTheOnlyOne | control-plane/src/hostScripts.ts:232-246 | a grant is added iff its version is published, its caller there and its expiry within a day, and is then its caller's only unrevoked one for the script |
| HostScriptRoutes.ClaimLeasesOnce | control-plane/src/hostScripts.ts:302-317 | a claim leases the oldest job the host may run, no longer than it lives, and after any run no claim leases that job again |
| HostScriptRoutes.CompletesOnce | control-plane/src/hostScripts.ts:318-333 | a run completes with the token of its live lease, and after any run of routes in between no completion of it is accepted again |
| HostScriptRoutes.RetryStartsNothing | control-plane/src/hostScripts.ts:277-281 | asking again with the same key and parameters, after any run of routes in between, starts no other run and is answered with the first iff the script is live and still published as asked for |
| HostScriptOutcomes.CleanupEnds | control-plane/src/hostScripts.ts:129-148 | a cleanup cancels what lost its support, expires what ran out of time, and erases what either held |
| HostScriptOutcomes.CompletionStored | control-plane/src/hostScripts.ts:318-333 | a completion is accepted iff the run is running under that token, supported and not lapsed, and stores its result, or its failure, with its time on that run alone |
| HostScriptOutcomes.ResultsWereDelivered | control-plane/src/hostScripts.ts:318-333 | after any run every succeeded run holds the result that an accepted completion of it delivered |
| HostScriptOutcomes.ClaimLeasesIffReady | control-plane/src/hostScripts.ts:302-317 | a claim leases a run iff one is ready for the host, and then the oldest, until the earlier of the lease time and its expiry |
| HostScriptOutcomes.RequestAcceptedIff | control-plane/src/hostScripts.ts:264-301 | a request starts a run iff its script can be run so, its key is new and it is admissible; with a key used before it is answered, and starts nothing, iff it asks for the same again |
| HostScriptOutcomes.SavedIff | control-plane/src/hostScripts.ts:102-113 | a draft is saved iff its script is live, keeps its host and was not saved since |
| HostScriptOutcomes.RegisteredAs | control-plane/src/hostScripts.ts:186-195 | a script is registered at version 1, published, beside all others |
| HostScriptOutcomes.PublishedIff | control-plane/src/hostScripts.ts:208-223 | a version is published iff it exists and the script is live and as it was when it was looked at; only that script's grants and runs change |
| HostScriptOutcomes.TaskRevokedIff | control-plane/src/hostScripts.ts:224-231 | a script is revoked iff it is live, and no other script, grant or run is touched |
| HostScriptOutcomes.GrantRevokedIff | control-plane/src/hostScripts.ts:247-255 | a grant is revoked iff it exists, and no other grant or run is touched |
| HostScriptOutcomes.GrantAddedTouches | control-plane/src/hostScripts.ts:232-246 | a new grant revokes exactly its caller's others for the script and touches no run that was not under one |
| HostScriptOutcomes.CallerRevoked | control-plane/src/instanceAccess.ts:273-278 | losing access revokes exactly the caller's grants and cancels exactly its retained runs |
| HostScriptBrokers.HostScriptBroker.Cleanup | control-plane/src/hostScripts.ts:129-148 | the loop over jobs computes the specified cleanup |
| HostScriptBrokers.HostScriptBroker.Publish | control-plane/src/hostScripts.ts:208-223 | the publish route moves the tables as specified |
| HostScriptBrokers.HostScriptBroker.Request | control-plane/src/hostScripts.ts:264-301 | the request route moves the tables as specified |
| HostScriptBrokers.HostScriptBroker.Claim | control-plane/src/hostScripts.ts:302-317 | the claim route moves the tables as specified |
| HostScriptBrokers.HostScriptBroker.Save | control-plane/src/hostScripts.ts:102-113 | saving a version moves the tables as specified |
| ToolQueueProofs.PumpOk | control-plane/src/toolQueue.ts:126-146 | a pump, with all the removals and pumps nested in it, terminates, keeps the invariant and leaves nothing startable |
| ToolQueueProofs.RemoveOk | control-plane/src/toolQueue.ts:116-124 | a removal, with the pump it triggers, keeps the invariant |
| ToolQueueProofs.Conservation | control-plane/src/toolQueue.ts:83-184 | for each tool, requests = finished + waiting + running, after any run |
| ToolQueueProofs.SettlesOnce | control-plane/src/toolQueue.ts:148-184 | every call ever made is in exactly one place once: waiting, running or settled |
| ToolQueueProofs.StartsInOrder | control-plane/src/toolQueue.ts:126-146 | calls start in order of arrival, before the deadline fixed on arrival and within the cap in force |
| ToolQueueProofs.NoIdleCapacity | control-plane/src/toolQueue.ts:126-146 | between steps nothing waits unless the cap is reached or the memory gate is shut; a closed queue is empty |
| ToolQueueProofs.DroppedNeverStarts | control-plane/src/toolQueue.ts:152-161 | a call refused, expired, cancelled or shut down is never executed |
| ToolQueueProofs.FinishedAddsUp | control-plane/src/toolQueue.ts:83-99 | the finished total is the sum of every way a call can end |
| ToolQueueWindow.PruneKeepsWindow | control-plane/src/toolQueue.ts:195-200 | pruning drops no second that this or any later reading counts |
| ToolQueueWindow.ProcessingIsExact | control-plane/src/toolQueue.ts:202-214 | a reading of the pruned table sums every completed or failed call of the last minute and of the last ten seconds |
| ToolQueueOutcomes.ArrivalLogged | control-plane/src/toolQueue.ts:148-184 | an arriving call's first event is shutdown iff the queue is stopped, cancelled iff it was aborted before, full iff as many wait as may, and queued otherwise; what is turned away moves nothing |
| ToolQueueOutcomes.PumpDispatches | control-plane/src/toolQueue.ts:126-146 | a pump logs starts in time and expiries that are due and nothing else, and moves only waiting calls |
| ToolQueueOutcomes.PumpAsks | control-plane/src/toolQueue.ts:126-146 | a pump starts one call for each answer that memory allows it, and no other |
| ToolQueueOutcomes.CallStepsLogged | control-plane/src/toolQueue.ts:116-184 | an abort or timer takes its waiting call off the queue and says so, a call that ran ends with its own outcome, and neither does anything to a call elsewhere |
| ToolQueueOutcomes.QueueStepsLogged | control-plane/src/toolQueue.ts:66-75 | new settings, ticks and samples log nothing but the dispatch they cause |
| ToolQueueOutcomes.ConfiguredIff | control-plane/src/toolQueue.ts:66-75 | settings are in force from then on iff they are valid and replace the ones they were made from |
| ToolQueueOutcomes.CloseLogged | control-plane/src/toolQueue.ts:246-251 | closing tells every waiting call, in order, and lets go of none that runs |
| ToolQueueOutcomes.NeverOverfull | control-plane/src/toolQueue.ts:148-156 | while the size is not changed, never do more calls wait than may |
| ToolQueueTimings.TimingsAddUp | control-plane/src/toolQueue.ts:83-99 | after any run each tool's wait and run totals are the sums of the times its log entries tell |
| ToolQueues.ToolQueue.PumpQueue | control-plane/src/toolQueue.ts:126-146 | the loop with its re-entrant removals computes the specified pump |
| ToolQueues.ToolQueue.RemoveAt | control-plane/src/toolQueue.ts:116-124 | a removal and the pump after it compute the specified step |
| ToolQueues.ToolQueue.Submit | control-plane/src/toolQueue.ts:148-184 | an arriving call moves the queue as specified |
| ToolQueues.ToolQueue.Close | control-plane/src/toolQueue.ts:246-251 | closing drains the queue as specified |
| ToolQueues.ToolQueue.Configure | control-plane/src/toolQueue.ts:66-75 | new settings take effect, or are refused, as specified |
| DocumentStoreProofs.Revalidates | control-plane/src/store.ts:383-453 | revalidating a stored live message succeeds and changes at most a reminder's attention |
| DocumentStoreProofs.ApplyOk | control-plane/src/store.ts:510-946 | every call keeps every live message valid: live sender, relations and topics, unique active dedupe key |
| DocumentStoreProofs.StoredMessagesStayValid | control-plane/src/store.ts:383-464 | after any run of calls and reminder sweeps on an empty store the stored spec of any live message passes validation again |
| DocumentStoreProofs.RemindersExact | control-plane/src/agentMessageReminders.ts:12-26 | after any such run a sweep never throws and leaves attention on exactly the open reminders that are due |
| DocumentStoreProofs.RefusedCallsVanish | control-plane/src/store.ts:761-821 | a run leads to the same store when its refused calls, batches refused half way too, are left out |
| DocumentStoreProofs.OneUpdateAVersion | control-plane/src/store.ts:674-821 | once an update of a version has succeeded, no later update of that version does, alone or in a batch, whatever happened in between |
| DocumentStoreProofs.BatchSwapsEach | control-plane/src/store.ts:761-821 | an accepted batch meets every expected version, numbers its documents consecutively and stores the content each update gives |
| DocumentStoreOutcomes.ValidatesIff | control-plane/src/store.ts:383-453 | a message is valid iff sender, times, attention, decision, topics, relations and key each meet their condition |
| DocumentStoreOutcomes.UpdateStoresIff | control-plane/src/store.ts:674-759 | an update is accepted iff the document is live at the version expected and the content may be stored, and then stores that content, labels and status and touches no other row |
| DocumentStoreOutcomes.BatchAcceptedIff | control-plane/src/store.ts:761-821 | a batch is accepted iff it names each document once and each update is accepted in turn |
| DocumentStoreOutcomes.CreateStoresIff | control-plane/src/store.ts:510-610 | a document is created iff it may be stored, as it was given; a message whose key is held is taken for a retry iff it says the same as the holder |
| DocumentStoreOutcomes.DeletedIff | control-plane/src/store.ts:823-891 | a document is deleted iff it is live, at the version expected, and no message names it |
| DocumentStoreOutcomes.RestoredIff | control-plane/src/store.ts:893-946 | a deleted document is restored iff it may be stored as it was, and is stored so |
| DocumentStoreOutcomes.SweepWritesAttention | control-plane/src/agentMessageReminders.ts:12-26 | a sweep writes nothing but the attention of reminders that are due, each at a version of its own |
| LiveDocumentStore.LiveStore.UpdateRow | control-plane/src/store.ts:674-759 | an update moves rows and counter as specified |
| LiveDocumentStore.LiveStore.UpdateRows | control-plane/src/store.ts:761-821 | the batch loop with its rollback computes the specified batch |
| LiveDocumentStore.LiveStore.DeleteRow | control-plane/src/store.ts:823-891 | a guarded delete moves rows and counter as specified |
| LiveDocumentStore.LiveStore.ActivateDueReminders | control-plane/src/agentMessageReminders.ts:12-26 | the loop over due reminders computes the specified sweep |
| ChangeFeedProofs.ApplyLeads | control-plane/src/store.ts:467-482 | every call announces its changes at consecutive versions, ending at the store's counter, and replaying them reproduces the store |
| ChangeFeedProofs.SnapshotHidesNothing | control-plane/src/documentChangeFeed.ts:23-31 | a reply that is not a reset lists exactly the commits after `since`, in order; it resets iff it cannot |
| ChangeFeedProofs.OverlapHarmless | shared/controlPlaneClient.ts:983-1001 | replaying commits that are already in is harmless |
| ChangeFeedProofs.ClientMirrorsStore | shared/controlPlaneClient.ts:983-1001 | a client that is up to date and owes no reload mirrors the id, version and deletion of every document |
| ChangeFeedProofs.PollCatchesUp | shared/controlPlaneClient.ts:983-1001 | any poll brings the client up to date or tells it to reload |
| ChangeFeedPolls.PollsAnsweredOnce | control-plane/src/documentChangeFeed.ts:34-72 | after any run every poll was answered once, waits, or its client hung up |
| ChangeFeedPolls.AnsweredWithNews | control-plane/src/documentChangeFeed.ts:16-67 | a poll answered at once, or because documents changed, is told a change or to reload; one that times out is told that nothing changed |
| ChangeFeedPolls.HandsOnTheNews | shared/controlPlaneClient.ts:983-1001 | the client hands on, in order, exactly the replies that are resets or name another version than the one before |
| ChangeFeed.LiveFeed.OnDocumentsChanged | control-plane/src/documentChangeFeed.ts:16-21 | the listener keeps the newest 256 changes and answers every waiter |
| ChangeFeed.LiveFeed.Handle | control-plane/src/documentChangeFeed.ts:34-67 | a request is answered at once or waits, as its version tells |
| ChangeFeed.WatchDocumentChanges | shared/controlPlaneClient.ts:983-1001 | the polling loop hands on every reset and every new version, and nothing else |
| ThriveSnapshotProofs.PlanOk | shared/thriveSnapshot.ts:63-93 | the plan reads exactly the members that are changed, uncached or, in full mode, all |
| ThriveSnapshotProofs.SyncIsExact | shared/thriveSnapshot.ts:126-191 | a sync whose changed ids cover every real change stores the truth |
| ThriveSnapshotProofs.IncrementalEqualsFull | shared/thriveSnapshot.ts:126-191 | incremental and full mode give the same records, classifications and counts, or the same refusal |
| ThriveSnapshotProofs.ExactIffCovered | shared/thriveSnapshot.ts:63-93 | the result is the true one if and only if the changed ids cover every real change |
| ThriveSnapshotProofs.SyncsStayExact | shared/thriveSnapshot.ts:126-191 | any mix of syncs keeps the snapshot exact, whoever leaves and rejoins |
| ThriveSnapshotProofs.ExactlyOk | shared/thriveSnapshot.ts:174-190 | a finished snapshot holds each member's record once, by ascending id, classified by the metadata, with counts that add up |
| ThriveSnapshotOutcomes.PlannedIff | shared/thriveSnapshot.ts:63-93 | a plan is made iff the checkpoint advances and the ids are valid, and lists members, removals and reads in ascending order |
| ThriveSnapshotOutcomes.MergedIff | shared/thriveSnapshot.ts:126-191 | a merge is accepted iff plan, cache, details and metadata fit: one normal, current, asked-for detail a read, none older than the cached record, no key twice, and a record for every member |
| ThriveSnapshotOutcomes.MergedHolds | shared/thriveSnapshot.ts:147-191 | an accepted merge stores each member's detail, or else its cached record, in ascending order, classified by the metadata, with counts that count them |
| ThriveSnapshot.MergeSnapshot | shared/thriveSnapshot.ts:126-191 | the merge with its loops over maps and counters computes the specified result or the specified error |
| AppConnectionProofs.OneOfThree | desktop-ui/src/main/appMcpService.ts:77-82 | an app is connected, connecting or neither, shows an error only when neither, and a pending token is its generation |
| AppConnectionProofs.DroppedMeansClosed | desktop-ui/src/main/appMcpService.ts:186-199 | a client is closed exactly when it is neither connected nor in flight |
| AppConnectionProofs.NeverConnectsAfterDisconnect | desktop-ui/src/main/appMcpService.ts:186-207 | no attempt made before a disconnect, of the app or of all, is ever connected or pending after it |
| AppConnectionProofs.NeverConnectsAfterReconnect | desktop-ui/src/main/appMcpService.ts:117-139 | a connect to another endpoint ends every earlier attempt of the app for good |
| AppConnectionProofs.WantedIffInFlight | desktop-ui/src/main/appMcpService.ts:161-165 | between steps the three-way check after a connect holds exactly when the attempt is still in flight |
| AppConnectionProofs.DisconnectAllOk | desktop-ui/src/main/appMcpService.ts:201-207 | afterwards both maps are empty and every client ever made is closed |
| AppConnectionProofs.PinnedCallRunsWhereListed | desktop-ui/src/main/appMcpService.ts:213-278 | a call pinned to a connection id runs on the very client whose tools were listed under it |
| AppConnectionProofs.StepGood | desktop-ui/src/main/appMcpService.ts:117-260 | every step between two awaits keeps the connection invariant and reopens nothing |
| AppConnectionOutcomes.ConnectStartsUnlessReached | desktop-ui/src/main/appMcpService.ts:117-139 | asking for the endpoint an app has, or is about to have, does nothing; any other starts an attempt of the next generation and closes the app's earlier clients |
| AppConnectionOutcomes.DisconnectEnds | desktop-ui/src/main/appMcpService.ts:186-199 | a disconnect takes the app out of both maps, aborts what was pending, closes its clients and touches no other app |
| AppConnectionOutcomes.GoesOnIff | desktop-ui/src/main/appMcpService.ts:155-160 | after the disconnect before it an attempt goes on to connect iff that succeeded and nothing aborted or cancelled it |
| AppConnectionOutcomes.ConnectsIffInFlight | desktop-ui/src/main/appMcpService.ts:158-176 | a connect that succeeds connects its app, at its endpoint and under a fresh id, iff the attempt is still in flight |
| AppConnectionOutcomes.SupersededFails | desktop-ui/src/main/appMcpService.ts:166-178 | a client that connected too late is closed and its attempt fails as cancelled |
| AppConnectionFailures.FailureShownIffUntouched | desktop-ui/src/main/appMcpService.ts:177-183 | over any run a failed attempt's message is shown iff the attempt was not aborted and nothing of its app was ended since it began |
| AppConnectionOutcomes.UsedIffExpected | desktop-ui/src/main/appMcpService.ts:213-278 | tools are listed, and one called, iff the app's connection is the one the caller has in mind |
| AppConnectionOutcomes.LeftAloneConnects | desktop-ui/src/main/appMcpService.ts:117-184 | over any run an attempt whose two awaits succeed is connected unless a disconnect, another endpoint or an abort came first |
| AppConnections.AppMcpService.ConnectApp | desktop-ui/src/main/appMcpService.ts:117-139 | starting an attempt moves the maps as specified |
| AppConnections.AppMcpService.ConnectFinished | desktop-ui/src/main/appMcpService.ts:158-176 | the step after a connect installs the client or gives it up, as specified |
| AppConnections.AppMcpService.DisconnectApp | desktop-ui/src/main/appMcpService.ts:186-199 | a disconnect moves the maps and closes both clients as specified |
| AppConnections.AppMcpService.DisconnectEvery | desktop-ui/src/main/appMcpService.ts:201-207 | the loop over both maps computes the specified step |
| InstanceAccessProofs.RequestsOnlyMoveOn | control-plane/src/instanceAccess.ts:74-258 | requests move from pending to approved to consumed, or to denied, and never back |
| InstanceAccessProofs.OneCredentialAfterApproval | control-plane/src/instanceAccess.ts:149-182 | over a run a request issues at most one credential, and only after its approval |
| InstanceAccessProofs.OnlyOwnerApproves | control-plane/src/instanceAccess.ts:234-258 | a run issues a credential only for a request that the signed-in owner approved in it |
| InstanceAccessProofs.RevokedForever | control-plane/src/instanceAccess.ts:260-271 | a revoked client gets no further credential and its row never changes again |
| InstanceAccessProofs.OneOpenRenewal | control-plane/src/instanceAccess.ts:86-97 | a client has at most one open renewal |
| InstanceAccessProofs.UneditedRenewalChangesNothing | control-plane/src/instanceAccess.ts:160-163 | claiming a renewal the owner did not edit changes no permission of the client and no other client |
| InstanceAccessProofs.ApprovedClaimableIffNotRevoked | control-plane/src/instanceAccess.ts:149-163 | an approved unexpired request yields its credential iff it has no client or its client is not revoked, and is forbidden otherwise |
| InstanceAccessRevocation.ClaimableWithoutTokenRevocation | control-plane/src/instanceAccess.ts:260-271 | in runs without OAuth revocations open requests belong to live clients, and approved unexpired ones can be claimed |
| InstanceAccessRevocation.RevokedTokenStrandsApprovedRenewal | control-plane/src/instanceOAuth.ts:259-263 | with one they need not: a concrete run ends with an approved renewal whose claim is forbidden |
| InstanceAccessProofs.NewCredentialReplacesOld | control-plane/src/instanceAccess.ts:65-72 | the credential a successful claim issues signs in exactly its client until it expires, the one it replaces signs in nobody |
| InstanceAccessProofs.ApprovalAddsExactlyTheDelta | control-plane/src/instanceAccess.ts:241-254 | approving a permission request gives exactly old plus delta to its client, closes its open renewals and touches no other client |
| InstanceAccessProofs.GainsComeFromTheOwner | control-plane/src/instanceAccess.ts:195-258 | a client gains a permission only by the owner's edit, the owner's approval or a renewal the owner edited |
| InstanceAccessLimits.TwentySpanAMinute | control-plane/src/instanceAccess.ts:101-108 | any twenty opened requests span at least a minute and at most a hundred rows are kept |
| InstanceAccessLimits.NineteenWithinAMoment | control-plane/src/instanceAccess.ts:101-108 | that bound is exact: from any moment on, a run that opens nineteen requests within a millisecond |
| InstanceAccessOutcomes.AccessAskedIff | control-plane/src/instanceAccess.ts:74-108 | a request is queued iff fewer than ten calls were made in the window, fewer than a hundred rows are alive and a renewal proves a credential that was not revoked |
| InstanceAccessOutcomes.FreshRequestQueued | control-plane/src/instanceAccess.ts:74-99 | a fresh request asks for the defaults of the access it names, for ten minutes, and closes nobody's requests |
| InstanceAccessOutcomes.RenewalQueued | control-plane/src/instanceAccess.ts:74-99 | a renewal asks for exactly what its client holds, whatever the caller named, and closes the client's other requests |
| InstanceAccessOutcomes.SignsInIffLive | control-plane/src/instanceAccess.ts:65-72 | after any run a token signs in exactly the client that holds it, unrevoked and until it expires |
| InstanceAccessOutcomes.PermissionsAskedIff | control-plane/src/instanceAccess.ts:110-138 | how a signed-in client's permission request is answered: granted, refused for each of its reasons, or queued, each iff its condition |
| InstanceAccessOutcomes.PermissionsQueued | control-plane/src/instanceAccess.ts:121-137 | a permission request leads to the row that asked for the same before, or to a new one that asks for just what is missing |
| InstanceAccessOutcomes.ClaimedIff | control-plane/src/instanceAccess.ts:140-155 | a claim is answered with a credential, told to wait, unknown or expired, each iff its condition, and changes nothing unless a credential is issued |
| InstanceAccessOutcomes.ClaimWrites | control-plane/src/instanceAccess.ts:156-182 | an issue writes exactly one client and its request, and denies that client's other open requests |
| InstanceAccessOutcomes.DecidedIff | control-plane/src/instanceAccess.ts:234-258 | a decision stands iff the owner takes it in time and, for more permissions, the client is live and may hold them |
| InstanceAccessOutcomes.DecisionWrites | control-plane/src/instanceAccess.ts:234-258 | a decision moves its own row alone; one that approves permissions also adds them to its client and denies that client's open renewals |
| InstanceAccessOutcomes.RequestEditedIff | control-plane/src/instanceAccess.ts:195-232 | the owner's edit of a request stands iff it is open, unexpired and for access, and replaces just its permissions |
| InstanceAccessOutcomes.ClientEditedIff | control-plane/src/instanceAccess.ts:195-232 | the owner's edit of a client stands iff it is live, replaces just its permissions and denies its open requests |
| InstanceAccessOutcomes.ClientRevokedIff | control-plane/src/instanceAccess.ts:260-271 | the owner revokes a client iff it is not revoked, and denies its open requests alone |
| InstanceAccessOutcomes.TokenRevokedIff | control-plane/src/instanceOAuth.ts:259-263 | an OAuth revocation changes something iff somebody holds the token and belongs to the caller, and then revokes just that client |
| InstanceAccessService.AddSelected | control-plane/src/instanceAccess.ts:246-249 | the loop over the selected operations adds exactly the delta |
| InstanceAccessService.AccessService.AskForAccess | control-plane/src/instanceAccess.ts:74-99 | a request or renewal moves the rows as specified |
| InstanceAccessService.AccessService.AskForPermissions | control-plane/src/instanceAccess.ts:110-138 | a permission request moves the rows, or finds the earlier one, as specified |
| InstanceAccessService.AccessService.ClaimCredential | control-plane/src/instanceAccess.ts:149-182 | a claim issues a credential or refuses, as specified |
| InstanceAccessService.AccessService.DecideRequest | control-plane/src/instanceAccess.ts:234-258 | a decision moves the rows as specified |
| InstanceAccessService.AccessService.RevokeOAuthToken | control-plane/src/instanceOAuth.ts:259-263 | revoking a token through OAuth revokes its holder and leaves the requests alone, as specified |
| TopicEmbeddingProofs.IndexedRowsAreFresh | control-plane/src/topicEmbeddings.ts:26-35 | across edits, deletes, restores and late answers, a row counted as indexed was hashed from the live content |
| TopicEmbeddingProofs.IndexedPassagesAreExact | control-plane/src/topicEmbeddings.ts:129-159 | with one-line titles it also holds exactly the live content's passages, one vector each |
| TopicEmbeddingProofs.NewlineTitleKeepsOldPassages | control-plane/src/topicEmbeddings.ts:61-63 | without that condition it need not: for any Topic title whose first line is followed by more, a run that ends with old passages |
| TopicEmbeddingProofs.EditKeepsRowIffSameHash | control-plane/src/topicEmbeddings.ts:93-99 | after an edit a document counts as indexed without new vectors iff it was answerable and its hash is the same, and then keeps the passages of its old content |
| TopicEmbeddingProofs.HashFixesPassagesIffOneLine | control-plane/src/topicEmbeddings.ts:52-63 | every content with a one-line title that shares a hash with this title has its passages too, iff this title is one line |
| TopicEmbeddingProofs.OldPassagesIffNewlineInside | control-plane/src/topicEmbeddings.ts:52-63 | a Topic can come from some one-line title and body to this title with passages that are no longer its own iff the title holds a newline and does not begin with one |
| TopicEmbeddingProofs.CollidesIffNewline | control-plane/src/topicEmbeddings.ts:61-63 | a content shares its hash with another one-line title's content iff its own title holds a newline |
| TopicEmbeddingProofs.RestoredIsPending | control-plane/src/topicEmbeddings.ts:32-35 | a restored document waits for new vectors |
| TopicEmbeddingProofs.NoStretchIsCut | control-plane/src/topicEmbeddings.ts:52-59 | any stretch of at most 101 characters lies whole inside one passage |
| TopicEmbeddingProofs.PassagesAt | control-plane/src/topicEmbeddings.ts:55-57 | passage i is the heading and the window at 500 i, and there are as many as the text takes |
| TopicEmbeddingProofs.AnswerableIffPassagesFit | control-plane/src/topicEmbeddings.ts:101-104 | the work is within the embedder's limits iff there are 1 to 40000 characters to embed |
| TopicEmbeddingProofs.AnswerableIffTextOrTitleFits | control-plane/src/topicEmbeddings.ts:52-59 | a document is within those limits iff its text is not blank or its title has 1 to 40000 characters |
| TopicEmbeddingProofs.WorkIsAcceptedIffAnswerable | control-plane/src/topicEmbeddings.ts:129-140 | a full answer to work just handed out is accepted iff the document is within those limits |
| TopicEmbeddingProofs.NextFromRefreshes | control-plane/src/topicEmbeddings.ts:86-105 | no work means that nothing listed is pending or that twenty rows were refreshed, each leaving the pending set |
| TopicEmbeddingProofs.RoundKeepsStuck | control-plane/src/topicEmbeddings.ts:82-159 | without edits a round makes no document stuck, pending with no reusable row and outside the limits, and frees none |
| TopicEmbeddingProofs.RoundLowersPending | control-plane/src/topicEmbeddings.ts:82-159 | while no document is stuck, a round of asking and answering lowers the pending count or leaves none |
| TopicEmbeddingProofs.RoundsFinishIffNoneStuck | control-plane/src/topicEmbeddings.ts:82-159 | as many rounds as there are pending documents, in any orders, leave none pending iff no document was stuck to begin with |
| TopicEmbeddingProofs.UnanswerableBlocks | control-plane/src/topicEmbeddings.ts:87-104 | a stuck document that comes first is handed out again, no answer to it is stored and nothing else is handed out |
| TopicEmbeddingProofs.BehindStuckWaits | control-plane/src/topicEmbeddings.ts:86-105 | whatever is pending after a stuck document in the query's order stays pending through any number of rounds |
| TopicEmbeddingProofs.BlankTopicTypeBlocks | control-plane/src/kinds/topictype/index.ts:49-60 | such a document exists: a topic type labelled with 40001 blanks keeps another document waiting through any number of rounds |
| TopicEmbeddingOutcomes.WorkDescribesTheFirst | control-plane/src/topicEmbeddings.ts:86-105 | what is handed out is the first pending document of the query, with its version, hash, passages and cut as they are |
| TopicEmbeddingOutcomes.AskingOnlyRefreshes | control-plane/src/topicEmbeddings.ts:82-100 | asking for work changes no document, drops the rows of deleted ones and moves a row's version on only where its hash is still the content's |
| TopicEmbeddingOutcomes.StoredIff | control-plane/src/topicEmbeddings.ts:129-159 | an answer is stored, in that document's row alone, iff model, version, hash, count and direction fit the live document; one for another version is stale |
| TopicEmbeddingOutcomes.WritesLand | control-plane/src/topicEmbeddings.ts:29-35 | each write of a document moves that document to the next version, and a deletion or erasure alone takes a row away |
| TopicEmbeddings.BuildPassages | control-plane/src/topicEmbeddings.ts:52-59 | the loop builds the specified passages |
| TopicEmbeddings.EmbeddingIndex.NextEmbeddingWork | control-plane/src/topicEmbeddings.ts:82-107 | the bounded refresh loop computes the specified work and index |
| TopicEmbeddings.EmbeddingIndex.SubmitEmbeddings | control-plane/src/topicEmbeddings.ts:129-159 | an answer is checked and stored as specified |
| RelatedTopics.BestMatches | control-plane/src/topicEmbeddings.ts:175-191 | pushing, sorting and popping at forty gives the first `limit` of the full sort of all relevant candidates |
| RelatedTopics.NothingBetterLeftOut | control-plane/src/topicEmbeddings.ts:182-191 | a relevant candidate left out beats nothing in a full list |
| RelatedTopics.ScanOrderIrrelevant | control-plane/src/topicEmbeddings.ts:177-181 | the order in which the candidates are scanned does not matter |
| DocumentSearchProofs.CleanRowsAreExact | control-plane/src/documentSearch.ts:153-171 | with any mix of upgraded and legacy writers, every row outside the dirty set is indexed as its live resource |
| DocumentSearchProofs.QuerySeesProjection | control-plane/src/documentSearch.ts:193-209 | after a query's refresh the index is the projection of the whole table |
| DocumentSearchProofs.WritersIndistinguishable | control-plane/src/documentSearch.ts:140-191 | no query can tell which kind of writer made the changes |
| DocumentSearchProofs.QueryFindsExactlyTheMatches | control-plane/src/documentSearch.ts:60-87 | a query finds exactly the live resources that pass the filter, in order |
| DocumentSearchProofs.PagingIsWhole | control-plane/src/documentSearch.ts:52-104 | pages of one version, read to the end while others write, are together what the first page's state finds, and, row ids being distinct, hold each document once |
| DocumentSearchProofs.BodyReadWhole | control-plane/src/documentSearch.ts:88-95 | reading on from each `nextBodyOffset` gives the whole body |
| DocumentSearchProofs.PageIsSlice | control-plane/src/documentSearch.ts:56-59 | a page is the slice at its offset, also when the early return skips the query |
| DocumentSearchOutcomes.WritesLand | control-plane/src/documentSearch.ts:153-171 | an insert, update or removal lands iff its row is free or taken, is projected at once by an upgraded writer and marked by a legacy one, and touches no other row |
| DocumentSearchOutcomes.MoveLands | control-plane/src/documentSearch.ts:156-159 | an update that changes the row id leaves both rows projected or marked |
| DocumentSearchOutcomes.WrittenIsFound | control-plane/src/documentSearch.ts:42-104 | after any run a query by id finds the resource just written, as written, and nothing else, by whichever writer |
| DocumentSearchOutcomes.FoundInOrder | control-plane/src/documentSearch.ts:86 | what a query finds is in order: newest first, or by title without case, and by id among equals |
| DocumentSearchOutcomes.RefusedIffChanged | control-plane/src/documentSearch.ts:52-104 | a page is refused iff it was asked for at another version, and otherwise has as many documents as its offset and limit leave |
| DocumentSearch.SearchIndex.MarkRow | control-plane/src/documentSearch.ts:153-171 | the two triggers of a row compute the specified change |
| DocumentSearch.SearchIndex.RefreshIndex | control-plane/src/documentSearch.ts:193-209 | a refresh reprojects exactly the dirty rows |
| DocumentSearch.SearchIndex.QueryDocuments | control-plane/src/documentSearch.ts:42-104 | a query refreshes the index and answers with the specified page |
| TopicTreeProofs.ForestIsExact | shared/panelData.ts:525-549 | every panel above the cut lists exactly the topics filed under it, every other panel none |
| TopicTreeProofs.PathNeverFilters | shared/panelData.ts:529-533 | the path filter of `attach` never removes a child |
| TopicTreeProofs.ShownOnceIffNearRoot | shared/panelData.ts:509-551 | no topic is shown twice, and a topic is shown iff it reaches a root in at most 19 steps |
| TopicTreeProofs.ForestIsFinite | shared/panelData.ts:525-549 | following children beyond the cut shows nothing more |
| TopicTreeProofs.CountIsRowsIffAllNearRoot | shared/panelData.ts:552-556 | the heading's count is the number of rows iff every member is near enough to a root |
| TopicTreeProofs.TwoTopicCycleIsHidden | shared/panelData.ts:511-523 | two topics that are each other's parent are counted and not shown |
| TopicTreeOutcomes.FiledInCardOrder | shared/panelData.ts:510-523 | a topic's children, and the roots, are in the order of the card exactly the members whose first other parent on the card it is, or that have none |
| TopicTree.CardTopics.LinkParents | shared/panelData.ts:510-523 | the loop files every member under its parent or among the roots |
| TopicTree.CardTopics.AttachBelow | shared/panelData.ts:525-546 | the recursive walk assigns the specified children |
| TopicTree.CardTopics.Build | shared/panelData.ts:481-551 | the whole card assigns the specified forest |

## Left out

- HTTP, MCP transport, body parsing, timers as such and credential hashing: routes are steps and their callers are already identified.
- Zod schemas and request checkpoints: the inputs of a route have passed them, except where a schema bound decides a result.
- The evidence check of a host-task result: its outcome is an input of the step.
- Policy hash and version checks of host-task grants, `blocked_reason` texts, audit rows and the route that reads a result.
- Script parameters, the owner's combined test-and-claim route (its two halves are modelled) and the listing routes.
- Tool queue: peak values, the event table's own pruning, callers and payloads; the callbacks of a call are taken not to throw.
- Per-second queue sums are integers here, so the rounding of their averages is not modelled.
- Thrive timestamps are numbers; the check that their text is canonical is not modelled.
- Document store: attachments, inbox naming, unique agent names, the Alert adapter and its migration, and the schemas of messages beyond what validation uses.
- Change feed: authorization of a waiter at answer time and a listener that throws.
- Application connections: endpoint normalisation, tool listings and results themselves, and the exact number of waiters.
- Access requests: the tool caller and script grants that follow a client's permissions, rows from before permissions were stored, and OAuth tables (whether a row belongs to an OAuth token, and whether a token belongs to the OAuth client that revokes it, is an input).
- Restarts: the access service's window counters live in memory and start again with the process, and the tool queue's per-second table is opened empty.
- TopicEmbeddingProofs.OldPassagesIffNewlineInside: ranges over titles of 1 to 120 characters, which a Topic admits; the text of a Topic does not repeat its title.
- InstanceAccessLimits.TwentySpanAMinute: takes the clock to be past the first minute of 1970, as the program's is.
- Embeddings: the vectors' numbers, centroids, the similarity score (a given real) and semantic search; titles are cut at 120 characters, not UTF-16 units.
- Document search: FTS ranking and snippets, and a process that opens the index with no kinds registered.
- Topic rows other than their place in the tree: labels, icons, actions and alert bubbles; a panel object is an entry of a map from ids.
- Lock files, configuration, launchers and typed client wrappers, whose checks are single branches.
- TopicTreeProofs.ShownOnceIffNearRoot: assumes members with distinct ids, which document ids are.
- RelatedTopics.ScanOrderIrrelevant: assumes that distinct ids never compare equal in the locale's order.
