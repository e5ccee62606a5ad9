# Run control of the dashboard: a model in Dafny

This project models how the dashboard controls one AI run, on both sides of the
localhost boundary, and proves what holds in every run of it.

Asynchronous code is cut at its awaits. A method becomes a step that runs up to
its request, a continuation with the locals it captured, and a step that runs
from the reply; the environment delivers any reply to any continuation in any
order, among stream events, user actions and retargets. The state machines are
functions on a state datatype; the source's classes and loops are classes and
loops that are proved equal to those functions. Clocks, the filesystem, replies
and random values are inputs.

- `ConversationTypes`, `ConfirmedHistory`, `SessionHistory` and `ConversationRun`
  describe the chat run controller. `ConversationInvariants`,
  `ConversationProgress`, `ConversationLedger` and `ConversationLedgerSteps` hold
  its invariants, `ConversationWorld` its runs, and `ConversationTheorems`,
  `ConversationContext`, `ConversationConfirmations`, `ConversationSessions`,
  `ConversationViews`, `ConversationReplies`, `DeltaStream`, `ConversationStreams`
  and `ConversationTraps` what follows; `ConversationController` is the object.
  `ClientQueries` is the client it sends through, `HistoryPane` and
  `PaneGuarantees` the pane that shows its transcript, and `ChatTalk` joins pane and
  controller.
- `OwnerRegistry` and `SystemRegistry` are the registry of approved roots and its
  leases, `RegistryGuarantees` what it promises; `GatewayBridge`,
  `CanonicalGatewayBridge` and `RunEventStream` the bridge that rechecks them before
  each effect.
- `LocalSession` and `LocalApplicationSession` are the pairing session,
  `SessionGuarantees` what it promises.
- `SseFramer`, `EventHub`, `SubscriptionHub`, `SocketStreams` and `SocketHandler`
  are the streams and their fan-out.
- `ScopeKeys`, `ProjectionCache` and `Redaction` are the small exact cores.

Eight plausible claims are false of the code; each has a run or an input that
shows it, and the exact condition under which it holds. A reply to stop, pause or
resume has no terminal guard (`StopUndoesCompletedView`,
`TerminalIsLostExactly`). A terminal view may keep a live stream
(`TerminalViewMayKeepLiveStream`, `TerminalStreamExactly`), though it never gains
one (`TerminalNeverGainsStream`). Context dropped by the send after an opening is
not flagged (`OpenedContextIsDroppedUnflagged`, `SendDropsExactly`,
`DropsAreFlaggedExactly`). A message that the controller refuses is shown and may
take the answer of an earlier one (`RefusedMessageTakesEarlierAnswer`,
`OpenAnswerBelongsExactly`, `RefusedMessageIsShownExactly`). The completed text in
view need not be the one that the next message carries, when the owner gave two
(`SecondTextIsNotConfirmed`, `CompletedViewIsConfirmed`, `RecheckAgreesExactly`). A lease may outlive a
rebind or a registration once the generations have run out
(`ExhaustedRebindKeepsLease`, `ZeroGenerationIsShared`, `RebindKeepsLeaseExactly`,
`ReregisterKeepsLeaseExactly`). Framing depends on chunking when the text has
CR CR LF (`FramingIsChunkFree`). Nested roots are not seen below a segment that
begins with two dots (`IsWithinExactly`, `DottedRootsNest`).

The comments disagree with the code in two places, and the model follows the
code. `watchWorkspace` is said to invalidate the workspace's cache entries
(apps/gateway/src/subscriptions.ts:86-92), but projection entries are not among
them (`WorkspaceDropsProjections`). Identity drift is said to be cleared by an
explicit rebind only (packages/registry/src/registry.ts:35-36), but unregistering
and registering again ends it too (`StepClearsDrift`).

## Model

| member | source | states |
|---|---|---|
| ConfirmedHistory.BoundedPairsIsLongestFit | packages/client/src/conversation-run.ts:205-219 | A suffix of the pairs respects six pairs and 18000 UTF-8 bytes exactly when it is no longer than the kept one: the kept pairs are the longest suffix that fits |
| ConfirmedHistory.BoundedHistoryIdempotent | packages/client/src/conversation-run.ts:205-233 | Trimming twice is trimming once, for any mixture of turns; the result is whole pairs, at most twelve turns |
| ConfirmedHistory.BoundedHistoryIsSuffix | packages/client/src/conversation-run.ts:205-219 | On whole pairs, trimming keeps a suffix of the turns and never cuts a turn |
| ConfirmedHistory.BoundedHistorySource | packages/client/src/conversation-run.ts:205-219 | Every turn of the bounded context is one of the confirmed turns, from any list |
| ConfirmedHistory.CollectPairs | packages/client/src/conversation-run.ts:206-210 | The first loop finds exactly the user/assistant pairs at even positions |
| ConfirmedHistory.KeepNewest | packages/client/src/conversation-run.ts:211-217 | The second loop keeps exactly the longest fitting suffix |
| ConfirmedHistory.TrimToBudget | packages/client/src/conversation-run.ts:205-219 | The whole method equals the bounded-history function that the theorems are about |
| JsText.Utf8LengthAdds | packages/client/src/conversation-run.ts:211-217 | The byte lengths that the budget counts add up wherever no surrogate pair is cut |
| JsText.Utf8LengthOfParts | packages/client/src/conversation-run.ts:211-217 | Units below 128 take one byte, those below 2048 two, a surrogate pair four and every other unit three |
| ConversationTheorems.StaleReplyIsInert | packages/client/src/conversation-run.ts:196-199 | Resuming a continuation whose captured epoch, scope or selection is not the present one leaves the controller as it is and delivers nothing |
| ConversationTheorems.RenewalOutdatesRequests | packages/client/src/conversation-run.ts:168-199 | Whatever was in flight before a send, stop, pause, resume, open, recover, retarget or close can never change the controller again, over every later run, retargets from A to B and back included |
| ConversationTheorems.RenewalOutdatesFollowUps | packages/client/src/conversation-run.ts:370-400 | The readback that such an outdated control still asks for when it is refused is as outdated: its answer changes nothing and asks for nothing more |
| ConversationTheorems.ViewFollowsClient | packages/client/src/conversation-run.ts:168-184 | In every reachable state the scope of the view is the scope of the client |
| ConversationTheorems.AtMostOneLiveStream | packages/client/src/conversation-run.ts:520-564 | In every reachable state at most one subscription is undisposed; it is the attached one, of the present epochs and the run in view |
| ConversationTheorems.DeadStreamIsSilent | packages/client/src/conversation-run.ts:526-563 | A callback of a disposed subscription changes nothing, in every reachable state |
| ConversationTheorems.RunningIsNeverOrphaned | packages/client/src/conversation-run.ts:272-296 | A running view has a live stream of its run, or a reconcile of its run and epoch is in flight |
| ConversationTheorems.QuiescentViewIsSettled | packages/client/src/conversation-run.ts:272-606 | Once no request of the present epoch is in flight, the view is not submitting, and if it is running its stream is live |
| ConversationTheorems.FactsComeFromReplies | packages/client/src/conversation-run.ts:44-108 | What counts as owner output was in a well-formed reply, of the workspace that was asked, to a request in flight: stream events and other replies add nothing |
| ConversationTheorems.CompletedViewIsOwnerText | packages/client/src/conversation-run.ts:102-108 | A completed view shows exactly an untruncated output that a well-formed owner reply of the asked workspace gave for that run as completed |
| ConversationTheorems.PayloadsAreOwnerText | packages/client/src/conversation-run.ts:235-261 | Every create payload has at most 13 messages: whole pairs of at most 18000 UTF-8 bytes, then the new user turn; every assistant message in it is a completed output from a well-formed owner reply of the asked workspace |
| ConversationTheorems.EachSendConfirmsOnce | packages/client/src/conversation-run.ts:220-233 | A send confirms at most one pair; it joins that send's text with the completed output that a well-formed owner reply of the asked workspace gave for the run that answered its create |
| ConversationTheorems.CreatesAreRetriesOrSettled | packages/client/src/conversation-run.ts:235-296 | Two consecutive creates carry the identical request record, or the view was idle, completed or canceled in between |
| ConversationTheorems.ViewAnswersNewestSend | packages/client/src/conversation-run.ts:235-296 | While a request is active it is that of the newest accepted send, and the run in view is the one that answered it |
| ConversationTheorems.PagesAreAppliedOnce | packages/client/src/conversation-run.ts:721-771 | Run ids are distinct across all pages, at most 224 runs are ever shown, and no two loads apply with one cursor |
| ConversationTheorems.CursorIsExact | packages/client/src/conversation-run.ts:725-771 | A live cursor has seen exactly the runs shown, counts them, stays below 200 and within offset 10000 |
| ConversationTheorems.OlderPagesProgress | packages/client/src/conversation-run.ts:721-771 | A page that leaves a cursor raises both its offset and its count; a page that is not applied changes nothing |
| ConversationTheorems.TranscriptIsOwnerPrefix | packages/client/src/conversation-run.ts:612-771 | If the owner's pages are slices of one newest-first list, the pane always shows the rendering at once of exactly the rows fetched so far, which are the newest of that list, whatever the order of replies; a live cursor asks for the next one |
| ConversationTheorems.LastPageCompletesTranscript | packages/client/src/conversation-run.ts:664-771 | After the last page the pane shows the rendering of the owner's whole list at once |
| ConversationTheorems.RecoveryRespectsTerminal | packages/client/src/conversation-run.ts:313-317 | A reply to reconnect or reconcile leaves a terminal view as it is |
| ConversationTheorems.TerminalIsLostExactly | packages/client/src/conversation-run.ts:346-518 | A terminal view is taken back exactly by a present-epoch reply to stop, pause, resume or their readback that fails or shows the run going on, or by a check whose readback breaks the owner contract |
| ConversationTheorems.TerminalStreamExactly | packages/client/src/conversation-run.ts:406-440 | A reply after which the view is terminal leaves a stream attached exactly when one was attached and the reply is not to a present check that reads the run back as ended |
| ConversationTheorems.StreamRespectsTerminal | packages/client/src/conversation-run.ts:526-563 | No stream callback moves a terminal view |
| ConversationStreams.TerminalNeverGainsStream | packages/client/src/conversation-run.ts:414-564 | No step of any run attaches a stream under a terminal view |
| ConversationStreams.AttachedStreamListens | packages/client/src/conversation-run.ts:520-552 | In every reachable state a subscription listens, with a marker gate that agrees with its count and text within the limit, exactly when it is the attached one and the view is not terminal |
| ConversationStreams.EveryStreamIsJoinedDeltas | packages/client/src/conversation-run.ts:526-552 | From every reachable state on, the text shown follows the reference definition for whatever the attached stream delivers |
| ConversationStreams.EventsCountExactly | packages/client/src/conversation-run.ts:526-552 | In every reachable state an event counts exactly if it comes through the attached stream of an unended view, is of the scope and run in view, is later than all before it and was not seen; a terminal notice then lets go of the stream and reads the run back |
| ConversationStreams.LossIsShownExactly | packages/client/src/conversation-run.ts:553-562 | In every reachable state the loss of the attached stream interrupts an unended view with its code; the loss of any other changes nothing |
| ConversationStreams.ResumedStreamWaitsForOneMore | packages/client/src/conversation-run.ts:475-517 | A reply that the run goes on, to a control, its readback or a reconnect, attaches a fresh stream without text; it waits for the resume markers required so far, and for one more exactly if the control was a resume |
| ConversationStreams.CheckedStreamShowsNoReplay | packages/client/src/conversation-run.ts:421-440 | The newest check of a run that goes on leaves the stream of a running view alone; under any other view that is not terminal it attaches one that shows none of the replay |
| ConversationStreams.OpenedStreamStartsFresh | packages/client/src/conversation-run.ts:276-296 | A create or a recovery of a run that goes on shows the owner's text so far and attaches a fresh stream that waits for no marker, but for a recovered run that is resuming |
| ConversationContext.TrimDropsExactly | packages/client/src/conversation-run.ts:205-219 | Trimming whole pairs drops some exactly when they do not all fit the two bounds |
| ConversationContext.ConfirmFlagsLoss | packages/client/src/conversation-run.ts:220-233 | A confirmation leaves whole pairs that fit; it drops some exactly when the grown context does not fit, and then flags the context as limited |
| ConversationContext.SendDropsExactly | packages/client/src/conversation-run.ts:235-258 | In every reachable state a send drops confirmed turns exactly when no request is active and the pairs that the last opening restored do not fit |
| ConversationContext.DropsAreFlaggedExactly | packages/client/src/conversation-run.ts:243-258 | In every reachable state a send drops turns without showing it exactly when, besides, nothing was flagged at the opening, the view is not canceled, and no session was named or the newest pair fits |
| ConversationWorld.RunKeepsInv | packages/client/src/conversation-run.ts:135-801 | The invariant behind these theorems holds after every sequence of calls, replies, stream events, retargets and closes |
| ConversationConfirmations.CompletedViewIsConfirmed | packages/client/src/conversation-run.ts:220-233 | In every reachable state in which the run of the active request is shown as completed, whichever reply showed it, the newest confirmation is of that request, that run and that question, unless that run counted as confirmed already when the request was sent; its answer is an owner text for the run, and the very text in view if the owner gave one text only |
| ConversationConfirmations.NextSendCarriesAnswer | packages/client/src/conversation-run.ts:243-258 | Then the next send that is accepted carries the confirmed question and answer right before its own text exactly if the two fit 18000 bytes; otherwise it carries nothing but its own text |
| ConversationConfirmations.ConfirmationsAreShown | packages/client/src/conversation-run.ts:220-233 | A step confirms at most one answer, and then shows exactly that run as completed with exactly that text |
| ConversationSessions.SendsContinueTheirSession | packages/client/src/conversation-run.ts:243-258 | An accepted send is recorded with its text and key, and with the session it names; or else, over a completed or canceled view, with the one in view; or else with none |
| ConversationSessions.RunsStayInTheirSession | packages/client/src/conversation-run.ts:276-801 | In every reachable state the run of a send that continues a session is shown in that session, and nothing in the same epoch moves a run to another one |
| ConversationViews.PhaseFollowsStatus | packages/client/src/conversation-run.ts:82-101 | In every reachable state a view that is not idle, submitting or interrupted shows a run, as the status that the owner gave it says; except a completed run still to be read back, and an opened session that cannot be continued |
| ConversationViews.ActionsGoThroughExactly | packages/client/src/conversation-run.ts:235-777 | In every reachable state each of the nine user actions goes through exactly when the phase and the user's own input allow it: the run, the session and the cursor it needs are then there |
| ConversationViews.RefusalsAreNamed | packages/client/src/conversation-run.ts:235-777 | An action that does not go through changes nothing and names the first of its reasons |
| ConversationViews.ActionsAskExactly | packages/client/src/conversation-run.ts:235-777 | An action that goes through sends one request of the present epoch, for the run, session and page in view or named; exactly a send, stop, pause, resume, opening and recovery begin a new epoch; exactly a check, a load and a retry keep the stream |
| ConversationViews.ActionsRememberExactly | packages/client/src/conversation-run.ts:168-258 | An opening and a recovery forget the conversation, a send keeps which run it confirmed last, every other action keeps all of it |
| ConversationViews.LeavingForgets | packages/client/src/conversation-run.ts:180-195 | A close and a retarget to a complete scope forget the conversation in a new epoch; a retarget to an incomplete one changes nothing |
| ConversationReplies.RefusalsAreShown | packages/client/src/conversation-run.ts:272-801 | In every reachable state a refusal of a present request interrupts the view with its code or else with the one that stands for the request; except that a control that does not apply is read back, a readback keeps the code of its control unless the owner breaks its contract, a failing check leaves the phase, and a terminal view stays |
| ConversationReplies.ControlsAreShown | packages/client/src/conversation-run.ts:311-517 | The reply to a present reconnect, control or readback shows the run it admits, or interrupts the view for the first defect of the raw reply, every other field as it was |
| ConversationReplies.ReconcilesAreShown | packages/client/src/conversation-run.ts:571-606 | The readback after a terminal notice shows an ended run; one that goes on, or has completed without its whole text, interrupts the view under the status found |
| ConversationReplies.ChecksAreShown | packages/client/src/conversation-run.ts:414-455 | The newest check shows the run it admits unless that would take back a terminal view; a breach of the owner's contract interrupts the view, any other defect only shows its code |
| ConversationReplies.PagesAreShown | packages/client/src/conversation-run.ts:626-707 | The first page of an opening is followed by a second one if there are more rows; the rows are then shown, unless a page is not the one asked for or a run occurs twice; the opened view, context, limits and cursor |
| ConversationReplies.OlderPagesAreAdded | packages/client/src/conversation-run.ts:731-771 | An older page is added exactly if its cursor is the live one, it is the page asked for, and it repeats no run, neither its own nor one shown; it leaves a cursor exactly while there is more and fewer than 200 runs are shown |
| ConversationReplies.RecheckAgreesExactly | packages/client/src/conversation-run.ts:414-440 | A check of a completed run asked for by the active request shows the text it reads but confirms nothing again: the text in view is that of the newest confirmation exactly if the owner repeats it |
| ConversationReplies.CreatesAreShown | packages/client/src/conversation-run.ts:276-296 | The reply to a send shows the run it admits with its text so far; a completed one is shown as running and read back first |
| ConversationReplies.RecoveriesAreShown | packages/client/src/conversation-run.ts:778-801 | The reply to a recovery shows the run it admits with its text, and that the context before it is unknown |
| DeltaStream.StreamedOutputIsJoinedDeltas | packages/client/src/conversation-run.ts:526-552 | For every event sequence on an attached subscription, the output is the first 65536 units of the old output and all accepted deltas after the required resume markers |
| DeltaStream.NewStreamListens | packages/client/src/conversation-run.ts:520-526 | A new subscription is attached, with every required marker still missing and an empty window |
| DeltaStream.AcceptedIncreases | packages/client/src/conversation-run.ts:530-540 | Accepted events have strictly increasing sequence numbers, although the id window is cleared at 512 |
| ConversationTraps.StopUndoesCompletedView | packages/client/src/conversation-run.ts:346-401 | A reply to stop can take back a completed view: the run that shows it |
| ConversationTraps.TerminalViewMayKeepLiveStream | packages/client/src/conversation-run.ts:421-440 | A terminal view can keep a live stream when a check resubscribes during a stop: the run that shows it |
| ConversationTraps.OpenedContextIsDroppedUnflagged | packages/client/src/conversation-run.ts:692-696 | The run that shows it: open a session, receive its only page, send; a pair is dropped for its size and nothing is flagged as limited |
| ConversationTraps.RefusedMessageTakesEarlierAnswer | apps/web/src/personal-chat-ui.ts:672-693 | A message that the controller refuses while a run is interrupted is shown, and takes the answer of the earlier message when that run is reconnected: the run that shows it |
| ConversationTraps.SecondTextIsNotConfirmed | packages/client/src/conversation-run.ts:225-233 | The run that shows it: a completed run that is read back a second time with another text shows that text, while the first stays confirmed |
| ConversationController.PersonalChatRunController.constructor | packages/client/src/conversation-run.ts:157-162 | A new controller is idle in the client's scope |
| ConversationController.PersonalChatRunController.IsValid | packages/client/src/conversation-run.ts:196-199 | The guard compares epoch, scope and selection with the captured ones |
| ConversationController.PersonalChatRunController.Attach | packages/client/src/conversation-run.ts:520-526 | Disposes the old stream and subscribes with fresh window, gate and stream epoch |
| ConversationController.PersonalChatRunController.Reset | packages/client/src/conversation-run.ts:168-179 | A reset leaves every field as the reset of the specification does |
| ConversationController.PersonalChatRunController.Retarget | packages/client/src/conversation-run.ts:180-184 | A retarget moves client and controller together, or fails without a change |
| ConversationController.PersonalChatRunController.Close | packages/client/src/conversation-run.ts:185-195 | Close disposes the stream and clears the conversation in a new epoch |
| ConversationController.PersonalChatRunController.ConfirmCanonicalOutput | packages/client/src/conversation-run.ts:220-233 | Confirms the active request once, trims, and flags a loss |
| ConversationController.PersonalChatRunController.Send | packages/client/src/conversation-run.ts:235-261 | The whole state after a send, its request record and its three refusals |
| ConversationController.PersonalChatRunController.RetrySubmission | packages/client/src/conversation-run.ts:263-271 | A retry resends the identical request record or is refused |
| ConversationController.PersonalChatRunController.ResumeCreate | packages/client/src/conversation-run.ts:276-296 | Every outcome of a create reply |
| ConversationController.PersonalChatRunController.Reconnect | packages/client/src/conversation-run.ts:302-310 | Abandons the stream and asks for the run, or refuses |
| ConversationController.PersonalChatRunController.ResumeReconnect | packages/client/src/conversation-run.ts:311-339 | Every outcome of the reconnect reply, terminal guard included |
| ConversationController.PersonalChatRunController.BeginReconcile | packages/client/src/conversation-run.ts:565-570 | Abandons the stream before the readback |
| ConversationController.PersonalChatRunController.ResumeReconcile | packages/client/src/conversation-run.ts:571-606 | Every outcome of the reconcile reply |
| ConversationController.PersonalChatRunController.Stop | packages/client/src/conversation-run.ts:346-356 | A stop starts a new epoch and shows a pending control, or refuses |
| ConversationController.PersonalChatRunController.ResumeCancel | packages/client/src/conversation-run.ts:357-376 | Every outcome of the cancel reply; a refusal may lead to a readback |
| ConversationController.PersonalChatRunController.ResumeReadback | packages/client/src/conversation-run.ts:375-400 | Every outcome of the readback after a refused control |
| ConversationController.PersonalChatRunController.RefreshStatus | packages/client/src/conversation-run.ts:406-413 | Only the newest check stays valid |
| ConversationController.PersonalChatRunController.ResumeRefresh | packages/client/src/conversation-run.ts:414-455 | Every outcome of the status reply |
| ConversationController.PersonalChatRunController.Checkpoint | packages/client/src/conversation-run.ts:462-474 | A pause or resume starts a new epoch, or refuses |
| ConversationController.PersonalChatRunController.ResumeCheckpoint | packages/client/src/conversation-run.ts:475-517 | Every outcome of the checkpoint reply; a resumed run raises the marker count |
| ConversationController.PersonalChatRunController.OnEvent | packages/client/src/conversation-run.ts:527-552 | Every stream event: admission, markers, window, delta, terminal notice |
| ConversationController.PersonalChatRunController.OnInterrupted | packages/client/src/conversation-run.ts:553-562 | A lost stream interrupts its own run only |
| ConversationController.PersonalChatRunController.OpenSession | packages/client/src/conversation-run.ts:612-622 | Opening resets and asks for the first page, or refuses |
| ConversationController.PersonalChatRunController.ResumePage | packages/client/src/conversation-run.ts:626-663 | Every outcome of a history page: rejected, followed by a second one, or finished |
| ConversationController.PersonalChatRunController.FinishOpen | packages/client/src/conversation-run.ts:664-707 | The restored view, context, cursor and transcript of an opened session |
| ConversationController.PersonalChatRunController.LoadOlder | packages/client/src/conversation-run.ts:725-730 | A load is sent for the live cursor of the session in view, or refused |
| ConversationController.PersonalChatRunController.ResumeOlder | packages/client/src/conversation-run.ts:731-771 | A page is applied to the cursor that asked for it, or nothing changes |
| ConversationController.PersonalChatRunController.Recover | packages/client/src/conversation-run.ts:773-777 | A recovery resets and asks for the run, or refuses |
| ConversationController.PersonalChatRunController.ResumeRecover | packages/client/src/conversation-run.ts:778-801 | Every outcome of the recovery reply |
| ConversationController.CheckRows | packages/client/src/conversation-run.ts:640-652 | The loop accepts exactly the rows that all are well formed and of the session |
| ConversationController.CheckOlderRows | packages/client/src/conversation-run.ts:742-757 | The loop accepts exactly distinct rows of the session that were not seen before, and collects their ids |
| ConversationController.RenderOldestFirst | packages/client/src/conversation-run.ts:664-683 | The loop renders the transcript, the verified pairs and whether anything is missing |
| ConversationController.RenderOlder | packages/client/src/conversation-run.ts:758-764 | The loop renders an older page |
| ConversationController.DistinctRunsBySize | packages/client/src/conversation-run.ts:660-663 | Comparing the size of the id set with the number of rows detects exactly the repeated runs |
| SessionHistory.OneRowExactly | packages/client/src/conversation-run.ts:664-683 | One row shows its question, if it has one, and then its answer, if it has completed with one; it is verified if it has both and neither is cut |
| SessionHistory.VerifiedAppend | packages/client/src/conversation-run.ts:664-683 | The verified pairs of adjacent pages are those of the older page and then those of the newer one |
| SessionHistory.RenderAppend | packages/client/src/conversation-run.ts:664-770 | The transcript of adjacent pages is the older transcript in front of the newer one |
| ClientQueries.DeliveriesAreForTheirScope | packages/client/src/client.ts:212-276 | In every run each value a query delivers, cached or fresh, was given by the host for exactly that method and those parameters in the scope selected at that moment |
| ClientQueries.LateReplyIsDropped | packages/client/src/client.ts:258-261 | A reply to a query from before a retarget delivers and caches nothing, even after the same scope is selected again |
| ClientQueries.ScopeIsLastSelected | packages/client/src/client.ts:76-79 | In every run the scope selected is that of the last retarget |
| ClientQueries.CacheHoldsLastStored | packages/client/src/client.ts:242-276 | In every run the cache holds an entry for a question exactly if some event stored it last: a present success of the system asked, to a query that may be cached, with no clearing since |
| ClientQueries.CacheHitsExactly | packages/client/src/client.ts:212-241 | In every run a query is answered from the cache exactly with the value stored last for that very question, while it is young enough, and is sent otherwise |
| ClientQueries.RepliesExactly | packages/client/src/client.ts:242-276 | A reply is delivered exactly if its query is in flight and of the present selection, and it is a success of the system asked |
| ClientQueries.DashboardClient.Retarget | packages/client/src/client.ts:76-79 | A retarget replaces the scope and starts a new selection |
| ClientQueries.DashboardClient.Query | packages/client/src/client.ts:212-241 | A query delivers the young cached value of its key or leaves a request in flight |
| ClientQueries.DashboardClient.Finish | packages/client/src/client.ts:242-276 | Every outcome of a reply: stale, mismatched, refused, or cached and delivered |
| HistoryPane.VerifiedAnswerReplacesItsTurn | apps/web/src/personal-chat-ui.ts:557-571 | However loads, late or not, and views interleave, the turn list renders all fetched rows, with the verified answer in the newest run's own cell and nowhere else |
| HistoryPane.OpeningShowsRows | apps/web/src/personal-chat-ui.ts:338-344 | An opened session waits for a verified answer exactly when its newest completed run could not be verified, and names its cell |
| HistoryPane.SettledPaneShowsRows | apps/web/src/personal-chat-ui.ts:357-391 | A settled pane renders all fetched rows after any further loads and views |
| HistoryPane.AnswersStayInTheirCells | apps/web/src/personal-chat-ui.ts:557-693 | From any send on, whatever pages still arrive and however often the user sends again, earlier turns stay and each answer is written only into the cell that its own send appended, until it is stopped or the next send settles it |
| HistoryPane.TalkFollowsHistory | apps/web/src/personal-chat-ui.ts:325-693 | An opened and then continued session shows all rows fetched before the send, verified answer included, and then the talk |
| HistoryPane.RefusedMessageIsShownExactly | apps/web/src/personal-chat-ui.ts:672-693 | The pane shows a message that the controller refuses exactly in the phases interrupted, failed, blocked, paused and recovery required |
| ChatTalk.OpenAnswerBelongsExactly | apps/web/src/personal-chat-ui.ts:552-720 | In every run of a chat pane with its controller, the answer being written is the last cell, under the newest message; the run in view answers a message that was asked, and that is the newest one exactly when the controller accepted it |
| PaneGuarantees.LoadingIsSingle | apps/web/src/personal-chat-ui.ts:357-391 | In every run, openings included, a pane shows that it loads exactly while one load of its present generation is in flight; a further page is asked for exactly if there is one and no such load is |
| PaneGuarantees.FlagsAreLastSet | apps/web/src/personal-chat-ui.ts:325-693 | In every run a pane is busy, and has more to load, as the last opening, message, page, refusal or view that concerned it left it |
| PaneGuarantees.GenerationsCount | apps/web/src/personal-chat-ui.ts:325-684 | The generation counts exactly the openings and messages that were taken |
| PaneGuarantees.MovesWriteExactly | apps/web/src/personal-chat-ui.ts:325-684 | What an opening, an opened session, a message and a page write, and that whatever is late, busy or for another scope leaves the cells alone |
| PaneGuarantees.ViewsWriteExactly | apps/web/src/personal-chat-ui.ts:552-579 | A view of the scope writes into the cell that waits for it and into that of the active answer, each only if it is a model's; no other cell is touched |
| HistoryPane.ChatPane.BeginOpening | apps/web/src/personal-chat-ui.ts:325-337 | An opening starts a new generation with an empty pane, or is refused while busy |
| HistoryPane.ChatPane.FinishOpening | apps/web/src/personal-chat-ui.ts:338-345 | Turns, pending answer and paging flag of an opened session; a late opening is ignored |
| HistoryPane.ChatPane.BeginLoadingOlder | apps/web/src/personal-chat-ui.ts:357-362 | One load at a time, only while there is something older; it captures generation and scope |
| HistoryPane.ChatPane.FinishLoadingOlder | apps/web/src/personal-chat-ui.ts:366-391 | Prepends a page and shifts the pending cell with it; a late or failed load leaves the turns |
| HistoryPane.ChatPane.Send | apps/web/src/personal-chat-ui.ts:672-684 | A message appends its two cells in a new generation, or is refused |
| HistoryPane.ChatPane.FailSending | apps/web/src/personal-chat-ui.ts:688-692 | A refused send ends the busy state of its own generation only |
| HistoryPane.ChatPane.OnChange | apps/web/src/personal-chat-ui.ts:552-579 | Writes the verified answer and the active answer into their cells |
| SseFramer.FramingIsChunkFree | packages/client/src/canonical-gateway-client.ts:432-441 | Frames and leftover are the same for every chunking, empty chunks included, if and only if the text nowhere has CR CR LF |
| SseFramer.SplitAfterCrCrLf | packages/client/src/canonical-gateway-client.ts:435-435 | A split right after CR CR LF gives other frames than the unsplit text |
| SseFramer.NormalizedTwice | packages/client/src/canonical-gateway-client.ts:435-435 | Without CR CR LF, renormalising the buffer with each chunk equals normalising the text once |
| SseFramer.DrainedConserves | packages/client/src/canonical-gateway-client.ts:438-441 | Cutting frames loses no character of the buffer |
| SseFramer.DeliveryIsChunkFree | packages/client/src/canonical-gateway-client.ts:404-441 | Two chunkings of a clean text that raise no size error deliver the same events, fail alike and leave the same buffer |
| SseFramer.DeliveryIsPrefix | packages/client/src/canonical-gateway-client.ts:436-441 | A size error only cuts short: what any chunking delivers is a prefix of what its frames deliver |
| SseFramer.DeliveredOnce | packages/client/src/canonical-gateway-client.ts:405-427 | Delivered ids are pairwise distinct and at most 4097; while open they are the first occurrences of all events so far, in order |
| SseFramer.StreamStaysOpenExactly | packages/client/src/canonical-gateway-client.ts:405-444 | The reader stays open exactly while no buffer exceeds 65536 units, no frame is faulty and its frames have at most 4097 different ids; it ends well exactly if what is left is blank |
| SseFramer.StopsForItsReason | packages/client/src/canonical-gateway-client.ts:405-441 | A chunk that stops an open reader does so for the size of its buffer, or else for the fault of a frame, or else for too many ids |
| SseFramer.EventStreamReader.ConsumeFrame | packages/client/src/canonical-gateway-client.ts:406-427 | One frame: ignored, faulty, repeated, too many, or delivered |
| SseFramer.EventStreamReader.Read | packages/client/src/canonical-gateway-client.ts:428-441 | The loop over one chunk equals normalising, bounding, draining and consuming in order |
| SseFramer.EventStreamReader.End | packages/client/src/canonical-gateway-client.ts:443-444 | A nonblank leftover at the end is an error |
| OwnerRegistry.IsWithinExactly | packages/registry/src/registry.ts:72-75 | The nesting test holds exactly for prefixes whose next segment does not begin with two dots |
| OwnerRegistry.RegisteredRootsAreNotNested | packages/registry/src/registry.ts:130-148 | In every run two registered roots are nested only below a segment that begins with two dots |
| OwnerRegistry.DottedRootsNest | packages/registry/src/registry.ts:72-75 | Two nested roots that register side by side |
| OwnerRegistry.EveryRunKeepsInv | packages/registry/src/registry.ts:171-253 | Over every run id map, root map and generations stay consistent, generations are unique and never above the serial, and drifted systems are unauthorised |
| OwnerRegistry.PassingLeaseIsUndisturbed | packages/registry/src/registry.ts:119-129 | A lease check that passes on a captured root and positive generation proves that no register, rebind or unregister of the system succeeded in between |
| OwnerRegistry.PassingLeaseKeepsIdentity | packages/registry/src/registry.ts:273-299 | Unless generations have run out, a passing check also proves that the directory in place is the one approved at the capture |
| OwnerRegistry.PassingLeaseAgrees | packages/registry/src/registry.ts:273-299 | A lease check passes only on exactly the root and generation of the system with its approved directory in place |
| OwnerRegistry.RebindKeepsLeaseExactly | packages/registry/src/registry.ts:217-244 | After an approved rebind the old lease passes for the new directory exactly when no generation was left and the root stayed the same |
| OwnerRegistry.ReregisterKeepsLeaseExactly | packages/registry/src/registry.ts:171-253 | After an unregister and an approved registration the old lease passes exactly when it had generation zero and the root stayed the same |
| OwnerRegistry.ExhaustedRebindKeepsLease | packages/registry/src/registry.ts:124-128 | A run from the empty registry after which a rebind that throws leaves a lease that passes for another directory |
| OwnerRegistry.ZeroGenerationIsShared | packages/registry/src/registry.ts:273-276 | A run from the empty registry after which a registration that threw leaves generation zero, on which a check passes for another directory after an unregister and a registration |
| OwnerRegistry.DriftIsObserved | packages/registry/src/registry.ts:149-169 | A drift error marks the system |
| OwnerRegistry.StepClearsDrift | packages/registry/src/registry.ts:217-253 | A drifted system leaves that state exactly by an approved rebind or an unregister |
| OwnerRegistry.DriftIsSticky | packages/registry/src/registry.ts:282-299 | After observed drift every resolution fails, whatever the filesystem reports, until then |
| RegistryGuarantees.RegisterAccepts | packages/registry/src/registry.ts:171-206 | A directory that was read alike twice and collides with no registered root is registered under a valid and unused id and the next generation; the whole state afterwards |
| RegistryGuarantees.RegisterRefuses | packages/registry/src/registry.ts:81-206 | Anything else is refused for the first reason that applies, and changes nothing but the number of names given out |
| RegistryGuarantees.RebindExactly | packages/registry/src/registry.ts:217-244 | A rebind approves a directory for a known system exactly if it was read alike twice and no other system's root collides with it; otherwise it changes nothing |
| RegistryGuarantees.UnregisterExactly | packages/registry/src/registry.ts:246-253 | An unregister takes exactly the system, its root and its generation away |
| RegistryGuarantees.ReadingExactly | packages/registry/src/registry.ts:149-169 | A system resolves exactly while it is authorised and the approved directory is in place; anything else read in its place, by a resolution or a revalidation, marks it as drifted, and nothing else does |
| RegistryGuarantees.OtherSystemsStay | packages/registry/src/registry.ts:171-343 | An event about one system leaves the record, the root and the generation of every other one |
| RegistryGuarantees.BindingsWereApproved | packages/registry/src/registry.ts:81-114 | In every run a registered system is bound to a directory that was read alike twice when it was approved for it, and it was not unregistered since |
| RegistryGuarantees.NamesRead | packages/registry/src/registry.ts:175-178 | A name that the registry gives is the prefix and the decimal number, padded to two digits, and can be read back |
| RegistryObject.SystemRegistry.AssertNoOverlap | packages/registry/src/registry.ts:130-148 | The loop reports a duplicate or an overlap exactly when there is one |
| RegistryObject.SystemRegistry.Register | packages/registry/src/registry.ts:171-206 | Result and whole state, error order and counter included |
| RegistryObject.SystemRegistry.Rebind | packages/registry/src/registry.ts:217-244 | Result and whole state |
| RegistryObject.SystemRegistry.Unregister | packages/registry/src/registry.ts:246-253 | Result and whole state |
| RegistryObject.SystemRegistry.ResolveRoot | packages/registry/src/registry.ts:282-299 | Result and whole state, drift marking included |
| RegistryObject.SystemRegistry.BindingGeneration | packages/registry/src/registry.ts:273-276 | Resolves first; a missing generation reads as zero |
| RegistryObject.SystemRegistry.HoldsLease | apps/gateway/src/canonical-gateway-bridge.ts:246-250 | The check of root and then generation, with the drift that either may mark |
| RegistryObject.SystemRegistry.Revalidate | packages/registry/src/registry.ts:305-343 | Result and whole state; drift is never cleared |
| GatewayBridge.CaptureLeases | apps/gateway/src/canonical-gateway-bridge.ts:186-204 | The captured leases agree with the registry when the capture ends |
| GatewayBridge.EffectsKeepTheirLease | apps/gateway/src/canonical-gateway-bridge.ts:306-536 | For every interleaving with registry operations, each POST is dispatched and each success reply sent in a registry state with exactly the captured root and generation, with the approved directory and the workspace found in place; generation zero included |
| GatewayBridge.EffectsAreUndisturbed | apps/gateway/src/canonical-gateway-bridge.ts:306-536 | If the grants agreed with the registry at first, then under a positive generation nothing renewed the binding before any effect, and unless generations ran out the directory in place is the one approved at first |
| GatewayBridge.CapturedLeasesProtectEffects | apps/gateway/src/canonical-gateway-bridge.ts:186-536 | The same from the constructor on, for any registry and approvals |
| GatewayBridge.ApprovalsAreAdmittedAndPending | apps/gateway/src/canonical-gateway-bridge.ts:460-512 | An approval is posted only if a GET showed its run, in its session and scope, awaiting approval of a tool call, then the owner accepted that call, and then a later GET showed the same run awaiting the same call |
| GatewayBridge.EffectsHappenOnce | apps/gateway/src/canonical-gateway-bridge.ts:306-536 | A handle posts at most once and succeeds at most once, only as its grant allows, never after an abort or once a deadline has passed; a read never posts; a success follows its post |
| GatewayBridge.ControlsAreForTheirStatus | apps/gateway/src/canonical-gateway-bridge.ts:394-450 | A control is posted only if a GET showed its run, in its session and scope, in a status that this control takes |
| GatewayBridge.SuccessesReportTheirReply | apps/gateway/src/canonical-gateway-bridge.ts:306-536 | A create is posted only after its preflight came to an end, and a success is the reply that arrived last: in scope, and of the run asked for |
| GatewayBridge.CaptureExactly | apps/gateway/src/canonical-gateway-bridge.ts:186-204 | The capture succeeds exactly if every approved system is named once and found, and then leaves the registry as it was |
| GatewayBridge.CaptureGrants | apps/gateway/src/canonical-gateway-bridge.ts:186-204 | The capture grants every approved system its root, its generation and exactly the permissions approved for it, and grants nothing else |
| GatewayBridge.GuardExactly | apps/gateway/src/canonical-gateway-bridge.ts:306-316 | The check before an effect passes exactly on the captured root and generation with the approved directory in place, and with the workspace unless it is the operator's own |
| GatewayBridge.GuardMarksExactly | apps/gateway/src/canonical-gateway-bridge.ts:306-316 | A check marks the system as drifted exactly when a look that it makes finds something else, and makes the second look only on the captured root and the third only on the captured generation |
| GatewayBridge.ControlsGoThrough | apps/gateway/src/canonical-gateway-bridge.ts:394-450 | A granted control of a run that its precheck finds, in the session asked for and a status it takes, is posted, and the owner's run is answered |
| GatewayBridge.ApprovalsGoThrough | apps/gateway/src/canonical-gateway-bridge.ts:460-512 | An approval whose tool call is shown pending, admitted by the owner, shown pending again and left undisturbed is posted and answers success |
| GatewayBridge.GuardHonours | packages/client/src/canonical-gateway-client.ts:174-214 | A guard that passes at dispatch honours the captured lease in that very registry state |
| CanonicalBridge.CanonicalGatewayBridge.Connect | apps/gateway/src/canonical-gateway-bridge.ts:186-204 | The loop captures one lease per approved system or fails at the first that repeats or cannot be resolved |
| CanonicalBridge.CanonicalGatewayBridge.ValidateLease | apps/gateway/src/canonical-gateway-bridge.ts:306-316 | The check of root, generation and workspace through the registry object |
| RunEventStream.EventIsProjectedExactly | apps/gateway/src/canonical-gateway-bridge.ts:240-260 | Among any registry operations an upstream event is projected exactly when its kind is listed, the registry holds the captured lease as it arrives and nothing before it ended the stream; it gets the next number |
| RunEventStream.FinishedExactly | apps/gateway/src/canonical-gateway-bridge.ts:240-260 | A stream has finished exactly when a cancellation, a terminal kind or a failing lease check ended it |
| RunEventStream.ProjectionsKeepTheirLease | apps/gateway/src/canonical-gateway-bridge.ts:246-257 | Projections are numbered 1, 2, 3, and each is sent in a registry state with exactly the captured root and generation |
| RunEventStream.ProjectionsAreUndisturbed | apps/gateway/src/canonical-gateway-bridge.ts:246-257 | Under a positive generation no projection is sent after the binding was renewed, and unless generations ran out the directory is the one approved at the capture |
| RunEventStream.GatewayEventStream.OnEvent | apps/gateway/src/canonical-gateway-bridge.ts:245-260 | One event through the registry object: stream and registry afterwards |
| LocalSession.GenerationLimits | apps/gateway/src/local-app-session.ts:376-423 | However steps overlap, one pairing generation has at most one redemption, five code comparisons and five proposals |
| LocalSession.RevokedCookieStaysRevoked | apps/gateway/src/local-app-session.ts:192-225 | The cookie that an accepted request presents was redeemed before and never revoked since |
| LocalSession.AcceptedCookieWasRedeemed | apps/gateway/src/local-app-session.ts:221-225 | Every cookie presented with an accepted request had been redeemed |
| LocalSession.LiveLeasesAreCurrent | apps/gateway/src/local-app-session.ts:229-233 | Every lease that is not aborted was handed out for the workspace and pairing selected now, which are still live |
| LocalSession.SocketsNeedLiveSession | apps/gateway/src/local-app-session.ts:186-191 | Browser sockets are tracked only while the current pairing is live |
| LocalSession.ApprovalRotates | apps/gateway/src/local-app-session.ts:126-137 | A proposal is approved exactly while pending, young and unchanged; then every earlier lease is aborted and the new pairing starts with its whole budget |
| SessionGuarantees.AuthorisedExactly | apps/gateway/src/local-app-session.ts:221-233 | A browser request is authorised exactly by the cookie of the present pairing, in a bound and unexpired session whose owner is approved; leases, logouts and proposals ask for the exact origin besides |
| SessionGuarantees.HonouredExactly | apps/gateway/src/local-app-session.ts:192-233 | In every run a request is honoured exactly when it shows a cookie whose code an earlier pairing request redeemed less than eight hours before, with nothing in between that ended the session |
| SessionGuarantees.PairingExactly | apps/gateway/src/local-app-session.ts:387-423 | Pairing succeeds exactly with the present code, once, within 300 seconds and five attempts, from the exact origin with an approved owner; another code changes only the attempts and the record |
| SessionGuarantees.PairingStartsExactly | apps/gateway/src/local-app-session.ts:376-386 | A pairing body is read only where it could still pair, and until then nothing changes |
| SessionGuarantees.RedemptionsShowedTheCode | apps/gateway/src/local-app-session.ts:387-423 | Every redemption on record was made by a pairing request that showed the code of that very pairing, in time |
| SessionGuarantees.EndsExactly | apps/gateway/src/local-app-session.ts:192-204 | The exact events that end a session; such a step aborts the lease and drops proposal and sockets, and any other changes authority by a redemption only |
| SessionGuarantees.LeasesEndExactly | apps/gateway/src/local-app-session.ts:229-233 | A lease that was handed to an effect is aborted at a later moment exactly if an event since then ended the session |
| SessionGuarantees.ProposingExactly | apps/gateway/src/local-app-session.ts:325-365 | A proposal is made exactly by an authorised browser, within five and with none pending, for another workspace that is found, to a host that listens |
| SessionGuarantees.ApprovalsWereProposed | apps/gateway/src/local-app-session.ts:126-137 | An approval rotates only to a workspace that the paired browser proposed at most 90 seconds before, in the same session, under the id named, not denied since, with the directory captured then |
| SessionGuarantees.RotationExactly | apps/gateway/src/local-app-session.ts:163-180 | The host rotates exactly while the owner is approved and the workspace can be captured; otherwise nothing changes |
| SessionGuarantees.DenyingExactly | apps/gateway/src/local-app-session.ts:138-144 | The host denies exactly the pending proposal that it names, within 90 seconds; otherwise nothing changes |
| SessionGuarantees.DenialIsFinal | apps/gateway/src/local-app-session.ts:138-144 | A denied proposal can no longer be approved, and keeps everything but its state |
| SessionGuarantees.TrackingExactly | apps/gateway/src/local-app-session.ts:186-191 | A socket is tracked exactly by a bound and unexpired session whose owner is approved, and forgotten when it closes |
| SessionGuarantees.PortIsBoundOnce | apps/gateway/src/local-app-session.ts:100-125 | The port is bound once, by binding only, to a port in range |
| LocalApplication.LocalApplicationSession.Revoke | apps/gateway/src/local-app-session.ts:196-204 | Aborts the lease and clears session, proposal and sockets |
| LocalApplication.LocalApplicationSession.Active | apps/gateway/src/local-app-session.ts:192-195 | A stale owner revokes; otherwise port and expiry decide |
| LocalApplication.LocalApplicationSession.IsSession | apps/gateway/src/local-app-session.ts:221-224 | The active session's own cookie, and no other |
| LocalApplication.LocalApplicationSession.ActiveBrowserSignal | apps/gateway/src/local-app-session.ts:229-233 | Hands out the present lease to an authorised browser only |
| LocalApplication.LocalApplicationSession.BeginPairing | apps/gateway/src/local-app-session.ts:376-386 | The checks before the body is read |
| LocalApplication.LocalApplicationSession.FinishPairing | apps/gateway/src/local-app-session.ts:387-423 | The same checks again, then one attempt, then redemption |
| LocalApplication.LocalApplicationSession.CheckProposalLimits | apps/gateway/src/local-app-session.ts:318-324 | Count and pending limit, the same before and after the body |
| LocalApplication.LocalApplicationSession.BeginProposal | apps/gateway/src/local-app-session.ts:311-324 | The checks before the body is read |
| LocalApplication.LocalApplicationSession.FinishProposal | apps/gateway/src/local-app-session.ts:325-365 | The same checks again, then the proposal |
| LocalApplication.LocalApplicationSession.RotateWorkspaceFromHost | apps/gateway/src/local-app-session.ts:163-180 | Validates first, then revokes and starts a new pairing |
| LocalApplication.LocalApplicationSession.ApproveWorkspaceRequest | apps/gateway/src/local-app-session.ts:126-137 | Rotates to the proposed workspace |
| LocalApplication.LocalApplicationSession.DenyWorkspaceRequest | apps/gateway/src/local-app-session.ts:138-144 | Marks a live proposal as denied |
| LocalApplication.LocalApplicationSession.LogOut | apps/gateway/src/local-app-session.ts:425-434 | An authorised logout revokes |
| LocalApplication.LocalApplicationSession.TrackBrowserSocket | apps/gateway/src/local-app-session.ts:186-191 | Tracks sockets of an active session only |
| EventHub.SystemsDoNotInterfere | apps/gateway/src/subscriptions.ts:60-84 | What one system's subscribers receive from any interleaving equals what they receive without the publishes of other systems, numbers and times included |
| EventHub.NumbersHaveNoGap | apps/gateway/src/subscriptions.ts:70-71 | A system's publishes are numbered consecutively, however systems interleave |
| EventHub.EqualEventsAreApart | apps/gateway/src/subscriptions.ts:67-69 | Equal events are let through at least 1000 ms apart, for any clock |
| EventHub.SuppressedExactly | apps/gateway/src/subscriptions.ts:67-69 | A publish is suppressed exactly when an equal event was let through less than 1000 ms before |
| EventHub.KeyNamesItsEvent | packages/protocol/src/methods.ts:103-107 | The dedupe key determines system, workspace, event and digest, whatever the event name contains |
| EventHub.WorkspaceIsRequired | apps/gateway/src/subscriptions.ts:61-66 | Publishing without a workspace throws and changes nothing |
| EventHub.EventsReachTheirSubscribers | apps/gateway/src/subscriptions.ts:42-84 | In every run a published event is delivered once, in subscription order, to exactly those who subscribed before and have not left, of the same system, and with no workspace or that of the event |
| EventHub.NumbersAreAll | apps/gateway/src/subscriptions.ts:70-71 | The last number of a system has grown by exactly its publishes |
| EventHub.ReceivedIsAll | apps/gateway/src/subscriptions.ts:73-84 | Whatever a publish delivers to the subscribers of a system is among what they receive |
| HubObject.SubscriptionHub.Subscribe | apps/gateway/src/subscriptions.ts:42-47 | Whole state and the new id |
| HubObject.SubscriptionHub.Unsubscribe | apps/gateway/src/subscriptions.ts:49-51 | Whole state |
| HubObject.SubscriptionHub.Publish | apps/gateway/src/subscriptions.ts:60-84 | Whole state; the loop delivers to exactly the matching subscribers in order |
| SocketStreams.OneHubSubscription | apps/gateway/src/server.ts:376-396 | A socket owns one hub subscription at most, for the selected workspace |
| SocketStreams.OneLiveStream | apps/gateway/src/server.ts:287-379 | All streams but one at most are cancelled; that one is current and runs in the selected workspace |
| SocketStreams.SupersededStreamIsSilent | apps/gateway/src/server.ts:315-330 | A stream callback sends exactly when its stream is the current one and allowed; it then is uncancelled and in the selected workspace |
| SocketStreams.ClosedSocketIsSilent | apps/gateway/src/server.ts:423-429 | After the close no subscription and no live stream remain, and no later event changes or sends anything |
| SocketStreams.LiveStreamExactly | apps/gateway/src/server.ts:287-379 | In every run the live stream is exactly the one of the last valid run subscription that no later run frame, close or subscription to another workspace has ended |
| SocketStreams.HubSubscriptionExactly | apps/gateway/src/server.ts:342-429 | In every run hub events reach the socket exactly through the subscription of the last valid subscribe frame that no later valid subscription, of a workspace or of a run elsewhere, and no close has replaced |
| SocketStreams.HubEventsExactly | apps/gateway/src/server.ts:384-398 | A hub event is sent exactly if it comes through that subscription |
| SocketStreams.ClosedExactly | apps/gateway/src/server.ts:423-429 | A socket is closed exactly after a close event |
| SocketHandling.SocketHandler.OnRunSubscribe | apps/gateway/src/server.ts:287-332 | Whole state after a run subscription, valid or not |
| SocketHandling.SocketHandler.OnRunUnsubscribe | apps/gateway/src/server.ts:333-340 | Whole state after a run unsubscription |
| SocketHandling.SocketHandler.OnSubscribe | apps/gateway/src/server.ts:342-406 | Whole state after a workspace subscription, valid or not |
| SocketHandling.SocketHandler.OnClose | apps/gateway/src/server.ts:423-429 | The loop leaves the hub for every own subscription |
| SocketHandling.SocketHandler.OnStream | apps/gateway/src/server.ts:315-330 | Sends for the current epoch only |
| Redaction.RedactionIsComplete | scripts/mc1/lib.ts:585-614 | Bracket-free secrets never survive in any string value of any nested input, if and only if none of them is part of REDACTED |
| Redaction.RedactionIsIdempotent | scripts/mc1/lib.ts:585-614 | For bracket-free secrets redacting twice is redacting once, for every input, if and only if none of them is part of REDACTED |
| Redaction.OrderedSecrets | scripts/mc1/lib.ts:589-591 | The ordered list has each non-empty secret once, longest first |
| Redaction.ReplaceLeavesNone | scripts/mc1/lib.ts:596-596 | Cutting one secret out leaves none of it and creates no other |
| Redaction.RedactText | scripts/mc1/lib.ts:593-599 | The loop applies every secret in order |
| Redaction.ReplaceKeepsTheRest | scripts/mc1/lib.ts:596-596 | Replacing cuts a text at occurrences of the secret and puts the token in their place: everything between them stays |
| Redaction.SecretKeysExactly | scripts/mc1/lib.ts:605-610 | A key is treated as secret exactly if it spells one of the words somewhere, in letters of either case, with at most one character that ends no line between api and key |
| Redaction.RedactionKeepsTheTree | scripts/mc1/lib.ts:592-613 | Every place not under a secret key stays, with the same shape and keys; a text without secrets is untouched, and exactly the values of keys that name a secret are dropped |
| ScopeKeys.KeysAreTuples | packages/protocol/src/methods.ts:99-107 | Joined keys determine their parts when one part at most may contain colons |
| ScopeKeys.TwoFreePartsCollide | packages/protocol/src/methods.ts:99-102 | With two free parts they do not: two keys that collide |
| ProjectionCache.CacheRefinesTable | packages/os-read-adapter/src/cache.ts:45-81 | Over every run each projection lookup answers as a table keyed by whole tuples would |
| ProjectionCache.SystemDropsItsProjections | packages/os-read-adapter/src/cache.ts:72-82 | Invalidating a system drops exactly its own projections |
| ProjectionCache.WorkspaceDropsProjections | packages/os-read-adapter/src/cache.ts:84-94 | Invalidating a workspace drops a projection exactly when the workspace is named proj, and then those of the whole system |
| ProjectionCache.LookupsExactly | packages/os-read-adapter/src/cache.ts:28-82 | In every run a lookup answers exactly with the value put last for that very system, workspace, path, time and size, while no more than its lifetime has passed, nothing dropped it and no lookup found it too old |
| ProjectionCache.CountersAreExact | packages/os-read-adapter/src/cache.ts:28-43 | In every run hits counts the lookups that were answered and misses the others |
| ProjectionCache.SystemDropsItsKeys | packages/os-read-adapter/src/cache.ts:72-82 | Invalidating a system drops exactly the keys made for it, projections or not |
| ProjectionCache.WorkspaceDropsItsKeys | packages/os-read-adapter/src/cache.ts:84-94 | Invalidating a workspace drops exactly the keys of the system with that workspace in second place and at least one more part |
| ProjectionCache.DisposableCache.Put | packages/os-read-adapter/src/cache.ts:22-26 | Whole state, or failure on an invalid system id |
| ProjectionCache.DisposableCache.Fetch | packages/os-read-adapter/src/cache.ts:28-43 | Value, expiry and counters |
| ProjectionCache.DisposableCache.DropSystem | packages/os-read-adapter/src/cache.ts:72-82 | The loop drops exactly the keys of the system and counts them |
| ProjectionCache.DisposableCache.DropWorkspace | packages/os-read-adapter/src/cache.ts:84-94 | The loop drops exactly the keys with the prefix and counts them |

## Left out

- Receipts, usage, cost and status text of a run: display only; a malformed receipt is an error outcome of the reply.
- Field-by-field shape checks of replies, rows, pages and frames: each is one flag of the reply, chosen by the environment.
- Resume markers beyond the largest safe integer: the required count is an unbounded number, so the model has no saturation there.
- The `changed` callback of the controller: it is taken not to call back into the controller, and a feed not to call back inside `subscribe` or to throw.
- The `finally` blocks of the client that release abort controllers: a finished handle does nothing more.
- GatewayBridge.EffectsAreUndisturbed: under generation zero only root, generation and directory at the effect are promised (EffectsKeepTheirLease), because a registry that has run out of generations reuses zero (ZeroGenerationIsShared).
- RunEventStream.ProjectionsAreUndisturbed: the same holds of a stream opened under generation zero.
- Retrying, reconnecting, recovering, clearing and retargeting of a chat pane, and its search, scrolling and status line: the pane theorems cover openings, loads, views and sends.
- The dispatch of the stream's GET under its own lease check: the stream is modelled from the moment it is open.
- The several GETs of status, models, history and diagnostics: a read is any number of GETs before its final lease check, and the tolerated failure of the conversation probe is one of their outcomes.
- Credentials, origins, headers and response parsing of the gateway client: a credential resolves or not, a reply is accepted or refused.
- The deadline of a request: it may pass at any moment and then fails that request.
- The chunk decoder and the parsing of one frame: chunks are decoded text, parsing is an arbitrary function of the frame.
- The abort checks inside the stream reader between two events of one chunk: the reader models framing and delivery, not cancellation.
- Cookies, tokens and pairing codes as strings: each generation has one of each, and comparing is equality.
- Asset serving and the read-only routes of the pairing session, beyond their session check.
- The record objects of the registry: records are values in the map, so the defensive copies that the source returns need no model.
- Registry labels, timestamps and operating-system versions: no decision reads them.
- Listener exceptions and listeners that change subscriptions while an event is published.
- `watchWorkspace`, the layout manager, panels, normalizers, installers and process control: each part would add only easy members.
- Insertion order of the cache and of the root map: no result depends on it.
- Redaction of object keys: the source leaves keys as they are, and so does the model.
