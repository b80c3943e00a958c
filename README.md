# ch-ai-agent: a verified model of the agent-run prototype

This project models the logic of the ch-ai-agent UI prototype: an agent that copies
a user's calling settings to another user, in four steps. The steps are Fetch,
Analyze, Review (human approval) and Apply.

What is modelled:

- **The two run pages.** `AgentWorkspacePage` tracks the run as idle, running, review or done.
  The older `RunAgentPage` reads the run's progress off the step statuses.
  - Each click handler and each timer callback is one transition function on a page record.
  - A class per page holds the same state in mutable fields. Its methods perform the
    transitions in place, and each method is proved equal to its transition function.
  - Timer callbacks are events that fire unconditionally, as in the code: stopping or
    cancelling a run cancels no pending callback.
- **The control panel.** This covers the configuration summary, the toggle count and the
  status pill. It also covers the footer actions per run phase, the collapse effect, and
  the validation tooltip and chat input of its run and chat handlers.
- **The chat proxy** (`api/ask-ai-agent.ts`). It is a function from the request, whether the
  API key is set, and the upstream service's outcome to the response. The validation steps run in
  order: the method (405), then the key (500), then the body (400), then sanitising (400).
  Upstream failures keep their status.
- **The Ask AI client** (`src/utils/askAiAgent.ts`). This covers the system-prompt builder
  (a method that pushes lines onto a list), the role remapping, and the mapping of every
  outcome to a reply string.
  - The client shows a configuration hint when an error mentions "API key".
  - None of the proxy's error texts has the letter k, so that hint is never reached
    through the proxy. `AskAi.ProxyErrorsTakeGenericBranch` proves this.
- **The Ask AI chat tab.** This covers the context line, the greeting per run status, and
  the send handler. The send handler is split at its `await` into a start event and a
  finish event.
- **The relative-time and lookup helpers** of agent cards, knowledge items and the agent
  details page.
  - The time elapsed is an integer number of milliseconds given as a parameter.
  - `Math.floor(diffMs / unit)` is Dafny's `/`, which floors for a positive divisor.
- **The agent list.** This covers the search and status filter, the split into Control Hub and
  organisation sections, the empty-state text and the placeholder titles.

Shared vocabulary lives in `text.dfy` (an `Option`, an order-keeping `Filter`, and trimming,
splitting, joining and number-to-text for strings) and `workflow.dfy` (the step list, its
rewrites, the log tick, the toggles and the calling-settings diff).

## Model

| member | source | states |
|---|---|---|
| `Workflow.InitialSteps` | src/pages/AgentWorkspacePage.tsx:89-124 | four steps, all pending and without duration; every step but Review has a non-empty log list starting at index 0 |
| `Workflow.MarkAt` | src/pages/AgentWorkspacePage.tsx:206-208 | the per-index `prev.map` rewrite: only step `i` changes, and only its status and (when given) its duration |
| `Workflow.MarkAtStatuses` | src/pages/AgentWorkspacePage.tsx:206-208 | in the list of statuses, marking step `i` replaces the status at `i` and no other |
| `Workflow.BeginFetch` | src/pages/AgentWorkspacePage.tsx:205-207 | the 500 ms rewrite: step 0 running; its frame follows from `Workflow.MarkAt`; `Workspace.StageAdvances` gives the whole list at each stage |
| `Workflow.FinishFetch` | src/pages/AgentWorkspacePage.tsx:211-214 | the 3000 ms rewrite: step 0 completed in "340ms", step 1 running; the resulting list is stated by `Workspace.StartThenTimersReachReview` |
| `Workflow.FinishAnalyze` | src/pages/AgentWorkspacePage.tsx:218-221 | the 4000 ms rewrite: step 1 completed in "1.2s", step 2 in review; stated by `Workspace.StartThenTimersReachReview` |
| `Workflow.ApproveReview` | src/pages/AgentWorkspacePage.tsx:252-255 | the approve rewrite: step 2 completed in "5.4s", step 3 running; stated by `Workspace.StageAdvances` |
| `Workflow.FinishApply` | src/pages/AgentWorkspacePage.tsx:268-270 | the apply rewrite: step 3 completed in "820ms"; stated by `Workspace.ApproveThenApplyCompletes` |
| `Workflow.Recolor` | src/pages/AgentWorkspacePage.tsx:246-248 | the per-status `prev.map` rewrite: every step of status `from` gets status `to`, nothing else about any step changes |
| `Workflow.LogTick` | src/pages/AgentWorkspacePage.tsx:136-158 | the log timer: advances the active running step's log index modulo its log count; `Workflow.LogTickFrame` and `Workflow.LogTicksStayInRange` state what it changes and keeps |
| `Workflow.LogTickFrame` | src/pages/AgentWorkspacePage.tsx:136-158 | a log tick changes only the active step, only when it is running with logs, and the new index is the old one plus one modulo the log count |
| `Workflow.LogTicksStayInRange` | src/pages/AgentWorkspacePage.tsx:141-149 | any number of ticks keep the log index inside the log list and leave every status unchanged |
| `Workflow.StatusIcon` | src/pages/AgentWorkspacePage.tsx:369-377 | `getStepStatusIcon`: one icon name per status; `Workflow.StatusIconInjective` states that no two share one |
| `Workflow.StatusIconInjective` | src/pages/AgentWorkspacePage.tsx:369-377 | `getStepStatusIcon` gives each status its own icon |
| `Transfer.FixtureChangedCount` | src/pages/AgentWorkspacePage.tsx:126-133 | four rows of the calling-settings diff are changed |
| `Transfer.DisplayName` | src/pages/AgentWorkspacePage.tsx:275-276 | the display name is the prefix of the user's label before the first " (" |
| `Workspace.StartRunNeedsBothUsers` | src/pages/AgentWorkspacePage.tsx:180-183 | starting without both users changes nothing |
| `Workspace.Initial` | src/pages/AgentWorkspacePage.tsx:65-124 | the page's initial state; `Workspace.InitialWithUsersAtStageZero` places it at the happy path's first stage |
| `Workspace.StartRun` | src/pages/AgentWorkspacePage.tsx:179-195 | `handleStartRun`: refused without both users, else execution view, running, step 0 active and the config message; stated by `Workspace.StartRunNeedsBothUsers` and `Workspace.StageAdvances` |
| `Workspace.FetchStarted` | src/pages/AgentWorkspacePage.tsx:197-208 | the 500 ms timer; stated with the next two by `Workspace.StartThenTimersReachReview` |
| `Workspace.FetchDone` | src/pages/AgentWorkspacePage.tsx:210-215 | the 3000 ms timer |
| `Workspace.AnalyzeDone` | src/pages/AgentWorkspacePage.tsx:217-231 | the 4000 ms timer: review state and the review prompt |
| `Workspace.StopRun` | src/pages/AgentWorkspacePage.tsx:237-249 | `handleStopRun`; stated by `Workspace.StopFailsRunningSteps` and `Workspace.StopDoesNotCancelTimers` |
| `Workspace.Approve` | src/pages/AgentWorkspacePage.tsx:251-266 | `handleApprove`; stated with the apply timer by `Workspace.ApproveThenApplyCompletes` |
| `Workspace.ApplyDone` | src/pages/AgentWorkspacePage.tsx:267-289 | the apply timer: done state and the summary, naming the users the approve handler's closure captured (275-276); stated by `Workspace.ApproveThenApplyCompletes` and `Workspace.SummaryNamesUsersAtApproval` |
| `Workspace.Reject` | src/pages/AgentWorkspacePage.tsx:293-305 | `handleReject`; stated by `Workspace.RejectFailsReviewSteps` and `Workspace.RejectAtReview` |
| `Workspace.FinishRun` | src/pages/AgentWorkspacePage.tsx:307-359 | `handleDone`; stated by `Workspace.FinishRunRestoresInitial` and `Workspace.FinishRunIdempotent` |
| `Workspace.Tick` | src/pages/AgentWorkspacePage.tsx:136-158 | the log timer on the page; stated by `Workspace.TickOnlyMovesActiveLog` and `Workspace.TickKeepsStage` |
| `Workspace.Apply` | src/pages/AgentWorkspacePage.tsx:136-359 | one handler or timer per event; `Workspace.HappyPathStages` states what sequences of them reach |
| `Workspace.StartThenTimersReachReview` | src/pages/AgentWorkspacePage.tsx:179-231 | start and its three timers give steps completed '340ms', completed '1.2s', review, pending; active index 2; state review; three messages |
| `Workspace.ApproveThenApplyCompletes` | src/pages/AgentWorkspacePage.tsx:251-291 | approve and the apply timer complete all steps, end in done, and record the display names and the four changed diff rows in the summary |
| `Workspace.SummaryNamesUsersAtApproval` | src/pages/AgentWorkspacePage.tsx:251-289 | approve, stop, choose another source user and let the apply timer fire: the summary names the users chosen at approval while the page shows the new one |
| `Workspace.SummaryNamesCapturedUsers` | src/pages/AgentWorkspacePage.tsx:267-281 | after any events ending with the apply timer, the run is done and the summary names the users that timer captured, with four settings updated |
| `Workspace.StopFailsRunningSteps` | src/pages/AgentWorkspacePage.tsx:237-249 | stop fails exactly the running steps, goes idle, appends one message; every other field, and everything about the steps but the status, is unchanged |
| `Workspace.StopDoesNotCancelTimers` | src/pages/AgentWorkspacePage.tsx:217-231 | after a stop during Analyze, the pending analysis timer still puts the page in review |
| `Workspace.RejectFailsReviewSteps` | src/pages/AgentWorkspacePage.tsx:293-305 | reject fails exactly the steps in review, goes idle, appends one message; every other field, and everything about the steps but the status, is unchanged |
| `Workspace.RejectAtReview` | src/pages/AgentWorkspacePage.tsx:293-305 | rejecting at review leaves completed, completed, failed, pending |
| `Workspace.FinishRunRestoresInitial` | src/pages/AgentWorkspacePage.tsx:307-359 | "run another transfer" restores every initial value from any state |
| `Workspace.FinishRunIdempotent` | src/pages/AgentWorkspacePage.tsx:307-359 | doing it twice is doing it once |
| `Workspace.TickOnlyMovesActiveLog` | src/pages/AgentWorkspacePage.tsx:136-158 | a tick moves only the active running step's log index, keeping it in range |
| `Workspace.InitialWithUsersAtStageZero` | src/pages/AgentWorkspacePage.tsx:65-87 | the initial page with both users chosen is the happy path's first stage |
| `Workspace.StageAdvances` | src/pages/AgentWorkspacePage.tsx:179-291 | each happy-path event moves the page from one stage to the next |
| `Workspace.TickKeepsStage` | src/pages/AgentWorkspacePage.tsx:136-158 | a log tick keeps the page at its stage |
| `Workspace.HappyPathStages` | src/pages/AgentWorkspacePage.tsx:179-291 | any prefix of start, three timers, approve and apply, with ticks interleaved, reaches the stage its milestone count names |
| `Workspace.StagesAreOrderly` | src/pages/AgentWorkspacePage.tsx:206-289 | at every stage at most one step is running or in review, and every step before the active one is completed |
| `Workspace.HappyPathIsOrderly` | src/pages/AgentWorkspacePage.tsx:206-289 | so the same holds after every event of the happy path |
| `Workspace.WorkspacePage.constructor` | src/pages/AgentWorkspacePage.tsx:65-124 | the page starts with the initial state |
| `Workspace.WorkspacePage.SelectSourceUser` | src/pages/AgentWorkspacePage.tsx:412-422 | only the source user changes |
| `Workspace.WorkspacePage.SelectTargetUser` | src/pages/AgentWorkspacePage.tsx:448-458 | only the target user changes |
| `Workspace.WorkspacePage.ChangeAdvancedSetting` | src/pages/AgentWorkspacePage.tsx:175-177 | only the one toggle changes |
| `Workspace.WorkspacePage.HandleStartRun` | src/pages/AgentWorkspacePage.tsx:179-195 | the new state is the start transition of the old one |
| `Workspace.WorkspacePage.FireFetchStarted` | src/pages/AgentWorkspacePage.tsx:197-208 | the new state is the 500 ms timer's transition of the old one |
| `Workspace.WorkspacePage.FireFetchDone` | src/pages/AgentWorkspacePage.tsx:210-215 | the new state is the 3000 ms timer's transition of the old one |
| `Workspace.WorkspacePage.FireAnalyzeDone` | src/pages/AgentWorkspacePage.tsx:217-231 | the new state is the 4000 ms timer's transition of the old one |
| `Workspace.WorkspacePage.HandleStopRun` | src/pages/AgentWorkspacePage.tsx:237-249 | the new state is the stop transition of the old one |
| `Workspace.WorkspacePage.HandleApprove` | src/pages/AgentWorkspacePage.tsx:251-266 | the new state is the approve transition of the old one |
| `Workspace.WorkspacePage.FireApplyDone` | src/pages/AgentWorkspacePage.tsx:267-289 | the new state is the apply timer's transition of the old one, with the users captured at approval |
| `Workspace.WorkspacePage.HandleReject` | src/pages/AgentWorkspacePage.tsx:293-305 | the new state is the reject transition of the old one |
| `Workspace.WorkspacePage.HandleDone` | src/pages/AgentWorkspacePage.tsx:307-359 | the page is back to its initial state |
| `Workspace.WorkspacePage.FireLogTick` | src/pages/AgentWorkspacePage.tsx:136-158 | the new state is the tick transition of the old one |
| `RunAgent.InitialOffersStartOnly` | src/pages/RunAgentPage.tsx:327-330 | a fresh page offers the start button only, and its completion test is false |
| `RunAgent.StartAndApprovalExclusive` | src/pages/RunAgentPage.tsx:472-483 | start and approval are never offered together |
| `RunAgent.StartTransferNeedsBothUsers` | src/pages/RunAgentPage.tsx:133-136 | starting without both users changes nothing |
| `RunAgent.Initial` | src/pages/RunAgentPage.tsx:48-97 | the page's initial state; `RunAgent.InitialOffersStartOnly` states what it offers |
| `RunAgent.IsReviewPending` | src/pages/RunAgentPage.tsx:327 | some step is in review; it decides the approval buttons (`RunAgent.StartAndApprovalExclusive`) |
| `RunAgent.IsWorkflowComplete` | src/pages/RunAgentPage.tsx:328-330 | the page's completion test, every step completed or pending with one completed; `RunAgent.AllCompletedIsComplete` and `RunAgent.CancelShowsCompleteBannerAsWritten` relate it to real completion |
| `RunAgent.CompleteBannerAsWritten` | src/pages/RunAgentPage.tsx:642-649 | the banner as rendered, over the diff with the page's completion test |
| `RunAgent.StartTransfer` | src/pages/RunAgentPage.tsx:132-150 | `handleStartTransfer`; stated by `RunAgent.StartTransferNeedsBothUsers` and `RunAgent.RunReachesReview` |
| `RunAgent.FetchStarted` | src/pages/RunAgentPage.tsx:152-165 | the 500 ms timer; stated with the next two by `RunAgent.RunReachesReview` |
| `RunAgent.FetchDone` | src/pages/RunAgentPage.tsx:166-172 | the 3000 ms timer |
| `RunAgent.AnalyzeDone` | src/pages/RunAgentPage.tsx:173-187 | the 4000 ms timer: step 2 in review and the review prompt |
| `RunAgent.ApproveTransfer` | src/pages/RunAgentPage.tsx:192-205 | `handleApproveTransfer`; stated with the apply timer by `RunAgent.ApproveThenApplyCompletes` |
| `RunAgent.ApplyDone` | src/pages/RunAgentPage.tsx:207-219 | the apply timer: step 3 completed and the completion message |
| `RunAgent.CancelTransfer` | src/pages/RunAgentPage.tsx:222-234 | `handleCancelTransfer`; stated by `RunAgent.CancelPendsReviewSteps` and `RunAgent.CancelLeavesOnlyReset` |
| `RunAgent.TypeInput` | src/pages/RunAgentPage.tsx:520 | the input's change handler |
| `RunAgent.SendMessage` | src/pages/RunAgentPage.tsx:236-248 | `handleSendMessage`; stated by `RunAgent.SendMessageAppendsInput` |
| `RunAgent.AiReply` | src/pages/RunAgentPage.tsx:249-257 | the reply timer: the canned reply is appended |
| `RunAgent.Reset` | src/pages/RunAgentPage.tsx:260-306 | `handleReset`; stated by `RunAgent.ResetRestoresInitial` |
| `RunAgent.Tick` | src/pages/RunAgentPage.tsx:98-120 | the log timer; stated by `RunAgent.TickOnlyMovesActiveLog` |
| `RunAgent.Apply` | src/pages/RunAgentPage.tsx:98-306 | one handler or timer per event; `RunAgent.CompleteBannerOnlyAfterApply` is stated over sequences of them |
| `RunAgent.RunReachesReview` | src/pages/RunAgentPage.tsx:132-190 | start and its timers give completed, completed, review, pending; active index 2; chat mode; exactly the config, analysing and review-prompt messages in that order; approval offered |
| `RunAgent.ApproveThenApplyCompletes` | src/pages/RunAgentPage.tsx:192-220 | approve and the apply timer complete every step, and both completion tests hold |
| `RunAgent.CancelPendsReviewSteps` | src/pages/RunAgentPage.tsx:222-234 | cancel sends exactly the steps in review back to pending and appends one message; every other field, and everything about the steps but the status, is unchanged |
| `RunAgent.CancelShowsCompleteBannerAsWritten` | src/pages/RunAgentPage.tsx:328-330 | cancelling at review makes the page's completion test true, so the banner shows although nothing was applied |
| `RunAgent.CompleteBanner` | src/pages/RunAgentPage.tsx:642-649 | the banner as intended: over the diff, with every step completed |
| `RunAgent.ApplyShowsCompleteBanner` | src/pages/RunAgentPage.tsx:192-219 | over the Preview tab with fetch and analysis completed, approving and the apply timer show the corrected banner |
| `RunAgent.CancelHidesCompleteBanner` | src/pages/RunAgentPage.tsx:222-234 | a cancel while a step is in review never leaves the corrected banner on |
| `RunAgent.EventKeepsApplyOpen` | src/pages/RunAgentPage.tsx:98-306 | every handler and timer but the apply timer leaves the apply step short of completed |
| `RunAgent.CompleteBannerOnlyAfterApply` | src/pages/RunAgentPage.tsx:642-649 | along any event sequence from a fresh page without the apply timer, the apply step is not completed and the corrected banner does not show |
| `RunAgent.CancelledRunShowsBannerAsWritten` | src/pages/RunAgentPage.tsx:222-234 | choosing the users, running to review and cancelling is such a sequence, and there the banner as written shows |
| `RunAgent.AllCompletedIsComplete` | src/pages/RunAgentPage.tsx:328-330 | whenever every step is completed, the page's own test agrees |
| `RunAgent.CancelLeavesOnlyReset` | src/pages/RunAgentPage.tsx:222-234 | after a cancel only chat is offered; reset brings the start button back |
| `RunAgent.SendMessageAppendsInput` | src/pages/RunAgentPage.tsx:236-246 | blank input is ignored; otherwise exactly the typed text is appended and the input cleared |
| `RunAgent.TickOnlyMovesActiveLog` | src/pages/RunAgentPage.tsx:98-120 | a tick moves only the active running step's log index, keeping it in range |
| `RunAgent.ResetRestoresInitial` | src/pages/RunAgentPage.tsx:260-306 | reset restores the initial page from any state, idempotently |
| `RunAgent.RunAgentPage.constructor` | src/pages/RunAgentPage.tsx:48-97 | the page starts with the initial state |
| `RunAgent.RunAgentPage.SelectSourceUser` | src/pages/RunAgentPage.tsx:401 | only the source user changes |
| `RunAgent.RunAgentPage.SelectTargetUser` | src/pages/RunAgentPage.tsx:416 | only the target user changes |
| `RunAgent.RunAgentPage.SetTransferSettings` | src/pages/RunAgentPage.tsx:437 | only the transfer-settings flag changes |
| `RunAgent.RunAgentPage.SelectTab` | src/pages/RunAgentPage.tsx:617 | only the inspector tab changes |
| `RunAgent.RunAgentPage.HandleStartTransfer` | src/pages/RunAgentPage.tsx:132-150 | the new state is the start transition of the old one |
| `RunAgent.RunAgentPage.FireFetchStarted` | src/pages/RunAgentPage.tsx:152-165 | the new state is the 500 ms timer's transition of the old one |
| `RunAgent.RunAgentPage.FireFetchDone` | src/pages/RunAgentPage.tsx:166-172 | the new state is the 3000 ms timer's transition of the old one |
| `RunAgent.RunAgentPage.FireAnalyzeDone` | src/pages/RunAgentPage.tsx:173-187 | the new state is the 4000 ms timer's transition of the old one |
| `RunAgent.RunAgentPage.HandleApproveTransfer` | src/pages/RunAgentPage.tsx:192-205 | the new state is the approve transition of the old one |
| `RunAgent.RunAgentPage.FireApplyDone` | src/pages/RunAgentPage.tsx:207-219 | the new state is the apply timer's transition of the old one |
| `RunAgent.RunAgentPage.HandleCancelTransfer` | src/pages/RunAgentPage.tsx:222-234 | the new state is the cancel transition of the old one |
| `RunAgent.RunAgentPage.ChangeInput` | src/pages/RunAgentPage.tsx:520 | only the input text changes |
| `RunAgent.RunAgentPage.HandleSendMessage` | src/pages/RunAgentPage.tsx:236-248 | the new state is the send transition, and a message was sent exactly when the input was not blank |
| `RunAgent.RunAgentPage.FireAiReply` | src/pages/RunAgentPage.tsx:249-257 | the canned reply is appended |
| `RunAgent.RunAgentPage.HandleReset` | src/pages/RunAgentPage.tsx:260-306 | the page is back to its initial state |
| `RunAgent.RunAgentPage.FireLogTick` | src/pages/RunAgentPage.tsx:98-120 | the new state is the tick transition of the old one |
| `ControlPanel.CountTrueIsFilterLength` | src/components/ControlPanel.tsx:166-168 | counting the true flags is the length of the list filtered to the true ones |
| `ControlPanel.CountEnabledSettings` | src/components/ControlPanel.tsx:166-168 | at most six settings are enabled |
| `ControlPanel.CountEnabledIsSumOfToggles` | src/components/ControlPanel.tsx:166-168 | the count is the number of toggles that are on |
| `ControlPanel.DefaultTogglesEnableFour` | src/components/ControlPanel.tsx:166-168 | the default toggles enable four settings |
| `ControlPanel.ConfigSummary` | src/components/ControlPanel.tsx:171-179 | `getConfigSummary`; stated by `ControlPanel.ConfigSummaryNeedsBothUsers`, `ControlPanel.ConfigSummaryShape` and `ControlPanel.ConfigSummaryDeterminesCount` |
| `ControlPanel.ConfigSummaryNeedsBothUsers` | src/components/ControlPanel.tsx:171-174 | without both users the summary is "No configuration set" |
| `ControlPanel.ConfigSummaryShape` | src/components/ControlPanel.tsx:175-178 | otherwise it names both display names, then the count, with "setting" singular exactly for one |
| `ControlPanel.EnabledCountOneDigit` | src/components/ControlPanel.tsx:178 | a one-digit count is its digit followed by " setting enabled" for one and " settings enabled" otherwise |
| `ControlPanel.ConfigSummaryDeterminesCount` | src/components/ControlPanel.tsx:171-179 | for the same users, equal summaries mean equal counts |
| `ControlPanel.StatusPill` | src/components/ControlPanel.tsx:150-163 | caption, class and icon per run phase; stated by `ControlPanel.StatusPillDistinct` |
| `ControlPanel.StatusPillDistinct` | src/components/ControlPanel.tsx:150-163 | each phase has its own caption, and only running carries the spinner |
| `ControlPanel.SenderLabelYouOnlyForUser` | src/components/ControlPanel.tsx:429-435 | "You" labels exactly the user's messages |
| `ControlPanel.FooterActions` | src/components/ControlPanel.tsx:475-583 | the footer buttons per phase and setup intent; stated by `ControlPanel.FooterActionsExclusive` |
| `ControlPanel.CollapsedAfter` | src/components/ControlPanel.tsx:72-78 | the collapse effect on one phase change; stated over series by `ControlPanel.CollapseFollowsLastDecisivePhase` |
| `ControlPanel.FooterActionsExclusive` | src/components/ControlPanel.tsx:475-583 | stop only while running, approve and reject only awaiting approval, run-another only when completed, run or test only when idle |
| `ControlPanel.CollapseFollowsLastDecisivePhase` | src/components/ControlPanel.tsx:72-78 | after a series of phase changes with no click on the collapse toggle, the config is collapsed exactly when the last phase other than completed was running or awaiting approval; with only completed phases the flag is unchanged |
| `ControlPanel.AgentReply` | src/components/ControlPanel.tsx:137-139 | the canned reply is labelled "Agent" |
| `ControlPanel.Panel.constructor` | src/components/ControlPanel.tsx:62-105 | expanded, no tooltip, empty chat input, users remembered |
| `ControlPanel.Panel.OnRunPhaseChange` | src/components/ControlPanel.tsx:72-78 | the collapse flag follows the phase; nothing else changes |
| `ControlPanel.Panel.ToggleCollapse` | src/components/ControlPanel.tsx:207-215 | the collapse toggle flips the flag; nothing else changes |
| `ControlPanel.Panel.HandleRunClick` | src/components/ControlPanel.tsx:120-127 | the run is requested exactly when both users are chosen; otherwise the tooltip is shown |
| `ControlPanel.Panel.OnTooltipTimer` | src/components/ControlPanel.tsx:123 | the tooltip is hidden; nothing else changes |
| `ControlPanel.Panel.ChangeChatInput` | src/components/ControlPanel.tsx:568 | only the chat input changes |
| `ControlPanel.Panel.HandleChatSubmit` | src/components/ControlPanel.tsx:129-136 | blank input sends nothing; otherwise the untrimmed input is sent as the user's and the box cleared |
| `ControlPanel.Panel.OnUsersChange` | src/components/ControlPanel.tsx:104-118 | a config-updated message naming both users is added exactly when a user changed and both are chosen |
| `ChatProxy.DefaultRole` | api/ask-ai-agent.ts:68 | a falsy role becomes "user"; any other is kept |
| `ChatProxy.Sanitize` | api/ask-ai-agent.ts:65-70 | never longer than the input, and every kept message has a role and content |
| `ChatProxy.Kept` | api/ask-ai-agent.ts:67-70 | a valid entry is kept with its role defaulted and its text trimmed |
| `ChatProxy.SanitizeIsFilterMap` | api/ask-ai-agent.ts:65-70 | sanitising is exactly the filter on validity followed by the map to kept messages |
| `ChatProxy.SanitizeAppend` | api/ask-ai-agent.ts:65-70 | sanitising keeps order: it distributes over concatenation |
| `ChatProxy.SanitizedAreClean` | api/ask-ai-agent.ts:65-70 | every kept message is trimmed and not blank |
| `ChatProxy.SanitizeEmptyIffNoneValid` | api/ask-ai-agent.ts:65-76 | nothing survives exactly when no message has non-blank string content |
| `ChatProxy.SanitizeKeepsValid` | api/ask-ai-agent.ts:65-70 | a list of valid messages keeps its length, and each message becomes its own role, defaulted, with its text trimmed, in place |
| `ChatProxy.Forwarded` | api/ask-ai-agent.ts:39-76 | a forwarded conversation is never empty |
| `ChatProxy.Handler` | api/ask-ai-agent.ts:37-124 | the whole handler, from request, key presence and upstream outcome to status and body; stated by the lemmas below |
| `ChatProxy.MethodCheckedFirst` | api/ask-ai-agent.ts:39-41 | any method but POST gets 405, whatever else holds |
| `ChatProxy.KeyCheckedBeforeBody` | api/ask-ai-agent.ts:46-53 | a missing key gets 500 before the body is looked at |
| `ChatProxy.MalformedBodyRejected` | api/ask-ai-agent.ts:58-62 | a missing body, a non-array or an empty array gets 400 |
| `ChatProxy.NoValidMessagesRejected` | api/ask-ai-agent.ts:72-76 | a non-empty array without a valid message gets 400 |
| `ChatProxy.UpstreamOnlyAfterChecks` | api/ask-ai-agent.ts:37-76 | a request refused by validation does not depend on the upstream outcome and gets 400, 405 or 500 |
| `ChatProxy.UpstreamOutcomeMapping` | api/ask-ai-agent.ts:79-123 | upstream failure keeps its status with a fixed text; a reply gives 200 with the content or the fallback; a throw gives 500 |
| `ChatProxy.ErrorsAreFixedTexts` | api/ask-ai-agent.ts:37-124 | every error body is one of the fixed texts, and a reply body comes exactly from a forwarded request the upstream answered |
| `ChatProxy.ForwardedAreSanitized` | api/ask-ai-agent.ts:65-95 | with a valid message present, exactly the sanitised list is forwarded |
| `AskAi.EmailPart` | src/utils/askAiAgent.ts:27-28 | the email parenthetical is empty exactly when the email is |
| `AskAi.PushRowLines` | src/utils/askAiAgent.ts:50-55 | one line per changed row is pushed, in order |
| `AskAi.PushUserLines` | src/utils/askAiAgent.ts:26-31 | the user lines are pushed onto the list |
| `AskAi.PushRunLines` | src/utils/askAiAgent.ts:34-42 | the run lines are pushed onto the list |
| `AskAi.PushDiffLines` | src/utils/askAiAgent.ts:45-62 | the diff lines are pushed onto the list |
| `AskAi.BuildSystemPrompt` | src/utils/askAiAgent.ts:12-80 | the prompt is the header, user, run, diff and role lines joined by newlines |
| `AskAi.PromptFramed` | src/utils/askAiAgent.ts:19-23 | the prompt's parts start with the fixed intro and the agent line and end with the role block |
| `AskAi.UserLinesPresence` | src/utils/askAiAgent.ts:26-31 | the source and target lines appear exactly when both users are given |
| `AskAi.RunLinesPresence` | src/utils/askAiAgent.ts:34-42 | the run lines appear exactly when a run is given; the id line needs an id; the count line needs a count |
| `AskAi.ZeroChangedCountReported` | src/utils/askAiAgent.ts:39-41 | a changed count of zero is still reported |
| `AskAi.RowLineFlaggedIffDangerous` | src/utils/askAiAgent.ts:50-55 | a row line carries the SENSITIVE flag exactly when the row is dangerous |
| `AskAi.DiffLinesShape` | src/utils/askAiAgent.ts:45-62 | no diff lines without rows; otherwise the header, one line per changed row, then the sensitive-count line exactly when some changed row is dangerous |
| `AskAi.DangerCountIsCount` | src/utils/askAiAgent.ts:46-47 | the count the sensitive line states is the number of dangerous rows |
| `AskAi.ApiMessages` | src/utils/askAiAgent.ts:104-110 | the system prompt first, then each message with its content unchanged; n messages give n+1 |
| `AskAi.OnlyPromptIsSystem` | src/utils/askAiAgent.ts:104-110 | only the prompt is sent with the system role |
| `AskAi.ErrorReply` | src/utils/askAiAgent.ts:138-149 | an error mentioning "API key" gives the configuration text; any other is wrapped in the apology |
| `AskAi.CallResult` | src/utils/askAiAgent.ts:86-150 | every outcome gives a non-empty text: the reply, the fallback, or the mapped error |
| `AskAi.NotOkWithoutErrorNamesStatus` | src/utils/askAiAgent.ts:129-134 | a failed response without an error text names its status in the apology |
| `AskAi.MissingKeyTextLacksK` | api/ask-ai-agent.ts:51 | the proxy's missing-key text has no letter k |
| `AskAi.FixedErrorTextsLackK` | api/ask-ai-agent.ts:37-124 | none of the proxy's error texts has the letter k |
| `AskAi.MissingKeyTakesGenericBranch` | src/utils/askAiAgent.ts:140-148 | the proxy's missing-key error takes the generic branch, not the configuration text |
| `AskAi.ProxyErrorsTakeGenericBranch` | src/utils/askAiAgent.ts:129-145 | every error the proxy can send is wrapped in the apology; the configuration text is never shown |
| `AskAiChat.ContextPartsShape` | src/components/askai/AskAiTab.tsx:25-37 | the agent comes first; the users part appears exactly with both users, the run part exactly with an id |
| `AskAiChat.ContextLineNameOnly` | src/components/askai/AskAiTab.tsx:25-37 | without both users and an id the line is the agent's name |
| `AskAiChat.ContextParts` | src/components/askai/AskAiTab.tsx:25-37 | the parts of the context line; stated by `AskAiChat.ContextPartsShape` |
| `AskAiChat.InitialMessage` | src/components/askai/AskAiTab.tsx:40-53 | the greeting per run status; stated by `AskAiChat.InitialMessageDistinct` |
| `AskAiChat.SendStart` | src/components/askai/AskAiTab.tsx:56-70 | `handleSend` up to its `await`; stated by `AskAiChat.IgnoredSendChangesNothing` and `AskAiChat.SendStartAppendsTrimmed` |
| `AskAiChat.SendFinish` | src/components/askai/AskAiTab.tsx:83-106 | `handleSend` after its `await`; stated by `AskAiChat.FinishAppendsOne` |
| `AskAiChat.InitialMessageDistinct` | src/components/askai/AskAiTab.tsx:40-53 | each run status has its own greeting |
| `AskAiChat.IgnoredSendChangesNothing` | src/components/askai/AskAiTab.tsx:56-58 | blank input or a send in flight changes nothing |
| `AskAiChat.SendStartAppendsTrimmed` | src/components/askai/AskAiTab.tsx:60-70 | otherwise one user turn with the trimmed, non-blank input is appended, the box cleared and the send marked |
| `AskAiChat.NoSecondSendWhileSending` | src/components/askai/AskAiTab.tsx:56-58 | a second press while sending does nothing |
| `AskAiChat.OutgoingIsChatSoFar` | src/components/askai/AskAiTab.tsx:74-81 | the client receives the earlier chat followed by the new turn |
| `AskAiChat.UpstreamEndsWithUserTurn` | src/components/askai/AskAiTab.tsx:74-81 | upstream gets the prompt, the earlier chat and the new user turn last |
| `AskAiChat.FinishAppendsOne` | src/components/askai/AskAiTab.tsx:83-106 | exactly one message is appended, the reply or the apology, and the flag is cleared |
| `AskAiChat.WholeSendAddsTwo` | src/components/askai/AskAiTab.tsx:56-106 | a whole send adds the user's turn and one reply and leaves the tab ready |
| `AskAiChat.AskAiTab.constructor` | src/components/askai/AskAiTab.tsx:14-16 | the tab starts with no messages, an empty box and no send in flight |
| `AskAiChat.AskAiTab.BuildContextLine` | src/components/askai/AskAiTab.tsx:25-37 | the pushed parts, joined by the separator, are the context parts |
| `AskAiChat.AskAiTab.ChangeInput` | src/components/askai/AskAiTab.tsx:223 | only the input changes |
| `AskAiChat.AskAiTab.HandleSendStart` | src/components/askai/AskAiTab.tsx:56-81 | the new state is the send start; a request is made exactly when the send is not ignored, and it is the chat as it now is |
| `AskAiChat.AskAiTab.HandleSendFinish` | src/components/askai/AskAiTab.tsx:83-106 | the new state is the send finish |
| `AgentHelpers.ElapsedText` | src/utils/agentHelpers.ts:13-21 | the text starts with "J" or a digit |
| `AgentHelpers.NeverIffNoRun` | src/utils/agentHelpers.ts:7 | "Never" exactly when there is no run |
| `AgentHelpers.JustNowIffUnderAMinute` | src/utils/agentHelpers.ts:13-17 | "Just now" exactly under a minute, negative values included |
| `AgentHelpers.MinutesBucket` | src/utils/agentHelpers.ts:13-18 | under an hour: the whole minutes, 1 to 59, then "m ago" |
| `AgentHelpers.HoursBucket` | src/utils/agentHelpers.ts:14-19 | under a day: the whole hours, 1 to 23, then "h ago" |
| `AgentHelpers.OneDayBucket` | src/utils/agentHelpers.ts:15-20 | one whole day reads "1 day ago" |
| `AgentHelpers.DaysBucket` | src/utils/agentHelpers.ts:15-21 | two days or more: the whole days, then " days ago" |
| `AgentHelpers.FormatLastRun` | src/utils/agentHelpers.ts:6-22 | `formatLastRun`; stated by `AgentHelpers.NeverIffNoRun` and the bucket lemmas above |
| `AgentHelpers.FormatSuccessRate` | src/utils/agentHelpers.ts:27-30 | the text is never empty |
| `AgentHelpers.SuccessRateReadsBack` | src/utils/agentHelpers.ts:27-30 | "N/A" exactly without a rate; otherwise the digits before "%" read back as the rate |
| `AgentHelpers.StatusCheckedFirst` | src/utils/agentHelpers.ts:36-46 | draft, paused and failing agents are described by status alone |
| `AgentHelpers.ActiveWithoutRun` | src/utils/agentHelpers.ts:48-50 | an active agent without a run is "Not yet run" |
| `AgentHelpers.ActiveWithRun` | src/utils/agentHelpers.ts:52-58 | otherwise the relative time, with the success suffix exactly when a rate is defined |
| `AgentHelpers.HealthText` | src/utils/agentHelpers.ts:35-59 | `getHealthText`; stated by the three lemmas above |
| `KnowledgeHelpers.CalendarDateIffAWeek` | src/utils/knowledgeHelpers.ts:11-22 | only a week or more reaches the calendar date |
| `KnowledgeHelpers.AgreesWithLastRunWithinAWeek` | src/utils/knowledgeHelpers.ts:11-19 | within a week the text is an agent card's last-run text for the same time |
| `KnowledgeHelpers.DaysWithinAWeek` | src/utils/knowledgeHelpers.ts:13-19 | two to six whole days read "N days ago" |
| `KnowledgeHelpers.FormatLastUpdated` | src/utils/knowledgeHelpers.ts:6-23 | `formatLastUpdated`; stated by the three lemmas above |
| `KnowledgeHelpers.TypeIconInjective` | src/utils/knowledgeHelpers.ts:28-36 | each type has its own icon |
| `KnowledgeHelpers.StatusBadgeDistinct` | src/utils/knowledgeHelpers.ts:41-60 | each status has its own colour and its own label |
| `KnowledgeHelpers.StatusBadgeAgrees` | src/utils/knowledgeHelpers.ts:41-60 | the error colour goes exactly with "Error", the success colour exactly with "Ready" |
| `KnowledgeHelpers.TypeIcon` | src/utils/knowledgeHelpers.ts:28-36 | one icon per knowledge type; stated by `KnowledgeHelpers.TypeIconInjective` |
| `KnowledgeHelpers.StatusVariant` | src/utils/knowledgeHelpers.ts:41-48 | the badge colour per status; stated by `KnowledgeHelpers.StatusBadgeDistinct` and `KnowledgeHelpers.StatusBadgeAgrees` |
| `KnowledgeHelpers.StatusLabel` | src/utils/knowledgeHelpers.ts:53-60 | the badge label per status; stated by the same two lemmas |
| `AgentDetails.FindById` | src/pages/AgentDetailsPage.tsx:14-16 | the first entry with the id, or none exactly when no entry has it |
| `AgentDetails.Lookup` | src/pages/AgentDetailsPage.tsx:14-16 | the first match for a given id; the first entry when there is no id or no match |
| `AgentDetails.LookupInDatabase` | src/pages/AgentDetailsPage.tsx:14-16 | the page always shows an agent of the database |
| `AgentDetails.InitialsOneWord` | src/pages/AgentDetailsPage.tsx:18-24 | one word gives its first letter upper-cased |
| `AgentDetails.InitialsOfFirstTwo` | src/pages/AgentDetailsPage.tsx:18-24 | a name whose first two space-separated pieces are given has their upper-cased first letters as initials, whatever follows |
| `AgentDetails.InitialsTwoWords` | src/pages/AgentDetailsPage.tsx:18-24 | two words give their first letters upper-cased, in order |
| `AgentDetails.InitialsIgnoreLaterWords` | src/pages/AgentDetailsPage.tsx:18-24 | words after the second do not count |
| `AgentDetails.InitialsAtMostTwo` | src/pages/AgentWorkspacePage.tsx:365-367 | at most two characters, whatever the name, under the model's ASCII case mapping |
| `AgentDetails.Initials` | src/pages/AgentDetailsPage.tsx:18-24 | `getInitials`; stated by the four initials lemmas above |
| `AgentDetails.TimestampAgreesUnderADay` | src/pages/AgentDetailsPage.tsx:26-36 | under a day the timestamp reads like an agent card's last run |
| `AgentDetails.TimestampDays` | src/pages/AgentDetailsPage.tsx:32-37 | from a day on, the whole days followed by "d ago" |
| `AgentDetails.TimestampNeverSaysDay` | src/pages/AgentDetailsPage.tsx:26-38 | the word "day" never appears |
| `AgentDetails.FormatTimestamp` | src/pages/AgentDetailsPage.tsx:26-38 | `formatTimestamp`; stated by the three timestamp lemmas above |
| `AgentDetails.StatusColor` | src/pages/AgentDetailsPage.tsx:40-47 | `getStatusColor`; stated by `AgentDetails.StatusColorDistinct` |
| `AgentDetails.StatusColorDistinct` | src/pages/AgentDetailsPage.tsx:40-47 | only a cancelled run gets the default colour, and distinct statuses get distinct colours |
| `AgentList.FilteredAreTheMatches` | src/pages/AIAgentPage.tsx:19-25 | an agent is listed exactly when it matches the search, case-insensitively, and the status filter |
| `AgentList.FilteredKeepsOrder` | src/pages/AIAgentPage.tsx:19-25 | filtering keeps order: it distributes over concatenation |
| `AgentList.EmptySearchKeepsAll` | src/pages/AIAgentPage.tsx:21-22 | an empty search with every status lists every agent |
| `AgentList.FilteredAgents` | src/pages/AIAgentPage.tsx:19-25 | the search and status filter; stated by the three lemmas above |
| `AgentList.SectionsPartition` | src/pages/AIAgentPage.tsx:28-36 | the Control Hub and organisation sections split the filtered list by source |
| `AgentList.SectionsKeepOrder` | src/pages/AIAgentPage.tsx:28-36 | each section keeps the list's order |
| `AgentList.ControlHubAgents` | src/pages/AIAgentPage.tsx:27-30 | the Control Hub section; stated by `AgentList.SectionsPartition` and `AgentList.SectionsKeepOrder` |
| `AgentList.OrgAgents` | src/pages/AIAgentPage.tsx:32-35 | the organisation section; stated by the same two lemmas |
| `AgentList.EmptyStateIffNarrowed` | src/pages/AIAgentPage.tsx:193-195 | the "no match" text is shown exactly when a search or a status filter is in effect |
| `AgentList.EmptyStateText` | src/pages/AIAgentPage.tsx:193-195 | the empty-state text; stated by `AgentList.EmptyStateIffNarrowed` |
| `AgentList.PlaceholderTitles` | src/pages/AIAgentPage.tsx:81-87 | only the run-log and policies tabs have titles, and they differ |
| `AgentList.PlaceholderTitle` | src/pages/AIAgentPage.tsx:81-87 | `getPlaceholderTitle`; stated by `AgentList.PlaceholderTitles` |

## Left out

- Message ids, timestamps and `generateMessageId` are not modelled: they are nondeterministic. Messages are a kind and a content.
- Real time is not modelled. Timer delays are left out and each timer firing is an explicit event. The elapsed time is an integer parameter, and the clock is never read.
- The locale-formatted calendar date of a knowledge item is an opaque label. Unparseable dates (which give `NaN`) are not modelled.
- `fetch` and `process.env` are not modelled. The upstream outcome and the presence of the key are inputs.
- The OpenAI request parameters (model, temperature, token limit) and the `agentContext` field sent to the proxy carry no logic and are left out.
- Rendering, CSS, routing, `alert` and `console` calls, DOM listeners, auto-scroll and drop-down open flags are left out.
- The workspace page's inspector tab and chat input are left out: no handler of the run reads them.
- `Text.Trim` and `Text.ToLower` treat ASCII whitespace and ASCII letters only (plus the no-break space for trimming). JavaScript's Unicode whitespace and case mapping are wider.
- `Text.FirstUpper`: upper-cases ASCII letters only and always gives one character for a non-empty word. JavaScript's `toUpperCase` also maps other letters ("é" to "É") and can give several characters ("ß" to "SS").
- `AgentDetails.InitialsAtMostTwo`: holds of the model's ASCII case mapping only. In the program a name starting with "ß" upper-cases to "SS", so the initials can be up to four characters long.
- `AgentHelpers.FormatSuccessRate`: the rate is a whole number here; a fractional rate's decimal text is not modelled.
- `AgentHelpers.ElapsedText`: a negative elapsed time is "Just now", as in the code, and the model proves no more about it.
- RunAgentPage's Stop button has no handler in the code, so it has no transition here.
- The `default` branches of ControlPanel's status pill, the icon map and `getInitialMessage` cannot be reached with typed inputs, so there is no case for them.
- `AskAiChat.AskAiTab.HandleSendFinish`: a rejected call (outcome `None`) is modelled, although the client catches every error itself, so that branch is not reached in practice.
- `AgentDetails.Lookup` requires a non-empty database: the page indexes its first entry.
- The owner avatar's initials fallback on the details page is presentation and is left out.
- `vite.config.ts`, the mock data files, type declarations and presentation-only components are not part of this model.

## Findings

| source | as written | input that shows it | evidently intended | confidence | as-written member | corrected member |
|---|---|---|---|---|---|---|
| src/pages/RunAgentPage.tsx:328-330 | `isWorkflowComplete` holds when every step is completed or pending and one is completed, and then the "Transfer Complete" banner shows (642-649) | start a transfer, let the three timers fire, then Reject: steps are completed, completed, pending, pending | the banner announces a transfer only when every step, Apply included, has completed | medium, not executed | `RunAgent.CancelledRunShowsBannerAsWritten` | `RunAgent.CompleteBannerOnlyAfterApply` |
