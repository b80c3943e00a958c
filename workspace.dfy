// AgentWorkspacePage: the simulated agent run. Each click handler and each
// timer callback of the page is one transition of the page state. The pure
// transition functions come first; the class `WorkspacePage` holds the same
// state in mutable fields and performs the transitions in place, each method
// proved equal to its transition function.

module Workspace {
  import opened Maybe
  import opened Seqs
  import opened Workflow
  import opened Transfer

  datatype AgentState = Idle | Running | Review | Done

  datatype ViewMode = Overview | Execution

  datatype SummaryStatus = Success | Partial | FailedRun

  /** Filled in when the apply timer fires. */
  datatype RunSummary = RunSummary(
    sourceUserName: string,
    targetUserName: string,
    settingsUpdated: nat,
    guardrailBlocks: nat,
    durationSeconds: nat,
    status: SummaryStatus)

  /** The page state the run logic reads and writes. */
  datatype Page = Page(
    viewMode: ViewMode,
    agentState: AgentState,
    sourceUser: string,
    targetUser: string,
    settings: Toggles,
    messages: seq<Message>,
    activeStepIndex: int,
    runSummary: Option<RunSummary>,
    steps: seq<Step>)

  const AnalyzingText := "Analyzing profiles..."
  const ReviewPromptText := "Analysis complete. Please review changes in the Inspector panel."
  const StoppedText := "Run stopped by user."
  const ApplyingText := "Applying transfer..."
  const CompletedText := "\U{2713} Transfer completed successfully! All settings have been applied."
  const RejectedText := "Transfer rejected by user."

  /** The `useState` initial values. */
  function Initial(): Page {
    Page(Overview, Idle, "", "", DefaultToggles(), [], -1, None, InitialSteps())
  }

  function ConfigText(source: string, target: string): string {
    "Transfer settings from " + source + " to " + target
  }

  // ---------------------------------------------------------------------------
  // Transitions

  /** `handleStartRun` up to the scheduling of its first timer. */
  function StartRun(p: Page): Page {
    if p.sourceUser == "" || p.targetUser == "" then p
    else p.(viewMode := Execution, agentState := AgentState.Running, activeStepIndex := 0,
            messages := [Message(UserMessage, ConfigText(p.sourceUser, p.targetUser))])
  }

  /** The 500 ms timer: fetching starts. */
  function FetchStarted(p: Page): Page {
    p.(messages := p.messages + [Message(SystemMessage, AnalyzingText)], steps := BeginFetch(p.steps))
  }

  /** The 3000 ms timer: fetching is done, analysis runs. */
  function FetchDone(p: Page): Page {
    p.(steps := FinishFetch(p.steps), activeStepIndex := 1)
  }

  /** The 4000 ms timer: analysis is done, the review step waits for a decision. */
  function AnalyzeDone(p: Page): Page {
    p.(steps := FinishAnalyze(p.steps), activeStepIndex := 2, agentState := AgentState.Review,
       messages := p.messages + [Message(SystemMessage, ReviewPromptText)])
  }

  /** `handleStopRun`: the pending timers are not cancelled. */
  function StopRun(p: Page): Page {
    p.(agentState := Idle, messages := p.messages + [Message(SystemMessage, StoppedText)],
       steps := Recolor(p.steps, Workflow.Running, Failed))
  }

  /** `handleApprove` up to the scheduling of the apply timer. */
  function Approve(p: Page): Page {
    p.(steps := ApproveReview(p.steps), activeStepIndex := 3, agentState := AgentState.Running,
       messages := p.messages + [Message(SystemMessage, ApplyingText)])
  }

  /**
   * The apply timer (4000 ms): the last step completes and the run summary is filled in. The
   * callback is a closure made when the approve handler ran, so the summary names the users
   * `source` and `target` chosen at that moment, not the ones on the page when it fires.
   */
  function ApplyDone(p: Page, source: string, target: string): Page {
    p.(steps := FinishApply(p.steps), agentState := Done,
       runSummary := Some(RunSummary(DisplayName(source), DisplayName(target),
                                     ChangedCount(CallingSettingsDiff()), 0, 28, Success)),
       messages := p.messages + [Message(SystemMessage, CompletedText)])
  }

  /** `handleReject` */
  function Reject(p: Page): Page {
    p.(agentState := Idle, messages := p.messages + [Message(SystemMessage, RejectedText)],
       steps := Recolor(p.steps, Workflow.Review, Failed))
  }

  /** `handleDone` ("Run another transfer"): every field the run touched is set back. */
  function FinishRun(p: Page): Page {
    p.(viewMode := Overview, agentState := Idle, steps := InitialSteps(), activeStepIndex := -1,
       messages := [], sourceUser := "", targetUser := "", settings := DefaultToggles(), runSummary := None)
  }

  /** One firing of the log-cycling interval. */
  function Tick(p: Page): Page {
    p.(steps := LogTick(p.steps, p.activeStepIndex))
  }

  // ---------------------------------------------------------------------------
  // Event sequences

  /** The apply timer carries the users its closure captured when approval was given. */
  datatype Event =
    | SelectSourceEvent(source: string) | SelectTargetEvent(target: string)
    | StartRunEvent | FetchStartedEvent | FetchDoneEvent | AnalyzeDoneEvent
    | StopRunEvent | ApproveEvent | ApplyDoneEvent(approvedSource: string, approvedTarget: string)
    | RejectEvent | DoneEvent | LogTickEvent

  function Apply(p: Page, e: Event): Page {
    match e
    case SelectSourceEvent(source) => p.(sourceUser := source)
    case SelectTargetEvent(target) => p.(targetUser := target)
    case StartRunEvent => StartRun(p)
    case FetchStartedEvent => FetchStarted(p)
    case FetchDoneEvent => FetchDone(p)
    case AnalyzeDoneEvent => AnalyzeDone(p)
    case StopRunEvent => StopRun(p)
    case ApproveEvent => Approve(p)
    case ApplyDoneEvent(source, target) => ApplyDone(p, source, target)
    case RejectEvent => Reject(p)
    case DoneEvent => FinishRun(p)
    case LogTickEvent => Tick(p)
  }

  /** The page after the events `es`, in order. */
  function Replay(p: Page, es: seq<Event>): Page
    decreases |es|
  {
    if es == [] then p else Apply(Replay(p, es[..|es| - 1]), es[|es| - 1])
  }

  /** Start, its three timers, approval and the apply timer, for the users `source` and `target`. */
  function HappyPath(source: string, target: string): seq<Event> {
    [StartRunEvent, FetchStartedEvent, FetchDoneEvent, AnalyzeDoneEvent, ApproveEvent,
     ApplyDoneEvent(source, target)]
  }

  predicate IsMilestone(e: Event) { e != LogTickEvent }

  /** The events of `es` other than log ticks. */
  function Milestones(es: seq<Event>): seq<Event> {
    Filter(IsMilestone, es)
  }

  /** Step statuses after the first `k` events of the happy path. */
  function StageStatuses(k: nat): seq<StepStatus>
    requires k <= 6
  {
    [ [Pending, Pending, Pending, Pending],
      [Pending, Pending, Pending, Pending],
      [Workflow.Running, Pending, Pending, Pending],
      [Completed, Workflow.Running, Pending, Pending],
      [Completed, Completed, Workflow.Review, Pending],
      [Completed, Completed, Completed, Workflow.Running],
      [Completed, Completed, Completed, Completed] ][k]
  }

  function StageActive(k: nat): int
    requires k <= 6
  {
    [-1, 0, 0, 1, 2, 3, 3][k]
  }

  function StageState(k: nat): AgentState
    requires k <= 6
  {
    [Idle, AgentState.Running, AgentState.Running, AgentState.Running, AgentState.Review, AgentState.Running, Done][k]
  }

  /** The page is where the happy path puts it after `k` of its events. */
  predicate AtStage(p: Page, k: nat)
    requires k <= 6
  {
    && Statuses(p.steps) == StageStatuses(k)
    && p.activeStepIndex == StageActive(k)
    && p.agentState == StageState(k)
    && (k == 0 ==> p.sourceUser != "" && p.targetUser != "")
  }

  /** A fresh page with both users chosen: ready for the happy path. */
  lemma InitialWithUsersAtStageZero(source: string, target: string)
    requires source != "" && target != ""
    ensures AtStage(Initial().(sourceUser := source, targetUser := target), 0)
  {
    var p := Initial().(sourceUser := source, targetUser := target);
    assert Statuses(p.steps) == StageStatuses(0);
  }

  /** Each happy-path event moves the page from one stage to the next. */
  lemma {:induction false} StageAdvances(p: Page, k: nat, source: string, target: string)
    requires k < 6 && AtStage(p, k)
    ensures AtStage(Apply(p, HappyPath(source, target)[k]), k + 1)
  {
    if k == 0 {
      assert HappyPath(source, target)[k] == StartRunEvent;
      StartRunAdvances(p);
    } else if k == 1 {
      assert HappyPath(source, target)[k] == FetchStartedEvent;
      FetchStartedAdvances(p);
    } else if k == 2 {
      assert HappyPath(source, target)[k] == FetchDoneEvent;
      FetchDoneAdvances(p);
    } else if k == 3 {
      assert HappyPath(source, target)[k] == AnalyzeDoneEvent;
      AnalyzeDoneAdvances(p);
    } else if k == 4 {
      assert HappyPath(source, target)[k] == ApproveEvent;
      ApproveAdvances(p);
    } else {
      assert HappyPath(source, target)[k] == ApplyDoneEvent(source, target);
      ApplyDoneAdvances(p, source, target);
    }
  }

  lemma StartRunAdvances(p: Page)
    requires AtStage(p, 0)
    ensures AtStage(Apply(p, StartRunEvent), 1)
  {
  }

  lemma FetchStartedAdvances(p: Page)
    requires AtStage(p, 1)
    ensures AtStage(Apply(p, FetchStartedEvent), 2)
  {
    MarkAtStatuses(p.steps, 0, Workflow.Running, None);
  }

  lemma FetchDoneAdvances(p: Page)
    requires AtStage(p, 2)
    ensures AtStage(Apply(p, FetchDoneEvent), 3)
  {
    var s := p.steps;
    MarkAtStatuses(s, 0, Completed, Some("340ms"));
    MarkAtStatuses(MarkAt(s, 0, Completed, Some("340ms")), 1, Workflow.Running, None);
  }

  lemma AnalyzeDoneAdvances(p: Page)
    requires AtStage(p, 3)
    ensures AtStage(Apply(p, AnalyzeDoneEvent), 4)
  {
    var s := p.steps;
    MarkAtStatuses(s, 1, Completed, Some("1.2s"));
    MarkAtStatuses(MarkAt(s, 1, Completed, Some("1.2s")), 2, Workflow.Review, None);
  }

  lemma ApproveAdvances(p: Page)
    requires AtStage(p, 4)
    ensures AtStage(Apply(p, ApproveEvent), 5)
  {
    var s := p.steps;
    MarkAtStatuses(s, 2, Completed, Some("5.4s"));
    MarkAtStatuses(MarkAt(s, 2, Completed, Some("5.4s")), 3, Workflow.Running, None);
  }

  lemma ApplyDoneAdvances(p: Page, source: string, target: string)
    requires AtStage(p, 5)
    ensures AtStage(Apply(p, ApplyDoneEvent(source, target)), 6)
  {
    MarkAtStatuses(p.steps, 3, Completed, Some("820ms"));
  }

  /** A log tick changes no status, no index and no run state. */
  lemma TickKeepsStage(p: Page, k: nat)
    requires k <= 6 && AtStage(p, k)
    ensures AtStage(Apply(p, LogTickEvent), k)
  {
    LogTickFrame(p.steps, p.activeStepIndex);
  }

  /**
   * Along start, its three timers, approval and the apply timer, with any number of log ticks
   * in between, the page is always at the stage given by the events seen so far.
   */
  lemma {:induction false} HappyPathStages(p: Page, es: seq<Event>)
    requires AtStage(p, 0)
    requires Milestones(es) <= HappyPath(p.sourceUser, p.targetUser)
    ensures |Milestones(es)| <= 6
    ensures AtStage(Replay(p, es), |Milestones(es)|)
  {
    if es != [] {
      var init, e := es[..|es| - 1], es[|es| - 1];
      assert es == init + [e];
      FilterAppend(IsMilestone, init, [e]);
      assert Milestones(init) <= HappyPath(p.sourceUser, p.targetUser);
      HappyPathStages(p, init);
      if e == LogTickEvent {
        TickKeepsStage(Replay(p, init), |Milestones(init)|);
      } else {
        var k := |Milestones(init)|;
        assert Milestones(es) == Milestones(init) + [e];
        assert e == HappyPath(p.sourceUser, p.targetUser)[k];
        StageAdvances(Replay(p, init), k, p.sourceUser, p.targetUser);
      }
    }
  }

  /** Every stage of the happy path keeps the run orderly. */
  lemma StagesAreOrderly(p: Page, k: nat)
    requires k <= 6 && AtStage(p, k)
    ensures OrderlyRun(p.steps, p.activeStepIndex)
  {
    assert InProgress(Statuses(p.steps)) <= 1;
  }

  /**
   * After every event of the happy path (log ticks included) at most one step is running or
   * in review, and every step before the active index has completed.
   */
  lemma HappyPathIsOrderly(p: Page, es: seq<Event>)
    requires AtStage(p, 0)
    requires Milestones(es) <= HappyPath(p.sourceUser, p.targetUser)
    ensures OrderlyRun(Replay(p, es).steps, Replay(p, es).activeStepIndex)
  {
    HappyPathStages(p, es);
    StagesAreOrderly(Replay(p, es), |Milestones(es)|);
  }

  // ---------------------------------------------------------------------------
  // Single transitions

  /** Without both users the start handler changes nothing. */
  lemma StartRunNeedsBothUsers(p: Page)
    requires p.sourceUser == "" || p.targetUser == ""
    ensures StartRun(p) == p
  {
  }

  /**
   * From the initial step list, start and its three timers leave Fetch and Analyze completed in
   * '340ms' and '1.2s', Review waiting, Apply pending, the review step active and three messages.
   */
  lemma StartThenTimersReachReview(p: Page)
    requires p.sourceUser != "" && p.targetUser != "" && p.steps == InitialSteps()
    ensures var r := AnalyzeDone(FetchDone(FetchStarted(StartRun(p))));
      && Statuses(r.steps) == [Completed, Completed, Workflow.Review, Pending]
      && r.steps[0].duration == Some("340ms") && r.steps[1].duration == Some("1.2s")
      && r.activeStepIndex == 2 && r.agentState == AgentState.Review && r.viewMode == Execution
      && r.messages == [Message(UserMessage, ConfigText(p.sourceUser, p.targetUser)),
                        Message(SystemMessage, AnalyzingText), Message(SystemMessage, ReviewPromptText)]
  {
    var r := AnalyzeDone(FetchDone(FetchStarted(StartRun(p))));
    assert Statuses(r.steps) == [Completed, Completed, Workflow.Review, Pending];
  }

  /**
   * Approval followed by the apply timer completes all four steps, ends in `Done`, and records
   * the display names and the number of changed diff rows (four) in the summary.
   */
  lemma ApproveThenApplyCompletes(p: Page)
    requires |p.steps| == 4 && p.steps[0].status == Completed && p.steps[1].status == Completed
    ensures var r := ApplyDone(Approve(p), p.sourceUser, p.targetUser);
      && Statuses(r.steps) == [Completed, Completed, Completed, Completed]
      && r.agentState == Done && r.activeStepIndex == 3
      && r.runSummary == Some(RunSummary(DisplayName(p.sourceUser), DisplayName(p.targetUser), 4, 0, 28, Success))
      && r.messages == p.messages + [Message(SystemMessage, ApplyingText), Message(SystemMessage, CompletedText)]
  {
    var a := Approve(p);
    assert Statuses(a.steps) == [Completed, Completed, Completed, Workflow.Running];
    var r := ApplyDone(a, p.sourceUser, p.targetUser);
    assert Statuses(r.steps) == [Completed, Completed, Completed, Completed];
    assert ChangedCount(CallingSettingsDiff()) == 4;
  }

  /**
   * The summary names the users chosen at approval. Approve, stop (which makes the form
   * editable again), pick another source user, and let the apply timer fire: the summary
   * still names the first source user, and the page shows the new one.
   */
  lemma SummaryNamesUsersAtApproval(p: Page, other: string)
    ensures var q := StopRun(Approve(p)).(sourceUser := other);
      && ApplyDone(q, p.sourceUser, p.targetUser).runSummary
         == Some(RunSummary(DisplayName(p.sourceUser), DisplayName(p.targetUser), 4, 0, 28, Success))
      && ApplyDone(q, p.sourceUser, p.targetUser).sourceUser == other
  {
    assert ChangedCount(CallingSettingsDiff()) == 4;
  }

  /**
   * Whatever happened before, when the last event is the apply timer the run is done and the
   * summary names the users that timer's closure captured.
   */
  lemma SummaryNamesCapturedUsers(p: Page, es: seq<Event>, source: string, target: string)
    requires es != [] && es[|es| - 1] == ApplyDoneEvent(source, target)
    ensures var r := Replay(p, es);
      && r.runSummary == Some(RunSummary(DisplayName(source), DisplayName(target), 4, 0, 28, Success))
      && r.agentState == Done
  {
    assert ChangedCount(CallingSettingsDiff()) == 4;
  }

  /**
   * Stop fails exactly the running steps, goes idle and appends one message; everything
   * else about the steps is unchanged.
   */
  lemma StopFailsRunningSteps(p: Page)
    ensures var r := StopRun(p);
      && r.agentState == Idle && r.messages == p.messages + [Message(SystemMessage, StoppedText)]
      && r == p.(agentState := Idle, messages := r.messages, steps := r.steps)
      && |r.steps| == |p.steps|
      && (forall k :: 0 <= k < |p.steps| ==>
            r.steps[k].status == (if p.steps[k].status == Workflow.Running then Failed else p.steps[k].status)
            && r.steps[k] == p.steps[k].(status := r.steps[k].status))
  {
  }

  /**
   * Stop cancels nothing: stopped while Analyze runs, the still-pending analysis timer
   * overwrites the failed step and puts the page in review exactly as if it had not been stopped.
   */
  lemma StopDoesNotCancelTimers(p: Page)
    requires AtStage(p, 3)
    ensures var r := AnalyzeDone(StopRun(p));
      && Statuses(StopRun(p).steps) == [Completed, Failed, Pending, Pending]
      && Statuses(r.steps) == StageStatuses(4) && r.agentState == AgentState.Review && r.activeStepIndex == 2
      && AtStage(r, 4)
  {
    var s := StopRun(p);
    assert Statuses(s.steps) == [Completed, Failed, Pending, Pending];
    assert Statuses(AnalyzeDone(s).steps) == StageStatuses(4);
  }

  /** Reject fails exactly the steps in review, goes idle and leaves everything else alone. */
  lemma RejectFailsReviewSteps(p: Page)
    ensures var r := Reject(p);
      && r.agentState == Idle && r.messages == p.messages + [Message(SystemMessage, RejectedText)]
      && r == p.(agentState := Idle, messages := r.messages, steps := r.steps)
      && |r.steps| == |p.steps|
      && (forall k :: 0 <= k < |p.steps| ==>
            r.steps[k].status == (if p.steps[k].status == Workflow.Review then Failed else p.steps[k].status)
            && r.steps[k] == p.steps[k].(status := r.steps[k].status))
  {
  }

  /** Rejecting at the review stage leaves Fetch and Analyze completed and Apply pending. */
  lemma RejectAtReview(p: Page)
    requires AtStage(p, 4)
    ensures Statuses(Reject(p).steps) == [Completed, Completed, Failed, Pending]
  {
    assert Statuses(Reject(p).steps) == [Completed, Completed, Failed, Pending];
  }

  /** "Run another transfer" restores the initial page, whatever state it is called in. */
  lemma FinishRunRestoresInitial(p: Page)
    ensures FinishRun(p) == Initial()
  {
  }

  /** Doing it twice is doing it once. */
  lemma FinishRunIdempotent(p: Page)
    ensures FinishRun(FinishRun(p)) == FinishRun(p)
  {
  }

  /** A tick only ever moves the active running step's log index. */
  lemma TickOnlyMovesActiveLog(p: Page)
    ensures var r := Tick(p);
      && Statuses(r.steps) == Statuses(p.steps)
      && (forall k :: 0 <= k < |p.steps| && k != p.activeStepIndex ==> r.steps[k] == p.steps[k])
      && (!LogTimerActive(p.steps, p.activeStepIndex) ==> r == p)
      && (LogTimerActive(p.steps, p.activeStepIndex) ==>
            r.steps[p.activeStepIndex].currentLogIndex.value < |p.steps[p.activeStepIndex].logs.value|)
      && r.messages == p.messages && r.agentState == p.agentState
  {
    LogTickFrame(p.steps, p.activeStepIndex);
  }

  // ---------------------------------------------------------------------------
  // The page as a mutable object

  class WorkspacePage {
    var viewMode: ViewMode
    var agentState: AgentState
    var sourceUser: string
    var targetUser: string
    var settings: Toggles
    var messages: seq<Message>
    var activeStepIndex: int
    var runSummary: Option<RunSummary>
    var steps: seq<Step>

    /** The current state as a value. */
    function View(): Page
      reads this
    {
      Page(viewMode, agentState, sourceUser, targetUser, settings, messages, activeStepIndex, runSummary, steps)
    }

    constructor ()
      ensures View() == Initial()
    {
      viewMode := Overview;
      agentState := Idle;
      sourceUser := "";
      targetUser := "";
      settings := DefaultToggles();
      messages := [];
      activeStepIndex := -1;
      runSummary := None;
      steps := InitialSteps();
    }

    /** Choosing a source user from the dropdown. */
    method SelectSourceUser(user: string)
      modifies this
      ensures View() == old(View()).(sourceUser := user)
    {
      sourceUser := user;
    }

    /** Choosing a target user from the dropdown. */
    method SelectTargetUser(user: string)
      modifies this
      ensures View() == old(View()).(targetUser := user)
    {
      targetUser := user;
    }

    /** `handleAdvancedSettingChange` */
    method ChangeAdvancedSetting(key: ToggleKey, value: bool)
      modifies this
      ensures View() == old(View()).(settings := SetToggle(old(settings), key, value))
    {
      settings := SetToggle(settings, key, value);
    }

    method HandleStartRun()
      modifies this
      ensures View() == StartRun(old(View()))
    {
      if sourceUser == "" || targetUser == "" {
        return;
      }
      viewMode := Execution;
      agentState := AgentState.Running;
      activeStepIndex := 0;
      messages := [Message(UserMessage, ConfigText(sourceUser, targetUser))];
    }

    method FireFetchStarted()
      modifies this
      ensures View() == FetchStarted(old(View()))
    {
      messages := messages + [Message(SystemMessage, AnalyzingText)];
      steps := BeginFetch(steps);
    }

    method FireFetchDone()
      modifies this
      ensures View() == FetchDone(old(View()))
    {
      steps := FinishFetch(steps);
      activeStepIndex := 1;
    }

    method FireAnalyzeDone()
      modifies this
      ensures View() == AnalyzeDone(old(View()))
    {
      steps := FinishAnalyze(steps);
      activeStepIndex := 2;
      agentState := AgentState.Review;
      messages := messages + [Message(SystemMessage, ReviewPromptText)];
    }

    method HandleStopRun()
      modifies this
      ensures View() == StopRun(old(View()))
    {
      agentState := Idle;
      messages := messages + [Message(SystemMessage, StoppedText)];
      steps := Recolor(steps, Workflow.Running, Failed);
    }

    method HandleApprove()
      modifies this
      ensures View() == Approve(old(View()))
    {
      steps := ApproveReview(steps);
      activeStepIndex := 3;
      agentState := AgentState.Running;
      messages := messages + [Message(SystemMessage, ApplyingText)];
    }

    /** The apply timer, with the users its closure captured when approval was given. */
    method FireApplyDone(source: string, target: string)
      modifies this
      ensures View() == ApplyDone(old(View()), source, target)
    {
      steps := FinishApply(steps);
      agentState := Done;
      runSummary := Some(RunSummary(DisplayName(source), DisplayName(target),
                                    ChangedCount(CallingSettingsDiff()), 0, 28, Success));
      messages := messages + [Message(SystemMessage, CompletedText)];
    }

    method HandleReject()
      modifies this
      ensures View() == Reject(old(View()))
    {
      agentState := Idle;
      messages := messages + [Message(SystemMessage, RejectedText)];
      steps := Recolor(steps, Workflow.Review, Failed);
    }

    method HandleDone()
      modifies this
      ensures View() == FinishRun(old(View())) && View() == Initial()
    {
      viewMode := Overview;
      agentState := Idle;
      steps := InitialSteps();
      activeStepIndex := -1;
      messages := [];
      sourceUser := "";
      targetUser := "";
      settings := DefaultToggles();
      runSummary := None;
    }

    method FireLogTick()
      modifies this
      ensures View() == Tick(old(View()))
    {
      steps := LogTick(steps, activeStepIndex);
    }
  }
}
