// RunAgentPage: the earlier single-screen run page. It shares the step list,
// the timers and the diff with AgentWorkspacePage but keeps no explicit run
// state: whether approval is pending or the transfer is complete is read off
// the step statuses.

module RunAgent {
  import opened Maybe
  import opened Text
  import opened Workflow

  datatype Mode = Form | Chat

  datatype InspectorTab = Preview | RawData | Context

  datatype RunPage = RunPage(
    mode: Mode,
    messages: seq<Message>,
    inputValue: string,
    activeTab: InspectorTab,
    sourceUser: string,
    targetUser: string,
    transferSettings: bool,
    activeStepIndex: int,
    steps: seq<Step>)

  const AnalyzingText := "Analyzing profiles..."
  const ReviewPromptText := "Analysis complete. Please review changes in the Inspector panel."
  const ApplyingText := "Applying transfer..."
  const CompletedText := "\U{2713} Transfer completed successfully! All settings have been applied."
  const CancelledText := "Transfer cancelled by user."
  const AiReplyText := "I can help with that. The old extension (1024) will be preserved and reassigned to the target user."

  function Initial(): RunPage {
    RunPage(Form, [], "", Preview, "", "", true, -1, InitialSteps())
  }

  // ---------------------------------------------------------------------------
  // Derived flags

  /** `workflowSteps.some(step => step.status === 'review')` */
  predicate IsReviewPending(steps: seq<Step>) {
    exists k :: 0 <= k < |steps| && steps[k].status == Review
  }

  /**
   * `isWorkflowComplete` as the page computes it: every step completed or pending, and at
   * least one completed.
   */
  predicate IsWorkflowComplete(steps: seq<Step>) {
    && (forall k :: 0 <= k < |steps| ==> steps[k].status in {Completed, Pending})
    && (exists k :: 0 <= k < |steps| && steps[k].status == Completed)
  }

  /** The completion the "Transfer Complete" banner is meant to announce: every step completed. */
  predicate AllStepsCompleted(steps: seq<Step>) {
    |steps| > 0 && forall k :: 0 <= k < |steps| ==> steps[k].status == Completed
  }

  /** The diff is shown from the review step on. */
  predicate DiffShown(p: RunPage) {
    p.activeTab == Preview && p.activeStepIndex >= 2
  }

  /** The banner over the diff, with the page's own completion test. */
  predicate CompleteBannerAsWritten(p: RunPage) {
    DiffShown(p) && IsWorkflowComplete(p.steps)
  }

  /** The banner over the diff, shown only when the whole workflow has completed. */
  predicate CompleteBanner(p: RunPage) {
    DiffShown(p) && AllStepsCompleted(p.steps)
  }

  /** The "Start Transfer" button is rendered. */
  predicate StartOffered(p: RunPage) {
    p.mode == Form && !IsReviewPending(p.steps)
  }

  /** The "Approve & Apply" and "Reject" buttons are rendered. */
  predicate ApprovalOffered(p: RunPage) {
    IsReviewPending(p.steps)
  }

  /** The chat input is rendered. */
  predicate ChatOffered(p: RunPage) {
    p.mode == Chat
  }

  // ---------------------------------------------------------------------------
  // Transitions

  /** `handleStartTransfer` up to its first timer; without both users it only alerts. */
  function StartTransfer(p: RunPage): RunPage {
    if p.sourceUser == "" || p.targetUser == "" then p
    else p.(messages := [Message(UserMessage, "Transfer settings from " + p.sourceUser + " to " + p.targetUser)],
            mode := Chat, activeStepIndex := 0)
  }

  /** The 500 ms timer. */
  function FetchStarted(p: RunPage): RunPage {
    p.(messages := p.messages + [Message(SystemMessage, AnalyzingText)], steps := BeginFetch(p.steps))
  }

  /** The 3000 ms timer. */
  function FetchDone(p: RunPage): RunPage {
    p.(steps := FinishFetch(p.steps), activeStepIndex := 1)
  }

  /** The 4000 ms timer. */
  function AnalyzeDone(p: RunPage): RunPage {
    p.(steps := FinishAnalyze(p.steps), activeStepIndex := 2,
       messages := p.messages + [Message(SystemMessage, ReviewPromptText)])
  }

  /** `handleApproveTransfer` up to its timer. */
  function ApproveTransfer(p: RunPage): RunPage {
    p.(steps := ApproveReview(p.steps), activeStepIndex := 3,
       messages := p.messages + [Message(SystemMessage, ApplyingText)])
  }

  /** The apply timer (4000 ms). */
  function ApplyDone(p: RunPage): RunPage {
    p.(steps := FinishApply(p.steps), messages := p.messages + [Message(SystemMessage, CompletedText)])
  }

  /** `handleCancelTransfer`: steps in review go back to pending. */
  function CancelTransfer(p: RunPage): RunPage {
    p.(messages := p.messages + [Message(SystemMessage, CancelledText)],
       steps := Recolor(p.steps, Review, Pending))
  }

  /** Typing into the chat input. */
  function TypeInput(p: RunPage, text: string): RunPage {
    p.(inputValue := text)
  }

  /** `handleSendMessage`: the untrimmed input is sent, unless it is blank. */
  function SendMessage(p: RunPage): RunPage {
    if IsBlank(p.inputValue) then p
    else p.(messages := p.messages + [Message(UserMessage, p.inputValue)], inputValue := "")
  }

  /** The 800 ms canned reply scheduled by a send. */
  function AiReply(p: RunPage): RunPage {
    p.(messages := p.messages + [Message(SystemMessage, AiReplyText)])
  }

  /** `handleReset` */
  function Reset(p: RunPage): RunPage {
    p.(mode := Form, messages := [], inputValue := "", activeTab := Preview, sourceUser := "",
       targetUser := "", transferSettings := true, activeStepIndex := -1, steps := InitialSteps())
  }

  function Tick(p: RunPage): RunPage {
    p.(steps := LogTick(p.steps, p.activeStepIndex))
  }

  /** Start and its three timers. */
  function RunToReview(p: RunPage): RunPage {
    AnalyzeDone(FetchDone(FetchStarted(StartTransfer(p))))
  }

  // ---------------------------------------------------------------------------
  // Event sequences

  /** Every handler and timer of the page, as one event each. */
  datatype Event =
    | SelectSourceEvent(source: string) | SelectTargetEvent(target: string) | SetSettingsEvent(value: bool)
    | SelectTabEvent(tab: InspectorTab) | StartEvent | FetchStartedEvent | FetchDoneEvent
    | AnalyzeDoneEvent | ApproveEvent | ApplyDoneEvent | CancelEvent | TypeEvent(text: string)
    | SendEvent | AiReplyEvent | ResetEvent | LogTickEvent

  function Apply(p: RunPage, e: Event): RunPage {
    match e
    case SelectSourceEvent(source) => p.(sourceUser := source)
    case SelectTargetEvent(target) => p.(targetUser := target)
    case SetSettingsEvent(value) => p.(transferSettings := value)
    case SelectTabEvent(tab) => p.(activeTab := tab)
    case StartEvent => StartTransfer(p)
    case FetchStartedEvent => FetchStarted(p)
    case FetchDoneEvent => FetchDone(p)
    case AnalyzeDoneEvent => AnalyzeDone(p)
    case ApproveEvent => ApproveTransfer(p)
    case ApplyDoneEvent => ApplyDone(p)
    case CancelEvent => CancelTransfer(p)
    case TypeEvent(text) => TypeInput(p, text)
    case SendEvent => SendMessage(p)
    case AiReplyEvent => AiReply(p)
    case ResetEvent => Reset(p)
    case LogTickEvent => Tick(p)
  }

  /** The page after the events `es`, in order. */
  function Replay(p: RunPage, es: seq<Event>): RunPage
    decreases |es|
  {
    if es == [] then p else Apply(Replay(p, es[..|es| - 1]), es[|es| - 1])
  }

  /** The apply step has not completed yet. */
  predicate ApplyOpen(p: RunPage) {
    |p.steps| == 4 && p.steps[3].status != Completed
  }

  // ---------------------------------------------------------------------------
  // Properties

  /** A fresh page offers the start button and nothing else, and shows no banner. */
  lemma InitialOffersStartOnly()
    ensures StartOffered(Initial()) && !ApprovalOffered(Initial()) && !ChatOffered(Initial())
    ensures !IsWorkflowComplete(Initial().steps) && !CompleteBanner(Initial())
  {
    var s := InitialSteps();
    assert !IsReviewPending(s) by {
      forall k | 0 <= k < |s| ensures s[k].status != Review { }
    }
    assert s[0].status == Pending;
  }

  /** Start and approval are never offered together. */
  lemma StartAndApprovalExclusive(p: RunPage)
    ensures !(StartOffered(p) && ApprovalOffered(p))
  {
  }

  /**
   * From a fresh step list with both users chosen, start and its timers reach review: approval
   * is offered, start is not, and the diff is shown without a completion banner.
   */
  lemma RunReachesReview(p: RunPage)
    requires p.sourceUser != "" && p.targetUser != "" && p.steps == InitialSteps()
    ensures var r := RunToReview(p);
      && Statuses(r.steps) == [Completed, Completed, Review, Pending]
      && ApprovalOffered(r) && !StartOffered(r) && ChatOffered(r)
      && r.activeStepIndex == 2
      && r.messages == [Message(UserMessage, "Transfer settings from " + p.sourceUser + " to " + p.targetUser),
                        Message(SystemMessage, AnalyzingText), Message(SystemMessage, ReviewPromptText)]
      && !IsWorkflowComplete(r.steps) && !CompleteBanner(r)
  {
    var r := RunToReview(p);
    assert Statuses(r.steps) == [Completed, Completed, Review, Pending];
    assert r.steps[2].status == Review;
  }

  /** Approving and letting the apply timer fire completes every step; both tests agree then. */
  lemma ApproveThenApplyCompletes(p: RunPage)
    requires |p.steps| == 4 && p.steps[0].status == Completed && p.steps[1].status == Completed
    ensures var r := ApplyDone(ApproveTransfer(p));
      && Statuses(r.steps) == [Completed, Completed, Completed, Completed]
      && AllStepsCompleted(r.steps) && IsWorkflowComplete(r.steps)
      && !ApprovalOffered(r) && r.activeStepIndex == 3
      && r.messages == p.messages + [Message(SystemMessage, ApplyingText), Message(SystemMessage, CompletedText)]
  {
    var r := ApplyDone(ApproveTransfer(p));
    assert Statuses(r.steps) == [Completed, Completed, Completed, Completed];
    assert r.steps[0].status == Completed;
  }

  /**
   * Cancelling at review as written: the page's completion test holds and the "Transfer
   * Complete" banner is shown over the diff although nothing was applied.
   */
  lemma CancelShowsCompleteBannerAsWritten(p: RunPage)
    requires p.sourceUser != "" && p.targetUser != "" && p.steps == InitialSteps() && p.activeTab == Preview
    ensures var c := CancelTransfer(RunToReview(p));
      && Statuses(c.steps) == [Completed, Completed, Pending, Pending]
      && IsWorkflowComplete(c.steps) && CompleteBannerAsWritten(c)
      && !AllStepsCompleted(c.steps) && !CompleteBanner(c)
  {
    var c := CancelTransfer(RunToReview(p));
    assert Statuses(c.steps) == [Completed, Completed, Pending, Pending];
    assert c.steps[0].status == Completed;
    assert c.steps[2].status != Completed;
  }

  /** Approving and letting the apply timer fire over the Preview tab shows the corrected banner. */
  lemma ApplyShowsCompleteBanner(p: RunPage)
    requires p.activeTab == Preview
    requires |p.steps| == 4 && p.steps[0].status == Completed && p.steps[1].status == Completed
    ensures CompleteBanner(ApplyDone(ApproveTransfer(p)))
  {
    ApproveThenApplyCompletes(p);
  }

  /** A cancel at review never leaves the corrected banner on, whatever the page was. */
  lemma CancelHidesCompleteBanner(p: RunPage)
    requires IsReviewPending(p.steps)
    ensures !CompleteBanner(CancelTransfer(p))
  {
    var k :| 0 <= k < |p.steps| && p.steps[k].status == Review;
    assert CancelTransfer(p).steps[k].status == Pending;
  }

  /** No event but the apply timer completes the apply step. */
  lemma EventKeepsApplyOpen(p: RunPage, e: Event)
    requires ApplyOpen(p) && e != ApplyDoneEvent
    ensures ApplyOpen(Apply(p, e))
  {
    var s := p.steps;
    match e
    case FetchStartedEvent =>
      assert BeginFetch(s)[3] == s[3];
    case FetchDoneEvent =>
      assert FinishFetch(s)[3] == MarkAt(s, 0, Completed, Some("340ms"))[3] == s[3];
    case AnalyzeDoneEvent =>
      assert FinishAnalyze(s)[3] == MarkAt(s, 1, Completed, Some("1.2s"))[3] == s[3];
    case ApproveEvent =>
      assert ApproveReview(s)[3].status == Running;
    case CancelEvent =>
      assert Recolor(s, Review, Pending)[3].status != Completed;
    case LogTickEvent =>
      LogTickFrame(s, p.activeStepIndex);
      assert LogTick(s, p.activeStepIndex)[3].status == Statuses(s)[3];
    case ResetEvent =>
      assert InitialSteps()[3].status == Pending;
    case _ =>
  }

  /**
   * Along any sequence of events from a fresh page, the corrected banner shows only once the
   * apply timer has fired.
   */
  lemma {:induction false} CompleteBannerOnlyAfterApply(es: seq<Event>)
    ensures ApplyDoneEvent !in es ==> ApplyOpen(Replay(Initial(), es)) && !CompleteBanner(Replay(Initial(), es))
  {
    if ApplyDoneEvent !in es {
      if es == [] {
        assert InitialSteps()[3].status == Pending;
      } else {
        var init := es[..|es| - 1];
        assert ApplyDoneEvent !in init by {
          assert forall x :: x in init ==> x in es;
        }
        CompleteBannerOnlyAfterApply(init);
        EventKeepsApplyOpen(Replay(Initial(), init), es[|es| - 1]);
      }
      var r := Replay(Initial(), es);
      assert r.steps[3].status != Completed;
    }
  }

  /** As written, the banner does show along such a sequence: choose the users, run to review, cancel. */
  lemma CancelledRunShowsBannerAsWritten(source: string, target: string)
    requires source != "" && target != ""
    ensures var es := [SelectSourceEvent(source), SelectTargetEvent(target), StartEvent,
                       FetchStartedEvent, FetchDoneEvent, AnalyzeDoneEvent, CancelEvent];
      && ApplyDoneEvent !in es
      && CompleteBannerAsWritten(Replay(Initial(), es))
  {
    var es := [SelectSourceEvent(source), SelectTargetEvent(target), StartEvent,
               FetchStartedEvent, FetchDoneEvent, AnalyzeDoneEvent, CancelEvent];
    var p := Initial().(sourceUser := source, targetUser := target);
    assert es[..1][..0] == [];
    assert es[..2][..1] == es[..1];
    assert es[..3][..2] == es[..2];
    assert es[..4][..3] == es[..3];
    assert es[..5][..4] == es[..4];
    assert es[..6][..5] == es[..5];
    assert es[..|es| - 1] == es[..6];
    assert Replay(Initial(), es[..1]) == Initial().(sourceUser := source);
    assert Replay(Initial(), es[..2]) == p;
    assert Replay(Initial(), es[..3]) == StartTransfer(p);
    assert Replay(Initial(), es[..4]) == FetchStarted(StartTransfer(p));
    assert Replay(Initial(), es[..5]) == FetchDone(FetchStarted(StartTransfer(p)));
    assert Replay(Initial(), es[..6]) == RunToReview(p);
    CancelShowsCompleteBannerAsWritten(p);
  }

  /** With every step completed the page's own test agrees with the corrected one. */
  lemma AllCompletedIsComplete(steps: seq<Step>)
    requires AllStepsCompleted(steps)
    ensures IsWorkflowComplete(steps)
  {
    assert steps[0].status == Completed;
  }

  /**
   * After a cancel at review nothing but chat is offered: the start button needs form mode and
   * approval needs a step in review, so only Reset brings the start button back.
   */
  lemma CancelLeavesOnlyReset(p: RunPage)
    requires p.mode == Chat
    ensures var c := CancelTransfer(p);
      !StartOffered(c) && !ApprovalOffered(c) && ChatOffered(c)
    ensures StartOffered(Reset(CancelTransfer(p)))
  {
    var c := CancelTransfer(p);
    forall k | 0 <= k < |c.steps| ensures c.steps[k].status != Review {
    }
    InitialOffersStartOnly();
  }

  /** Without both users, start changes nothing (the page only alerts). */
  lemma StartTransferNeedsBothUsers(p: RunPage)
    requires p.sourceUser == "" || p.targetUser == ""
    ensures StartTransfer(p) == p
  {
  }

  /**
   * Cancel sends exactly the steps in review back to pending and appends one message; the mode,
   * the active index and everything else about the steps are unchanged.
   */
  lemma CancelPendsReviewSteps(p: RunPage)
    ensures var c := CancelTransfer(p);
      && c.messages == p.messages + [Message(SystemMessage, CancelledText)]
      && c == p.(messages := c.messages, steps := c.steps)
      && |c.steps| == |p.steps| && !IsReviewPending(c.steps)
      && (forall k :: 0 <= k < |p.steps| ==>
            c.steps[k].status == (if p.steps[k].status == Review then Pending else p.steps[k].status)
            && c.steps[k] == p.steps[k].(status := c.steps[k].status))
  {
    var c := CancelTransfer(p);
    forall k | 0 <= k < |c.steps| ensures c.steps[k].status != Review {
    }
  }

  /** A tick only moves the active running step's log index, keeping it within its logs. */
  lemma TickOnlyMovesActiveLog(p: RunPage)
    ensures var r := Tick(p);
      && Statuses(r.steps) == Statuses(p.steps)
      && (forall k :: 0 <= k < |p.steps| && k != p.activeStepIndex ==> r.steps[k] == p.steps[k])
      && (!LogTimerActive(p.steps, p.activeStepIndex) ==> r == p)
      && (LogTimerActive(p.steps, p.activeStepIndex) ==>
            r.steps[p.activeStepIndex].currentLogIndex.value < |p.steps[p.activeStepIndex].logs.value|)
      && r.messages == p.messages && r.mode == p.mode
  {
    LogTickFrame(p.steps, p.activeStepIndex);
  }

  /** A blank input is not sent; otherwise exactly the typed text, untrimmed, is appended. */
  lemma SendMessageAppendsInput(p: RunPage)
    ensures var r := SendMessage(p);
      && (AllSpace(p.inputValue) ==> r == p)
      && (!AllSpace(p.inputValue) ==>
            r.messages == p.messages + [Message(UserMessage, p.inputValue)] && r.inputValue == ""
            && r.steps == p.steps && r.mode == p.mode)
  {
    BlankIffAllSpace(p.inputValue);
  }

  /** Reset restores the initial page from any state, so doing it twice is doing it once. */
  lemma ResetRestoresInitial(p: RunPage)
    ensures Reset(p) == Initial()
    ensures Reset(Reset(p)) == Reset(p)
  {
  }

  // ---------------------------------------------------------------------------
  // The page as a mutable object

  class RunAgentPage {
    var mode: Mode
    var messages: seq<Message>
    var inputValue: string
    var activeTab: InspectorTab
    var sourceUser: string
    var targetUser: string
    var transferSettings: bool
    var activeStepIndex: int
    var steps: seq<Step>

    function View(): RunPage
      reads this
    {
      RunPage(mode, messages, inputValue, activeTab, sourceUser, targetUser, transferSettings, activeStepIndex, steps)
    }

    constructor ()
      ensures View() == Initial()
    {
      mode := Form;
      messages := [];
      inputValue := "";
      activeTab := Preview;
      sourceUser := "";
      targetUser := "";
      transferSettings := true;
      activeStepIndex := -1;
      steps := InitialSteps();
    }

    method SelectSourceUser(user: string)
      modifies this
      ensures View() == old(View()).(sourceUser := user)
    {
      sourceUser := user;
    }

    method SelectTargetUser(user: string)
      modifies this
      ensures View() == old(View()).(targetUser := user)
    {
      targetUser := user;
    }

    method SetTransferSettings(value: bool)
      modifies this
      ensures View() == old(View()).(transferSettings := value)
    {
      transferSettings := value;
    }

    method SelectTab(tab: InspectorTab)
      modifies this
      ensures View() == old(View()).(activeTab := tab)
    {
      activeTab := tab;
    }

    method HandleStartTransfer()
      modifies this
      ensures View() == StartTransfer(old(View()))
    {
      if sourceUser == "" || targetUser == "" {
        return;
      }
      messages := [Message(UserMessage, "Transfer settings from " + sourceUser + " to " + targetUser)];
      mode := Chat;
      activeStepIndex := 0;
    }

    method FireFetchStarted()
      modifies this
      ensures View() == FetchStarted(old(View()))
    {
      messages := messages + [Message(SystemMessage, AnalyzingText)];
      steps := BeginFetch(steps);
    }

    method FireFetchDone()
      modifies this
      ensures View() == FetchDone(old(View()))
    {
      steps := FinishFetch(steps);
      activeStepIndex := 1;
    }

    method FireAnalyzeDone()
      modifies this
      ensures View() == AnalyzeDone(old(View()))
    {
      steps := FinishAnalyze(steps);
      activeStepIndex := 2;
      messages := messages + [Message(SystemMessage, ReviewPromptText)];
    }

    method HandleApproveTransfer()
      modifies this
      ensures View() == ApproveTransfer(old(View()))
    {
      steps := ApproveReview(steps);
      activeStepIndex := 3;
      messages := messages + [Message(SystemMessage, ApplyingText)];
    }

    method FireApplyDone()
      modifies this
      ensures View() == ApplyDone(old(View()))
    {
      steps := FinishApply(steps);
      messages := messages + [Message(SystemMessage, CompletedText)];
    }

    method HandleCancelTransfer()
      modifies this
      ensures View() == CancelTransfer(old(View()))
    {
      messages := messages + [Message(SystemMessage, CancelledText)];
      steps := Recolor(steps, Review, Pending);
    }

    method ChangeInput(text: string)
      modifies this
      ensures View() == TypeInput(old(View()), text)
    {
      inputValue := text;
    }

    /** Sends the input unless it is blank; `sent` tells whether the reply timer was scheduled. */
    method HandleSendMessage() returns (sent: bool)
      modifies this
      ensures View() == SendMessage(old(View()))
      ensures sent <==> !IsBlank(old(inputValue))
    {
      if IsBlank(inputValue) {
        return false;
      }
      messages := messages + [Message(UserMessage, inputValue)];
      inputValue := "";
      return true;
    }

    method FireAiReply()
      modifies this
      ensures View() == AiReply(old(View()))
    {
      messages := messages + [Message(SystemMessage, AiReplyText)];
    }

    method HandleReset()
      modifies this
      ensures View() == Reset(old(View())) && View() == Initial()
    {
      mode := Form;
      messages := [];
      inputValue := "";
      activeTab := Preview;
      sourceUser := "";
      targetUser := "";
      transferSettings := true;
      activeStepIndex := -1;
      steps := InitialSteps();
    }

    method FireLogTick()
      modifies this
      ensures View() == Tick(old(View()))
    {
      steps := LogTick(steps, activeStepIndex);
    }
  }
}
