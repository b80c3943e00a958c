// ControlPanel: the left-hand panel of the agent workspace. Its pure helpers
// (enabled-toggle count, collapsed configuration summary, status pill, sender
// label, footer actions per run phase) and its local state (collapse flag,
// validation tooltip, chat input, and the last users seen by the
// config-updated effect). Messages belong to the parent: the handlers return
// the message they hand to `onAddMessage`.

module ControlPanel {
  import opened Maybe
  import opened Seqs
  import opened Text
  import opened Transfer

  datatype RunPhase = Idle | Running | AwaitingApproval | Completed

  datatype MessageRole = SystemRole | AgentRole | UserRole

  /** A message handed to the parent; ids and timestamps are not modelled. */
  datatype PanelMessage = PanelMessage(role: MessageRole, content: string)

  /** `setupIntent`: 'run', 'test', or absent. */
  datatype SetupIntent = RunIntent | TestIntent | NoIntent

  // ---------------------------------------------------------------------------
  // Enabled toggles and the collapsed summary

  predicate IsOn(b: bool) { b }

  function Bit(b: bool): nat { if b then 1 else 0 }

  /** The number of `true` entries, counted one at a time. */
  function CountTrue(bs: seq<bool>): nat {
    if bs == [] then 0 else Bit(bs[0]) + CountTrue(bs[1..])
  }

  /** Counting one at a time agrees with `filter(Boolean).length`. */
  lemma {:induction false} CountTrueIsFilterLength(bs: seq<bool>)
    ensures CountTrue(bs) == |Filter(IsOn, bs)|
  {
    if bs != [] {
      CountTrueIsFilterLength(bs[1..]);
    }
  }

  /** `Object.values(advancedSettings).filter(Boolean).length` */
  function CountEnabledSettings(t: Toggles): (n: nat)
    ensures n <= 6
  {
    |Filter(IsOn, ToggleValues(t))|
  }

  /** The count is the number of switched-on toggles, one by one. */
  lemma CountEnabledIsSumOfToggles(t: Toggles)
    ensures CountEnabledSettings(t)
         == Bit(t.numbersIdentity) + Bit(t.voicemailGreetings) + Bit(t.callHandlingRules)
          + Bit(t.betweenUserPermissions) + Bit(t.userExperienceIntegrations) + Bit(t.recordingAgentSettings)
  {
    var v := ToggleValues(t);
    CountTrueIsFilterLength(v);
    assert CountTrue(v[5..]) == Bit(v[5]) by { assert v[5..][1..] == []; }
    assert CountTrue(v[4..]) == Bit(v[4]) + CountTrue(v[5..]) by { assert v[4..][1..] == v[5..]; }
    assert CountTrue(v[3..]) == Bit(v[3]) + CountTrue(v[4..]) by { assert v[3..][1..] == v[4..]; }
    assert CountTrue(v[2..]) == Bit(v[2]) + CountTrue(v[3..]) by { assert v[2..][1..] == v[3..]; }
    assert CountTrue(v[1..]) == Bit(v[1]) + CountTrue(v[2..]) by { assert v[1..][1..] == v[2..]; }
  }

  /** The default toggles have four settings switched on. */
  lemma DefaultTogglesEnableFour()
    ensures CountEnabledSettings(DefaultToggles()) == 4
  {
    CountEnabledIsSumOfToggles(DefaultToggles());
  }

  const NoConfigText := "No configuration set"

  /** The count part of the summary: `N setting enabled`, with an `s` unless N is one. */
  function EnabledCountText(n: nat): string {
    NatToString(n) + " setting" + (if n == 1 then "" else "s") + " enabled"
  }

  /** The text shown while the configuration section is collapsed. */
  function ConfigSummary(source: string, target: string, t: Toggles): string {
    if source == "" || target == "" then NoConfigText
    else
      DisplayName(source) + " \U{2192} " + DisplayName(target) + " \U{00B7} "
        + EnabledCountText(CountEnabledSettings(t))
  }

  /** Without both users the summary is the fixed placeholder. */
  lemma ConfigSummaryNeedsBothUsers(source: string, target: string, t: Toggles)
    requires source == "" || target == ""
    ensures ConfigSummary(source, target, t) == NoConfigText
  {
  }

  /**
   * With both users the summary names them by display name, states the count as one digit,
   * and says "setting" in the singular exactly when one setting is enabled.
   */
  lemma ConfigSummaryShape(source: string, target: string, t: Toggles)
    requires source != "" && target != ""
    ensures var n := CountEnabledSettings(t);
      var head := DisplayName(source) + " \U{2192} " + DisplayName(target) + " \U{00B7} ";
      var r := ConfigSummary(source, target, t);
      && StartsWith(r, head)
      && r[|head|] == DigitChar(n)
      && (n == 1 <==> r[|head| + 1..] == " setting enabled")
      && (n != 1 <==> r[|head| + 1..] == " settings enabled")
  {
    var n := CountEnabledSettings(t);
    var head := DisplayName(source) + " \U{2192} " + DisplayName(target) + " \U{00B7} ";
    var count := EnabledCountText(n);
    var r := ConfigSummary(source, target, t);
    assert r == head + count;
    assert r[..|head|] == head;
    assert r[|head|..] == count;
    EnabledCountOneDigit(n);
    assert r[|head| + 1..] == count[1..];
  }

  /** A one-digit count is its digit followed by the words, singular for one. */
  lemma EnabledCountOneDigit(n: nat)
    requires n < 10
    ensures var count := EnabledCountText(n);
      && count[0] == DigitChar(n)
      && count[1..] == if n == 1 then " setting enabled" else " settings enabled"
  {
    assert NatToString(n) == [DigitChar(n)];
  }

  /** The same users with a different number of enabled toggles give a different summary. */
  lemma ConfigSummaryDeterminesCount(source: string, target: string, a: Toggles, b: Toggles)
    requires source != "" && target != ""
    requires ConfigSummary(source, target, a) == ConfigSummary(source, target, b)
    ensures CountEnabledSettings(a) == CountEnabledSettings(b)
  {
    ConfigSummaryShape(source, target, a);
    ConfigSummaryShape(source, target, b);
  }

  // ---------------------------------------------------------------------------
  // Status pill, sender label, footer

  datatype Pill = Pill(caption: string, className: string, icon: Option<string>)

  /** `getStatusPill` */
  function StatusPill(phase: RunPhase): Pill {
    match phase
    case Idle => Pill("Not running", "status-pill-idle", None)
    case Running => Pill("Running...", "status-pill-running", Some("spinner-partial-filled"))
    case AwaitingApproval => Pill("Approval required", "status-pill-approval", None)
    case Completed => Pill("Run complete", "status-pill-completed", None)
  }

  /** Each phase has its own label, and only a running phase carries the spinner. */
  lemma StatusPillDistinct(a: RunPhase, b: RunPhase)
    ensures StatusPill(a).caption == StatusPill(b).caption <==> a == b
    ensures StatusPill(a).icon.Some? <==> a == Running
  {
    var la, lb := StatusPill(a).caption, StatusPill(b).caption;
    if a != b {
      assert la[0] != lb[0] || la[3] != lb[3];
    }
  }

  /** `getSenderLabel`: system and agent messages are both shown as the agent's. */
  function SenderLabel(role: MessageRole): string {
    if role == UserRole then "You" else "Agent"
  }

  lemma SenderLabelYouOnlyForUser(role: MessageRole)
    ensures SenderLabel(role) == "You" <==> role == UserRole
  {
    if role != UserRole {
      assert SenderLabel(role)[0] == 'A';
    }
  }

  datatype FooterAction =
    | RunAgentButton | TestAgentButton | StopRunButton | ApproveButton | RejectButton
    | RunAnotherButton | BackToOverviewButton

  /** The buttons in the footer's phase-actions section, in render order. */
  function FooterActions(phase: RunPhase, intent: SetupIntent): seq<FooterAction> {
    match phase
    case Idle => (if intent == RunIntent then [RunAgentButton] else if intent == TestIntent then [TestAgentButton] else [])
    case Running => [StopRunButton]
    case AwaitingApproval => [ApproveButton, RejectButton]
    case Completed => [RunAnotherButton, BackToOverviewButton]
  }

  /** Each action belongs to exactly one phase; run and test also depend on the setup intent. */
  lemma FooterActionsExclusive(phase: RunPhase, intent: SetupIntent)
    ensures var acts := FooterActions(phase, intent);
      && (StopRunButton in acts <==> phase == Running)
      && (ApproveButton in acts <==> phase == AwaitingApproval)
      && (RejectButton in acts <==> phase == AwaitingApproval)
      && (RunAnotherButton in acts <==> phase == Completed)
      && (BackToOverviewButton in acts <==> phase == Completed)
      && (RunAgentButton in acts <==> phase == Idle && intent == RunIntent)
      && (TestAgentButton in acts <==> phase == Idle && intent == TestIntent)
      && (acts == [] <==> phase == Idle && intent == NoIntent)
  {
  }

  // ---------------------------------------------------------------------------
  // Collapse effect

  /** The collapse flag after the run phase changes to `phase`. */
  function CollapsedAfter(collapsed: bool, phase: RunPhase): bool {
    if phase == Running || phase == AwaitingApproval then true
    else if phase == Idle then false
    else collapsed
  }

  /** The flag after a series of phase changes. */
  function CollapsedAfterAll(collapsed: bool, phases: seq<RunPhase>): bool
    decreases |phases|
  {
    if phases == [] then collapsed
    else CollapsedAfterAll(CollapsedAfter(collapsed, phases[0]), phases[1..])
  }

  /**
   * After a series of phase changes with no click on the collapse toggle in between, the
   * configuration is collapsed exactly when the last phase other than `completed` was a running
   * one; with none, the flag is unchanged.
   */
  lemma {:induction false} CollapseFollowsLastDecisivePhase(collapsed: bool, phases: seq<RunPhase>)
    decreases |phases|
    ensures var r := CollapsedAfterAll(collapsed, phases);
      && ((forall i :: 0 <= i < |phases| ==> phases[i] == Completed) ==> r == collapsed)
      && (forall i :: 0 <= i < |phases| && phases[i] != Completed
            && (forall j :: i < j < |phases| ==> phases[j] == Completed)
            ==> r == (phases[i] != Idle))
  {
    if phases != [] {
      var c := CollapsedAfter(collapsed, phases[0]);
      CollapseFollowsLastDecisivePhase(c, phases[1..]);
      forall i | 0 <= i < |phases| && phases[i] != Completed
          && (forall j :: i < j < |phases| ==> phases[j] == Completed)
        ensures CollapsedAfterAll(collapsed, phases) == (phases[i] != Idle)
      {
        if i > 0 {
          assert phases[1..][i - 1] == phases[i];
          assert forall j :: i - 1 < j < |phases[1..]| ==> phases[1..][j] == phases[j + 1];
        } else {
          assert forall j :: 0 <= j < |phases[1..]| ==> phases[1..][j] == phases[j + 1];
        }
      }
    }
  }

  // ---------------------------------------------------------------------------
  // Local state

  const ValidationTooltipText := "Please select both source and target users above"
  const CallerIdReplyText :=
    "Caller ID controls what number/name is shown to recipients. In this transfer, it will inherit the source user's Caller ID settings."

  /** The text of the config-updated message for two chosen users. */
  function ConfigUpdatedText(source: string, target: string): string {
    "Config updated: " + DisplayName(source) + " \U{2192} " + DisplayName(target) + "."
  }

  class Panel {
    var isConfigCollapsed: bool
    var showValidationTooltip: bool
    var chatInput: string
    /** What the config-updated effect last saw (`prevSourceUserRef`, `prevTargetUserRef`). */
    var prevSourceUser: string
    var prevTargetUser: string

    /** Mounting with the parent's current users. */
    constructor (sourceUser: string, targetUser: string)
      ensures !isConfigCollapsed && !showValidationTooltip && chatInput == ""
      ensures prevSourceUser == sourceUser && prevTargetUser == targetUser
    {
      isConfigCollapsed := false;
      showValidationTooltip := false;
      chatInput := "";
      prevSourceUser := sourceUser;
      prevTargetUser := targetUser;
    }

    /** The collapse effect, run when `runPhase` changes. */
    method OnRunPhaseChange(phase: RunPhase)
      modifies this
      ensures isConfigCollapsed == CollapsedAfter(old(isConfigCollapsed), phase)
      ensures showValidationTooltip == old(showValidationTooltip) && chatInput == old(chatInput)
      ensures prevSourceUser == old(prevSourceUser) && prevTargetUser == old(prevTargetUser)
    {
      if phase == Running || phase == AwaitingApproval {
        isConfigCollapsed := true;
      } else if phase == Idle {
        isConfigCollapsed := false;
      }
    }

    /**
     * The collapse toggle in the configuration header (rendered once a run has started): it
     * flips the flag and touches nothing else.
     */
    method ToggleCollapse()
      modifies this
      ensures isConfigCollapsed == !old(isConfigCollapsed)
      ensures showValidationTooltip == old(showValidationTooltip) && chatInput == old(chatInput)
      ensures prevSourceUser == old(prevSourceUser) && prevTargetUser == old(prevTargetUser)
    {
      isConfigCollapsed := !isConfigCollapsed;
    }

    /**
     * `handleRunClick`: asks the parent to run only when both users are chosen; otherwise it
     * only shows the tooltip (and schedules its 3000 ms hide timer).
     */
    method HandleRunClick(sourceUser: string, targetUser: string) returns (runAgent: bool)
      modifies this
      ensures runAgent <==> sourceUser != "" && targetUser != ""
      ensures showValidationTooltip == (if runAgent then old(showValidationTooltip) else true)
      ensures isConfigCollapsed == old(isConfigCollapsed) && chatInput == old(chatInput)
      ensures prevSourceUser == old(prevSourceUser) && prevTargetUser == old(prevTargetUser)
    {
      if sourceUser == "" || targetUser == "" {
        showValidationTooltip := true;
        return false;
      }
      return true;
    }

    /** The tooltip's hide timer. */
    method OnTooltipTimer()
      modifies this
      ensures !showValidationTooltip
      ensures isConfigCollapsed == old(isConfigCollapsed) && chatInput == old(chatInput)
      ensures prevSourceUser == old(prevSourceUser) && prevTargetUser == old(prevTargetUser)
    {
      showValidationTooltip := false;
    }

    method ChangeChatInput(text: string)
      modifies this
      ensures chatInput == text
      ensures isConfigCollapsed == old(isConfigCollapsed) && showValidationTooltip == old(showValidationTooltip)
      ensures prevSourceUser == old(prevSourceUser) && prevTargetUser == old(prevTargetUser)
    {
      chatInput := text;
    }

    /**
     * `handleChatSubmit`: a blank input is ignored; otherwise the untrimmed input is handed up
     * as a user message and the input is cleared (the agent's canned reply follows on a timer).
     */
    method HandleChatSubmit() returns (sent: Option<PanelMessage>)
      modifies this
      ensures IsBlank(old(chatInput)) ==> sent == None && chatInput == old(chatInput)
      ensures !IsBlank(old(chatInput)) ==> sent == Some(PanelMessage(UserRole, old(chatInput))) && chatInput == ""
      ensures isConfigCollapsed == old(isConfigCollapsed) && showValidationTooltip == old(showValidationTooltip)
      ensures prevSourceUser == old(prevSourceUser) && prevTargetUser == old(prevTargetUser)
    {
      if IsBlank(chatInput) {
        return None;
      }
      sent := Some(PanelMessage(UserRole, chatInput));
      chatInput := "";
    }

    /**
     * The config-updated effect, run when either user prop changes: once both users are chosen
     * it hands up a system message naming them, and it always remembers what it saw.
     */
    method OnUsersChange(sourceUser: string, targetUser: string) returns (added: Option<PanelMessage>)
      modifies this
      ensures var changed := sourceUser != old(prevSourceUser) || targetUser != old(prevTargetUser);
        && (added.Some? <==> changed && sourceUser != "" && targetUser != "")
        && (added.Some? ==> added.value == PanelMessage(SystemRole, ConfigUpdatedText(sourceUser, targetUser)))
        && prevSourceUser == sourceUser && prevTargetUser == targetUser
      ensures isConfigCollapsed == old(isConfigCollapsed) && showValidationTooltip == old(showValidationTooltip)
      ensures chatInput == old(chatInput)
    {
      added := None;
      if prevSourceUser != sourceUser || prevTargetUser != targetUser {
        if sourceUser != "" && targetUser != "" {
          added := Some(PanelMessage(SystemRole, ConfigUpdatedText(sourceUser, targetUser)));
        }
        prevSourceUser := sourceUser;
        prevTargetUser := targetUser;
      }
    }
  }

  /** The agent's canned reply to any chat message. */
  function AgentReply(): (m: PanelMessage)
    ensures m.role == AgentRole && SenderLabel(m.role) == "Agent"
  {
    PanelMessage(AgentRole, CallerIdReplyText)
  }
}
