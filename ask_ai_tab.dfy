// The Ask AI chat tab (src/components/askai/AskAiTab.tsx): the context line
// above the chat, the greeting chosen by run status, and the send handler,
// which appends the user's turn, waits for the client and appends exactly one
// more message, clearing the sending flag on every path. The await is split
// into two events: the start of a send and its completion.

module AskAiChat {
  import opened Maybe
  import opened Text
  import opened AskAi

  // ---------------------------------------------------------------------------
  // The context line

  const ContextSeparator := " \U{00B7} "

  /** The parts of the context line: the agent, then the users when both are given, then the run. */
  function ContextParts(agentName: string, source: Option<UserSummary>, target: Option<UserSummary>,
                        runId: string): seq<string>
  {
    [agentName]
    + (if source.Some? && target.Some? then [source.value.name + " \U{2192} " + target.value.name] else [])
    + (if runId != "" then ["Run " + runId] else [])
  }

  /** The agent always comes first; each optional part is present exactly when its inputs are. */
  lemma ContextPartsShape(agentName: string, source: Option<UserSummary>, target: Option<UserSummary>,
                          runId: string)
    ensures var p := ContextParts(agentName, source, target, runId);
      && |p| == 1 + (if source.Some? && target.Some? then 1 else 0) + (if runId != "" then 1 else 0)
      && p[0] == agentName
      && (source.Some? && target.Some? ==> p[1] == source.value.name + " \U{2192} " + target.value.name)
      && (runId != "" ==> p[|p| - 1] == "Run " + runId)
  {
  }

  /** Without both users and without a run id, the line is just the agent's name. */
  lemma ContextLineNameOnly(agentName: string, source: Option<UserSummary>, target: Option<UserSummary>)
    requires source.None? || target.None?
    ensures Join(ContextParts(agentName, source, target, ""), ContextSeparator) == agentName
  {
    assert ContextParts(agentName, source, target, "") == [agentName];
  }

  // ---------------------------------------------------------------------------
  // The greeting

  const IdleGreeting :=
    "You can ask what this agent does" + " or how it will affect a user."
    + " Chat here will never make changes - use the controls on the left to run or approve."
  const ReviewGreeting :=
    "Changes are ready for review."
    + " I can help explain the proposed changes shown in Preview."
    + " Use Approve & Apply or Reject in the Control Panel to commit the changes."
  const CompletedGreeting :=
    "This run is complete."
    + " Ask what changed for the target user or why certain settings were left unchanged."
  const RunningGreeting :=
    "The agent is currently running." + " I can explain what it is doing and what to expect."

  /** `getInitialMessage`: the greeting for the run's status. */
  function InitialMessage(status: RunStatus): string {
    match status
    case StatusIdle => IdleGreeting
    case StatusAwaitingApproval => ReviewGreeting
    case StatusCompleted => CompletedGreeting
    case StatusRunning => RunningGreeting
  }

  /** Each status has a greeting of its own. */
  lemma InitialMessageDistinct(a: RunStatus, b: RunStatus)
    requires a != b
    ensures InitialMessage(a) != InitialMessage(b)
  {
    assert IdleGreeting[0] == 'Y';
    assert ReviewGreeting[0] == 'C';
    assert CompletedGreeting[0] == 'T' && CompletedGreeting[2] == 'i';
    assert RunningGreeting[0] == 'T' && RunningGreeting[2] == 'e';
    var ma, mb := InitialMessage(a), InitialMessage(b);
    assert ma[0] != mb[0] || ma[2] != mb[2];
  }

  // ---------------------------------------------------------------------------
  // Sending

  const ApologyText := "Sorry, I could not process your request. Please try again later."

  /** The tab's state: the chat, the text box and whether a send is in flight. */
  datatype TabState = TabState(messages: seq<ChatMessage>, input: string, isSending: bool)

  function InitialTab(): TabState {
    TabState([], "", false)
  }

  /** `if (!trimmed || isSending) return;` */
  predicate SendIgnored(s: TabState) {
    IsBlank(s.input) || s.isSending
  }

  /** The user's turn: the trimmed input. */
  function UserMessage(s: TabState): ChatMessage {
    ChatMessage(UserRole, Trim(s.input))
  }

  /** `handleSend` up to the await: append the user's turn, clear the box, mark the send. */
  function SendStart(s: TabState): TabState {
    if SendIgnored(s) then s
    else TabState(s.messages + [UserMessage(s)], "", true)
  }

  /** The conversation handed to the client: the chat as it was, then the new turn. */
  function Outgoing(s: TabState): seq<ChatMessage> {
    s.messages + [UserMessage(s)]
  }

  /**
   * The message appended when the call settles: the client's text as an assistant turn, or the
   * apology as a system turn when the call is rejected (`None`).
   */
  function Reply(outcome: Option<ApiOutcome>): ChatMessage {
    match outcome
    case Some(o) => ChatMessage(AssistantRole, CallResult(o))
    case None => ChatMessage(SystemRole, ApologyText)
  }

  /** `handleSend` after the await: append the reply to the chat as it is now, and clear the flag. */
  function SendFinish(s: TabState, outcome: Option<ApiOutcome>): TabState {
    s.(messages := s.messages + [Reply(outcome)], isSending := false)
  }

  /** A blank input or a send already in flight leaves everything as it is. */
  lemma IgnoredSendChangesNothing(s: TabState)
    requires SendIgnored(s)
    ensures SendStart(s) == s
  {
  }

  /**
   * Otherwise exactly one user turn is appended, holding the trimmed input, which is non-blank
   * and needs no further trimming; the box is cleared and the send is marked.
   */
  lemma SendStartAppendsTrimmed(s: TabState)
    requires !SendIgnored(s)
    ensures var t := SendStart(s);
      && t.messages == s.messages + [ChatMessage(UserRole, Trim(s.input))]
      && t.input == "" && t.isSending
      && Trim(t.messages[|s.messages|].content) == t.messages[|s.messages|].content
      && !IsBlank(t.messages[|s.messages|].content)
  {
    var t := SendStart(s);
    assert t.messages[|s.messages|] == UserMessage(s);
    TrimIdempotent(s.input);
  }

  /** A second press while the first send is in flight does nothing. */
  lemma NoSecondSendWhileSending(s: TabState)
    ensures SendStart(SendStart(s)) == SendStart(s)
  {
  }

  /** The client receives the earlier chat followed by the new turn, and the chat now holds the same. */
  lemma OutgoingIsChatSoFar(s: TabState)
    requires !SendIgnored(s)
    ensures Outgoing(s) == SendStart(s).messages
    ensures |Outgoing(s)| == |s.messages| + 1 && Outgoing(s)[..|s.messages|] == s.messages
  {
    assert Outgoing(s)[..|s.messages|] == s.messages;
  }

  /**
   * Sent upstream: the system prompt, the earlier chat with system turns spoken as the user, and
   * the new turn last.
   */
  lemma UpstreamEndsWithUserTurn(prompt: string, s: TabState)
    requires !SendIgnored(s)
    ensures var r := ApiMessages(prompt, Outgoing(s));
      && |r| == |s.messages| + 2
      && r[0] == ChatMessage(SystemRole, prompt)
      && r[|r| - 1] == ChatMessage(UserRole, Trim(s.input))
  {
    var o := Outgoing(s);
    assert o[|o| - 1] == ChatMessage(UserRole, Trim(s.input));
  }

  /**
   * A settled call adds exactly one message: a non-empty assistant turn carrying the client's
   * text, or the fixed apology as a system turn. The flag is cleared on both paths.
   */
  lemma FinishAppendsOne(s: TabState, outcome: Option<ApiOutcome>)
    ensures var t := SendFinish(s, outcome);
      && |t.messages| == |s.messages| + 1
      && t.messages[..|s.messages|] == s.messages
      && !t.isSending && t.input == s.input
      && (outcome.Some? ==> t.messages[|s.messages|] == ChatMessage(AssistantRole, CallResult(outcome.value))
                            && t.messages[|s.messages|].content != "")
      && (outcome.None? ==> t.messages[|s.messages|] == ChatMessage(SystemRole, ApologyText))
  {
    var t := SendFinish(s, outcome);
    assert t.messages[..|s.messages|] == s.messages;
  }

  /** A whole send adds the user's turn and then one reply, and leaves the tab ready for another. */
  lemma WholeSendAddsTwo(s: TabState, outcome: Option<ApiOutcome>)
    requires !SendIgnored(s)
    ensures var t := SendFinish(SendStart(s), outcome);
      && t.messages == s.messages + [UserMessage(s), Reply(outcome)]
      && t.input == "" && !t.isSending
  {
    var u, r := UserMessage(s), Reply(outcome);
    var m := TabState(s.messages + [u], "", true);
    assert SendStart(s) == m;
    assert SendFinish(m, outcome) == TabState(s.messages + [u] + [r], "", false);
    assert s.messages + [u] + [r] == s.messages + [u, r];
  }

  /** The tab: the props it is given, and the three pieces of state its handlers update. */
  class AskAiTab {
    const agentName: string
    const sourceUser: Option<UserSummary>
    const targetUser: Option<UserSummary>
    const runSummary: RunSummary
    var messages: seq<ChatMessage>
    var input: string
    var isSending: bool

    function View(): TabState
      reads this
    {
      TabState(messages, input, isSending)
    }

    constructor (agentName: string, sourceUser: Option<UserSummary>, targetUser: Option<UserSummary>,
                 runSummary: RunSummary)
      ensures View() == InitialTab()
      ensures this.agentName == agentName && this.sourceUser == sourceUser
      ensures this.targetUser == targetUser && this.runSummary == runSummary
    {
      this.agentName := agentName;
      this.sourceUser := sourceUser;
      this.targetUser := targetUser;
      this.runSummary := runSummary;
      messages := [];
      input := "";
      isSending := false;
    }

    /** `buildContextLine`: pushes the parts onto a list and joins them. */
    method BuildContextLine() returns (line: string)
      ensures line == Join(ContextParts(agentName, sourceUser, targetUser, runSummary.id), ContextSeparator)
    {
      var parts := [agentName];
      if sourceUser.Some? && targetUser.Some? {
        parts := parts + [sourceUser.value.name + " \U{2192} " + targetUser.value.name];
      }
      if runSummary.id != "" {
        parts := parts + ["Run " + runSummary.id];
      }
      line := Join(parts, ContextSeparator);
    }

    /** The text box's change handler. */
    method ChangeInput(value: string)
      modifies this
      ensures View() == old(View()).(input := value)
    {
      input := value;
    }

    /**
     * `handleSend` up to the await. Returns the conversation handed to the client, or `None`
     * when the send is ignored.
     */
    method HandleSendStart() returns (request: Option<seq<ChatMessage>>)
      modifies this
      ensures View() == SendStart(old(View()))
      ensures request.Some? <==> !SendIgnored(old(View()))
      ensures request.Some? ==> request.value == Outgoing(old(View())) && request.value == messages
    {
      var trimmed := Trim(input);
      if trimmed == "" || isSending {
        return None;
      }
      var userMessage := ChatMessage(UserRole, trimmed);
      request := Some(messages + [userMessage]);
      messages := messages + [userMessage];
      input := "";
      isSending := true;
    }

    /** `handleSend` after the await: the reply or the apology, then the `finally`. */
    method HandleSendFinish(outcome: Option<ApiOutcome>)
      modifies this
      ensures View() == SendFinish(old(View()), outcome)
    {
      match outcome {
        case Some(o) =>
          var replyText := CallResult(o);
          messages := messages + [ChatMessage(AssistantRole, replyText)];
        case None =>
          messages := messages + [ChatMessage(SystemRole, ApologyText)];
      }
      isSending := false;
    }
  }
}
