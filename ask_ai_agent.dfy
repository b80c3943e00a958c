// The Ask AI client (src/utils/askAiAgent.ts): the system prompt assembled
// line by line from the agent's context, the conversation sent to the proxy
// (the prompt first, then the chat with 'system' turned into 'user'), and the
// mapping of every outcome of the call, failures included, to the text shown
// in the chat.

module AskAi {
  import opened Maybe
  import opened Seqs
  import opened Text
  import opened Transfer
  import ChatProxy

  datatype ChatRole = SystemRole | AssistantRole | UserRole

  /** A chat message; ids and creation times are not modelled. */
  datatype ChatMessage = ChatMessage(role: ChatRole, content: string)

  /** A user as the prompt describes them; "" stands for an absent or empty e-mail. */
  datatype UserSummary = UserSummary(name: string, email: string)

  datatype RunStatus = StatusIdle | StatusRunning | StatusAwaitingApproval | StatusCompleted

  /** A run as the chat sees it; "" stands for an absent or empty id. */
  datatype RunSummary = RunSummary(id: string, status: RunStatus, settingsChangedCount: Option<int>)

  function StatusText(st: RunStatus): string {
    match st
    case StatusIdle => "idle"
    case StatusRunning => "running"
    case StatusAwaitingApproval => "awaitingApproval"
    case StatusCompleted => "completed"
  }

  // ---------------------------------------------------------------------------
  // The prompt, section by section

  const Warning := "\U{26A0}\U{FE0F}"
  const IntroLine :=
    "You are an AI assistant embedded in Webex Control Hub, helping IT administrators understand and safely use AI agents."
  const PurposeLine := "This agent transfers calling settings between users while maintaining security protocols."
  const PreviewHeader := "\nSettings Changes Preview:"
  const SensitiveFlag := " " + Warning + " SENSITIVE"

  /** The three lines every prompt starts with. */
  function HeaderLines(agentName: string): seq<string> {
    [IntroLine, "\nCurrent Agent: \"" + agentName + "\"", PurposeLine]
  }

  /** `${user.email ? ` (${user.email})` : ''}` */
  function EmailPart(email: string): (r: string)
    ensures r == "" <==> email == ""
  {
    if email == "" then "" else " (" + email + ")"
  }

  /** The source and target lines, present only when both users are given. */
  function UserLines(source: Option<UserSummary>, target: Option<UserSummary>): seq<string> {
    if source.Some? && target.Some? then
      ["\nSource User: " + source.value.name + EmailPart(source.value.email),
       "Target User: " + target.value.name + EmailPart(target.value.email)]
    else []
  }

  /** Run status, then the id when it is non-empty, then the changed count when it is defined. */
  function RunLines(run: Option<RunSummary>): seq<string> {
    if run.None? then []
    else
      ["\nRun Status: " + StatusText(run.value.status)]
      + (if run.value.id != "" then ["Run ID: " + run.value.id] else [])
      + (if run.value.settingsChangedCount.Some? then ["Settings Changed: " + IntToString(run.value.settingsChangedCount.value)] else [])
  }

  predicate IsDangerousRow(r: SettingRow) { r.isDangerous }

  /** One changed row: `  - setting: "current" → "new"`, flagged when it is sensitive. */
  function RowLine(r: SettingRow): string {
    "  - " + r.setting + ": \"" + r.currentValue + "\" \U{2192} \"" + r.newValue + "\""
      + (if r.isDangerous then SensitiveFlag else "")
  }

  function SensitiveLine(n: nat): string {
    "\n" + Warning + " " + NatToString(n) + " sensitive setting(s) will be changed. Pay special attention to these."
  }

  /** The sensitive changed rows of a diff. */
  function DangerousChanged(diff: seq<SettingRow>): seq<SettingRow> {
    Filter(IsDangerousRow, Changed(diff))
  }

  /** The preview section: header, one line per changed row, and the sensitive count if any. */
  function DiffLines(diff: Option<seq<SettingRow>>): seq<string> {
    if diff.None? || diff.value == [] then []
    else
      [PreviewHeader] + Map(RowLine, Changed(diff.value))
      + (if |DangerousChanged(diff.value)| > 0 then [SensitiveLine(|DangerousChanged(diff.value)|)] else [])
  }

  /** Line `k` of the role and limitations block. */
  function RoleLine(k: nat): string
    requires k < 11
  {
    match k
    case 0 => "\n\nYour Role:"
    case 1 => "- Explain what this agent does and how it affects users"
    case 2 => "- Help interpret the Preview tab and understand proposed changes"
    case 3 => "- Answer questions about settings, transfers, and potential impacts"
    case 4 => "- Provide guidance on when to approve or reject changes"
    case 5 => "\n" + Warning + " CRITICAL LIMITATIONS:"
    case 6 => "- You CANNOT execute, run, approve, or apply any changes"
    case 7 => "- You CANNOT access real user data beyond what is shown in this context"
    case 8 => "- All actions (Run Agent, Approve & Apply, Reject) must be performed via the Control Panel on the left"
    case 9 => "- If the user asks you to run, approve, or apply changes, you must redirect them to use the Control Panel buttons instead"
    case 10 =>
      "\nAlways remind users that you are here for guidance and explanation only."
      + " The actual controls for making changes are in the Control Panel column."
  }

  /** The role and limitations block that closes every prompt. */
  function RoleBlock(): (r: seq<string>)
    ensures |r| == 11
  {
    seq(11, k requires 0 <= k < 11 => RoleLine(k))
  }

  /** All the lines of the prompt, in order. */
  function PromptParts(agentName: string, source: Option<UserSummary>, target: Option<UserSummary>,
                       run: Option<RunSummary>, diff: Option<seq<SettingRow>>): seq<string>
  {
    HeaderLines(agentName) + UserLines(source, target) + RunLines(run) + DiffLines(diff) + RoleBlock()
  }

  /** The `changedSettings.forEach(...)` loop: one line per changed row, in order. */
  method PushRowLines(parts: seq<string>, changed: seq<SettingRow>) returns (out: seq<string>)
    ensures out == parts + Map(RowLine, changed)
  {
    out := parts;
    var i := 0;
    while i < |changed|
      invariant 0 <= i <= |changed|
      invariant out == parts + Map(RowLine, changed[..i])
    {
      assert changed[..i + 1] == changed[..i] + [changed[i]];
      MapSnoc(RowLine, changed[..i], changed[i]);
      out := out + [RowLine(changed[i])];
      i := i + 1;
    }
    assert changed[..i] == changed;
  }

  /** The source and target lines are pushed only when both users are given. */
  method PushUserLines(parts: seq<string>, source: Option<UserSummary>, target: Option<UserSummary>)
    returns (out: seq<string>)
    ensures out == parts + UserLines(source, target)
  {
    out := parts;
    if source.Some? && target.Some? {
      out := out + ["\nSource User: " + source.value.name + EmailPart(source.value.email),
                    "Target User: " + target.value.name + EmailPart(target.value.email)];
    }
  }

  /** The run lines: the status, then the id and the changed count when they are given. */
  method PushRunLines(parts: seq<string>, run: Option<RunSummary>) returns (out: seq<string>)
    ensures out == parts + RunLines(run)
  {
    out := parts;
    if run.Some? {
      out := out + ["\nRun Status: " + StatusText(run.value.status)];
      ghost var status := out;
      if run.value.id != "" {
        out := out + ["Run ID: " + run.value.id];
      }
      ghost var withId := out;
      assert withId == status + (if run.value.id != "" then ["Run ID: " + run.value.id] else []);
      if run.value.settingsChangedCount.Some? {
        out := out + ["Settings Changed: " + IntToString(run.value.settingsChangedCount.value)];
      }
    }
  }

  /** The preview section, pushed only for a non-empty diff. */
  method PushDiffLines(parts: seq<string>, diff: Option<seq<SettingRow>>) returns (out: seq<string>)
    ensures out == parts + DiffLines(diff)
  {
    out := parts;
    if diff.Some? && |diff.value| > 0 {
      var changed := Changed(diff.value);
      var n := |DangerousChanged(diff.value)|;
      ghost var rows := Map(RowLine, changed);
      ghost var tail := if n > 0 then [SensitiveLine(n)] else [];
      out := out + [PreviewHeader];
      out := PushRowLines(out, changed);
      if n > 0 {
        out := out + [SensitiveLine(n)];
      }
      assert out == parts + [PreviewHeader] + rows + tail;
      AppendAssoc(parts, [PreviewHeader], rows);
      AppendAssoc(parts, [PreviewHeader] + rows, tail);
    }
  }

  /** `buildSystemPrompt`: pushes the lines onto a list, section by section, and joins them. */
  method BuildSystemPrompt(agentName: string, source: Option<UserSummary>, target: Option<UserSummary>,
                           run: Option<RunSummary>, diff: Option<seq<SettingRow>>) returns (prompt: string)
    ensures prompt == Join(PromptParts(agentName, source, target, run, diff), "\n")
  {
    var parts := HeaderLines(agentName);
    parts := PushUserLines(parts, source, target);
    parts := PushRunLines(parts, run);
    parts := PushDiffLines(parts, diff);
    parts := parts + RoleBlock();
    prompt := Join(parts, "\n");
  }

  // ---------------------------------------------------------------------------
  // Properties of the prompt

  /** The prompt opens with the three fixed header lines and closes with the eleven-line role block. */
  lemma PromptFramed(agentName: string, source: Option<UserSummary>, target: Option<UserSummary>,
                     run: Option<RunSummary>, diff: Option<seq<SettingRow>>)
    ensures var p := PromptParts(agentName, source, target, run, diff);
      && |p| == 14 + |UserLines(source, target)| + |RunLines(run)| + |DiffLines(diff)|
      && p[..3] == HeaderLines(agentName)
      && p[1] == "\nCurrent Agent: \"" + agentName + "\""
      && p[|p| - 11..] == RoleBlock()
  {
    var h, u, r, d, b := HeaderLines(agentName), UserLines(source, target), RunLines(run), DiffLines(diff), RoleBlock();
    assert |h| == 3 && h[1] == "\nCurrent Agent: \"" + agentName + "\"";
    AppendParts(h + u + r + d, b, 3);
    AppendParts(h + u + r, d, 3);
    AppendParts(h + u, r, 3);
    AppendParts(h, u, 3);
    assert h[..3] == h;
  }

  /** Both user lines appear exactly when both users are given, each e-mail only when present. */
  lemma UserLinesPresence(source: Option<UserSummary>, target: Option<UserSummary>)
    ensures |UserLines(source, target)| == if source.Some? && target.Some? then 2 else 0
    ensures source.Some? && target.Some? ==>
      && UserLines(source, target)[0] == "\nSource User: " + source.value.name + EmailPart(source.value.email)
      && (source.value.email == "" ==> UserLines(source, target)[0] == "\nSource User: " + source.value.name)
      && (target.value.email == "" ==> UserLines(source, target)[1] == "Target User: " + target.value.name)
  {
  }

  /**
   * With a run summary there is a status line, a Run ID line when the id is non-empty, and a
   * Settings Changed line whenever the count is defined; without one there are none.
   */
  lemma RunLinesPresence(run: Option<RunSummary>)
    ensures |RunLines(run)| ==
      if run.None? then 0
      else 1 + (if run.value.id != "" then 1 else 0) + (if run.value.settingsChangedCount.Some? then 1 else 0)
    ensures run.Some? ==> RunLines(run)[0] == "\nRun Status: " + StatusText(run.value.status)
  {
  }

  /** A count of zero is still reported: the test is for definedness, not truthiness. */
  lemma ZeroChangedCountReported(status: RunStatus)
    ensures RunLines(Some(RunSummary("", status, Some(0))))
         == ["\nRun Status: " + StatusText(status), "Settings Changed: 0"]
  {
    assert IntToString(0) == "0";
    assert "Settings Changed: " + "0" == "Settings Changed: 0";
  }

  /** The flag is the end of a row line exactly when the row is sensitive. */
  lemma RowLineFlaggedIffDangerous(r: SettingRow)
    ensures var line := RowLine(r);
      (|line| >= |SensitiveFlag| && line[|line| - |SensitiveFlag|..] == SensitiveFlag) <==> r.isDangerous
  {
    var line := RowLine(r);
    if !r.isDangerous {
      assert line[|line| - 1] == '"';
      assert SensitiveFlag[|SensitiveFlag| - 1] == 'E';
      if |line| >= |SensitiveFlag| {
        assert line[|line| - |SensitiveFlag|..][|SensitiveFlag| - 1] == line[|line| - 1];
      }
    }
  }

  /**
   * The preview section is present exactly for a non-empty diff; it lists the changed rows in
   * order, one line each, and ends with the sensitive count when some changed row is sensitive.
   */
  lemma DiffLinesShape(diff: Option<seq<SettingRow>>)
    ensures diff.None? || diff.value == [] ==> DiffLines(diff) == []
    ensures diff.Some? && diff.value != [] ==>
      var changed := Changed(diff.value);
      var danger := |DangerousChanged(diff.value)|;
      var d := DiffLines(diff);
      && |d| == 1 + |changed| + (if danger > 0 then 1 else 0)
      && d[0] == PreviewHeader
      && (forall i :: 0 <= i < |changed| ==> d[1 + i] == RowLine(changed[i]))
      && (danger > 0 ==> d[|d| - 1] == SensitiveLine(danger))
      && danger <= |changed|
  {
    if diff.Some? && diff.value != [] {
      var changed := Changed(diff.value);
      var n := |DangerousChanged(diff.value)|;
      var listed := [PreviewHeader] + Map(RowLine, changed);
      var tail := if n > 0 then [SensitiveLine(n)] else [];
      assert DiffLines(diff) == listed + tail;
      assert forall i :: 0 <= i < |changed| ==> listed[1 + i] == RowLine(changed[i]);
    }
  }

  /** The sensitive count is the number of rows marked dangerous, counted one row at a time. */
  lemma {:induction false} DangerCountIsCount(rows: seq<SettingRow>)
    ensures |Filter(IsDangerousRow, rows)| == CountDangerous(rows)
  {
    if rows != [] {
      DangerCountIsCount(rows[1..]);
    }
  }

  /** The number of rows marked dangerous. */
  function CountDangerous(rows: seq<SettingRow>): nat {
    if rows == [] then 0 else (if rows[0].isDangerous then 1 else 0) + CountDangerous(rows[1..])
  }

  // ---------------------------------------------------------------------------
  // The conversation sent to the proxy

  /** `m.role === 'system' ? 'user' : m.role` */
  function RemapRole(role: ChatRole): ChatRole {
    if role == SystemRole then UserRole else role
  }

  /** The system prompt followed by the chat, roles remapped and contents unchanged. */
  function ApiMessages(prompt: string, messages: seq<ChatMessage>): (r: seq<ChatMessage>)
    ensures |r| == |messages| + 1
    ensures r[0] == ChatMessage(SystemRole, prompt)
    ensures forall i :: 0 <= i < |messages| ==>
      r[i + 1].content == messages[i].content && r[i + 1].role == RemapRole(messages[i].role)
  {
    var rest := Map(Remapped, messages);
    assert forall i :: 0 <= i < |messages| ==> ([ChatMessage(SystemRole, prompt)] + rest)[i + 1] == rest[i];
    [ChatMessage(SystemRole, prompt)] + rest
  }

  /** One chat message as sent to the proxy. */
  function Remapped(m: ChatMessage): ChatMessage {
    ChatMessage(RemapRole(m.role), m.content)
  }

  /** Only the prompt speaks as the system; user and assistant turns keep their roles. */
  lemma OnlyPromptIsSystem(prompt: string, messages: seq<ChatMessage>)
    ensures var r := ApiMessages(prompt, messages);
      && (forall i :: 1 <= i < |r| ==> r[i].role != SystemRole)
      && (forall i :: 0 <= i < |messages| && messages[i].role != SystemRole ==> r[i + 1].role == messages[i].role)
  {
    var r := ApiMessages(prompt, messages);
    forall i | 1 <= i < |r| ensures r[i].role != SystemRole {
      assert r[i].role == RemapRole(messages[i - 1].role);
    }
  }

  // ---------------------------------------------------------------------------
  // What the chat shows for each outcome of the call

  /** What was thrown: an `Error` with its message, or any other value. */
  datatype Thrown = ErrorValue(message: string) | OtherValue

  /**
   * The outcome of the call to the proxy: something was thrown (the fetch itself, or reading
   * the JSON), a response that is not ok with its status and `error` field ("" when absent), or
   * an ok response with its `reply` field ("" when absent).
   */
  datatype ApiOutcome = Threw(thrown: Thrown) | NotOk(status: int, error: string) | Ok(reply: string)

  const NotConfiguredText :=
    "AI assistant is not configured." + " Please contact your administrator"
    + " to set up the AI_AGENT_API_KEY" + " environment variable."
  const UnreachableText := "Sorry, I could not reach the AI service. Please try again later."
  const ErrorOpening := "Sorry, I encountered an error: "
  const ErrorClosing := ". Please try again later."
  const StatusFailurePrefix := "API request failed with status "

  /** The `catch` branch for an `Error` with message `m`. */
  function ErrorReply(m: string): (r: string)
    ensures Contains(m, "API key") ==> r == NotConfiguredText
    ensures !Contains(m, "API key") ==> r == ErrorOpening + m + ErrorClosing
  {
    if Contains(m, "API key") then NotConfiguredText
    else ErrorOpening + m + ErrorClosing
  }

  /** `callAskAiApi`: never fails, always yields a non-empty text for the chat. */
  function CallResult(outcome: ApiOutcome): (r: string)
    ensures r != ""
    ensures outcome.Ok? && outcome.reply != "" ==> r == outcome.reply
    ensures outcome.Ok? && outcome.reply == "" ==> r == ChatProxy.NoReplyText
    ensures outcome == Threw(OtherValue) ==> r == UnreachableText
  {
    match outcome
    case Ok(reply) => if reply != "" then reply else ChatProxy.NoReplyText
    case NotOk(status, error) =>
      ErrorReply(if error != "" then error else StatusFailurePrefix + IntToString(status))
    case Threw(thrown) =>
      match thrown
      case ErrorValue(m) => ErrorReply(m)
      case OtherValue => UnreachableText
  }

  /** A failed response without an error field still names its status. */
  lemma NotOkWithoutErrorNamesStatus(status: int)
    ensures CallResult(NotOk(status, ""))
         == ErrorOpening + StatusFailurePrefix + IntToString(status) + ErrorClosing
  {
    var m := StatusFailurePrefix + IntToString(status);
    assert 'k' !in StatusFailurePrefix;
    assert forall j :: 0 <= j < |m| ==> m[j] != 'k';
    assert "API key"[4] == 'k';
    LackingCharNotContained(m, "API key", 4);
    assert ErrorReply(m) == ErrorOpening + m + ErrorClosing;
  }

  /** The proxy's missing-key text lacks the letter 'k'. */
  lemma MissingKeyTextLacksK()
    ensures 'k' !in ChatProxy.MissingKeyText
  {
    assert 'k' !in "AI service is not configured.";
    assert 'k' !in " Please set the AI_AGENT_API_KEY";
    assert 'k' !in " environment variable.";
  }

  /** None of the proxy's error texts has the letter 'k'. */
  lemma FixedErrorTextsLackK(e: string)
    requires ChatProxy.IsFixedErrorText(e)
    ensures 'k' !in e
  {
    MissingKeyTextLacksK();
    RequestErrorTextsLackK();
    ServiceErrorTextsLackK();
  }

  /** The texts for a wrong method or a malformed request have no 'k'. */
  lemma RequestErrorTextsLackK()
    ensures 'k' !in ChatProxy.MethodNotAllowedText
    ensures 'k' !in ChatProxy.MessagesRequiredText
    ensures 'k' !in ChatProxy.NoValidMessagesText
  {
    assert 'k' !in ChatProxy.MethodNotAllowedText;
    assert 'k' !in ChatProxy.MessagesRequiredText;
  }

  /** The texts for a failed upstream call or an unexpected error have no 'k'. */
  lemma ServiceErrorTextsLackK()
    ensures 'k' !in ChatProxy.UpstreamFailedText
    ensures 'k' !in ChatProxy.UnexpectedText
  {
    assert 'k' !in ChatProxy.UpstreamFailedText;
  }

  /**
   * Whatever error the proxy answers with, the chat wraps it in the generic sentence: the
   * configuration hint is never reached through the proxy.
   */
  lemma ProxyErrorsTakeGenericBranch(req: ChatProxy.Request, keyPresent: bool, upstream: ChatProxy.Upstream)
    requires ChatProxy.Handler(req, keyPresent, upstream).payload.ErrorBody?
    ensures var r := ChatProxy.Handler(req, keyPresent, upstream);
      && CallResult(NotOk(r.status, r.payload.error)) == ErrorOpening + r.payload.error + ErrorClosing
      && CallResult(NotOk(r.status, r.payload.error)) != NotConfiguredText
  {
    var r := ChatProxy.Handler(req, keyPresent, upstream);
    var e := r.payload.error;
    ChatProxy.ErrorsAreFixedTexts(req, keyPresent, upstream);
    FixedErrorTextsLackK(e);
    assert "API key"[4] == 'k';
    LackingCharNotContained(e, "API key", 4);
    assert e != "" by {
      assert ChatProxy.IsFixedErrorText(e);
    }
    var shown := CallResult(NotOk(r.status, e));
    assert shown[0] == 'S' && NotConfiguredText[0] == 'A';
  }

  /**
   * The proxy's missing-key error does not mention "API key", so the chat shows it through the
   * generic error sentence rather than the configuration hint.
   */
  lemma MissingKeyTakesGenericBranch()
    ensures CallResult(NotOk(500, ChatProxy.MissingKeyText))
         == ErrorOpening + ChatProxy.MissingKeyText + ErrorClosing
    ensures CallResult(NotOk(500, ChatProxy.MissingKeyText)) != NotConfiguredText
  {
    MissingKeyTextLacksK();
    assert "API key"[4] == 'k';
    LackingCharNotContained(ChatProxy.MissingKeyText, "API key", 4);
    var r := CallResult(NotOk(500, ChatProxy.MissingKeyText));
    assert r[0] == 'S' && NotConfiguredText[0] == 'A';
  }
}
