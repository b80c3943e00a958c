// The vocabulary shared by both run pages (AgentWorkspacePage and the older
// RunAgentPage): the four-step execution list, its per-step rewrites (each one
// a `prev.map(...)` in the pages), the log-cycling tick, and the transfer
// configuration (advanced-setting toggles and the calling-settings diff).

module Workflow {
  import opened Maybe

  datatype StepStatus = Pending | Running | Completed | Review | Failed

  /** One entry of the execution list. `logs` and `currentLogIndex` are optional, as in the pages. */
  datatype Step = Step(
    id: string,
    title: string,
    description: string,
    status: StepStatus,
    icon: string,
    logs: Option<seq<string>>,
    currentLogIndex: Option<nat>,
    duration: Option<string>)

  /** Who wrote a chat-pane message; ids and timestamps are not modelled. */
  datatype MessageType = UserMessage | SystemMessage | ConfigMessage

  datatype Message = Message(kind: MessageType, content: string)

  /** The list both pages start from and restore on reset: Fetch, Analyze, Review (no logs), Apply. */
  function InitialSteps(): (r: seq<Step>)
    ensures |r| == 4
    ensures forall k :: 0 <= k < |r| ==> r[k].status == Pending && r[k].duration == None
    ensures r[2].logs == None
    ensures forall k :: 0 <= k < |r| && k != 2 ==> r[k].logs.Some? && |r[k].logs.value| > 0 && r[k].currentLogIndex == Some(0)
  {
    [ Step("step1", "Fetch Profiles", "Retrieve call recording", Pending, "contact-card-regular",
           Some(["Connecting to User API...", "Authenticating...", "Retrieving UUID...", "Fetching profile data...", "Done."]),
           Some(0), None),
      Step("step2", "Analyze Settings", "Analyze settings for conflicts", Pending, "analysis-regular",
           Some(["Loading rules engine...", "Scanning 12 rules...", "Detecting conflicts...", "Mapping extensions...",
                 "Verifying permissions...", "Done."]),
           Some(0), None),
      Step("step3", "Review Changes", "Human verification required", Pending, "handset-regular",
           None, None, None),
      Step("step4", "Apply Transfer", "Update system configuration", Pending, "check-circle-regular",
           Some(["Initiating transfer...", "Backing up current config...", "Applying new settings...",
                 "Verifying application...", "Done."]),
           Some(0), None) ]
  }

  /** The statuses of a step list, in order. */
  function Statuses(steps: seq<Step>): (r: seq<StepStatus>)
    ensures |r| == |steps| && forall k :: 0 <= k < |steps| ==> r[k] == steps[k].status
  {
    seq(|steps|, k requires 0 <= k < |steps| => steps[k].status)
  }

  /**
   * `prev.map((step, idx) => idx === i ? { ...step, status: st, duration? } : step)`:
   * only step `i` changes, and only its status (and its duration when one is given).
   */
  function MarkAt(steps: seq<Step>, i: int, st: StepStatus, duration: Option<string>): (r: seq<Step>)
    ensures |r| == |steps|
    ensures forall k :: 0 <= k < |r| && k != i ==> r[k] == steps[k]
    ensures 0 <= i < |r| ==> r[i].status == st
    ensures 0 <= i < |r| ==> r[i].duration == (if duration.Some? then duration else steps[i].duration)
    ensures 0 <= i < |r| ==> r[i] == steps[i].(status := r[i].status, duration := r[i].duration)
  {
    seq(|steps|, k requires 0 <= k < |steps| =>
      if k == i then steps[k].(status := st, duration := if duration.Some? then duration else steps[k].duration)
      else steps[k])
  }

  /** Marking step `i` changes, in the status list, only the status at `i`. */
  lemma MarkAtStatuses(steps: seq<Step>, i: int, st: StepStatus, duration: Option<string>)
    requires 0 <= i < |steps|
    ensures Statuses(MarkAt(steps, i, st, duration)) == Statuses(steps)[i := st]
  {
    var r := MarkAt(steps, i, st, duration);
    assert forall k :: 0 <= k < |r| ==> Statuses(r)[k] == Statuses(steps)[i := st][k];
  }

  /** First timer: step 0 starts running. */
  function BeginFetch(steps: seq<Step>): seq<Step> {
    MarkAt(steps, 0, Running, None)
  }

  /** Second timer: step 0 completes in '340ms' and step 1 starts running. */
  function FinishFetch(steps: seq<Step>): seq<Step> {
    MarkAt(MarkAt(steps, 0, Completed, Some("340ms")), 1, Running, None)
  }

  /** Third timer: step 1 completes in '1.2s' and step 2 waits for review. */
  function FinishAnalyze(steps: seq<Step>): seq<Step> {
    MarkAt(MarkAt(steps, 1, Completed, Some("1.2s")), 2, Review, None)
  }

  /** Approval: step 2 completes in '5.4s' and step 3 starts running. */
  function ApproveReview(steps: seq<Step>): seq<Step> {
    MarkAt(MarkAt(steps, 2, Completed, Some("5.4s")), 3, Running, None)
  }

  /** Apply timer: step 3 completes in '820ms'. */
  function FinishApply(steps: seq<Step>): seq<Step> {
    MarkAt(steps, 3, Completed, Some("820ms"))
  }

  /**
   * `prev.map(step => step.status === from ? { ...step, status: to } : step)`:
   * exactly the steps whose status is `from` now have status `to`; nothing else changes.
   */
  function Recolor(steps: seq<Step>, from: StepStatus, to: StepStatus): (r: seq<Step>)
    ensures |r| == |steps|
    ensures forall k :: 0 <= k < |r| ==> r[k].status == (if steps[k].status == from then to else steps[k].status)
    ensures forall k :: 0 <= k < |r| ==> r[k] == steps[k].(status := r[k].status)
  {
    seq(|steps|, k requires 0 <= k < |steps| =>
      if steps[k].status == from then steps[k].(status := to) else steps[k])
  }

  /**
   * Whether the log-cycling interval is installed: the effect installs it only while the active
   * step exists, is running and has a non-empty log list, and clears it whenever the active index
   * or that step's status changes.
   */
  predicate LogTimerActive(steps: seq<Step>, active: int) {
    0 <= active < |steps| && steps[active].status == Running
    && steps[active].logs.Some? && |steps[active].logs.value| > 0
  }

  /** One firing of the 800 ms interval: the active step moves to its next log line, wrapping around. */
  function LogTick(steps: seq<Step>, active: int): (r: seq<Step>)
  {
    if !LogTimerActive(steps, active) then steps
    else
      seq(|steps|, k requires 0 <= k < |steps| =>
        if k == active && steps[k].logs.Some? && |steps[k].logs.value| > 0 then
          steps[k].(currentLogIndex := Some((steps[k].currentLogIndex.GetOr(0) + 1) % |steps[k].logs.value|))
        else steps[k])
  }

  /**
   * A tick touches at most the active step, never a status, and when it fires the new log
   * index is the old one (absent counts as 0) plus one, modulo the number of log lines.
   */
  lemma LogTickFrame(steps: seq<Step>, active: int)
    ensures |LogTick(steps, active)| == |steps|
    ensures Statuses(LogTick(steps, active)) == Statuses(steps)
    ensures forall k :: 0 <= k < |steps| && k != active ==> LogTick(steps, active)[k] == steps[k]
    ensures !LogTimerActive(steps, active) ==> LogTick(steps, active) == steps
    ensures LogTimerActive(steps, active) ==>
      var n := |steps[active].logs.value|;
      var r := LogTick(steps, active)[active];
      && r == steps[active].(currentLogIndex := r.currentLogIndex)
      && r.currentLogIndex == Some((steps[active].currentLogIndex.GetOr(0) + 1) % n)
      && r.currentLogIndex.value < n
  {
  }

  /** Starting from index 0, any number of ticks keeps the log index inside the log list. */
  lemma {:induction false} LogTicksStayInRange(steps: seq<Step>, active: int, ticks: nat)
    requires LogTimerActive(steps, active)
    requires steps[active].currentLogIndex.GetOr(0) < |steps[active].logs.value|
    ensures LogTimerActive(Ticks(steps, active, ticks), active)
    ensures Ticks(steps, active, ticks)[active].logs == steps[active].logs
    ensures Ticks(steps, active, ticks)[active].currentLogIndex.GetOr(0) < |steps[active].logs.value|
    ensures Statuses(Ticks(steps, active, ticks)) == Statuses(steps)
  {
    if ticks > 0 {
      LogTicksStayInRange(steps, active, ticks - 1);
      LogTickFrame(Ticks(steps, active, ticks - 1), active);
    }
  }

  /** `ticks` consecutive firings of the interval. */
  function Ticks(steps: seq<Step>, active: int, ticks: nat): seq<Step>
  {
    if ticks == 0 then steps else LogTick(Ticks(steps, active, ticks - 1), active)
  }

  /** `getStepStatusIcon` */
  function StatusIcon(status: StepStatus): (icon: string)
  {
    match status
    case Completed => "check-circle-filled"
    case Running => "spinner-partial-filled"
    case Review => "priority-circle-filled"
    case Failed => "error-filled"
    case Pending => "circle-regular"
  }

  /** Each status gets its own icon. */
  lemma StatusIconInjective(a: StepStatus, b: StepStatus)
    requires StatusIcon(a) == StatusIcon(b)
    ensures a == b
  {
  }

  /** How many steps are in progress: running or waiting for review. */
  function InProgress(statuses: seq<StepStatus>): nat
  {
    if statuses == [] then 0
    else (if statuses[0] in {Running, Review} then 1 else 0) + InProgress(statuses[1..])
  }

  /**
   * The shape a run keeps along its happy path: at most one step is running or in review,
   * and every step before the active index has completed.
   */
  predicate OrderlyRun(steps: seq<Step>, active: int) {
    && InProgress(Statuses(steps)) <= 1
    && forall k :: 0 <= k < active && k < |steps| ==> steps[k].status == Completed
  }
}

module Transfer {
  import opened Maybe
  import opened Text
  import opened Seqs

  /** The six advanced-setting toggles (`AdvancedSettings`), in declaration order. */
  datatype Toggles = Toggles(
    numbersIdentity: bool,
    voicemailGreetings: bool,
    callHandlingRules: bool,
    betweenUserPermissions: bool,
    userExperienceIntegrations: bool,
    recordingAgentSettings: bool)

  datatype ToggleKey =
    NumbersIdentity | VoicemailGreetings | CallHandlingRules
    | BetweenUserPermissions | UserExperienceIntegrations | RecordingAgentSettings

  /** The toggles a fresh page starts with. */
  function DefaultToggles(): Toggles {
    Toggles(true, true, true, false, true, false)
  }

  /** `{ ...prev, [key]: value }` */
  function SetToggle(t: Toggles, key: ToggleKey, value: bool): Toggles {
    match key
    case NumbersIdentity => t.(numbersIdentity := value)
    case VoicemailGreetings => t.(voicemailGreetings := value)
    case CallHandlingRules => t.(callHandlingRules := value)
    case BetweenUserPermissions => t.(betweenUserPermissions := value)
    case UserExperienceIntegrations => t.(userExperienceIntegrations := value)
    case RecordingAgentSettings => t.(recordingAgentSettings := value)
  }

  /** `Object.values(advancedSettings)` */
  function ToggleValues(t: Toggles): seq<bool> {
    [t.numbersIdentity, t.voicemailGreetings, t.callHandlingRules,
     t.betweenUserPermissions, t.userExperienceIntegrations, t.recordingAgentSettings]
  }

  /** One row of the calling-settings diff; an absent `isDangerous` is false. */
  datatype SettingRow = SettingRow(
    setting: string,
    currentValue: string,
    newValue: string,
    isChanged: bool,
    isDangerous: bool)

  /** The fixed diff both run pages show in their inspector. */
  function CallingSettingsDiff(): seq<SettingRow> {
    [ SettingRow("Extension", "None", "1024", true, false),
      SettingRow("Call Forwarding", "Active", "Voicemail", true, false),
      SettingRow("Voicemail PIN", "****", "Reset", true, true),
      SettingRow("Privacy Setting", "Default", "Default", false, false),
      SettingRow("Call Waiting", "Enabled", "Enabled", false, false),
      SettingRow("Do Not Disturb", "Off", "Business Hours", true, false) ]
  }

  predicate IsChanged(r: SettingRow) { r.isChanged }

  /** `rows.filter(r => r.isChanged)` */
  function Changed(rows: seq<SettingRow>): seq<SettingRow> {
    Filter(IsChanged, rows)
  }

  /** How many rows are changes, counted one row at a time. */
  function ChangedCount(rows: seq<SettingRow>): nat {
    if rows == [] then 0 else (if rows[0].isChanged then 1 else 0) + ChangedCount(rows[1..])
  }

  /** The running count agrees with the length of the filtered list. */
  lemma {:induction false} ChangedCountIsFilterLength(rows: seq<SettingRow>)
    ensures ChangedCount(rows) == |Changed(rows)|
  {
    if rows != [] {
      ChangedCountIsFilterLength(rows[1..]);
    }
  }

  /** Four of the six fixture rows are changes. */
  lemma FixtureChangedCount()
    ensures ChangedCount(CallingSettingsDiff()) == 4
    ensures |Changed(CallingSettingsDiff())| == 4
  {
    ChangedCountIsFilterLength(CallingSettingsDiff());
  }

  /** `user.split(' (')[0]`: the display name in front of the parenthesised e-mail address. */
  function DisplayName(user: string): (name: string)
    ensures StartsWith(user, name)
    ensures forall i :: 0 <= i < |name| ==> !StartsWith(user[i..], " (")
  {
    Before(user, " (")
  }
}
