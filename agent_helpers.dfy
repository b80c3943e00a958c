// Agent-card helpers (src/utils/agentHelpers.ts): the agent record, the
// relative "last run" text, the success-rate text and the health line of a
// card. The clock is not read: the time elapsed since the run, in
// milliseconds, is a parameter. `Math.floor(diffMs / unit)` is Dafny's `/`,
// which floors for a positive divisor.

module AgentHelpers {
  import opened Maybe
  import opened Text

  datatype AgentSource = ControlHub | Org

  datatype AgentStatus = Active | Draft | Paused | Failing

  /**
   * An agent as the list and its cards use it; "" stands for an absent `lastRunAt`, and the
   * success rate is a whole percentage.
   */
  datatype Agent = Agent(id: string, name: string, source: AgentSource, lastRunAt: string,
                         successRate: Option<int>, status: AgentStatus)

  const MinuteMs := 60000
  const HourMs := 3600000
  const DayMs := 86400000

  // ---------------------------------------------------------------------------
  // formatLastRun

  /** The relative-time buckets of `formatLastRun`, for a run that did happen. */
  function ElapsedText(diffMs: int): (r: string)
    ensures r != [] && (r[0] == 'J' || IsDigit(r[0]))
  {
    var minutes := diffMs / MinuteMs;
    var hours := diffMs / HourMs;
    var days := diffMs / DayMs;
    if minutes < 1 then "Just now"
    else if minutes < 60 then NatToString(minutes) + "m ago"
    else if hours < 24 then NatToString(hours) + "h ago"
    else if days == 1 then "1 day ago"
    else NatToString(days) + " days ago"
  }

  /** `formatLastRun`: "Never" without a run, otherwise the relative time. */
  function FormatLastRun(lastRunAt: string, diffMs: int): string {
    if lastRunAt == "" then "Never" else ElapsedText(diffMs)
  }

  /** "Never" is shown exactly for an agent that has no run. */
  lemma NeverIffNoRun(lastRunAt: string, diffMs: int)
    ensures FormatLastRun(lastRunAt, diffMs) == "Never" <==> lastRunAt == ""
  {
    if lastRunAt != "" {
      var r := ElapsedText(diffMs);
      assert r[0] != 'N';
    }
  }

  /** Anything under a minute, a clock running ahead included, is "Just now", and nothing else is. */
  lemma JustNowIffUnderAMinute(diffMs: int)
    ensures ElapsedText(diffMs) == "Just now" <==> diffMs < MinuteMs
  {
    var r := ElapsedText(diffMs);
    if diffMs >= MinuteMs {
      assert IsDigit(r[0]);
    }
  }

  /** Under an hour, the text names the whole minutes elapsed, from 1 to 59. */
  lemma MinutesBucket(diffMs: int)
    requires MinuteMs <= diffMs < HourMs
    ensures exists n: nat :: 1 <= n < 60 && n * MinuteMs <= diffMs < (n + 1) * MinuteMs
                             && ElapsedText(diffMs) == NatToString(n) + "m ago"
  {
    var n := diffMs / MinuteMs;
    assert 1 <= n < 60 && n * MinuteMs <= diffMs < (n + 1) * MinuteMs;
    assert ElapsedText(diffMs) == NatToString(n) + "m ago";
  }

  /** Under a day, the text names the whole hours elapsed, from 1 to 23. */
  lemma HoursBucket(diffMs: int)
    requires HourMs <= diffMs < DayMs
    ensures exists n: nat :: 1 <= n < 24 && n * HourMs <= diffMs < (n + 1) * HourMs
                             && ElapsedText(diffMs) == NatToString(n) + "h ago"
  {
    var n := diffMs / HourMs;
    assert 1 <= n < 24 && n * HourMs <= diffMs < (n + 1) * HourMs;
    assert ElapsedText(diffMs) == NatToString(n) + "h ago";
  }

  /** One whole day reads in the singular. */
  lemma OneDayBucket(diffMs: int)
    requires DayMs <= diffMs < 2 * DayMs
    ensures ElapsedText(diffMs) == "1 day ago"
  {
  }

  /** Two days or more read in the plural, naming the whole days elapsed. */
  lemma DaysBucket(diffMs: int)
    requires diffMs >= 2 * DayMs
    ensures exists n: nat :: n >= 2 && n * DayMs <= diffMs < (n + 1) * DayMs
                             && ElapsedText(diffMs) == NatToString(n) + " days ago"
  {
    var n := diffMs / DayMs;
    assert n >= 2 && n * DayMs <= diffMs < (n + 1) * DayMs;
    assert ElapsedText(diffMs) == NatToString(n) + " days ago";
  }

  // ---------------------------------------------------------------------------
  // formatSuccessRate

  /** `formatSuccessRate`: "N/A" when there is no rate, otherwise the rate and a percent sign. */
  function FormatSuccessRate(rate: Option<int>): (r: string)
    ensures r != []
  {
    if rate.None? then "N/A" else IntToString(rate.value) + "%"
  }

  /** "N/A" means no rate; otherwise the digits before the percent sign read back as the rate. */
  lemma SuccessRateReadsBack(rate: Option<int>)
    ensures FormatSuccessRate(rate) == "N/A" <==> rate.None?
    ensures rate.Some? && rate.value >= 0 ==>
      var r := FormatSuccessRate(rate);
      && r[|r| - 1] == '%'
      && (forall i :: 0 <= i < |r| - 1 ==> IsDigit(r[i]))
      && DigitsValue(r[..|r| - 1]) == rate.value
  {
    if rate.Some? {
      var r := FormatSuccessRate(rate);
      assert r[|r| - 1] == '%';
      if rate.value >= 0 {
        assert r[..|r| - 1] == NatToString(rate.value);
        NatToStringRoundTrip(rate.value);
      }
    }
  }

  // ---------------------------------------------------------------------------
  // getHealthText

  /** `getHealthText` for an agent whose last run, if any, was `diffMs` ago. */
  function HealthText(agent: Agent, diffMs: int): string {
    if agent.status == Draft then "Draft"
    else if agent.status == Paused then "Paused"
    else if agent.status == Failing then "Last run: failed"
    else if agent.lastRunAt == "" then "Not yet run"
    else
      var lastRun := FormatLastRun(agent.lastRunAt, diffMs);
      if agent.successRate.Some? then
        "Last run: " + lastRun + " \U{00B7} " + IntToString(agent.successRate.value) + "% success"
      else "Last run: " + lastRun
  }

  /**
   * Draft, paused and failing agents are described by their status alone: the run, the rate and
   * the time elapsed are not looked at.
   */
  lemma StatusCheckedFirst(agent: Agent, diffMs: int, lastRunAt: string, rate: Option<int>, otherMs: int)
    requires agent.status != Active
    ensures HealthText(agent, diffMs) == HealthText(agent.(lastRunAt := lastRunAt, successRate := rate), otherMs)
    ensures HealthText(agent, diffMs) == match agent.status
      case Draft => "Draft"
      case Paused => "Paused"
      case _ => "Last run: failed"
  {
  }

  /** An active agent without a run says so, whatever its rate. */
  lemma ActiveWithoutRun(agent: Agent, diffMs: int)
    requires agent.status == Active && agent.lastRunAt == ""
    ensures HealthText(agent, diffMs) == "Not yet run"
  {
  }

  /**
   * An active agent with a run shows its relative time, never "Never", followed by the success
   * suffix exactly when a rate is defined, in the form `formatSuccessRate` gives it.
   */
  lemma ActiveWithRun(agent: Agent, diffMs: int)
    requires agent.status == Active && agent.lastRunAt != ""
    ensures var lastRun := FormatLastRun(agent.lastRunAt, diffMs);
      && lastRun != "Never"
      && HealthText(agent, diffMs) == "Last run: " + lastRun
           + (if agent.successRate.Some? then " \U{00B7} " + FormatSuccessRate(agent.successRate) + " success" else "")
  {
    NeverIffNoRun(agent.lastRunAt, diffMs);
  }
}
