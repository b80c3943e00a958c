// Knowledge-table helpers (src/utils/knowledgeHelpers.ts): the "last updated"
// text, which uses the same buckets as an agent's last run up to a week and a
// calendar date beyond, and the lookup tables for a knowledge item's icon and
// status badge. The calendar date is locale formatting and is not modelled:
// it is an opaque label here.

module KnowledgeHelpers {
  import opened Text
  import opened AgentHelpers

  datatype KnowledgeType = Pdf | Website | Json | Markdown

  datatype KnowledgeStatus = Ready | Indexing | ErrorStatus

  /** What `formatLastUpdated` shows: a relative text, or the locale-formatted calendar date. */
  datatype UpdatedLabel = RelativeLabel(text: string) | CalendarDate

  /** `formatLastUpdated` for an item updated `diffMs` ago. */
  function FormatLastUpdated(diffMs: int): UpdatedLabel {
    var minutes := diffMs / MinuteMs;
    var hours := diffMs / HourMs;
    var days := diffMs / DayMs;
    if minutes < 1 then RelativeLabel("Just now")
    else if minutes < 60 then RelativeLabel(NatToString(minutes) + "m ago")
    else if hours < 24 then RelativeLabel(NatToString(hours) + "h ago")
    else if days == 1 then RelativeLabel("1 day ago")
    else if days < 7 then RelativeLabel(NatToString(days) + " days ago")
    else CalendarDate
  }

  /** Only a week or more reaches the calendar date. */
  lemma CalendarDateIffAWeek(diffMs: int)
    ensures FormatLastUpdated(diffMs).CalendarDate? <==> diffMs >= 7 * DayMs
  {
  }

  /** Within a week the text is the one an agent's last run would show for the same time. */
  lemma AgreesWithLastRunWithinAWeek(diffMs: int)
    requires diffMs < 7 * DayMs
    ensures FormatLastUpdated(diffMs) == RelativeLabel(ElapsedText(diffMs))
  {
  }

  /** Between two days and a week, the text names the whole days elapsed, from 2 to 6. */
  lemma DaysWithinAWeek(diffMs: int)
    requires 2 * DayMs <= diffMs < 7 * DayMs
    ensures exists n: nat :: 2 <= n < 7 && n * DayMs <= diffMs < (n + 1) * DayMs
                             && FormatLastUpdated(diffMs) == RelativeLabel(NatToString(n) + " days ago")
  {
    var n := diffMs / DayMs;
    assert 2 <= n < 7 && n * DayMs <= diffMs < (n + 1) * DayMs;
    assert FormatLastUpdated(diffMs) == RelativeLabel(NatToString(n) + " days ago");
  }

  /** `getTypeIcon` */
  function TypeIcon(t: KnowledgeType): string {
    match t
    case Pdf => "document-regular"
    case Website => "browser-regular"
    case Json => "file-code-regular"
    case Markdown => "file-text-regular"
  }

  /** Each type has an icon of its own. */
  lemma TypeIconInjective(a: KnowledgeType, b: KnowledgeType)
    requires a != b
    ensures TypeIcon(a) != TypeIcon(b)
  {
    var ia, ib := TypeIcon(a), TypeIcon(b);
    assert ia[0] != ib[0] || ia[5] != ib[5];
  }

  /** `getStatusVariant` */
  function StatusVariant(s: KnowledgeStatus): string {
    match s
    case Ready => "success"
    case Indexing => "warning"
    case ErrorStatus => "error"
  }

  /** `getStatusLabel` */
  function StatusLabel(s: KnowledgeStatus): string {
    match s
    case Ready => "Ready"
    case Indexing => "Indexing..."
    case ErrorStatus => "Error"
  }

  /**
   * Each status has a badge colour and a label of its own, and the two agree: the error colour
   * goes with the "Error" label, the success colour with "Ready".
   */
  lemma StatusBadgeDistinct(a: KnowledgeStatus, b: KnowledgeStatus)
    requires a != b
    ensures StatusVariant(a) != StatusVariant(b)
    ensures StatusLabel(a) != StatusLabel(b)
  {
    assert StatusVariant(a)[0] != StatusVariant(b)[0];
    assert StatusLabel(a)[0] != StatusLabel(b)[0];
  }

  /** The colour is the error one exactly for the "Error" label, and the success one exactly for "Ready". */
  lemma StatusBadgeAgrees(s: KnowledgeStatus)
    ensures StatusVariant(s) == "error" <==> StatusLabel(s) == "Error"
    ensures StatusVariant(s) == "success" <==> StatusLabel(s) == "Ready"
  {
  }
}
