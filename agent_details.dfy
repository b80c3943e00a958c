// The agent details page (src/pages/AgentDetailsPage.tsx): looking the agent
// up by the route's id with a fallback to the first database entry, avatar
// initials from a name, the relative timestamp of a recent run and the colour
// class of its status. The database is a parameter; the route's id is "" when
// absent. The initials are also those of the workspace page's recent-run list,
// whose helper is the same expression.

module AgentDetails {
  import opened Maybe
  import opened Seqs
  import opened Text
  import opened AgentHelpers

  /** The fields of an agent's details that the page's logic reads. */
  datatype AgentDetails = AgentDetails(id: string, name: string, ownerName: string)

  datatype RunStatus = RunSuccess | RunFailed | RunRunning | RunCancelled

  // ---------------------------------------------------------------------------
  // Lookup

  /** `db.findIndex(a => a.id === id)`: the first position holding that id. */
  function FindById(db: seq<AgentDetails>, id: string): (r: Option<nat>)
    ensures r.Some? ==> r.value < |db| && db[r.value].id == id
    ensures r.Some? ==> forall j :: 0 <= j < r.value ==> db[j].id != id
    ensures r.None? <==> forall j :: 0 <= j < |db| ==> db[j].id != id
  {
    if db == [] then None
    else if db[0].id == id then Some(0)
    else
      match FindById(db[1..], id)
      case None => None
      case Some(k) => Some(k + 1)
  }

  /** The agent for the route's id: the first match, or the first entry when there is none or no id. */
  function Lookup(db: seq<AgentDetails>, agentId: string): (r: AgentDetails)
    requires db != []
    ensures agentId == "" ==> r == db[0]
    ensures (forall j :: 0 <= j < |db| ==> db[j].id != agentId) ==> r == db[0]
    ensures agentId != "" && (exists j :: 0 <= j < |db| && db[j].id == agentId) ==>
      exists i :: 0 <= i < |db| && r == db[i] && r.id == agentId
                  && forall j :: 0 <= j < i ==> db[j].id != agentId
  {
    if agentId == "" then db[0]
    else
      match FindById(db, agentId)
      case Some(i) => db[i]
      case None => db[0]
  }

  /** Whatever the id, the page shows an agent of the database. */
  lemma LookupInDatabase(db: seq<AgentDetails>, agentId: string)
    requires db != []
    ensures Lookup(db, agentId) in db
  {
    if agentId != "" && FindById(db, agentId).Some? {
      assert Lookup(db, agentId) == db[FindById(db, agentId).value];
    }
  }

  // ---------------------------------------------------------------------------
  // Initials

  /** `getInitials`: the upper-cased first characters of the first two space-separated words. */
  function Initials(name: string): string {
    var letters := Map(FirstUpper, Split(name, ' '));
    Join(if |letters| <= 2 then letters else letters[..2], "")
  }

  /** A name without a space gives its own first letter, upper-cased. */
  lemma InitialsOneWord(w: string)
    requires ' ' !in w
    ensures Initials(w) == FirstUpper(w)
  {
    SplitWithoutSeparator(w, ' ');
  }

  /** A name whose first two pieces are `w1` and `w2` has their first letters as initials. */
  lemma InitialsOfFirstTwo(name: string, w1: string, w2: string, more: seq<string>)
    requires Split(name, ' ') == [w1, w2] + more
    ensures Initials(name) == FirstUpper(w1) + FirstUpper(w2)
  {
    var letters := Map(FirstUpper, Split(name, ' '));
    var kept := if |letters| <= 2 then letters else letters[..2];
    assert kept == [FirstUpper(w1), FirstUpper(w2)];
    assert Join(kept, "") == kept[0] + "" + Join(kept[1..], "");
  }

  /** Two words give their two first letters, upper-cased, in order. */
  lemma InitialsTwoWords(w1: string, w2: string)
    requires ' ' !in w1 && ' ' !in w2
    ensures Initials(w1 + " " + w2) == FirstUpper(w1) + FirstUpper(w2)
  {
    SplitWithoutSeparator(w2, ' ');
    SplitAfterWord(w1, ' ', w2);
    InitialsOfFirstTwo(w1 + " " + w2, w1, w2, []);
  }

  /** Words after the second do not count. */
  lemma InitialsIgnoreLaterWords(w1: string, w2: string, rest: string)
    requires ' ' !in w1 && ' ' !in w2
    ensures Initials(w1 + " " + w2 + " " + rest) == Initials(w1 + " " + w2)
  {
    var name := w1 + " " + w2 + " " + rest;
    assert name == w1 + [' '] + (w2 + [' '] + rest);
    SplitAfterWord(w2, ' ', rest);
    SplitAfterWord(w1, ' ', w2 + [' '] + rest);
    InitialsOfFirstTwo(name, w1, w2, Split(rest, ' '));
    InitialsTwoWords(w1, w2);
  }

  /** At most two letters, whatever the name. */
  lemma InitialsAtMostTwo(name: string)
    ensures |Initials(name)| <= 2
  {
    var letters := Map(FirstUpper, Split(name, ' '));
    var kept := if |letters| <= 2 then letters else letters[..2];
    assert forall k :: 0 <= k < |kept| ==> |kept[k]| <= 1;
    if |kept| == 2 {
      assert Join(kept, "") == kept[0] + "" + Join(kept[1..], "");
    }
  }

  // ---------------------------------------------------------------------------
  // Recent runs

  /** `formatTimestamp` for a run `diffMs` ago: like a card's last run, but days are `Nd`. */
  function FormatTimestamp(diffMs: int): string {
    var minutes := diffMs / MinuteMs;
    var hours := diffMs / HourMs;
    var days := diffMs / DayMs;
    if minutes < 1 then "Just now"
    else if minutes < 60 then NatToString(minutes) + "m ago"
    else if hours < 24 then NatToString(hours) + "h ago"
    else NatToString(days) + "d ago"
  }

  /** Under a day the timestamp reads as an agent card's last run. */
  lemma TimestampAgreesUnderADay(diffMs: int)
    requires diffMs < DayMs
    ensures FormatTimestamp(diffMs) == ElapsedText(diffMs)
  {
  }

  /** From a day on, the timestamp names the whole days elapsed, as `Nd ago`. */
  lemma TimestampDays(diffMs: int)
    requires diffMs >= DayMs
    ensures exists n: nat :: n >= 1 && n * DayMs <= diffMs < (n + 1) * DayMs
                             && FormatTimestamp(diffMs) == NatToString(n) + "d ago"
  {
    var n := diffMs / DayMs;
    assert n >= 1 && n * DayMs <= diffMs < (n + 1) * DayMs;
    assert FormatTimestamp(diffMs) == NatToString(n) + "d ago";
  }

  /** The word "day" never appears, unlike the card's text for a day or more. */
  lemma TimestampNeverSaysDay(diffMs: int)
    ensures !Contains(FormatTimestamp(diffMs), "day")
  {
    var r := FormatTimestamp(diffMs);
    assert 'y' !in "m ago" && 'y' !in "h ago" && 'y' !in "d ago" && 'y' !in "Just now";
    assert forall n: nat :: 'y' !in NatToString(n) by {
      forall n: nat ensures 'y' !in NatToString(n) {
        var d := NatToString(n);
        assert forall i :: 0 <= i < |d| ==> IsDigit(d[i]);
      }
    }
    assert 'y' !in r;
    assert "day"[2] == 'y';
    LackingCharNotContained(r, "day", 2);
  }

  /** `getStatusColor` */
  function StatusColor(status: RunStatus): string {
    match status
    case RunSuccess => "status-success"
    case RunFailed => "status-error"
    case RunRunning => "status-warning"
    case RunCancelled => "status-default"
  }

  /** Only a cancelled run falls to the default colour; the other three have colours of their own. */
  lemma StatusColorDistinct(a: RunStatus, b: RunStatus)
    ensures StatusColor(a) == "status-default" <==> a == RunCancelled
    ensures a != b ==> StatusColor(a) != StatusColor(b)
  {
    assert StatusColor(a)[7] != StatusColor(b)[7] || a == b;
  }
}
