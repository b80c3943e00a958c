// The agent list page (src/pages/AIAgentPage.tsx): the search and status
// filter over the agents, the split of the result into Control Hub and
// organisation agents, the empty-state text and the placeholder title of the
// tabs that have no content yet. The page's state (tab, search term, status
// filter) is only ever replaced whole by its setters, so each is a parameter.

module AgentList {
  import opened Seqs
  import opened Text
  import opened AgentHelpers

  /** The status drop-down: every status, or one of them. */
  datatype StatusFilter = AllStatuses | OnlyStatus(status: AgentStatus)

  datatype Tab = AgentsTab | KnowledgeTab | RunLogTab | PoliciesTab

  /** The name contains the search term, ignoring case, and the status passes the filter. */
  predicate Matches(agent: Agent, search: string, filter: StatusFilter) {
    && Contains(ToLower(agent.name), ToLower(search))
    && (filter == AllStatuses || filter == OnlyStatus(agent.status))
  }

  /** `filteredAgents` */
  function FilteredAgents(agents: seq<Agent>, search: string, filter: StatusFilter): seq<Agent> {
    Filter(a => Matches(a, search, filter), agents)
  }

  predicate FromControlHub(a: Agent) { a.source == ControlHub }

  predicate FromOrg(a: Agent) { a.source == Org }

  /** `controlHubAgents` */
  function ControlHubAgents(filtered: seq<Agent>): seq<Agent> {
    Filter(FromControlHub, filtered)
  }

  /** `orgAgents` */
  function OrgAgents(filtered: seq<Agent>): seq<Agent> {
    Filter(FromOrg, filtered)
  }

  /** An agent is listed exactly when it is one of the agents and matches. */
  lemma FilteredAreTheMatches(agents: seq<Agent>, search: string, filter: StatusFilter)
    ensures forall a :: a in FilteredAgents(agents, search, filter) <==> a in agents && Matches(a, search, filter)
  {
    var p := a => Matches(a, search, filter);
    FilterMembers(p, agents);
  }

  /** Filtering keeps the agents' order: the filter of a concatenation is the concatenation of the filters. */
  lemma FilteredKeepsOrder(xs: seq<Agent>, ys: seq<Agent>, search: string, filter: StatusFilter)
    ensures FilteredAgents(xs + ys, search, filter) == FilteredAgents(xs, search, filter) + FilteredAgents(ys, search, filter)
  {
    FilterAppend(a => Matches(a, search, filter), xs, ys);
  }

  /** An empty search with every status shown lists every agent, in order. */
  lemma EmptySearchKeepsAll(agents: seq<Agent>)
    ensures FilteredAgents(agents, "", AllStatuses) == agents
  {
    assert ToLower("") == "";
    forall i | 0 <= i < |agents| ensures Matches(agents[i], "", AllStatuses) {
      ContainsEmpty(ToLower(agents[i].name));
    }
    FilterKeepsAll(a => Matches(a, "", AllStatuses), agents);
  }

  /**
   * The two sections split the filtered list: every filtered agent is in exactly one of them,
   * by its source, and together they hold as many agents as the list.
   */
  lemma SectionsPartition(filtered: seq<Agent>)
    ensures |ControlHubAgents(filtered)| + |OrgAgents(filtered)| == |filtered|
    ensures forall a :: a in filtered ==>
      (a in ControlHubAgents(filtered) <==> a.source == ControlHub)
      && (a in OrgAgents(filtered) <==> a.source == Org)
    ensures forall a :: a in ControlHubAgents(filtered) || a in OrgAgents(filtered) ==> a in filtered
  {
    FilterComplement(FromControlHub, FromOrg, filtered);
    FilterMembers(FromControlHub, filtered);
    FilterMembers(FromOrg, filtered);
  }

  /** A section also keeps the order of the list it is taken from. */
  lemma SectionsKeepOrder(xs: seq<Agent>, ys: seq<Agent>)
    ensures ControlHubAgents(xs + ys) == ControlHubAgents(xs) + ControlHubAgents(ys)
    ensures OrgAgents(xs + ys) == OrgAgents(xs) + OrgAgents(ys)
  {
    FilterAppend(FromControlHub, xs, ys);
    FilterAppend(FromOrg, xs, ys);
  }

  const NoMatchText := "No agents" + " match your search criteria."
  const NoAgentsYetText := "No agents" + " yet." + " Create your first agent to get started."

  /** The text shown when the organisation section is empty. */
  function EmptyStateText(search: string, filter: StatusFilter): string {
    if search != "" || filter != AllStatuses then NoMatchText else NoAgentsYetText
  }

  /** The "no match" text is shown exactly when a search or a status filter is in effect. */
  lemma EmptyStateIffNarrowed(search: string, filter: StatusFilter)
    ensures EmptyStateText(search, filter) == NoMatchText <==> search != "" || filter != AllStatuses
  {
    assert NoMatchText[10] == 'm' && NoAgentsYetText[10] == 'y';
  }

  /** `getPlaceholderTitle` */
  function PlaceholderTitle(tab: Tab): string {
    match tab
    case RunLogTab => "Run Log"
    case PoliciesTab => "Policies & Guardrails"
    case _ => ""
  }

  /** Only the two placeholder tabs have a title, and they have different ones. */
  lemma PlaceholderTitles(tab: Tab)
    ensures PlaceholderTitle(tab) != "" <==> tab == RunLogTab || tab == PoliciesTab
    ensures PlaceholderTitle(RunLogTab) != PlaceholderTitle(PoliciesTab)
  {
    assert PlaceholderTitle(RunLogTab)[0] == 'R';
  }
}
