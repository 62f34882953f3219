/** The project list screen's search and status filter, and its icon and
    colour maps (src/screens/main/ProjectsScreen.tsx). */
module ProjectsScreen {
  import opened Wrappers
  import opened Text
  import opened Seqs
  import opened Construction
  import ProjectStore

  /** The status chip selected: every status, or one. */
  datatype StatusFilter = AllStatuses | Only(status: ProjectStatus)

  /** The search box matches the project's name or location, ignoring the
      case of ASCII letters. */
  predicate MatchesSearch(p: Project, query: string) {
    Contains(Lower(p.name), Lower(query)) || Contains(Lower(p.location), Lower(query))
  }

  predicate MatchesStatus(p: Project, filter: StatusFilter) {
    filter.AllStatuses? || p.status == filter.status
  }

  /** `p` passes both the search and the status chip. */
  predicate Matches(p: Project, query: string, filter: StatusFilter) {
    MatchesSearch(p, query) && MatchesStatus(p, filter)
  }

  /** `filteredProjects`: the projects matching both the search and the
      status chip, in their original order. */
  function FilteredProjects(projects: seq<Project>, query: string, filter: StatusFilter): (r: seq<Project>)
    ensures IsSubsequence(r, projects)
    ensures forall p :: p in r <==> p in projects && MatchesSearch(p, query) && MatchesStatus(p, filter)
    ensures forall p :: multiset(r)[p] == if Matches(p, query, filter) then multiset(projects)[p] else 0
  {
    var keep := (p: Project) => MatchesSearch(p, query) && MatchesStatus(p, filter);
    forall p ensures p in Filter(projects, keep) <==> p in projects && keep(p) {
      FilterMembership(projects, keep, p);
    }
    FilterMultiplicity(projects, keep);
    Filter(projects, keep)
  }

  /** The screen shows `p` to `user` under the search and the chip. */
  predicate Shown(p: Project, user: Option<User>, query: string, filter: StatusFilter) {
    user.Some? && p.ownerId == user.value.id && MatchesSearch(p, query) && MatchesStatus(p, filter)
  }

  /** The list the screen shows: nothing without a signed-in user, otherwise
      that user's projects, filtered. */
  function VisibleProjects(s: ProjectStore.ProjectState, user: Option<User>, query: string, filter: StatusFilter)
    : (r: seq<Project>)
    ensures IsSubsequence(r, s.projects)
    ensures forall p :: p in r <==> (user.Some? && p in s.projects && p.ownerId == user.value.id &&
      MatchesSearch(p, query) && MatchesStatus(p, filter))
    ensures forall p :: multiset(r)[p] == if Shown(p, user, query, filter) then multiset(s.projects)[p] else 0
  {
    var mine := if user.Some? then ProjectStore.ProjectsByUser(s, user.value.id) else [];
    var r := FilteredProjects(mine, query, filter);
    SubsequenceTransitive(r, mine, s.projects);
    r
  }

  /** An empty search with the "All" chip shows every project. */
  lemma EmptyQueryKeepsAll(projects: seq<Project>)
    ensures FilteredProjects(projects, "", AllStatuses) == projects
  {
    forall p: Project ensures MatchesSearch(p, "") {
      ContainsEmpty(Lower(p.name));
    }
    FilterAll(projects, (p: Project) => MatchesSearch(p, "") && MatchesStatus(p, AllStatuses));
  }

  /** The search does not depend on the case of the query. */
  lemma QueryCaseIgnored(projects: seq<Project>, query: string, filter: StatusFilter)
    ensures FilteredProjects(projects, Lower(query), filter) == FilteredProjects(projects, query, filter)
  {
    LowerIdempotent(query);
    FilterAgrees(projects,
      (p: Project) => MatchesSearch(p, Lower(query)) && MatchesStatus(p, filter),
      (p: Project) => MatchesSearch(p, query) && MatchesStatus(p, filter));
  }

  /** Choosing a status chip narrows the "All" list to that status. */
  lemma StatusChipNarrows(projects: seq<Project>, query: string, status: ProjectStatus)
    ensures FilteredProjects(projects, query, Only(status))
      == Filter(FilteredProjects(projects, query, AllStatuses), (p: Project) => p.status == status)
  {
    var all := (p: Project) => MatchesSearch(p, query) && MatchesStatus(p, AllStatuses);
    var one := (p: Project) => MatchesSearch(p, query) && MatchesStatus(p, Only(status));
    FilterFilter(projects, all, one);
    FilterAgrees(Filter(projects, all), one, (p: Project) => p.status == status);
  }

  /** `getProjectTypeIcon`: a house for residential work, an office block
      for commercial, a construction sign for infrastructure and a hammer for
      industrial. The `folder` default is unreachable for a well-typed
      project. */
  function TypeIcon(t: ProjectType): (r: string)
    ensures r == "home" <==> t == ResidentialNew || t == ResidentialRenovation
    ensures r == "business" <==> t == CommercialNew || t == CommercialRenovation
    ensures r == "construct" <==> t == Infrastructure
    ensures r == "build" <==> t == Industrial
  {
    match t
    case ResidentialNew | ResidentialRenovation => "home"
    case CommercialNew | CommercialRenovation => "business"
    case Infrastructure => "construct"
    case Industrial => "build"
  }

  const DefaultBadge := "bg-gray-100 text-gray-800"

  /** `getStatusColor`: one badge colour per status, where "estimation" and
      "approved" have no case of their own and fall to the gray default. */
  function StatusBadge(status: ProjectStatus): (r: string)
    ensures r == DefaultBadge <==> status == Estimation || status == Approved
  {
    match status
    case Planning => "bg-yellow-100 text-yellow-800"
    case InProgress => "bg-green-100 text-green-800"
    case Completed => "bg-blue-100 text-blue-800"
    case OnHold => "bg-orange-100 text-orange-800"
    case Cancelled => "bg-red-100 text-red-800"
    case _ => DefaultBadge
  }

  /** Statuses with a case of their own get distinct badges. */
  lemma StatusBadgesDistinct(a: ProjectStatus, b: ProjectStatus)
    requires a != b && StatusBadge(a) != DefaultBadge
    ensures StatusBadge(a) != StatusBadge(b)
  {
  }
}
