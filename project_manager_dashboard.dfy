/**
 * The project manager dashboard: the signed-in manager's projects, the four stat cards, the
 * search filter and the empty-state card.
 */
module ProjectManagerDashboard {
  import opened Wrappers
  import opened Text
  import opened ProjectRecords
  import opened ProjectSearch

  /** The numbers on the four stat cards. */
  datatype StatCards = StatCards(totalProjects: nat, activeProjects: nat, totalUpdates: nat, contractors: nat)

  /**
   * The stat cards are computed from every loaded project: three of them show how many there
   * are, "Total Updates" adds up their `updatesCount`, and no search term can exceed it.
   */
  function Stats(projects: seq<ProjectRecord>): (s: StatCards)
    ensures s.totalProjects == |projects| && s.activeProjects == |projects| && s.contractors == |projects|
    ensures s.totalUpdates == SumUpdates(projects)
  {
    StatCards(|projects|, |projects|, SumUpdates(projects), |projects|)
  }

  /** "Total Updates" covers the loaded projects, not the shown ones: it bounds the shown sum. */
  lemma TotalUpdatesIgnoresSearch(projects: seq<ProjectRecord>, term: String)
    ensures SumUpdates(Filter(projects, term)) <= Stats(projects).totalUpdates
    ensures term == [] ==> SumUpdates(Filter(projects, term)) == Stats(projects).totalUpdates
  {
    FilteredUpdatesAtMostTotal(projects, term);
    FilterEmptyTerm(projects);
  }

  /** The cards do not depend on the order the backend returns the projects in. */
  lemma StatsOrderIndependent(a: seq<ProjectRecord>, b: seq<ProjectRecord>)
    requires multiset(a) == multiset(b)
    ensures Stats(a) == Stats(b)
  {
    assert |a| == |multiset(a)| == |multiset(b)| == |b|;
    SumUpdatesPermutation(a, b);
  }

  /** "Total Updates" includes every loaded project's count and is zero exactly when all are. */
  lemma TotalUpdatesCoversEachProject(projects: seq<ProjectRecord>)
    ensures forall p :: p in projects ==> p.updatesCount <= Stats(projects).totalUpdates
    ensures Stats(projects).totalUpdates == 0 <==> forall p :: p in projects ==> p.updatesCount == 0
  {
    SumUpdatesBoundsEach(projects);
  }

  const NoProjectsYet: String := "No projects yet"
  const NoProjectsFound: String := "No projects found"
  const CreateFirstMessage: String :=
    "Create your first project to start tracking contractor updates with AI assistance."
  const AdjustSearchMessage: String :=
    "Try adjusting your search terms to find the project you're looking for."

  /** The card shown in place of the project grid. */
  datatype EmptyView = EmptyView(heading: String, message: String, showCreateButton: bool)

  /**
   * The empty-state card appears exactly when nothing is shown; it says "No projects yet" and
   * offers the create button exactly when nothing was loaded, and "No projects found" otherwise.
   */
  function EmptyState(projects: seq<ProjectRecord>, shown: seq<ProjectRecord>): (r: Option<EmptyView>)
    ensures r.Some? <==> shown == []
    ensures r.Some? ==> (r.value.heading == NoProjectsYet <==> projects == [])
    ensures r.Some? ==> (r.value.heading == NoProjectsFound <==> projects != [])
    ensures r.Some? ==> (r.value.showCreateButton <==> projects == [])
  {
    if shown != [] then None
    else if projects == [] then Some(EmptyView(NoProjectsYet, CreateFirstMessage, true))
    else Some(EmptyView(NoProjectsFound, AdjustSearchMessage, false))
  }

  /** "No projects found" is only ever the result of a non-empty search that matched nothing. */
  lemma {:induction false} NotFoundOnlyWhenSearching(projects: seq<ProjectRecord>, term: String)
    requires EmptyState(projects, Filter(projects, term)) == Some(EmptyView(NoProjectsFound, AdjustSearchMessage, false))
    ensures term != [] && projects != []
    ensures forall p :: p in projects ==> !Matches(p, term)
  {
    FilterEmptyTerm(projects);
    forall p | p in projects ensures !Matches(p, term) {
      FilterMembership(projects, term, p);
    }
  }

  /** The dashboard's component state. */
  class DashboardPage {
    var user: Option<User>
    var projects: seq<ProjectRecord>
    var searchTerm: String
    var loading: bool

    constructor ()
      ensures user == None && projects == [] && searchTerm == [] && loading
    {
      user, projects, searchTerm, loading := None, [], [], true;
    }

    /**
     * The auth callback records the user, asks for that user's projects only when there is a
     * user, and always ends the loading state.
     */
    method OnAuthStateChanged(u: Option<User>) returns (loadFor: Option<String>)
      modifies this`user, this`loading
      ensures user == u && !loading
      ensures loadFor == if u.Some? then Some(u.value.id) else None
    {
      user := u;
      loadFor := if u.Some? then Some(u.value.id) else None;
      loading := false;
    }

    /** The list request settles: its records replace the list; a thrown error is only logged. */
    method OnProjectsLoaded(result: Outcome<seq<ProjectRecord>>)
      modifies this`projects
      ensures projects == if result.Ok? then result.value else old(projects)
    {
      if result.Ok? {
        projects := result.value;
      }
    }

    method OnSearchChange(value: String)
      modifies this`searchTerm
      ensures searchTerm == value
    {
      searchTerm := value;
    }

    /** `filteredProjects`: the search filter over the loaded projects. */
    function FilteredProjects(): seq<ProjectRecord>
      reads this
    {
      Filter(projects, searchTerm)
    }
  }
}
