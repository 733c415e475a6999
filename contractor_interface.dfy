/**
 * The contractor interface: every project, the same search filter as the dashboard, and its
 * own empty-state card.
 */
module ContractorInterface {
  import opened Wrappers
  import opened Text
  import opened ProjectRecords
  import opened ProjectSearch

  const NoProjectsAvailable: String := "No projects available"
  const NoProjectsFound: String := "No projects found"
  const NothingAvailableMessage: String :=
    "There are currently no projects available for status updates."
  const AdjustSearchMessage: String :=
    "Try adjusting your search terms to find the project you're looking for."

  /** The card shown in place of the project grid (this page has no create button). */
  datatype EmptyView = EmptyView(heading: String, message: String)

  /**
   * The empty-state card appears exactly when nothing is shown; it says "No projects available"
   * exactly when nothing was loaded and "No projects found" otherwise.
   */
  function EmptyState(projects: seq<ProjectRecord>, shown: seq<ProjectRecord>): (r: Option<EmptyView>)
    ensures r.Some? <==> shown == []
    ensures r.Some? ==> (r.value.heading == NoProjectsAvailable <==> projects == [])
    ensures r.Some? ==> (r.value.heading == NoProjectsFound <==> projects != [])
  {
    if shown != [] then None
    else if projects == [] then Some(EmptyView(NoProjectsAvailable, NothingAvailableMessage))
    else Some(EmptyView(NoProjectsFound, AdjustSearchMessage))
  }

  /** The contractor interface's component state. */
  class ContractorPage {
    var user: Option<User>
    var projects: seq<ProjectRecord>
    var searchTerm: String
    var loading: bool

    constructor ()
      ensures user == None && projects == [] && searchTerm == [] && loading
    {
      user, projects, searchTerm, loading := None, [], [], true;
    }

    /**
     * The auth callback records the user, requests the full project list only when there is a
     * user, and ends the loading state either way.
     */
    method OnAuthStateChanged(u: Option<User>) returns (loadRequested: bool)
      modifies this`user, this`loading
      ensures user == u && !loading
      ensures loadRequested <==> u.Some?
    {
      user := u;
      loadRequested := u.Some?;
      loading := false;
    }

    /** The list request settles: its records replace the list; a thrown error is only logged. */
    method OnProjectsLoaded(result: Outcome<seq<ProjectRecord>>)
      modifies this`projects
      ensures projects == if result.Ok? then result.value else old(projects)
    {
      if result.Ok? {
        projects := result.value;
      }
    }

    method OnSearchChange(value: String)
      modifies this`searchTerm
      ensures searchTerm == value
    {
      searchTerm := value;
    }

    /** `filteredProjects`: the search filter over the loaded projects. */
    function FilteredProjects(): seq<ProjectRecord>
      reads this
    {
      Filter(projects, searchTerm)
    }

    /** The card under the search box: present exactly when the filter leaves nothing. */
    function EmptyCard(): (r: Option<EmptyView>)
      reads this
      ensures r.Some? <==> forall p :: p in projects ==> !Matches(p, searchTerm)
      ensures r.Some? ==> (r.value.heading == NoProjectsFound ==> searchTerm != [])
    {
      FilterEmptyTerm(projects);
      var shown := FilteredProjects();
      assert shown != [] ==> shown[0] in shown;
      forall p | p in projects
        ensures p in shown <==> Matches(p, searchTerm)
      {
        FilterMembership(projects, searchTerm, p);
      }
      EmptyState(projects, shown)
    }
  }
}
