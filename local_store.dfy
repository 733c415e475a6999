/**
 * The project array the chat and project-details pages read from browser storage under the
 * key `projects`, and the `find` by id both of them run on it.
 */
module LocalStore {
  import opened Wrappers
  import opened Text

  /** One parsed entry of the stored `projects` array. */
  datatype StoredProject = StoredProject(
    id: String,
    name: String,
    description: String,
    trackingFocus: String,
    scheduleFile: Option<String>,
    createdAt: String,
    status: String,
    contractorUpdates: int,
    lastUpdate: String,
    shareLink: String)

  /** `findIndex` by id: the first position holding that id, or nothing when no entry has it. */
  function FindIndex(projects: seq<StoredProject>, id: String): (r: Option<nat>)
    ensures r.Some? ==> r.value < |projects| && projects[r.value].id == id
    ensures r.Some? ==> forall j :: 0 <= j < r.value ==> projects[j].id != id
    ensures r.None? <==> forall j :: 0 <= j < |projects| ==> projects[j].id != id
  {
    if projects == [] then None
    else if projects[0].id == id then Some(0)
    else match FindIndex(projects[1..], id)
      case None => None
      case Some(k) => Some(k + 1)
  }

  /** `projects.find(p => p.id === id)`: the first stored project with that id, if any. */
  function FindById(projects: seq<StoredProject>, id: String): (r: Option<StoredProject>)
    ensures r.Some? ==> r.value in projects && r.value.id == id
    ensures r.Some? ==> exists k :: 0 <= k < |projects| && projects[k] == r.value &&
                                    forall j :: 0 <= j < k ==> projects[j].id != id
    ensures r.None? <==> forall p :: p in projects ==> p.id != id
  {
    match FindIndex(projects, id)
    case None => None
    case Some(k) => Some(projects[k])
  }

  /**
   * The load step both pages run: with a route id (a non-empty one) and a stored array, the first
   * entry carrying that id; otherwise nothing, which is the page's "not found" state.
   */
  function LoadStoredProject(routeId: Option<String>, saved: Option<seq<StoredProject>>): (r: Option<StoredProject>)
    ensures r.Some? ==> routeId.Some? && saved.Some? && r.value in saved.value && r.value.id == routeId.value
    ensures r.None? <==>
      routeId.None? || routeId.value == [] || saved.None? ||
      forall p :: p in saved.value ==> p.id != routeId.value
  {
    if routeId.Some? && routeId.value != [] && saved.Some? then FindById(saved.value, routeId.value)
    else None
  }
}
